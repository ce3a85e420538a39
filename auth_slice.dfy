/** The `auth` slice of the Redux store: the signed-in token, user name and role. */
module AuthSlice {
  import opened Js

  /** The payload of `setAuth`. */
  datatype AuthPayload = AuthPayload(token: Option<string>, username: Option<string>, role: Option<string>)

  class AuthState {
    var token: Option<string>
    var username: Option<string>
    var role: Option<string>

    /** `role` is never the empty string: `setAuth` stores a falsy role as null. */
    ghost predicate Valid()
      reads this
    {
      role != Some("")
    }

    /** The `initialState` of the slice: all three fields null. */
    predicate IsInitial()
      reads this
    {
      token.None? && username.None? && role.None?
    }

    constructor ()
      ensures Valid() && IsInitial()
    {
      token, username, role := None, None, None;
    }

    /** `setAuth(payload)`: token and username copied, a falsy role stored as null. */
    method SetAuth(p: AuthPayload)
      modifies this
      ensures Valid()
      ensures token == p.token && username == p.username
      ensures role == (if Truthy(p.role) then p.role else None)
    {
      token := p.token;
      username := p.username;
      role := OrOpt(p.role, None);
    }

    /** `logout()`: back to `initialState`, whatever the state was, so it is idempotent. */
    method Logout()
      modifies this
      ensures Valid() && IsInitial()
    {
      token, username, role := None, None, None;
    }
  }
}
