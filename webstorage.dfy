/** The browser storage the impersonation hand-off runs through, as plain values:
    `localStorage` (shared by the tabs of one origin), the tab-scoped
    `sessionStorage` entries of an impersonated session, and the cookie jar. */
module WebStorage {
  import opened Js

  /** The JSON object written under an impersonation key: `{token, adminId, adminName, timestamp}`. */
  datatype Record = Record(
    token: Option<string>,
    adminId: Option<string>,
    adminName: Option<string>,
    timestamp: Option<int>)

  /** What `localStorage.getItem(key)` holds: the JSON text of a record, or a
      text on which `JSON.parse` (or the destructuring after it) throws with
      `parseError`. An empty text is falsy and reads as "not found". */
  datatype StoredItem = Item(rec: Record) | Unparsable(text: string, parseError: string)

  /** The JSON text under `impersonated_user`: an object with optional fields,
      or a text that does not parse (`Garbled`; an empty one is falsy). */
  datatype UserEntry =
    | UserJson(email: Option<string>, role: Option<string>, username: Option<string>)
    | Garbled(text: string)

  /** One `name=value` pair of `document.cookie`, in jar order. */
  datatype Cookie = Cookie(name: string, value: string)

  /** `!!localStorage.getItem(key)`. */
  predicate Present(item: Option<StoredItem>) {
    item.Some? && !(item.value.Unparsable? && item.value.text == "")
  }

  /** `!!sessionStorage.getItem('impersonated_user')`. */
  predicate UserPresent(u: Option<UserEntry>) {
    u.Some? && !(u.value.Garbled? && u.value.text == "")
  }

  function Lookup(local: map<string, StoredItem>, key: string): Option<StoredItem> {
    if key in local then Some(local[key]) else None
  }

  /** Cookies that survive `document.cookie = '<name>=; path=/; max-age=0'`. */
  function Expire(jar: seq<Cookie>, name: string): (r: seq<Cookie>)
    ensures forall i :: 0 <= i < |r| ==> r[i].name != name && r[i] in jar
    ensures forall c :: c in jar && c.name != name ==> c in r
  {
    if jar == [] then []
    else if jar[0].name == name then Expire(jar[1..], name)
    else [jar[0]] + Expire(jar[1..], name)
  }

  /** The storage of one browser tab. */
  class Browser {
    var local: map<string, StoredItem>
    var sessionToken: Option<string>
    var sessionUser: Option<UserEntry>
    var cookies: seq<Cookie>

    constructor (local0: map<string, StoredItem>, jar: seq<Cookie>)
      ensures local == local0 && cookies == jar
      ensures sessionToken.None? && sessionUser.None?
    {
      local := local0;
      cookies := jar;
      sessionToken := None;
      sessionUser := None;
    }

    /** `localStorage.setItem(key, JSON.stringify(rec))`. */
    method SetLocal(key: string, rec: Record)
      modifies this`local
      ensures local == old(local)[key := Item(rec)]
    {
      local := local[key := Item(rec)];
    }

    /** `localStorage.removeItem(key)`. */
    method RemoveLocal(key: string)
      modifies this`local
      ensures local == old(local) - {key}
    {
      local := local - {key};
    }

    /** `sessionStorage.setItem('impersonated_token', …)` and `('impersonated_user', …)`. */
    method SetSession(token: string, user: UserEntry)
      modifies this`sessionToken, this`sessionUser
      ensures sessionToken == Some(token) && sessionUser == Some(user)
    {
      sessionToken := Some(token);
      sessionUser := Some(user);
    }

    /** `clearAuthCookie()`: the `token` cookie is expired, the others stay. */
    method ClearAuthCookie()
      modifies this`cookies
      ensures cookies == Expire(old(cookies), "token")
    {
      cookies := Expire(cookies, "token");
    }
  }
}
