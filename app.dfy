/** The routing shell of the dashboard: reading the auth cookie, decoding a
    token without verifying it, the two route guards, the role-based page
    choice, and the effect that loads the signed-in session when the app starts. */
module App {
  import opened Js
  import opened Strings
  import opened WebStorage
  import opened Jwt
  import opened AuthSlice

  /** `getCookie(name)`: the value of the first cookie called exactly `name`
      whose value is non-empty; null when there is none. */
  function GetCookie(jar: seq<Cookie>, name: string): (v: Option<string>)
    ensures v.Some? ==> v.value != ""
    ensures v.Some? ==> exists i :: 0 <= i < |jar| && jar[i] == Cookie(name, v.value)
                          && forall j :: 0 <= j < i ==> jar[j].name == name ==> jar[j].value == ""
    ensures v.None? <==> forall i :: 0 <= i < |jar| ==> jar[i].name == name ==> jar[i].value == ""
  {
    if jar == [] then None
    else if jar[0].name == name && jar[0].value != "" then Some(jar[0].value)
    else
      var v := GetCookie(jar[1..], name);
      if v.Some? then
        ghost var i :| 0 <= i < |jar[1..]| && jar[1..][i] == Cookie(name, v.value)
                       && forall j :: 0 <= j < i ==> jar[1..][j].name == name ==> jar[1..][j].value == "";
        assert jar[i + 1] == Cookie(name, v.value);
        v
      else v
  }

  /** After `clearAuthCookie()` the token cookie reads as absent. */
  lemma ClearedCookieIsAbsent(jar: seq<Cookie>)
    ensures GetCookie(Expire(jar, "token"), "token").None?
  {
  }

  /** `decodeJWT(token)`: the claims when the token has three parts and the
      middle one decodes, null otherwise (the exception is swallowed). */
  function DecodeJWT(token: string, decode: Decoder): (r: Option<Claims>)
    ensures r.Some? <==> ThreeParts(token) && decode(PayloadSegment(token)).Payload?
    ensures r.Some? ==> decode(PayloadSegment(token)) == Payload(r.value)
  {
    var parts := Split(token, '.');
    if |parts| != 3 then None
    else match decode(parts[1])
      case Payload(c) => Some(c)
      case Thrown(_) => None
  }

  /** Where a guarded route sends the user. */
  datatype Route = Render | Redirect(to: string)

  predicate AdminRole(role: Option<string>) {
    role == Some("admin") || role == Some("superadmin")
  }

  /** `PrivateRoute`: renders for a signed-in admin or superadmin, sends everyone else to /login. */
  function PrivateRoute(token: Option<string>, role: Option<string>): (r: Route)
    ensures r == Render <==> Truthy(token) && AdminRole(role)
    ensures r != Render ==> r == Redirect("/login")
  {
    if !Truthy(token) then Redirect("/login")
    else if !AdminRole(role) then Redirect("/login")
    else Render
  }

  /** `SuperAdminRoute`: no token goes to /login, any role but superadmin goes to /. */
  function SuperAdminRoute(token: Option<string>, role: Option<string>): (r: Route)
    ensures r == Render <==> Truthy(token) && role == Some("superadmin")
    ensures !Truthy(token) ==> r == Redirect("/login")
    ensures Truthy(token) && role != Some("superadmin") ==> r == Redirect("/")
  {
    if !Truthy(token) then Redirect("/login")
    else if role != Some("superadmin") then Redirect("/")
    else Render
  }

  /** Whatever `SuperAdminRoute` lets through, `PrivateRoute` lets through too. */
  lemma SuperAdminRouteNarrower(token: Option<string>, role: Option<string>)
    ensures SuperAdminRoute(token, role) == Render ==> PrivateRoute(token, role) == Render
  {
  }

  datatype Page = AdminPage | SuperAdminPage

  /** `RoleBasedPage`: the superadmin page exactly for the superadmin role. */
  function RoleBasedPage(role: Option<string>): (p: Page)
    ensures p == SuperAdminPage <==> role == Some("superadmin")
  {
    if role == Some("superadmin") then SuperAdminPage else AdminPage
  }

  /** What the start-up effect dispatches. */
  datatype SyncAction = Apply(payload: AuthPayload) | DoLogout | NoChange

  /** The stored impersonated session is tried first: both entries truthy. */
  predicate SessionStored(sessionToken: Option<string>, sessionUser: Option<UserEntry>) {
    Truthy(sessionToken) && UserPresent(sessionUser)
  }

  /** ... and is used when the user entry parses. */
  predicate SessionUsable(sessionToken: Option<string>, sessionUser: Option<UserEntry>) {
    SessionStored(sessionToken, sessionUser) && sessionUser.value.UserJson?
  }

  /** A cookie token that the store does not hold yet. */
  predicate CookieDiffers(cookie: Option<string>, reduxToken: Option<string>) {
    cookie.Some? && cookie != reduxToken
  }

  /** A cookie token that the store does not hold yet and whose payload
      carries a truthy email and role: the effect signs in with it. */
  predicate CookieUsable(cookie: Option<string>, reduxToken: Option<string>, decode: Decoder) {
    CookieDiffers(cookie, reduxToken)
    && var p := DecodeJWT(cookie.value, decode);
       p.Some? && Truthy(p.value.email) && Truthy(p.value.role)
  }

  /** The decision of the auth-sync effect in `AppContent`. */
  function SyncDecision(sessionToken: Option<string>, sessionUser: Option<UserEntry>,
                        jar: seq<Cookie>, reduxToken: Option<string>, decode: Decoder): (r: SyncAction)
    ensures SessionUsable(sessionToken, sessionUser) ==>
      r == Apply(AuthPayload(sessionToken, sessionUser.value.username, sessionUser.value.role))
    ensures r.DoLogout? <==>
      Truthy(reduxToken) && !Truthy(sessionToken) && GetCookie(jar, "token").None?
    ensures r.Apply? && !SessionUsable(sessionToken, sessionUser) ==>
      var c := GetCookie(jar, "token");
      CookieDiffers(c, reduxToken) && r.payload.token == c
      && r.payload.username.Some? && '@' !in r.payload.username.value
    ensures !SessionUsable(sessionToken, sessionUser) && CookieUsable(GetCookie(jar, "token"), reduxToken, decode) ==>
      var c := GetCookie(jar, "token");
      var claims := DecodeJWT(c.value, decode).value;
      r == Apply(AuthPayload(c, Some(BeforeFirst(claims.email.value, '@')), claims.role))
    ensures (!SessionUsable(sessionToken, sessionUser) && !CookieUsable(GetCookie(jar, "token"), reduxToken, decode)
      && !r.DoLogout?) ==> r == NoChange
  {
    if SessionStored(sessionToken, sessionUser) && sessionUser.value.UserJson? then
      var u := sessionUser.value;
      Apply(AuthPayload(sessionToken, u.username, u.role))
    else
      var cookieToken := GetCookie(jar, "token");
      if cookieToken.Some? && cookieToken != reduxToken then
        match DecodeJWT(cookieToken.value, decode)
        case Some(c) =>
          if Truthy(c.email) && Truthy(c.role) then
            Apply(AuthPayload(cookieToken, Some(UserName(c.email.value)), c.role))
          else NoChange
        case None => NoChange
      else if Truthy(reduxToken) && !Truthy(sessionToken) && cookieToken.None? then DoLogout
      else NoChange
  }

  /** A stored session whose user entry does not parse falls through to the
      cookie, but it never logs out: its token is still there. */
  lemma GarbledSessionNeverLogsOut(sessionToken: Option<string>, text: string,
                                   jar: seq<Cookie>, reduxToken: Option<string>, decode: Decoder)
    requires Truthy(sessionToken)
    ensures SyncDecision(sessionToken, Some(Garbled(text)), jar, reduxToken, decode) != DoLogout
  {
  }

  /** A cookie equal to the token already in the store changes nothing. */
  lemma SameCookieNoChange(jar: seq<Cookie>, reduxToken: Option<string>, decode: Decoder)
    requires GetCookie(jar, "token") == reduxToken && reduxToken.Some?
    ensures SyncDecision(None, None, jar, reduxToken, decode) == NoChange
  {
  }

  /** The auth-sync effect, run against the tab's storage and the store. */
  method SyncAuth(browser: Browser, auth: AuthState, decode: Decoder) returns (action: SyncAction)
    requires auth.Valid()
    modifies auth
    ensures auth.Valid()
    ensures action == SyncDecision(browser.sessionToken, browser.sessionUser, browser.cookies, old(auth.token), decode)
    ensures action.Apply? ==> auth.token == action.payload.token && auth.username == action.payload.username
                              && auth.role == (if Truthy(action.payload.role) then action.payload.role else None)
    ensures action.DoLogout? ==> auth.IsInitial()
    ensures action.NoChange? ==> auth.token == old(auth.token) && auth.username == old(auth.username)
                                 && auth.role == old(auth.role)
  {
    action := SyncDecision(browser.sessionToken, browser.sessionUser, browser.cookies, auth.token, decode);
    match action
    case Apply(p) => auth.SetAuth(p);
    case DoLogout => auth.Logout();
    case NoChange =>
  }
}
