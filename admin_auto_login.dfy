/** The consumer side of the cross-tab impersonation hand-off: the tab opened at
    `/admin-login?key=<k>` reads the one-time record under `k`, runs twelve
    checks in a fixed order, always consumes the key, and on success installs a
    tab-scoped session for the impersonated admin. */
module AdminAutoLogin {
  import opened Js
  import opened Strings
  import opened WebStorage
  import opened Jwt
  import opened AuthSlice
  import App

  /** How long a stored record stays acceptable, in milliseconds. */
  const MaxAgeMs: int := 15000

  /** Why the auto-login was refused, one value per check. */
  datatype Reason =
    | NoKey
    | KeyNotFound
    | RecordUnreadable(parseError: string)
    | KeyExpired
    | NoToken
    | BadTokenFormat
    | PayloadUndecodable(decodeError: string)
    | MissingFields
    | NotImpersonation
    | NotAdminRole
    | TokenExpired
    | NoImpersonationSource
    | AdminIdMismatch

  /** The message of the error each check throws (for `NoKey`, the text shown as is). */
  function Message(r: Reason): string {
    match r
    case NoKey => "Invalid access. No authentication key provided."
    case KeyNotFound => "Authentication key not found or expired"
    case RecordUnreadable(m) => m
    case KeyExpired => "Authentication key has expired"
    case NoToken => "Invalid authentication data"
    case BadTokenFormat => "Invalid token format"
    case PayloadUndecodable(m) => m
    case MissingFields => "Invalid token payload - missing required fields"
    case NotImpersonation => "Invalid token - not an impersonation token"
    case NotAdminRole => "Invalid token - can only impersonate admin accounts"
    case TokenExpired => "Token has expired"
    case NoImpersonationSource => "Invalid token - missing impersonation source"
    case AdminIdMismatch => "Token mismatch - admin ID does not match"
  }

  /** The error text the page shows: everything but a missing key goes through the catch block. */
  function ErrorText(r: Reason): (t: string)
    ensures r.NoKey? ==> t == Message(r)
    ensures !r.NoKey? ==> StartsWith(t, "Authentication failed: ")
                          && t[|"Authentication failed: "|..] == Message(r)
  {
    if r.NoKey? then Message(r) else "Authentication failed: " + Message(r)
  }

  /** The session installed for the impersonated admin. */
  datatype Session = Session(token: string, email: string, role: string, username: string)

  /** `now - timestamp > 15000` is false when the timestamp is missing (NaN compares false). */
  predicate TooOld(rec: Record, now: nat) {
    rec.timestamp.Some? && now - rec.timestamp.value > MaxAgeMs
  }

  /** `payload.exp && payload.exp < Math.floor(Date.now() / 1000)`. */
  predicate ExpiredAt(c: Claims, now: nat) {
    c.exp.Some? && c.exp.value != 0 && c.exp.value < now / 1000
  }

  /** The checks on the decoded claims, in source order (checks 7 to 12). */
  function ClaimsFailure(c: Claims, rec: Record, now: nat): Option<Reason> {
    if !Truthy(c.sub) || !Truthy(c.email) || !Truthy(c.role) then Some(MissingFields)
    else if !c.isImpersonation then Some(NotImpersonation)
    else if c.role != Some("admin") then Some(NotAdminRole)
    else if ExpiredAt(c, now) then Some(TokenExpired)
    else if !Truthy(c.impersonatedBy) then Some(NoImpersonationSource)
    else if c.sub != rec.adminId then Some(AdminIdMismatch)
    else None
  }

  /** Checks 2 to 12 on the item read under a supplied key, ending in the session. */
  function Validate(item: Option<StoredItem>, now: nat, decode: Decoder): (r: Result<Session, Reason>)
    ensures r != Err(NoKey)
    ensures r.Ok? ==> item.Some? && item.value.Item? && r.value.role == "admin"
    ensures r.Ok? ==> var rec := item.value.rec;
      rec.token == Some(r.value.token) && !TooOld(rec, now) && ThreeParts(r.value.token)
      && r.value.username == BeforeFirst(r.value.email, '@')
      && decode(PayloadSegment(r.value.token)).Payload?
      && var c := decode(PayloadSegment(r.value.token)).claims;
         c.email == Some(r.value.email) && c.role == Some("admin") && c.isImpersonation
         && Truthy(c.impersonatedBy) && c.sub.Some? && c.sub == rec.adminId && !ExpiredAt(c, now)
  {
    if !Present(item) then Err(KeyNotFound)
    else match item.value
      case Unparsable(_, e) => Err(RecordUnreadable(e))
      case Item(rec) =>
        if TooOld(rec, now) then Err(KeyExpired)
        else if !Truthy(rec.token) then Err(NoToken)
        else
          var token := rec.token.value;
          var parts := Split(token, '.');
          if |parts| != 3 then Err(BadTokenFormat)
          else match decode(parts[1])
            case Thrown(m) => Err(PayloadUndecodable(m))
            case Payload(c) =>
              match ClaimsFailure(c, rec, now)
              case Some(reason) => Err(reason)
              case None => Ok(Session(token, c.email.value, c.role.value, UserName(c.email.value)))
  }

  /** The whole check sequence for the `key` query parameter. */
  function Outcome(key: Option<string>, local: map<string, StoredItem>, now: nat, decode: Decoder): Result<Session, Reason> {
    if !Truthy(key) then Err(NoKey) else Validate(Lookup(local, key.value), now, decode)
  }

  // ----- An independent statement of the check order -----

  /** One check: whether it fails, and what it then reports. */
  datatype Check = Check(fails: bool, reason: Reason)

  /** The reason of the first failing check of a table, if any fails. */
  function FirstReason(checks: seq<Check>): (r: Option<Reason>)
    ensures r.None? <==> forall j :: 0 <= j < |checks| ==> !checks[j].fails
    ensures r.Some? ==> exists k :: 0 <= k < |checks| && checks[k] == Check(true, r.value)
                                    && forall j :: 0 <= j < k ==> !checks[j].fails
  {
    if checks == [] then None
    else if checks[0].fails then Some(checks[0].reason)
    else
      var r := FirstReason(checks[1..]);
      if r.Some? then
        ghost var k :| 0 <= k < |checks[1..]| && checks[1..][k] == Check(true, r.value)
                       && forall j :: 0 <= j < k ==> !checks[1..][j].fails;
        assert checks[k + 1] == Check(true, r.value);
        r
      else r
  }

  /** A table made of two parts fails in its first part if that part fails, and in the second otherwise. */
  lemma {:induction false} FirstReasonAppend(a: seq<Check>, b: seq<Check>)
    ensures FirstReason(a + b) == if FirstReason(a).Some? then FirstReason(a) else FirstReason(b)
  {
    if a != [] {
      assert (a + b)[1..] == a[1..] + b;
      FirstReasonAppend(a[1..], b);
    } else {
      assert a + b == b;
    }
  }

  const NoRecord := Record(None, None, None, None)
  const NoClaims := Claims(None, None, None, false, None, None)

  /** Checks 1 to 4 and the missing key: on the query parameter and the stored record. */
  function RecordChecks(key: Option<string>, item: Option<StoredItem>, rec: Record, now: nat): seq<Check> {
    [ Check(!Truthy(key), NoKey),
      Check(!Present(item), KeyNotFound),
      Check(item.Some? && item.value.Unparsable?, RecordUnreadable(if item.Some? && item.value.Unparsable? then item.value.parseError else "")),
      Check(TooOld(rec, now), KeyExpired),
      Check(!Truthy(rec.token), NoToken) ]
  }

  /** Checks 5 and 6: the token's shape and its payload segment. */
  function TokenChecks(token: string, decoded: Decoded): seq<Check> {
    [ Check(!ThreeParts(token), BadTokenFormat),
      Check(decoded.Thrown?, PayloadUndecodable(if decoded.Thrown? then decoded.message else "")) ]
  }

  /** Checks 7 to 12: the claims against the record. */
  function ClaimChecks(c: Claims, rec: Record, now: nat): seq<Check> {
    [ Check(!Truthy(c.sub) || !Truthy(c.email) || !Truthy(c.role), MissingFields),
      Check(!c.isImpersonation, NotImpersonation),
      Check(c.role != Some("admin"), NotAdminRole),
      Check(ExpiredAt(c, now), TokenExpired),
      Check(!Truthy(c.impersonatedBy), NoImpersonationSource),
      Check(c.sub != rec.adminId, AdminIdMismatch) ]
  }

  /** The consumer's checks as one table, the missing key first. A check whose
      input is unavailable because an earlier one failed is evaluated on empty
      placeholders; it is never the first failing one. */
  function Checks(key: Option<string>, local: map<string, StoredItem>, now: nat, decode: Decoder): (t: seq<Check>)
    ensures |t| == 13
  {
    var item := if Truthy(key) then Lookup(local, key.value) else None;
    var rec := if item.Some? && item.value.Item? then item.value.rec else NoRecord;
    var token := OrElse(rec.token, "");
    var decoded := if ThreeParts(token) then decode(PayloadSegment(token)) else Payload(NoClaims);
    var c := if decoded.Payload? then decoded.claims else NoClaims;
    RecordChecks(key, item, rec, now) + TokenChecks(token, decoded) + ClaimChecks(c, rec, now)
  }

  /** One step of `FirstReason`. */
  lemma FirstReasonStep(t: seq<Check>)
    requires t != []
    ensures FirstReason(t) == if t[0].fails then Some(t[0].reason) else FirstReason(t[1..])
  {
  }

  /** The record checks of the table agree with the validator's chain. */
  lemma RecordChecksAgree(key: Option<string>, item: Option<StoredItem>, rec: Record, now: nat)
    requires item.Some? && item.value.Item? ==> rec == item.value.rec
    ensures FirstReason(RecordChecks(key, item, rec, now)) ==
      if !Truthy(key) then Some(NoKey)
      else if !Present(item) then Some(KeyNotFound)
      else if item.value.Unparsable? then Some(RecordUnreadable(item.value.parseError))
      else if TooOld(rec, now) then Some(KeyExpired)
      else if !Truthy(rec.token) then Some(NoToken)
      else None
  {
    var t := RecordChecks(key, item, rec, now);
    FirstReasonStep(t);
    FirstReasonStep(t[1..]);
    FirstReasonStep(t[1..][1..]);
    FirstReasonStep(t[1..][1..][1..]);
    FirstReasonStep(t[1..][1..][1..][1..]);
    assert t[1..][1..][1..][1..][1..] == [];
  }

  /** The token checks of the table agree with the validator's chain. */
  lemma TokenChecksAgree(token: string, decoded: Decoded)
    ensures FirstReason(TokenChecks(token, decoded)) ==
      if !ThreeParts(token) then Some(BadTokenFormat)
      else if decoded.Thrown? then Some(PayloadUndecodable(decoded.message))
      else None
  {
    var t := TokenChecks(token, decoded);
    FirstReasonStep(t);
    FirstReasonStep(t[1..]);
    assert t[1..][1..] == [];
  }

  /** The claim checks of the table agree with the validator's chain. */
  lemma ClaimChecksAgree(c: Claims, rec: Record, now: nat)
    ensures FirstReason(ClaimChecks(c, rec, now)) == ClaimsFailure(c, rec, now)
  {
    var t := ClaimChecks(c, rec, now);
    FirstReasonStep(t);
    FirstReasonStep(t[1..]);
    FirstReasonStep(t[1..][1..]);
    FirstReasonStep(t[1..][1..][1..]);
    FirstReasonStep(t[1..][1..][1..][1..]);
    FirstReasonStep(t[1..][1..][1..][1..][1..]);
    assert t[1..][1..][1..][1..][1..][1..] == [];
  }

  /** The first failing check of the table is the one reported, and the login
      succeeds exactly when no check fails. */
  lemma OutcomeIsFirstFailure(key: Option<string>, local: map<string, StoredItem>, now: nat, decode: Decoder)
    ensures var r := FirstReason(Checks(key, local, now, decode));
      if r.Some? then Outcome(key, local, now, decode) == Err(r.value)
      else Outcome(key, local, now, decode).Ok?
  {
    var item := if Truthy(key) then Lookup(local, key.value) else None;
    var rec := if item.Some? && item.value.Item? then item.value.rec else NoRecord;
    var token := OrElse(rec.token, "");
    var decoded := if ThreeParts(token) then decode(PayloadSegment(token)) else Payload(NoClaims);
    var c := if decoded.Payload? then decoded.claims else NoClaims;
    var r1, r2, r3 := RecordChecks(key, item, rec, now), TokenChecks(token, decoded), ClaimChecks(c, rec, now);
    assert Checks(key, local, now, decode) == r1 + r2 + r3;
    FirstReasonAppend(r1 + r2, r3);
    FirstReasonAppend(r1, r2);
    RecordChecksAgree(key, item, rec, now);
    TokenChecksAgree(token, decoded);
    ClaimChecksAgree(c, rec, now);
    SplitCount(token);
  }

  /** `Split` has exactly three parts when there are two dots. */
  lemma SplitCount(token: string)
    ensures |Split(token, '.')| == 3 <==> ThreeParts(token)
  {
  }

  // ----- Properties of the checks -----

  /** A record is fresh up to and including 15000 ms of age, and a missing
      timestamp never makes it stale. */
  lemma FreshnessBoundary(rec: Record, stamp: int, now: nat)
    ensures !TooOld(rec.(timestamp := Some(stamp)), now) <==> now - stamp <= 15000
    ensures !TooOld(rec.(timestamp := None), now)
  {
  }

  /** `KeyExpired` is reported exactly for a readable record older than 15000 ms. */
  lemma KeyExpiredIff(item: Option<StoredItem>, now: nat, decode: Decoder)
    ensures Validate(item, now, decode) == Err(KeyExpired) <==>
      item.Some? && item.value.Item? && TooOld(item.value.rec, now)
  {
  }

  /** A token whose expiry is the current second, or that has no (or a zero)
      expiry, passes the expiry check. */
  lemma ExpiryBoundary(c: Claims, now: nat)
    ensures c.exp == Some(now / 1000) ==> !ExpiredAt(c, now)
    ensures c.exp == None || c.exp == Some(0) ==> !ExpiredAt(c, now)
    ensures c.exp.Some? && c.exp.value != 0 && c.exp.value < now / 1000 ==> ExpiredAt(c, now)
  {
  }

  /** A superadmin token can never be used to impersonate. */
  lemma SuperadminNeverImpersonated(key: Option<string>, local: map<string, StoredItem>, now: nat, decode: Decoder)
    requires Truthy(key) && key.value in local && local[key.value].Item?
    requires var tok := local[key.value].rec.token;
      tok.Some? && ThreeParts(tok.value) && decode(PayloadSegment(tok.value)).Payload?
      && decode(PayloadSegment(tok.value)).claims.role == Some("superadmin")
    ensures Outcome(key, local, now, decode).Err?
  {
  }

  /** An impersonated session passes the admin route guard and none of the superadmin ones. */
  lemma ImpersonatedSessionIsPlainAdmin(s: Session)
    requires s.role == "admin" && s.token != ""
    ensures App.PrivateRoute(Some(s.token), Some(s.role)) == App.Render
    ensures App.SuperAdminRoute(Some(s.token), Some(s.role)) == App.Redirect("/")
    ensures App.RoleBasedPage(Some(s.role)) == App.AdminPage
  {
  }

  /** What the page ends with: the error text (empty on success) and where it redirects. */
  datatype Landing = Landing(error: string, target: string)

  /** The effect of the page: consume the key, then install the session or clear the token cookie. */
  method AutoLogin(key: Option<string>, now: nat, decode: Decoder, browser: Browser, auth: AuthState)
    returns (result: Result<Session, Reason>, landing: Landing)
    requires auth.Valid()
    modifies browser, auth
    ensures auth.Valid()
    ensures result == Outcome(key, old(browser.local), now, decode)
    ensures !Truthy(key) ==> browser.local == old(browser.local) && browser.cookies == old(browser.cookies)
    ensures Truthy(key) ==> browser.local == old(browser.local) - {key.value}
    ensures result.Ok? ==>
      browser.sessionToken == Some(result.value.token)
      && browser.sessionUser == Some(UserJson(Some(result.value.email), Some(result.value.role), Some(result.value.username)))
      && browser.cookies == old(browser.cookies)
      && auth.token == Some(result.value.token) && auth.username == Some(result.value.username)
      && auth.role == Some(result.value.role)
      && landing == Landing("", "/")
    ensures result.Err? ==>
      browser.sessionToken == old(browser.sessionToken) && browser.sessionUser == old(browser.sessionUser)
      && auth.token == old(auth.token) && auth.username == old(auth.username) && auth.role == old(auth.role)
      && landing == Landing(ErrorText(result.error), "/login")
    ensures result.Err? && Truthy(key) ==> browser.cookies == Expire(old(browser.cookies), "token")
  {
    result := Outcome(key, browser.local, now, decode);
    if !Truthy(key) {
      landing := Landing(ErrorText(NoKey), "/login");
      return;
    }
    browser.RemoveLocal(key.value);
    match result
    case Ok(s) =>
      browser.SetSession(s.token, UserJson(Some(s.email), Some(s.role), Some(s.username)));
      auth.SetAuth(AuthPayload(Some(s.token), Some(s.username), Some(s.role)));
      landing := Landing("", "/");
    case Err(reason) =>
      browser.ClearAuthCookie();
      browser.RemoveLocal(key.value);
      landing := Landing(ErrorText(reason), "/login");
  }
}
