/** The superadmin's Sellers page: the create/edit form of an admin account and
    the producer side of the impersonation hand-off ("View Dashboard"). */
module AdminsPage {
  import opened Js
  import opened Strings
  import opened WebStorage
  import opened Jwt
  import AdminAutoLogin

  /** An admin account as listed by the backend. */
  datatype Admin = Admin(id: string, name: string, email: string, role: string, status: string)

  /** The dialog's form fields. */
  datatype AdminForm = AdminForm(name: string, email: string, password: string, role: string, status: string)

  /** The form as it stands when the page opens and after every successful save. */
  const BlankForm := AdminForm("", "", "", "admin", "active")

  /** The body sent to the backend; `password: None` means the key was deleted from it. */
  datatype AdminPayload = AdminPayload(name: string, email: string, password: Option<string>, role: string, status: string)

  datatype SaveRequest = Create(body: AdminPayload) | Update(id: string, body: AdminPayload)

  /** The request `handleSubmit` sends: the form with its role forced to 'admin';
      an update leaves out an empty password. */
  function SubmitRequest(form: AdminForm, editing: Option<Admin>): (req: SaveRequest)
    ensures req.body.role == "admin"
    ensures req.body.name == form.name && req.body.email == form.email && req.body.status == form.status
    ensures req.Create? <==> editing.None?
    ensures req.Update? ==> req.id == editing.value.id
    ensures req.Create? ==> req.body.password == Some(form.password)
    ensures req.Update? ==> req.body.password == (if form.password == "" then None else Some(form.password))
  {
    var submit := AdminPayload(form.name, form.email, Some(form.password), "admin", form.status);
    match editing
    case Some(a) => Update(a.id, if form.password == "" then submit.(password := None) else submit)
    case None => Create(submit)
  }

  /** No form, whatever role it holds, can make the page request a superadmin. */
  lemma NoSuperadminFromTheForm(form: AdminForm, editing: Option<Admin>)
    ensures SubmitRequest(form, editing).body.role != "superadmin"
  {
  }

  /** The storage key of a hand-off started at `now`: `impersonate_${Date.now()}`. */
  function StorageKey(now: nat): (k: string)
    ensures StartsWith(k, "impersonate_")
  {
    "impersonate_" + NatToString(now)
  }

  /** Hand-offs started at different milliseconds use different keys. */
  lemma StorageKeyInjective(a: nat, b: nat)
    requires StorageKey(a) == StorageKey(b)
    ensures a == b
  {
    var p := "impersonate_";
    assert NatToString(a) == StorageKey(a)[|p|..];
    assert NatToString(b) == StorageKey(b)[|p|..];
    NatToStringInjective(a, b);
  }

  /** The URL of the new tab: the storage key is the only thing it carries. */
  function LaunchUrl(origin: string, key: string): (url: string)
    ensures StartsWith(url, origin + "/admin-login?key=")
    ensures url[|origin + "/admin-login?key="|..] == key
  {
    origin + "/admin-login?key=" + key
  }

  /** The record written for the consumer tab. */
  function HandOffRecord(token: Option<string>, admin: Admin, now: nat): (r: Record)
    ensures r.token == token && r.adminId == Some(admin.id) && r.adminName == Some(admin.name)
    ensures r.timestamp == Some(now)
  {
    Record(token, Some(admin.id), Some(admin.name), Some(now))
  }

  /** The result of "View Dashboard": the token request failed (only an alert),
      the popup was blocked, or the tab was opened and the key's clean-up
      was scheduled for `cleanupAt`. */
  datatype Launch = ServiceFailed | PopupBlocked(key: string) | Opened(url: string, key: string, cleanupAt: int)

  /** The handler's cleanup delay, in milliseconds. */
  const CleanupDelayMs: int := 15000

  /** The producer's clean-up window is exactly the consumer's acceptance window. */
  lemma CleanupMatchesAcceptance()
    ensures CleanupDelayMs == AdminAutoLogin.MaxAgeMs
  {
  }

  /** A record written at `now` and read back no later than the scheduled
      clean-up is never refused as too old. */
  lemma HandOffFreshUntilCleanup(token: Option<string>, admin: Admin, now: nat, readAt: nat)
    requires now <= readAt <= now + CleanupDelayMs
    ensures !AdminAutoLogin.TooOld(HandOffRecord(token, admin, now), readAt)
  {
  }

  /** A record written at `now` and read back later than 15000 ms is refused. */
  lemma HandOffStaleAfterWindow(token: Option<string>, admin: Admin, now: nat, readAt: nat, decode: Decoder)
    requires readAt > now + CleanupDelayMs
    ensures AdminAutoLogin.Validate(Some(Item(HandOffRecord(token, admin, now))), readAt, decode)
      == Err(AdminAutoLogin.KeyExpired)
  {
  }

  /** A genuine impersonation token for `admin`, handed off at `now` and read
      within the window, logs the new tab in as that admin. */
  lemma HandOffSucceeds(token: string, admin: Admin, now: nat, readAt: nat, decode: Decoder)
    requires now <= readAt <= now + CleanupDelayMs
    requires ThreeParts(token) && decode(PayloadSegment(token)).Payload?
    requires var c := decode(PayloadSegment(token)).claims;
      c.sub == Some(admin.id) && admin.id != "" && Truthy(c.email) && c.role == Some("admin")
      && c.isImpersonation && Truthy(c.impersonatedBy) && !AdminAutoLogin.ExpiredAt(c, readAt)
    ensures var r := AdminAutoLogin.Validate(Some(Item(HandOffRecord(Some(token), admin, now))), readAt, decode);
      r.Ok? && r.value.token == token && r.value.role == "admin"
  {
    AdminAutoLogin.SplitCount(token);
    assert token != "";
  }

  /** The state of the Sellers page that the handlers change. */
  class AdminsPageState {
    var form: AdminForm
    var editing: Option<Admin>
    var dialogOpen: bool

    constructor ()
      ensures form == BlankForm && editing.None? && !dialogOpen
    {
      form := BlankForm;
      editing := None;
      dialogOpen := false;
    }

    /** `handleEdit(admin)`: the admin's fields preloaded, the password blank, the dialog open. */
    method Edit(admin: Admin)
      modifies this
      ensures editing == Some(admin) && dialogOpen
      ensures form == AdminForm(admin.name, admin.email, "", admin.role, admin.status)
    {
      editing := Some(admin);
      form := AdminForm(admin.name, admin.email, "", admin.role, admin.status);
      dialogOpen := true;
    }

    /** `handleSubmit`: the request is built from the current form; after a
        successful save the dialog closes and the form resets, after a failed
        one nothing changes. */
    method Submit(saved: bool) returns (req: SaveRequest)
      modifies this
      ensures req == SubmitRequest(old(form), old(editing))
      ensures saved ==> !dialogOpen && editing.None? && form == BlankForm
      ensures !saved ==> dialogOpen == old(dialogOpen) && editing == old(editing) && form == old(form)
    {
      req := SubmitRequest(form, editing);
      if saved {
        dialogOpen := false;
        editing := None;
        form := BlankForm;
      }
    }

    /** `handleViewDashboard(admin)`: `token` is the backend's answer (`None`
        when the call failed), `popupOpened` whether `window.open` produced a
        live tab, `now` the clock and `origin` the page's origin. */
    method ViewDashboard(admin: Admin, token: Result<Option<string>, string>, popupOpened: bool,
                         now: nat, origin: string, browser: Browser) returns (launch: Launch)
      modifies browser`local
      ensures token.Err? ==> launch == ServiceFailed && browser.local == old(browser.local)
      ensures token.Ok? && !popupOpened ==>
        launch == PopupBlocked(StorageKey(now)) && browser.local == old(browser.local) - {StorageKey(now)}
      ensures token.Ok? && popupOpened ==>
        launch == Opened(LaunchUrl(origin, StorageKey(now)), StorageKey(now), now + CleanupDelayMs)
        && browser.local == old(browser.local)[StorageKey(now) := Item(HandOffRecord(token.value, admin, now))]
    {
      if token.Err? {
        return ServiceFailed;
      }
      var key := StorageKey(now);
      browser.SetLocal(key, HandOffRecord(token.value, admin, now));
      if !popupOpened {
        browser.RemoveLocal(key);
        return PopupBlocked(key);
      }
      launch := Opened(LaunchUrl(origin, key), key, now + CleanupDelayMs);
    }
  }
}
