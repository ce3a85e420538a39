/** The superadmin's view of one admin's panel: the drawer's highlighting
    rule on paths relative to `/admin-view/<adminId>`, the avatar letter and
    the lookup of the viewed admin in the admins list. */
module AdminViewPage {
  import opened Js
  import opened Strings
  import AdminsPage
  import MainLayout

  datatype ViewItem = ViewItem(caption: string, path: string)

  /** The drawer's items; their paths are relative and the dashboard's is empty. */
  const ViewItems: seq<ViewItem> := [
    ViewItem("Dashboard", ""),
    ViewItem("Products", "products"),
    ViewItem("Orders", "orders"),
    ViewItem("Analytics", "analytics")]

  function Base(adminId: string): string { "/admin-view/" + adminId }

  /** `location.pathname.replace('/admin-view/<adminId>', '')`: only the first occurrence goes. */
  function RelativePath(pathname: string, adminId: string): string {
    ReplaceFirst(pathname, Base(adminId), "")
  }

  /** `isActive(path)`: the dashboard for '' or '/'; otherwise the relative path starts with '/' + path. */
  function IsActive(path: string, pathname: string, adminId: string): (active: bool)
    ensures path != "" ==> (active <==> StartsWith(RelativePath(pathname, adminId), "/" + path))
    ensures path == "" ==> (active <==> (RelativePath(pathname, adminId) == "" || StartsWith(RelativePath(pathname, adminId), "/")))
  {
    var current := RelativePath(pathname, adminId);
    if path == "" && (current == "" || current == "/") then true
    else StartsWith(current, "/" + path)
  }

  /** The location a click on an item navigates to. */
  function ItemLocation(adminId: string, item: ViewItem): string {
    Base(adminId) + "/" + item.path
  }

  /** Removing a leading pattern leaves the rest of the string. */
  lemma ReplaceLeading(pattern: string, rest: string)
    ensures ReplaceFirst(pattern + rest, pattern, "") == rest
  {
    assert (pattern + rest)[..|pattern|] == pattern;
    assert (pattern + rest)[|pattern|..] == rest;
  }

  /** After a click on item `k`, the relative path is '/' followed by the item's path. */
  lemma ClickedLocationIsRelative(adminId: string, k: nat)
    requires k < |ViewItems|
    ensures RelativePath(ItemLocation(adminId, ViewItems[k]), adminId) == "/" + ViewItems[k].path
  {
    assert ItemLocation(adminId, ViewItems[k]) == Base(adminId) + ("/" + ViewItems[k].path);
    ReplaceLeading(Base(adminId), "/" + ViewItems[k].path);
  }

  /** The clicked item is highlighted, and so is the dashboard: its rule
      falls through to `startsWith('/')`, which every such location meets. */
  lemma ClickHighlightsItemAndDashboard(adminId: string, k: nat)
    requires k < |ViewItems|
    ensures IsActive(ViewItems[k].path, ItemLocation(adminId, ViewItems[k]), adminId)
    ensures IsActive("", ItemLocation(adminId, ViewItems[k]), adminId)
  {
    ClickedLocationIsRelative(adminId, k);
    var rel := "/" + ViewItems[k].path;
    assert rel[..|"/" + ViewItems[k].path|] == "/" + ViewItems[k].path;
    assert rel[..1] == "/";
  }

  /** Away from the dashboard the other items are told apart: on the orders
      page neither products nor analytics is highlighted. */
  lemma OrdersPageHighlightsOnlyOrdersBesideDashboard(adminId: string)
    ensures !IsActive("products", ItemLocation(adminId, ViewItems[2]), adminId)
    ensures !IsActive("analytics", ItemLocation(adminId, ViewItems[2]), adminId)
    ensures IsActive("orders", ItemLocation(adminId, ViewItems[2]), adminId)
  {
    ClickedLocationIsRelative(adminId, 2);
    var rel := "/orders";
    assert rel[1] != "/products"[1];
    assert rel[1] != "/analytics"[1];
    assert rel[..|"/orders"|] == "/orders";
  }

  /** `getInitials(adminInfo?.name)`: the layout's avatar letter rule. */
  function AvatarLetter(adminInfo: Option<AdminsPage.Admin>): (r: string)
    ensures adminInfo.None? ==> r == "A"
    ensures adminInfo.Some? && adminInfo.value.name != "" ==> r == [UpperChar(adminInfo.value.name[0])]
    ensures adminInfo.Some? && adminInfo.value.name == "" ==> r == "A"
    ensures |r| == 1
  {
    MainLayout.AvatarLetter(if adminInfo.Some? then Some(adminInfo.value.name) else None)
  }

  /** What `getAdmins()` resolves to: an object with an `admins` field that
      may be missing, or the list itself. */
  datatype AdminsData = Envelope(admins: Option<seq<AdminsPage.Admin>>) | List(items: seq<AdminsPage.Admin>)

  /** `admins.find(a => a._id === adminId)`: the first admin with that id. */
  function FindAdmin(admins: seq<AdminsPage.Admin>, adminId: string): (found: Option<AdminsPage.Admin>)
    ensures found.Some? ==> found.value in admins && found.value.id == adminId
    ensures found.None? <==> forall i :: 0 <= i < |admins| ==> admins[i].id != adminId
    ensures found.Some? ==>
      exists k :: (0 <= k < |admins| && admins[k] == found.value &&
                   forall i :: 0 <= i < k ==> admins[i].id != adminId)
    decreases |admins|
  {
    if admins == [] then None
    else if admins[0].id == adminId then Some(admins[0])
    else
      var rest := FindAdmin(admins[1..], adminId);
      if rest.Some? then
        var k :| 0 <= k < |admins[1..]| && admins[1..][k] == rest.value &&
          forall i :: 0 <= i < k ==> admins[1..][i].id != adminId;
        assert admins[k + 1] == rest.value;
        assert forall i :: 0 <= i < k + 1 ==> admins[i].id != adminId by {
          forall i | 0 <= i < k + 1
            ensures admins[i].id != adminId
          {
            if i > 0 { assert admins[i] == admins[1..][i - 1]; }
          }
        }
        rest
      else rest
  }

  /** The page's state: the spinner, the admin shown and the error text. */
  datatype ViewState = ViewState(loading: bool, adminInfo: Option<AdminsPage.Admin>, error: string)

  const InitialView := ViewState(true, None, "")

  /** `fetchAdminInfo` once `getAdmins()` has settled, run only for a truthy
      `adminId`: `adminsData.admins || adminsData`, then the lookup. An envelope
      without `admins` has no `find` and fails like the request itself. */
  function FetchAdminInfo(adminId: string, data: Result<AdminsData, string>): (v: ViewState)
    ensures adminId == "" ==> v == InitialView
    ensures adminId != "" ==> !v.loading
    ensures adminId != "" && data.Err? ==> v == ViewState(false, None, "Failed to load admin data")
    ensures adminId != "" && data.Ok? && data.value.Envelope? && data.value.admins.None? ==>
      v == ViewState(false, None, "Failed to load admin data")
    ensures v.adminInfo.Some? ==> v.adminInfo.value.id == adminId && v.error == ""
    ensures v.error == "Admin not found" <==>
      (adminId != "" && data.Ok? && ListOf(data.value).Some? &&
       forall i :: 0 <= i < |ListOf(data.value).value| ==> ListOf(data.value).value[i].id != adminId)
  {
    if adminId == "" then InitialView
    else if data.Err? then ViewState(false, None, "Failed to load admin data")
    else
      var list := ListOf(data.value);
      if list.None? then ViewState(false, None, "Failed to load admin data")
      else
        var found := FindAdmin(list.value, adminId);
        if found.None? then ViewState(false, None, "Admin not found")
        else ViewState(false, found, "")
  }

  /** The array `find` runs on, or `None` when there is none. */
  function ListOf(data: AdminsData): (list: Option<seq<AdminsPage.Admin>>)
    ensures data.List? ==> list == Some(data.items)
    ensures data.Envelope? ==> list == data.admins
  {
    match data
    case Envelope(admins) => admins
    case List(items) => Some(items)
  }

  /** A listed id loads that admin, whether the list came bare or wrapped. */
  lemma ListedAdminLoads(admins: seq<AdminsPage.Admin>, k: nat, wrapped: bool)
    requires k < |admins| && admins[k].id != ""
    ensures var data := if wrapped then Envelope(Some(admins)) else List(admins);
      var v := FetchAdminInfo(admins[k].id, Ok(data));
      v.adminInfo.Some? && v.adminInfo.value.id == admins[k].id && !v.loading && v.error == ""
  {
    var data := if wrapped then Envelope(Some(admins)) else List(admins);
    assert ListOf(data) == Some(admins);
    assert FindAdmin(admins, admins[k].id).Some?;
  }
}
