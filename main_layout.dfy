/** The admin panel's shell: the side menu with its role-gated section and
    exact-path highlighting, the account menu's labels and avatar letter,
    and the logout action. */
module MainLayout {
  import opened Js
  import opened Strings
  import WebStorage
  import AuthSlice

  datatype MenuItem = MenuItem(caption: string, path: string)

  /** The menu every signed-in admin sees. */
  const MenuItems: seq<MenuItem> := [
    MenuItem("Dashboard", "/dashboard"),
    MenuItem("Products", "/dashboard/products"),
    MenuItem("Orders", "/dashboard/orders"),
    MenuItem("Returns", "/dashboard/returns"),
    MenuItem("Analytics", "/dashboard/analytics")]

  /** The "Management" section, shown to the superadmin only. */
  const SuperAdminItems: seq<MenuItem> := [
    MenuItem("Sellers", "/dashboard/admins"),
    MenuItem("Customers", "/dashboard/customers")]

  predicate IsSuperAdmin(role: Option<string>) { role == Some("superadmin") }

  /** The items rendered in the drawer, in order. */
  function VisibleMenu(role: Option<string>): (menu: seq<MenuItem>)
    ensures IsSuperAdmin(role) ==> menu == MenuItems + SuperAdminItems
    ensures !IsSuperAdmin(role) ==> menu == MenuItems
    ensures |MenuItems| <= |menu| && menu[..|MenuItems|] == MenuItems
    ensures forall i :: 0 <= i < |menu| ==> menu[i] in MenuItems || menu[i] in SuperAdminItems
  {
    MenuItems + (if IsSuperAdmin(role) then SuperAdminItems else [])
  }

  /** An item is highlighted only when the location is exactly its path. */
  predicate IsActive(item: MenuItem, pathname: string) { pathname == item.path }

  /** Any two positions of the superadmin's full menu hold different paths. */
  lemma FullMenuPathsDistinct()
    ensures forall i, j :: 0 <= i < j < |MenuItems + SuperAdminItems| ==>
      (MenuItems + SuperAdminItems)[i].path != (MenuItems + SuperAdminItems)[j].path
  {
    var m := MenuItems + SuperAdminItems;
    assert m == [
      MenuItem("Dashboard", "/dashboard"),
      MenuItem("Products", "/dashboard/products"),
      MenuItem("Orders", "/dashboard/orders"),
      MenuItem("Returns", "/dashboard/returns"),
      MenuItem("Analytics", "/dashboard/analytics"),
      MenuItem("Sellers", "/dashboard/admins"),
      MenuItem("Customers", "/dashboard/customers")];
    forall i, j | 0 <= i < j < |m|
      ensures m[i].path != m[j].path
    {
      assert |m[i].path| != |m[j].path| || m[i].path[11] != m[j].path[11];
    }
  }

  /** Whatever the location and the role, at most one drawer item is highlighted. */
  lemma AtMostOneActive(role: Option<string>, pathname: string)
    ensures forall i, j ::
      (0 <= i < |VisibleMenu(role)| && 0 <= j < |VisibleMenu(role)| &&
       IsActive(VisibleMenu(role)[i], pathname) && IsActive(VisibleMenu(role)[j], pathname)) ==> i == j
  {
    FullMenuPathsDistinct();
    var menu := VisibleMenu(role);
    assert menu == (MenuItems + SuperAdminItems)[..|menu|];
    forall i, j | 0 <= i < |menu| && 0 <= j < |menu| && IsActive(menu[i], pathname) && IsActive(menu[j], pathname)
      ensures i == j
    {
      assert menu[i] == (MenuItems + SuperAdminItems)[i];
      assert menu[j] == (MenuItems + SuperAdminItems)[j];
    }
  }

  /** After clicking an item (`navigate(item.path)`), that item and only that item is highlighted. */
  lemma ClickedItemIsTheActiveOne(role: Option<string>, k: nat)
    requires k < |VisibleMenu(role)|
    ensures forall i :: 0 <= i < |VisibleMenu(role)| ==>
      (IsActive(VisibleMenu(role)[i], VisibleMenu(role)[k].path) <==> i == k)
  {
    AtMostOneActive(role, VisibleMenu(role)[k].path);
  }

  /** A sub-page such as a product's detail route highlights nothing. */
  lemma SubPageHighlightsNothing(role: Option<string>)
    ensures forall i :: 0 <= i < |VisibleMenu(role)| ==> !IsActive(VisibleMenu(role)[i], "/dashboard/products/42")
  {
    var menu := VisibleMenu(role);
    forall i | 0 <= i < |menu|
      ensures !IsActive(menu[i], "/dashboard/products/42")
    {
      assert |menu[i].path| < |"/dashboard/products/42"|;
    }
  }

  /** `getInitials(name)`: 'A' for an empty or missing name, otherwise its first character uppercased. */
  function AvatarLetter(name: Option<string>): (r: string)
    ensures |r| == 1
    ensures !Truthy(name) ==> r == "A"
    ensures Truthy(name) ==> r == [UpperChar(name.value[0])]
    ensures !('a' <= r[0] <= 'z')
  {
    if !Truthy(name) then "A" else Upper(name.value[..1])
  }

  /** The texts a place that shows the signed-in user falls back on: the name
      shown without a username, and the two role captions. */
  datatype Labels = Labels(noName: string, superAdmin: string, admin: string)

  /** The account menu: `username || 'Admin User'` over the role caption. */
  const MenuLabels := Labels("Admin User", "Super Administrator", "Administrator")

  /** The drawer footer: `username || 'Admin'` over the short role caption. */
  const FooterLabels := Labels("Admin", "Super Admin", "Admin")

  /** The role caption: the superadmin text for the superadmin role, the admin text otherwise. */
  function RoleCaption(role: Option<string>, labels: Labels): (caption: string)
    ensures IsSuperAdmin(role) ==> caption == labels.superAdmin
    ensures !IsSuperAdmin(role) ==> caption == labels.admin
    ensures labels.superAdmin != labels.admin ==> (caption == labels.superAdmin <==> IsSuperAdmin(role))
  {
    if IsSuperAdmin(role) then labels.superAdmin else labels.admin
  }

  /** The name line: `username || noName`. */
  function UserCaption(username: Option<string>, labels: Labels): (caption: string)
    ensures Truthy(username) ==> caption == username.value
    ensures !Truthy(username) ==> caption == labels.noName
    ensures labels.noName != "" ==> caption != ""
  {
    OrElse(username, labels.noName)
  }

  /** The footer and the account menu agree on the user: neither ever shows
      an empty name, both show the username when it is set, and both single
      out exactly the superadmin role. */
  lemma FooterAgreesWithMenu(username: Option<string>, role: Option<string>)
    ensures UserCaption(username, MenuLabels) != "" && UserCaption(username, FooterLabels) != ""
    ensures Truthy(username) ==> UserCaption(username, FooterLabels) == UserCaption(username, MenuLabels)
    ensures RoleCaption(role, FooterLabels) == FooterLabels.superAdmin
      <==> RoleCaption(role, MenuLabels) == MenuLabels.superAdmin
    ensures RoleCaption(role, MenuLabels) == MenuLabels.superAdmin <==> IsSuperAdmin(role)
  {
  }

  /** `handleLogout`: reset the auth slice, expire the `token` cookie, drop the
      saved `adminState` and go to the sign-in page; the impersonation session
      entries are not touched. */
  method HandleLogout(auth: AuthSlice.AuthState, browser: WebStorage.Browser) returns (target: string)
    modifies auth, browser`cookies, browser`local
    ensures auth.Valid() && auth.IsInitial()
    ensures browser.cookies == WebStorage.Expire(old(browser.cookies), "token")
    ensures browser.local == old(browser.local) - {"adminState"}
    ensures "adminState" !in browser.local
    ensures target == "/login"
  {
    auth.Logout();
    browser.ClearAuthCookie();
    browser.RemoveLocal("adminState");
    target := "/login";
  }
}
