/** The application shell: the permission-filtered side navigation, the role badge and the sidebar state. */
module AppLayout {
  import opened Options
  import opened Text
  import opened Seqs
  import opened Domain
  import opened AuthContext

  datatype NavItem = NavItem(caption: string, path: string, permission: Option<string>)

  const DashboardItem := NavItem("Dashboard", "/dashboard", None)

  /** The items behind a permission, everything but the dashboard. */
  const GatedNavItems: seq<NavItem> := [
    NavItem("Assets", "/assets", Some("view_assets")),
    NavItem("Preventive Maintenance", "/pm", Some("view_pm")),
    NavItem("Breakdowns", "/breakdowns", Some("view_breakdowns")),
    NavItem("Spare Inventory", "/spares", Some("view_spares")),
    NavItem("Utilities", "/utilities", Some("view_utilities")),
    NavItem("KPI Monitoring", "/kpi", Some("view_kpi")),
    NavItem("Analytics", "/analytics", Some("view_analytics")),
    NavItem("User Management", "/users", Some("manage_users"))
  ]

  const NavItems: seq<NavItem> := [DashboardItem] + GatedNavItems

  /** `!item.permission || hasPermission(item.permission)` */
  predicate Visible(user: Option<User>, perms: RolePermissions, item: NavItem) {
    !Truthy(item.permission) || HasPermission(user, perms, item.permission.value)
  }

  /** `filteredNavItems` */
  function FilteredNavItems(user: Option<User>, perms: RolePermissions): (r: seq<NavItem>)
    ensures forall item :: item in r <==> item in NavItems && Visible(user, perms, item)
    ensures NavItems[0] in r
  {
    Filter(NavItems, item => Visible(user, perms, item))
  }

  /** The navigation keeps its order: whatever is kept from a front part of the list precedes what is kept from the rest. */
  lemma NavigationKeepsOrder(user: Option<User>, perms: RolePermissions, k: nat)
    requires k <= |NavItems|
    ensures FilteredNavItems(user, perms)
         == Filter(NavItems[..k], item => Visible(user, perms, item))
          + Filter(NavItems[k..], item => Visible(user, perms, item))
  {
    assert NavItems == NavItems[..k] + NavItems[k..];
    FilterAppend(NavItems[..k], NavItems[k..], item => Visible(user, perms, item));
  }

  /** A user whose role holds no permissions sees the dashboard only. */
  lemma NoPermissionsOnlyDashboard(user: User, perms: RolePermissions)
    requires PermissionsOf(perms, user.role) == []
    ensures FilteredNavItems(Some(user), perms) == [NavItems[0]]
  {
    var p := item => Visible(Some(user), perms, item);
    forall item
      ensures p(item) <==> !Truthy(item.permission)
    {
    }
    OnlyDashboardIsOpen(p);
    FilterAppend([DashboardItem], GatedNavItems, p);
    assert Filter([DashboardItem], p) == [DashboardItem];
  }

  lemma OnlyDashboardIsOpen(p: NavItem -> bool)
    requires forall item :: p(item) <==> !Truthy(item.permission)
    ensures Filter(GatedNavItems, p) == []
  {
    GatedItemsHavePermissions();
    FilterAllOrNone(GatedNavItems, p);
  }

  lemma GatedItemsHavePermissions()
    ensures forall item :: item in GatedNavItems ==> Truthy(item.permission)
  {
    var g := GatedNavItems;
    assert Truthy(g[0].permission) && Truthy(g[1].permission) && Truthy(g[2].permission) && Truthy(g[3].permission);
    assert Truthy(g[4].permission) && Truthy(g[5].permission) && Truthy(g[6].permission) && Truthy(g[7].permission);
  }

  const DefaultBadge := "bg-success/20 text-success"

  /** `getRoleBadgeColor(role)` */
  function RoleBadgeColor(role: string): (c: string)
    ensures c == DefaultBadge <==> role !in {"admin", "manager", "engineer"}
    ensures role == "admin" ==> c == "bg-destructive/20 text-destructive"
    ensures role == "manager" ==> c == "bg-warning/20 text-warning"
    ensures role == "engineer" ==> c == "bg-info/20 text-info"
  {
    match role
    case "admin" => "bg-destructive/20 text-destructive"
    case "manager" => "bg-warning/20 text-warning"
    case "engineer" => "bg-info/20 text-info"
    case _ => DefaultBadge
  }

  /** The badge of the signed-in user, `getRoleBadgeColor(user?.role || '')`: the four roles get four different classes. */
  lemma BadgesDiffer(a: UserRole, b: UserRole)
    ensures RoleBadgeColor(RoleName(a)) == RoleBadgeColor(RoleName(b)) <==> a == b
  {
  }

  /** The shell's own state: the router location and the mobile sidebar. */
  class Layout {
    var pathname: string
    var sidebarOpen: bool

    constructor(pathname: string)
      ensures this.pathname == pathname && !sidebarOpen
    {
      this.pathname := pathname;
      sidebarOpen := false;
    }

    /** The item highlighted in the navigation. */
    predicate IsActive(item: NavItem)
      reads this
    {
      pathname == item.path
    }

    /** `handleNavigation(path)`: navigate, then close the sidebar. */
    method HandleNavigation(path: string)
      modifies this
      ensures pathname == path && !sidebarOpen
    {
      pathname := path;
      sidebarOpen := false;
    }

    /** `handleLogout`: sign out, then go to the login page. */
    method HandleLogout(session: AuthSession)
      modifies this, session
      ensures !session.IsAuthenticated() && pathname == "/login"
      ensures sidebarOpen == old(sidebarOpen)
    {
      session.Logout();
      pathname := "/login";
    }
  }

  /** After navigating to an item of the menu, that item and no other is active: the paths are distinct. */
  lemma {:induction false} OneActiveItem(pathname: string, k: nat)
    requires k < |NavItems| && pathname == NavItems[k].path
    ensures forall j :: 0 <= j < |NavItems| ==> (NavItems[j].path == pathname <==> j == k)
  {
  }
}
