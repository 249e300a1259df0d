/**
 * The user-management page: user search, changing a user's role, toggling a role's permissions,
 * the role counters, and the permission list grouped by category.
 */
module UserManagement {
  import opened Options
  import opened Text
  import opened Seqs
  import opened Domain
  import opened AuthContext

  datatype PermissionInfo = PermissionInfo(key: string, name: string, category: string)

  /** `allPermissions` */
  const AllPermissions: seq<PermissionInfo> := [
    PermissionInfo("view_dashboard", "View Dashboard", "Dashboard"),
    PermissionInfo("view_assets", "View Assets", "Assets"),
    PermissionInfo("create_assets", "Create Assets", "Assets"),
    PermissionInfo("update_assets", "Update Assets", "Assets"),
    PermissionInfo("delete_assets", "Delete Assets", "Assets"),
    PermissionInfo("view_pm", "View PM", "PM"),
    PermissionInfo("create_pm", "Create PM", "PM"),
    PermissionInfo("update_pm", "Update PM", "PM"),
    PermissionInfo("delete_pm", "Delete PM", "PM"),
    PermissionInfo("view_breakdowns", "View Breakdowns", "Breakdowns"),
    PermissionInfo("create_breakdown", "Create Breakdown", "Breakdowns"),
    PermissionInfo("update_breakdown", "Update Breakdown", "Breakdowns"),
    PermissionInfo("view_spares", "View Spares", "Spares"),
    PermissionInfo("create_spares", "Create Spares", "Spares"),
    PermissionInfo("update_spares", "Update Spares", "Spares"),
    PermissionInfo("issue_spares", "Issue Spares", "Spares"),
    PermissionInfo("view_utilities", "View Utilities", "Utilities"),
    PermissionInfo("create_utilities", "Create Utilities", "Utilities"),
    PermissionInfo("view_kpi", "View KPI", "KPI"),
    PermissionInfo("view_analytics", "View Analytics", "Analytics"),
    PermissionInfo("manage_users", "Manage Users", "Admin"),
    PermissionInfo("manage_roles", "Manage Roles", "Admin")
  ]

  /** `filteredUsers`: name or email contains the query, ignoring case. */
  function FilteredUsers(users: seq<User>, query: string): (r: seq<User>)
    ensures forall u :: u in r <==> u in users && (ContainsIgnoringCase(u.name, query) || ContainsIgnoringCase(u.email, query))
  {
    Filter(users, (u: User) => ContainsIgnoringCase(u.name, query) || ContainsIgnoringCase(u.email, query))
  }

  /** `handleRoleChange`'s list update. */
  function ChangeRole(users: seq<User>, userId: string, newRole: UserRole): (r: seq<User>)
    ensures |r| == |users|
    ensures forall i :: 0 <= i < |users| ==>
      && r[i].(role := users[i].role) == users[i]
      && r[i].role == if users[i].id == userId then newRole else users[i].role
  {
    MapWhere(users, (u: User) => u.id == userId, (u: User) => u.(role := newRole))
  }

  function CountRole(users: seq<User>, role: UserRole): nat {
    |Filter(users, (u: User) => u.role == role)|
  }

  datatype UserStats = UserStats(total: nat, admins: nat, managers: nat, engineers: nat, operators: nat)

  /** `stats` */
  function Stats(users: seq<User>): UserStats {
    UserStats(|users|, CountRole(users, Admin), CountRole(users, Manager), CountRole(users, Engineer),
              CountRole(users, Operator))
  }

  /** Every user has one of the four roles, so the role counters add up to the total. */
  lemma {:induction false} RoleCountsAddUp(users: seq<User>)
    ensures Stats(users).admins + Stats(users).managers + Stats(users).engineers + Stats(users).operators
         == Stats(users).total
  {
    if users != [] {
      RoleCountsAddUp(users[1..]);
    }
  }

  /** Changing roles moves users between counters without changing the total. */
  lemma RoleChangeKeepsTotal(users: seq<User>, userId: string, newRole: UserRole)
    ensures Stats(ChangeRole(users, userId, newRole)).total == Stats(users).total
    ensures var r := ChangeRole(users, userId, newRole);
      Stats(r).admins + Stats(r).managers + Stats(r).engineers + Stats(r).operators == Stats(users).total
  {
    RoleCountsAddUp(ChangeRole(users, userId, newRole));
  }

  /** `handlePermissionToggle`'s table update: remove every occurrence of a held permission, append a missing one. */
  function TogglePermission(perms: RolePermissions, role: UserRole, p: string): (r: RolePermissions)
    ensures role in r
    ensures forall other :: other != role ==> (other in r <==> other in perms)
    ensures forall other :: other != role && other in perms ==> r[other] == perms[other]
    ensures p in r[role] <==> p !in PermissionsOf(perms, role)
    ensures forall q :: q != p ==> (q in r[role] <==> q in PermissionsOf(perms, role))
  {
    var current := PermissionsOf(perms, role);
    perms[role := if p in current then Filter(current, (x: string) => x != p) else current + [p]]
  }

  /**
   * Toggling twice restores the role's membership of every permission; when the permission was
   * missing, it restores the list exactly.
   */
  lemma ToggleTwice(perms: RolePermissions, role: UserRole, p: string)
    ensures var twice := TogglePermission(TogglePermission(perms, role, p), role, p);
      forall q :: q in twice[role] <==> q in PermissionsOf(perms, role)
    ensures p !in PermissionsOf(perms, role) ==>
      TogglePermission(TogglePermission(perms, role, p), role, p)[role] == PermissionsOf(perms, role)
  {
    var current := PermissionsOf(perms, role);
    if p !in current {
      var notP := (x: string) => x != p;
      FilterAppend(current, [p], notP);
      FilterAllOrNone(current, notP);
    }
  }

  /** The keys of the object the grouping `reduce` builds: a category is added when its first permission is met. */
  function Categories(perms: seq<PermissionInfo>): seq<string> {
    if perms == [] then []
    else
      var before := Categories(perms[..|perms| - 1]);
      var c := perms[|perms| - 1].category;
      if c in before then before else before + [c]
  }

  /** `perms.map(p => p.category)` */
  function CategoryColumn(perms: seq<PermissionInfo>): (r: seq<string>)
    ensures |r| == |perms| && forall i :: 0 <= i < |perms| ==> r[i] == perms[i].category
  {
    seq(|perms|, i requires 0 <= i < |perms| => perms[i].category)
  }

  /** The keys are `[...new Set(perms.map(p => p.category))]`. */
  lemma {:induction false} CategoriesAreDistinct(perms: seq<PermissionInfo>)
    ensures Categories(perms) == Distinct(CategoryColumn(perms))
  {
    if perms != [] {
      var init := perms[..|perms| - 1];
      CategoriesAreDistinct(init);
      var column := CategoryColumn(perms);
      assert column[..|column| - 1] == CategoryColumn(init);
    }
  }

  /** Each category of the list is a key exactly once, and nothing else is. */
  lemma CategoryKeys(perms: seq<PermissionInfo>)
    ensures forall c :: c in Categories(perms) <==> exists i :: 0 <= i < |perms| && perms[i].category == c
    ensures forall j, k :: 0 <= j < k < |Categories(perms)| ==> Categories(perms)[j] != Categories(perms)[k]
  {
    CategoriesAreDistinct(perms);
    var column := CategoryColumn(perms);
    forall c | c in Categories(perms)
      ensures exists i :: 0 <= i < |perms| && perms[i].category == c
    {
      var i :| 0 <= i < |column| && column[i] == c;
    }
    forall c, i | 0 <= i < |perms| && perms[i].category == c
      ensures c in Categories(perms)
    {
      assert column[i] == c;
    }
  }

  /** The permissions of one category, in list order. */
  function InCategory(perms: seq<PermissionInfo>, c: string): seq<PermissionInfo> {
    Filter(perms, (p: PermissionInfo) => p.category == c)
  }

  lemma CategoriesStep(perms: seq<PermissionInfo>, i: nat)
    requires i < |perms|
    ensures Categories(perms[..i + 1])
         == if perms[i].category in Categories(perms[..i]) then Categories(perms[..i])
            else Categories(perms[..i]) + [perms[i].category]
  {
    assert perms[..i + 1][..i] == perms[..i];
  }

  /** `keys`/`groups` are the object the reduce has built from `prefix`: its keys in insertion order and its values. */
  ghost predicate GroupsOf(prefix: seq<PermissionInfo>, keys: seq<string>, groups: map<string, seq<PermissionInfo>>) {
    && keys == Categories(prefix)
    && (forall c :: c in groups <==> c in keys)
    && (forall c :: c in keys ==> groups[c] == InCategory(prefix, c))
  }

  /** One step of the reduce for a category met before: push the permission onto its group. */
  lemma PushStep(perms: seq<PermissionInfo>, i: nat, keys: seq<string>, groups: map<string, seq<PermissionInfo>>)
    requires i < |perms| && GroupsOf(perms[..i], keys, groups) && perms[i].category in groups
    ensures GroupsOf(perms[..i + 1], keys, groups[perms[i].category := groups[perms[i].category] + [perms[i]]])
  {
    CategoriesStep(perms, i);
    GroupContentsStep(perms, i, keys, groups, groups);
  }

  /** One step of the reduce for a new category: create its key with an empty group, then push the permission. */
  lemma CreateStep(perms: seq<PermissionInfo>, i: nat, keys: seq<string>, groups: map<string, seq<PermissionInfo>>)
    requires i < |perms| && GroupsOf(perms[..i], keys, groups) && perms[i].category !in groups
    ensures GroupsOf(perms[..i + 1], keys + [perms[i].category], groups[perms[i].category := [perms[i]]])
  {
    var c := perms[i].category;
    CategoriesStep(perms, i);
    UnseenCategoryIsEmpty(perms[..i], c);
    var g := groups[c := []];
    GroupContentsStep(perms, i, keys + [c], groups, g);
    assert g[c] + [perms[i]] == [perms[i]];
    assert g[c := g[c] + [perms[i]]] == groups[c := [perms[i]]];
  }

  /** The pushed group grows by the permission; every other group is left as it was. */
  lemma GroupContentsStep(perms: seq<PermissionInfo>, i: nat, keys': seq<string>,
                          groups: map<string, seq<PermissionInfo>>, g: map<string, seq<PermissionInfo>>)
    requires i < |perms|
    requires perms[i].category in g && g[perms[i].category] == InCategory(perms[..i], perms[i].category)
    requires forall x :: x in keys' && x != perms[i].category ==> x in groups && x in g && g[x] == groups[x]
    requires forall x :: x in groups ==> groups[x] == InCategory(perms[..i], x)
    ensures var h := g[perms[i].category := g[perms[i].category] + [perms[i]]];
      forall x :: x in keys' ==> h[x] == InCategory(perms[..i + 1], x)
  {
    var c := perms[i].category;
    var h := g[c := g[c] + [perms[i]]];
    forall x | x in keys'
      ensures h[x] == InCategory(perms[..i + 1], x)
    {
      InCategoryStep(perms, i, x);
    }
  }

  lemma InCategoryStep(perms: seq<PermissionInfo>, i: nat, c: string)
    requires i < |perms|
    ensures InCategory(perms[..i + 1], c) == InCategory(perms[..i], c) + (if perms[i].category == c then [perms[i]] else [])
  {
    assert perms[..i + 1] == perms[..i] + [perms[i]];
    FilterAppend(perms[..i], [perms[i]], (q: PermissionInfo) => q.category == c);
  }

  /**
   * The `reduce` that groups the permission list into an object keyed by category, read back with
   * `Object.entries`: the groups come in order of first appearance, each holding exactly that
   * category's permissions in list order.
   */
  method GroupByCategory(perms: seq<PermissionInfo>) returns (entries: seq<(string, seq<PermissionInfo>)>)
    ensures |entries| == |Categories(perms)|
    ensures forall k :: 0 <= k < |entries| ==>
      entries[k].0 == Categories(perms)[k] && entries[k].1 == InCategory(perms, entries[k].0)
  {
    var keys: seq<string> := [];
    var groups: map<string, seq<PermissionInfo>> := map[];
    var i := 0;
    while i < |perms|
      invariant 0 <= i <= |perms|
      invariant GroupsOf(perms[..i], keys, groups)
    {
      var p := perms[i];
      if p.category !in groups {
        CreateStep(perms, i, keys, groups);
        keys := keys + [p.category];
        groups := groups[p.category := [p]];
      } else {
        PushStep(perms, i, keys, groups);
        groups := groups[p.category := groups[p.category] + [p]];
      }
      i := i + 1;
    }
    assert perms[..i] == perms;
    entries := seq(|keys|, k requires 0 <= k < |keys| => (keys[k], groups[keys[k]]));
  }

  lemma UnseenCategoryIsEmpty(perms: seq<PermissionInfo>, c: string)
    requires c !in Categories(perms)
    ensures InCategory(perms, c) == []
  {
    CategoryKeys(perms);
    forall q | q in perms
      ensures q.category != c
    {
      var i :| 0 <= i < |perms| && perms[i] == q;
    }
    FilterAllOrNone(perms, (q: PermissionInfo) => q.category == c);
  }

  /** Each permission sits in the group of its own category and in no other. */
  lemma EachPermissionInItsGroup(perms: seq<PermissionInfo>, p: PermissionInfo, c: string)
    requires p in perms
    ensures p in InCategory(perms, c) <==> c == p.category
  {
  }

  /** The page's state. */
  class UserAdmin {
    var users: seq<User>
    var permissions: RolePermissions

    constructor(users: seq<User>, permissions: RolePermissions)
      ensures this.users == users && this.permissions == permissions
    {
      this.users := users;
      this.permissions := permissions;
    }

    /** `handleRoleChange` */
    method HandleRoleChange(userId: string, newRole: UserRole)
      modifies this
      ensures users == ChangeRole(old(users), userId, newRole) && permissions == old(permissions)
    {
      users := ChangeRole(users, userId, newRole);
    }

    /** `handlePermissionToggle` */
    method HandlePermissionToggle(role: UserRole, p: string)
      modifies this
      ensures permissions == TogglePermission(old(permissions), role, p) && users == old(users)
    {
      permissions := TogglePermission(permissions, role, p);
    }
  }
}
