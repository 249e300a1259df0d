/**
 * The front end's authentication context: the signed-in user, the loading flag, the two
 * localStorage entries it writes, and the permission and role checks every page uses.
 * The mock user list and the role-to-permissions table are parameters.
 */
module AuthContext {
  import opened Options
  import opened Text
  import opened Domain

  /** `rolePermissions`: a role may be missing from the table. */
  type RolePermissions = map<UserRole, seq<string>>

  /** The permissions of a role, `rolePermissions[role] || []`. */
  function PermissionsOf(perms: RolePermissions, role: UserRole): seq<string> {
    if role in perms then perms[role] else []
  }

  /** `hasPermission(permission)` */
  predicate HasPermission(user: Option<User>, perms: RolePermissions, permission: string) {
    user.Some? && permission in PermissionsOf(perms, user.value.role)
  }

  /** `hasRole(roles)` with a list of roles. */
  predicate HasRole(user: Option<User>, roles: seq<UserRole>) {
    user.Some? && user.value.role in roles
  }

  /** `hasRole(role)` with a single role, which the context wraps in a one-element list. */
  predicate HasSingleRole(user: Option<User>, role: UserRole) {
    HasRole(user, [role])
  }

  /**
   * Granting more never takes anything away: a permission check that passes against a table still
   * passes against one that grants every role at least as much, and a role check that passes still
   * passes for a longer list of roles.
   */
  lemma ChecksAreMonotone(user: Option<User>, perms: RolePermissions, more: RolePermissions, permission: string,
                          roles: seq<UserRole>, moreRoles: seq<UserRole>)
    requires forall r, q :: q in PermissionsOf(perms, r) ==> q in PermissionsOf(more, r)
    requires forall r :: r in roles ==> r in moreRoles
    ensures HasPermission(user, perms, permission) ==> HasPermission(user, more, permission)
    ensures HasRole(user, roles) ==> HasRole(user, moreRoles)
  {
  }

  /** `mockUsers.find(u => u.email.toLowerCase() === email.toLowerCase())` */
  function FindByEmail(users: seq<User>, email: string): (r: Option<User>)
    ensures r.Some? <==> exists u :: u in users && Lower(u.email) == Lower(email)
    ensures r.Some? ==> r.value in users && Lower(r.value.email) == Lower(email)
    ensures forall i ::
      (0 <= i < |users| && Lower(users[i].email) == Lower(email)
       && forall j :: 0 <= j < i ==> Lower(users[j].email) != Lower(email)) ==> r == Some(users[i])
  {
    if users == [] then None
    else if Lower(users[0].email) == Lower(email) then Some(users[0])
    else FindByEmail(users[1..], email)
  }

  /** The token the mock login stores. */
  function MockToken(id: string): string {
    "mock_token_" + id
  }

  const InvalidLogin := "Invalid email or password"

  /** The provider's state: React state plus the two localStorage keys it owns. */
  class AuthSession {
    const mockUsers: seq<User>
    var user: Option<User>
    var isLoading: bool
    var storedUser: Option<User>   // localStorage 'mis_user'
    var storedToken: Option<string>   // localStorage 'auth_token'

    /** Mounting restores the stored user and ends the initial loading state. */
    constructor(mockUsers: seq<User>, storedUser: Option<User>, storedToken: Option<string>)
      ensures this.mockUsers == mockUsers
      ensures user == storedUser && !isLoading
      ensures this.storedUser == storedUser && this.storedToken == storedToken
    {
      this.mockUsers := mockUsers;
      user := storedUser;
      this.storedUser := storedUser;
      this.storedToken := storedToken;
      isLoading := false;
    }

    /** `isAuthenticated: !!user` */
    predicate IsAuthenticated()
      reads this
    {
      user.Some?
    }

    /** The mock `login`. */
    method Login(email: string, password: string) returns (success: bool, message: Option<string>)
      modifies this
      ensures success <==> FindByEmail(mockUsers, email).Some? && |password| >= 4
      ensures success ==>
        && user == FindByEmail(mockUsers, email) && storedUser == user
        && storedToken == Some(MockToken(user.value.id)) && message.None?
      ensures !success ==>
        && user == old(user) && storedUser == old(storedUser) && storedToken == old(storedToken)
        && message == Some(InvalidLogin)
      ensures !isLoading
    {
      isLoading := true;
      var found := FindByEmail(mockUsers, email);
      if found.Some? && |password| >= 4 {
        storedUser := found;
        storedToken := Some(MockToken(found.value.id));
        user := found;
        success, message := true, None;
      } else {
        success, message := false, Some(InvalidLogin);
      }
      isLoading := false;
    }

    /** `logout` */
    method Logout()
      modifies this
      ensures user.None? && storedUser.None? && storedToken.None?
      ensures isLoading == old(isLoading)
    {
      storedUser := None;
      storedToken := None;
      user := None;
    }
  }

  /** The email lookup only sees the lower-cased email, so the mock login ignores the case of what is typed. */
  lemma {:induction false} LookupIgnoresEmailCase(users: seq<User>, email: string)
    ensures FindByEmail(users, Lower(email)) == FindByEmail(users, email)
  {
    LowerFixesLowerCase(email);
    if users != [] {
      LookupIgnoresEmailCase(users[1..], email);
    }
  }
}
