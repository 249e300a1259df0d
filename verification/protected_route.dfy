/** The route guard wrapped around every page: loading, sign-in, permission and role checks, in that order. */
module ProtectedRoute {
  import opened Options
  import opened Text
  import opened Domain
  import opened AuthContext

  /** What the guard renders. */
  datatype RouteView =
    | LoadingScreen
    | RedirectToLogin(from: string)   // <Navigate to="/login" state={{ from: location }}>
    | RedirectToDashboard
    | RenderChildren

  /** `ProtectedRoute`, for the context's state, the route's optional requirements and the current location. */
  function Guard(isLoading: bool, user: Option<User>, perms: RolePermissions, requiredPermission: Option<string>,
                 requiredRoles: Option<seq<UserRole>>, location: string): (v: RouteView)
    ensures isLoading ==> v == LoadingScreen
    ensures v.RedirectToLogin? <==> !isLoading && user.None?
    ensures v.RedirectToLogin? ==> v.from == location
    ensures v == RenderChildren <==>
      && !isLoading && user.Some?
      && (Truthy(requiredPermission) ==> HasPermission(user, perms, requiredPermission.value))
      && (requiredRoles.Some? ==> HasRole(user, requiredRoles.value))
  {
    if isLoading then LoadingScreen
    else if user.None? then RedirectToLogin(location)
    else if Truthy(requiredPermission) && !HasPermission(user, perms, requiredPermission.value) then RedirectToDashboard
    else if requiredRoles.Some? && !HasRole(user, requiredRoles.value) then RedirectToDashboard
    else RenderChildren
  }

  /**
   * A missing permission sends a signed-in user to the dashboard whatever the role requirement; an
   * empty required-role list (which is still truthy) does so always; an empty permission string is no requirement.
   */
  lemma GuardOrder(user: User, perms: RolePermissions, requiredPermission: Option<string>,
                   requiredRoles: Option<seq<UserRole>>, location: string)
    ensures Truthy(requiredPermission) && !HasPermission(Some(user), perms, requiredPermission.value) ==>
      Guard(false, Some(user), perms, requiredPermission, requiredRoles, location) == RedirectToDashboard
    ensures Guard(false, Some(user), perms, requiredPermission, Some([]), location) == RedirectToDashboard
    ensures Guard(false, Some(user), perms, Some(""), None, location) == RenderChildren
  {
  }
}
