/** The role-checking route guard of the role-aware client. */
module RoleProtectedRoute {
  import opened Wrappers
  import opened Navigation
  import opened AuthUtils

  /** What the guard renders. */
  datatype View = Spinner | Redirect(nav: Navigate) | NotAuthorized(userRoles: seq<string>) | Children

  /** Some allowed role, scanned in order, is among the user's roles. */
  function HasAllowedRole(allowedRoles: seq<string>, userRoles: seq<string>): bool {
    allowedRoles != [] && (allowedRoles[0] in userRoles || HasAllowedRole(allowedRoles[1..], userRoles))
  }

  /** The scan finds an allowed role exactly when the two lists share a role. */
  lemma {:induction false} HasAllowedRoleIffShared(allowedRoles: seq<string>, userRoles: seq<string>)
    ensures HasAllowedRole(allowedRoles, userRoles) <==> exists r :: r in allowedRoles && r in userRoles
  {
    if allowedRoles != [] {
      HasAllowedRoleIffShared(allowedRoles[1..], userRoles);
      assert forall r :: r in allowedRoles <==> r == allowedRoles[0] || r in allowedRoles[1..];
    }
  }

  /**
   * The guard: a spinner while loading; the login page when signed out;
   * `NotAuthorized` when no allowed role is held; otherwise the children.
   */
  function Decide(isLoading: bool, isAuthenticated: bool, user: Option<UserData>, allowedRoles: seq<string>): (v: View)
    ensures isLoading ==> v == Spinner
    ensures !isLoading && (!isAuthenticated || user.None?) ==> v == Redirect(Navigate(LoginPath, true, None))
    ensures v == Children <==>
      !isLoading && isAuthenticated && user.Some? && exists r :: r in allowedRoles && r in user.value.roles
    ensures v.NotAuthorized? <==>
      !isLoading && isAuthenticated && user.Some? && !exists r :: r in allowedRoles && r in user.value.roles
    ensures v.NotAuthorized? ==> v.userRoles == user.value.roles
    ensures allowedRoles == [] ==> v != Children
  {
    if isLoading then Spinner
    else if !isAuthenticated || user.None? then Redirect(Navigate(LoginPath, true, None))
    else
      var userRoles := user.value.roles;
      HasAllowedRoleIffShared(allowedRoles, userRoles);
      if !HasAllowedRole(allowedRoles, userRoles) then NotAuthorized(userRoles)
      else Children
  }

  /** Adding allowed roles never takes access away. */
  lemma MoreAllowedRolesKeepAccess(user: UserData, allowedRoles: seq<string>, more: seq<string>)
    requires Decide(false, true, Some(user), allowedRoles) == Children
    ensures Decide(false, true, Some(user), allowedRoles + more) == Children
  {
    var r :| r in allowedRoles && r in user.roles;
    assert r in allowedRoles + more;
  }
}
