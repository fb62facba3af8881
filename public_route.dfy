/** The guard around public pages: signed-in users are sent to their dashboard. */
module PublicRoute {
  import opened Wrappers
  import opened Navigation
  import opened AuthUtils

  datatype View = Spinner | Redirect(nav: Navigate) | Children

  function Decide(isLoading: bool, isAuthenticated: bool, user: Option<UserData>): (v: View)
    ensures isLoading ==> v == Spinner
    ensures !isLoading && isAuthenticated && user.Some? ==>
      v == Redirect(Navigate(RoleDefaultRoute(user.value.roles), true, None))
    ensures !isLoading && !(isAuthenticated && user.Some?) ==> v == Children
  {
    if isLoading then Spinner
    else if isAuthenticated && user.Some? then Redirect(Navigate(RoleDefaultRoute(user.value.roles), true, None))
    else Children
  }

  /**
   * Children are never shown to a signed-in user with a record, and every
   * redirect lands on one of the five dashboards, replacing the history entry.
   */
  lemma PublicPagesOnlyForGuests(isLoading: bool, isAuthenticated: bool, user: Option<UserData>)
    ensures Decide(isLoading, isAuthenticated, user) == Children ==> !isLoading && !(isAuthenticated && user.Some?)
    ensures Decide(isLoading, isAuthenticated, user).Redirect? ==>
      Decide(isLoading, isAuthenticated, user).nav.to in DashboardRoutes && Decide(isLoading, isAuthenticated, user).nav.replace
  {
  }
}
