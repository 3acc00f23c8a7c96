/** The route guard in front of the admin and driver pages. */
module ProtectedRoute {
  import opened Options
  import opened AuthContext

  datatype Outcome = RedirectToLogin | RedirectToAdminDashboard | RedirectToDriverDashboard | ShowChildren

  /** The guard's decision: nobody signed in goes to the login page whatever
      the page requires; a signed-in user whose role the page does not accept
      goes to their own dashboard; everyone else sees the page. */
  function Guard(user: Option<User>, requiredRole: Option<UserRole>): (o: Outcome)
    ensures o == RedirectToLogin <==> user.None?
    ensures o == ShowChildren <==> user.Some? && (requiredRole.None? || requiredRole.value == user.value.role)
    ensures o == RedirectToAdminDashboard <==>
              user.Some? && requiredRole.Some? && requiredRole.value != user.value.role && user.value.role == Admin
    ensures o == RedirectToDriverDashboard <==>
              user.Some? && requiredRole.Some? && requiredRole.value != user.value.role && user.value.role == Driver
  {
    if user.None? then RedirectToLogin
    else if requiredRole.Some? && user.value.role != requiredRole.value then
      match user.value.role
      case Admin => RedirectToAdminDashboard
      case Driver => RedirectToDriverDashboard
    else ShowChildren
  }

  /** A user who is sent to a dashboard is signed in, and a page guarded
      by that user's own role, or by no role, shows its content to them. */
  lemma RedirectSettles(user: Option<User>, requiredRole: Option<UserRole>)
    requires Guard(user, requiredRole) in {RedirectToAdminDashboard, RedirectToDriverDashboard}
    ensures user.Some? && requiredRole.Some? && requiredRole.value != user.value.role
    ensures Guard(user, Some(user.value.role)) == ShowChildren
    ensures Guard(user, None) == ShowChildren
  {
  }
}
