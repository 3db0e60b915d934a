/** The route guard for pages that need a signed-in user, optionally one of a
    set of roles. It reads the authentication view and decides between the
    loading indicator, a redirect and the protected content. */
module ProtectedRoute {
  import opened Types
  import AuthContext

  /** What a route guard renders */
  datatype GuardOutcome = ShowLoading | Redirect(to: string) | RenderChildren

  /** Where signed-out visitors go unless the route says otherwise */
  const DefaultRedirect := "/onboarding"

  /** Where a signed-in user without a permitted role goes */
  const RoleRedirect := "/dashboard"

  /** ProtectedRoute. `allowedRoles` and `redirectTo` are None when the prop is
      not given; the default redirect applies only then. An empty role list is
      still a given list. */
  function Guard(view: AuthContext.AuthView, allowedRoles: Option<seq<Role>>, redirectTo: Option<string>)
    : (outcome: GuardOutcome)
    ensures outcome == ShowLoading <==> view.loading
    ensures !view.loading && view.user.None? ==> outcome == Redirect(redirectTo.GetOr(DefaultRedirect))
    ensures (!view.loading && view.user.Some? && allowedRoles.Some? && view.profile.Some?
      && view.profile.value.role !in allowedRoles.value) ==> outcome == Redirect(RoleRedirect)
    ensures outcome == RenderChildren <==>
      !view.loading && view.user.Some?
      && (allowedRoles.None? || view.profile.None? || view.profile.value.role in allowedRoles.value)
  {
    if view.loading then ShowLoading
    else if view.user.None? then Redirect(redirectTo.GetOr(DefaultRedirect))
    else if allowedRoles.Some? && view.profile.Some? && view.profile.value.role !in allowedRoles.value then
      Redirect(RoleRedirect)
    else RenderChildren
  }

  /** The role restriction is only checked once a profile is loaded: a signed-in
      user whose profile is still missing sees a role-restricted page. */
  lemma RoleCheckWaitsForProfile(view: AuthContext.AuthView, allowedRoles: seq<Role>, redirectTo: Option<string>)
    requires !view.loading && view.user.Some? && view.profile.None?
    ensures Guard(view, Some(allowedRoles), redirectTo) == RenderChildren
  {
  }

  /** Content behind the guard is never shown to a signed-out visitor, and is
      shown to a signed-in one whose loaded role is permitted. */
  lemma SignedInWithPermittedRoleRenders(view: AuthContext.AuthView, allowedRoles: Option<seq<Role>>, redirectTo: Option<string>)
    ensures (!view.loading && view.user.Some? && view.profile.Some?
      && (allowedRoles.None? || view.profile.value.role in allowedRoles.value)) ==>
        Guard(view, allowedRoles, redirectTo) == RenderChildren
    ensures view.user.None? ==> Guard(view, allowedRoles, redirectTo) != RenderChildren
  {
  }
}
