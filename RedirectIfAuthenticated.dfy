/** The route guard for the sign-up and login pages: signed-in users are sent
    away from them. */
module RedirectIfAuthenticated {
  import opened Types
  import AuthContext
  import opened ProtectedRoute

  /** Where signed-in users go unless the route says otherwise */
  const DefaultAuthenticatedRedirect := "/dashboard"

  /** RedirectIfAuthenticated. `redirectTo` is None when the prop is not given. */
  function Guard(view: AuthContext.AuthView, redirectTo: Option<string>): (outcome: GuardOutcome)
    ensures outcome == ShowLoading <==> view.loading
    ensures outcome == RenderChildren <==> !view.loading && view.user.None?
    ensures !view.loading && view.user.Some? ==> outcome == Redirect(redirectTo.GetOr(DefaultAuthenticatedRedirect))
  {
    if view.loading then ShowLoading
    else if view.user.Some? then Redirect(redirectTo.GetOr(DefaultAuthenticatedRedirect))
    else RenderChildren
  }

  /** Once loading is over, a page without a role restriction and an
      authentication page are never both shown: exactly one of the two guards
      renders its content, and each sends the visitor to the other's side by
      default. */
  lemma GuardsAreComplementary(view: AuthContext.AuthView)
    requires !view.loading
    ensures (ProtectedRoute.Guard(view, None, None) == RenderChildren)
      != (Guard(view, None) == RenderChildren)
    ensures ProtectedRoute.Guard(view, None, None) != RenderChildren ==>
      ProtectedRoute.Guard(view, None, None) == Redirect(ProtectedRoute.DefaultRedirect)
    ensures Guard(view, None) != RenderChildren ==> Guard(view, None) == Redirect(DefaultAuthenticatedRedirect)
  {
  }

  /** While loading, both guards show only the loading indicator. */
  lemma BothWaitWhileLoading(view: AuthContext.AuthView, allowedRoles: Option<seq<Role>>, a: Option<string>, b: Option<string>)
    requires view.loading
    ensures ProtectedRoute.Guard(view, allowedRoles, a) == ShowLoading == Guard(view, b)
  {
  }
}
