/**
 * The gate of `PublicRoute`, which wraps the login page: a spinner while the
 * session is being restored, a redirect home for a signed-in user, the
 * wrapped page otherwise.
 */
module PublicRoute {

  datatype Gate = Spinner | Redirect(to: string, replace: bool) | Children

  /** Exactly one of the three outcomes for every input, decided by loading first. */
  function PublicRouteGate(isLoading: bool, isAuthenticated: bool): (g: Gate)
    ensures g == Spinner <==> isLoading
    ensures g == Redirect("/", true) <==> !isLoading && isAuthenticated
    ensures g == Children <==> !isLoading && !isAuthenticated
  {
    if isLoading then Spinner
    else if isAuthenticated then Redirect("/", true)
    else Children
  }
}
