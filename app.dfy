/**
 * The application shell of `App`: the route table with its catch-all, and
 * the default error hook of every mutation, which ends an expired session
 * (status 401) by clearing the stored token and loading the login page.
 */
module App {
  import opened Common
  import opened Session
  import opened PublicRoute

  const LoginPath := "/login"

  datatype Screen = LoginScreen | ProfileScreen | AttendanceScreen | SummaryScreen

  /** What the router renders for a path. */
  datatype RouteMatch =
    | PublicPage(screen: Screen)      // wrapped in PublicRoute
    | ProtectedPage(screen: Screen)   // wrapped in ProtectedRoute and the layout
    | NavigateTo(to: string, replace: bool)

  predicate KnownPath(path: string) {
    path == LoginPath || path == "/" || path == "/attendance" || path == "/summary"
  }

  /**
   * The route table: `/login` behind the public gate, the profile page as the
   * index of `/`, the attendance and summary pages under it, and any other
   * path redirected to `/` with replace.
   */
  function Resolve(path: string): (m: RouteMatch)
    ensures m.NavigateTo? <==> !KnownPath(path)
    ensures m.NavigateTo? ==> m == NavigateTo("/", true)
    ensures m.PublicPage? <==> path == LoginPath
    ensures path == LoginPath ==> m == PublicPage(LoginScreen)
    ensures path == "/" ==> m == ProtectedPage(ProfileScreen)
    ensures path == "/attendance" ==> m == ProtectedPage(AttendanceScreen)
    ensures path == "/summary" ==> m == ProtectedPage(SummaryScreen)
  {
    if path == LoginPath then PublicPage(LoginScreen)
    else if path == "/" then ProtectedPage(ProfileScreen)
    else if path == "/attendance" then ProtectedPage(AttendanceScreen)
    else if path == "/summary" then ProtectedPage(SummaryScreen)
    else NavigateTo("/", true)
  }

  /** Every redirect of the catch-all lands, in one step, on the profile page. */
  lemma CatchAllLandsOnProfile(path: string)
    requires !KnownPath(path)
    ensures Resolve(Resolve(path).to) == ProtectedPage(ProfileScreen)
  {
    assert Resolve(path) == NavigateTo("/", true);
  }

  /** Queries and mutations: only mutations carry the 401 rule. */
  datatype OperationKind = QueryOperation | MutationOperation

  datatype ErrorEffect = NoEffect | ClearTokenAndGoToLogin

  /** `error.status === 401`: a missing status (a plain `Error`) never matches. */
  predicate IsUnauthorized(e: Error) {
    e.status == Some(401)
  }

  /** The default error handling of the query client. */
  function DefaultOnError(kind: OperationKind, e: Error): (effect: ErrorEffect)
    ensures effect == ClearTokenAndGoToLogin <==> kind == MutationOperation && IsUnauthorized(e)
  {
    if kind == MutationOperation && IsUnauthorized(e) then ClearTokenAndGoToLogin else NoEffect
  }

  /**
   * The mutation `onError` hook: on 401 the stored token is removed and the
   * browser is sent to `/login`; any other error changes nothing. The
   * provider's in-memory state is not touched: the page load rebuilds it.
   */
  method MutationOnError(storage: LocalStorage, e: Error) returns (location: Option<string>)
    modifies storage
    ensures location.Some? <==> DefaultOnError(MutationOperation, e) == ClearTokenAndGoToLogin
    ensures IsUnauthorized(e) ==> storage.accessToken == None && location == Some(LoginPath)
    ensures !IsUnauthorized(e) ==> storage.accessToken == old(storage.accessToken) && location == None
  {
    location := None;
    if IsUnauthorized(e) {
      storage.RemoveItem();
      location := Some(LoginPath);
    }
  }

  /**
   * After the 401 rule the page loads `/login` with an empty slot: the
   * restored session is signed out, and the login page is shown rather than
   * redirected away from.
   */
  lemma UnauthorizedEndsInLoginPage()
    ensures !Boot(None).isAuthenticated && Boot(None).token == None
    ensures Resolve(LoginPath) == PublicPage(LoginScreen)
    ensures PublicRouteGate(Boot(None).isLoading, Boot(None).isAuthenticated) == Children
  {
    assert !TruthyOpt(None);
  }

  /** On any page load, the login route shows its page exactly when no truthy token was stored. */
  lemma LoginRouteAfterBoot(stored: Option<string>)
    ensures PublicRouteGate(Boot(stored).isLoading, Boot(stored).isAuthenticated) ==
      if TruthyOpt(stored) then Redirect("/", true) else Children
  {
    var s := Boot(stored);
    assert !s.isLoading;
    assert s.isAuthenticated <==> TruthyOpt(stored);
  }
}
