/** Route guarding in frontend/src/App.tsx: the `ProtectedRoute` decision, the `HomePage`
    redirect, and the route table that puts a guard on each path. */
module Routing {
  import opened Wrappers
  import opened Text
  import opened Session

  /** What `ProtectedRoute` renders. */
  datatype Verdict = Spinner | Redirect(to: string) | RenderChildren

  const LoginRoute: string := "/login"
  const UnauthorizedRoute: string := "/unauthorized"
  const DashboardRoute: string := "/dashboard"

  /** `requiredRole && user?.role !== requiredRole`: an empty required role is falsy and so asks
      for nothing; a missing user has an undefined role, which differs from every string. */
  predicate RoleMismatch(s: State, requiredRole: Option<string>) {
    requiredRole.Some? && requiredRole.value != ""
    && (s.user.None? || RoleName(s.user.value.role) != requiredRole.value)
  }

  function ProtectedRoute(s: State, requiredRole: Option<string>): (v: Verdict)
    ensures v == Spinner <==> s.isLoading
    ensures v == Redirect(LoginRoute) <==> !s.isLoading && !s.isAuthenticated
    ensures v == Redirect(UnauthorizedRoute) <==> !s.isLoading && s.isAuthenticated && RoleMismatch(s, requiredRole)
    ensures v == RenderChildren <==> !s.isLoading && s.isAuthenticated && !RoleMismatch(s, requiredRole)
  {
    if s.isLoading then Spinner
    else if !s.isAuthenticated then Redirect(LoginRoute)
    else if requiredRole.Some? && requiredRole.value != ""
            && (s.user.None? || RoleName(s.user.value.role) != requiredRole.value) then Redirect(UnauthorizedRoute)
    else RenderChildren
  }

  /** `HomePage`: to the dashboard exactly when authenticated, loading or not. */
  function HomePage(s: State): (to: string)
    ensures s.isAuthenticated ==> to == DashboardRoute
    ensures !s.isAuthenticated ==> to == LoginRoute
  {
    if s.isAuthenticated then DashboardRoute else LoginRoute
  }

  /** The elements the route table mounts. */
  datatype Page =
    | LoginPage | TrackingPage | UnauthorizedPage | DashboardPage
    | ClientArea | DriverArea | AdminArea | ManagerArea | Home | NotFound

  /** The guard the route table wraps around a page. */
  datatype Guard = Unguarded | SignedIn | HasRole(role: string) | RedirectsHome

  function GuardOf(p: Page): Guard {
    match p
    case LoginPage => Unguarded
    case TrackingPage => Unguarded
    case UnauthorizedPage => Unguarded
    case NotFound => Unguarded
    case DashboardPage => SignedIn
    case ClientArea => HasRole("CLIENT")
    case DriverArea => HasRole("DRIVER")
    case AdminArea => HasRole("ADMIN")
    case ManagerArea => HasRole("MANAGER")
    case Home => RedirectsHome
  }

  /** A splat route (root followed by a star segment) matches root itself and every path below it. */
  predicate UnderSplat(path: string, root: string) {
    path == root || StartsWith(path, root + "/")
  }

  /** The page the route table selects for a path (already normalised). */
  function Match(path: string): Page {
    if path == "/login" then LoginPage
    else if path == "/tracking" then TrackingPage
    else if path == "/unauthorized" then UnauthorizedPage
    else if path == "/dashboard" then DashboardPage
    else if UnderSplat(path, "/client") then ClientArea
    else if UnderSplat(path, "/driver") then DriverArea
    else if UnderSplat(path, "/admin") then AdminArea
    else if UnderSplat(path, "/manager") then ManagerArea
    else if path == "/" then Home
    else NotFound
  }

  /** What the browser ends up with for a path. */
  datatype Screen = Show(page: Page) | Spinning | GoTo(to: string)

  function Navigate(s: State, path: string): (r: Screen)
    ensures GuardOf(Match(path)) == Unguarded ==> r == Show(Match(path))
    ensures GuardOf(Match(path)) == RedirectsHome ==> r == GoTo(HomePage(s))
  {
    var page := Match(path);
    match GuardOf(page)
    case Unguarded => Show(page)
    case RedirectsHome => GoTo(HomePage(s))
    case SignedIn => FromVerdict(ProtectedRoute(s, None), page)
    case HasRole(r) => FromVerdict(ProtectedRoute(s, Some(r)), page)
  }

  function FromVerdict(v: Verdict, page: Page): Screen {
    match v
    case Spinner => Spinning
    case Redirect(to) => GoTo(to)
    case RenderChildren => Show(page)
  }

  /** A session that is settled (not loading) and authenticated. */
  predicate SettledIn(s: State) {
    !s.isLoading && s.isAuthenticated
  }

  /** The four role areas admit exactly their own role, compared as strings. */
  lemma {:induction false} RoleAreaAdmitsExactly(s: State, path: string, r: Role)
    requires SettledIn(s) && s.user.Some?
    requires GuardOf(Match(path)) == HasRole(RoleName(r))
    ensures Navigate(s, path) == Show(Match(path)) <==> s.user.value.role == r
    ensures s.user.value.role != r ==> Navigate(s, path) == GoTo(UnauthorizedRoute)
  {
    assert RoleName(s.user.value.role) == RoleName(r) <==> s.user.value.role == r;
  }

  /** The dashboard needs a settled, authenticated session and nothing more. */
  lemma DashboardNeedsOnlyAuthentication(s: State)
    ensures Navigate(s, "/dashboard") == (if s.isLoading then Spinning
                                           else if !s.isAuthenticated then GoTo(LoginRoute)
                                           else Show(DashboardPage))
  {
  }

  /** Every path under one of the four role prefixes lands in that role's area. */
  lemma {:induction false} AreasCoverTheirPrefixes(rest: string)
    ensures Match("/client/" + rest) == ClientArea
    ensures Match("/driver/" + rest) == DriverArea
    ensures Match("/admin/" + rest) == AdminArea
    ensures Match("/manager/" + rest) == ManagerArea
  {
    var c, d, a, m := "/client/" + rest, "/driver/" + rest, "/admin/" + rest, "/manager/" + rest;
    assert c[1] == 'c' && d[1] == 'd' && a[1] == 'a' && m[1] == 'm';
    assert "/login"[1] == 'l' && "/tracking"[1] == 't' && "/unauthorized"[1] == 'u' && "/dashboard"[1] == 'd';
    assert StartsWith(c, "/client" + "/") && StartsWith(d, "/driver" + "/");
    assert StartsWith(a, "/admin" + "/") && StartsWith(m, "/manager" + "/");
    assert d != "/dashboard" by { assert d[2] == 'r' && "/dashboard"[2] == 'a'; }
    assert ("/client" + "/")[1] == 'c' && ("/driver" + "/")[1] == 'd' && ("/admin" + "/")[1] == 'a';
  }

  /** A manager is turned away from the administration area. */
  lemma ManagerDeniedAdmin(s: State, rest: string)
    requires SettledIn(s) && s.user.Some? && s.user.value.role == Manager
    ensures Navigate(s, "/admin/" + rest) == GoTo(UnauthorizedRoute)
  {
    AreasCoverTheirPrefixes(rest);
  }

  /** While the session is being checked no guarded page redirects. */
  lemma LoadingNeverRedirectsGuarded(s: State, path: string)
    requires s.isLoading
    requires GuardOf(Match(path)).SignedIn? || GuardOf(Match(path)).HasRole?
    ensures Navigate(s, path) == Spinning
  {
  }
}
