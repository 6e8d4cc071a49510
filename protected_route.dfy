/** The route guard of src/components/ProtectedRoute.tsx and the table of
    routes in src/App.tsx that says which paths it guards. */
module ProtectedRoute {
  import opened Wrappers
  import opened AuthContext

  /** What the guard renders: the loading spinner, a redirect, or the page. */
  datatype RouteOutcome = Spinner | RedirectTo(path: string) | Render

  /** `authState.user?.role === 'ADMIN'`: false when there is no user. */
  predicate IsAdmin(a: AuthState)
  {
    a.user.Some? && a.user.value.role == "ADMIN"
  }

  /** The guard's ordered decision: loading first, then authentication, then
      the admin role for admin-only routes. */
  function Guard(adminOnly: bool, a: AuthState): (r: RouteOutcome)
    ensures a.isLoading <==> r == Spinner
    ensures r == RedirectTo("/login") <==> !a.isLoading && !a.isAuthenticated
    ensures r == RedirectTo("/home") <==> !a.isLoading && a.isAuthenticated && adminOnly && !IsAdmin(a)
    ensures r == Render <==> !a.isLoading && a.isAuthenticated && (adminOnly ==> IsAdmin(a))
    ensures r.RedirectTo? ==> r.path == "/login" || r.path == "/home"
  {
    if a.isLoading then Spinner
    else if !a.isAuthenticated then RedirectTo("/login")
    else if adminOnly && !IsAdmin(a) then RedirectTo("/home")
    else Render
  }

  /** On a route that is not admin-only the role of the user is never read. */
  lemma GuardIgnoresRoleOnPlainRoutes(a: AuthState, u: User)
    requires a.user.Some?
    ensures Guard(false, a) == Guard(false, a.(user := Some(u)))
    ensures Guard(false, a) == Guard(false, a.(user := None))
  {
  }

  /** One entry of the route table: its path, whether the guard wraps it,
      whether it is admin-only (`adminOnly` defaults to false), and the
      target when its element is a `<Redirect>` rather than a page. */
  datatype RouteEntry = RouteEntry(path: string, guarded: bool, adminOnly: bool, redirectTo: Option<string>)

  /** The `<Switch>` of the application shell, in declaration order. */
  function AppRoutes(): (rs: seq<RouteEntry>)
    ensures |rs| == 11
  {
    [ RouteEntry("/", false, false, Some("/home")),
      RouteEntry("/home", false, false, None),
      RouteEntry("/search", false, false, None),
      RouteEntry("/reviewlist/:bookId", false, false, None),
      RouteEntry("/checkout/:bookId", false, false, None),
      RouteEntry("/login", false, false, None),
      RouteEntry("/register", false, false, None),
      RouteEntry("/shelf", true, false, None),
      RouteEntry("/messages", true, false, None),
      RouteEntry("/admin", true, true, None),
      RouteEntry("/fees", true, false, None) ]
  }

  /** What a visitor sees on a route of the table. */
  function Visit(r: RouteEntry, a: AuthState): (o: RouteOutcome)
    ensures r.redirectTo.Some? ==> o == RedirectTo(r.redirectTo.value)
    ensures r.redirectTo.None? && !r.guarded ==> o == Render
    ensures r.redirectTo.None? && r.guarded ==> o == Guard(r.adminOnly, a)
  {
    if r.redirectTo.Some? then RedirectTo(r.redirectTo.value)
    else if r.guarded then Guard(r.adminOnly, a)
    else Render
  }

  /** Exactly four paths are guarded and `/admin` is the only admin-only
      one; only `/` redirects, to `/home`, which renders for every visitor. */
  lemma GuardedRoutes()
    ensures forall i | 0 <= i < |AppRoutes()| ::
      AppRoutes()[i].guarded <==> AppRoutes()[i].path in {"/shelf", "/messages", "/admin", "/fees"}
    ensures forall i | 0 <= i < |AppRoutes()| ::
      AppRoutes()[i].adminOnly <==> AppRoutes()[i].path == "/admin"
    ensures forall i | 0 <= i < |AppRoutes()| :: AppRoutes()[i].adminOnly ==> AppRoutes()[i].guarded
    ensures forall i | 0 <= i < |AppRoutes()| ::
      AppRoutes()[i].redirectTo.Some? <==> AppRoutes()[i].path == "/"
    ensures forall a: AuthState :: Visit(AppRoutes()[0], a) == RedirectTo("/home") && Visit(AppRoutes()[1], a) == Render
  {
  }

  /** A user who has just logged in with a non-admin role and asks for the
      admin-only route is sent to `/home`, not back to `/login`. */
  lemma LoginThenAdminRoute(s: Session, resp: LoginResponse)
    requires resp.role != "ADMIN"
    ensures Guard(true, Step(s, Login("a@b.com", "pw", Ok(resp))).auth) == RedirectTo("/home")
  {
  }
}
