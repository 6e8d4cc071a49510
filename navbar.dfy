/** The navigation bar of src/layouts/NavbarAndFooter/Navbar.tsx: which links
    it shows for a given session, and its logout button. */
module Navbar {
  import opened Wrappers
  import opened AuthContext
  import opened ProtectedRoute

  /** The entries the bar can show. `UserMenu` is the dropdown that carries
      the user's name and the Logout button. */
  datatype NavItem = Home | SearchBooks | Shelf | PayFees | Admin | SignIn | SignUp | UserMenu

  /** The bar shows the spinner alone while loading, otherwise a set of items. */
  datatype NavView = NavSpinner | Items(items: set<NavItem>)

  /** The items rendered for `a`, condition by condition as in the markup. */
  function NavbarView(a: AuthState): (v: NavView)
    ensures a.isLoading <==> v == NavSpinner
    ensures v.Items? ==> Home in v.items && SearchBooks in v.items
    ensures v.Items? ==> (Shelf in v.items <==> a.isAuthenticated) && (PayFees in v.items <==> a.isAuthenticated)
    ensures v.Items? ==> (Admin in v.items <==> a.isAuthenticated && IsAdmin(a))
    ensures v.Items? ==> (SignIn in v.items <==> !a.isAuthenticated) && (SignUp in v.items <==> !a.isAuthenticated)
    ensures v.Items? ==> (UserMenu in v.items <==> a.isAuthenticated)
  {
    if a.isLoading then NavSpinner
    else
      Items({Home, SearchBooks}
        + (if a.isAuthenticated then {Shelf} else {})
        + (if a.isAuthenticated then {PayFees} else {})
        + (if a.isAuthenticated && IsAdmin(a) then {Admin} else {})
        + (if !a.isAuthenticated then {SignIn, SignUp} else {UserMenu}))
  }

  /** The route each link of the bar points to. */
  function LinkTarget(item: NavItem): (path: Option<string>)
    ensures path.None? <==> item == UserMenu
  {
    match item
    case Home => Some("/home")
    case SearchBooks => Some("/search")
    case Shelf => Some("/shelf")
    case PayFees => Some("/fees")
    case Admin => Some("/admin")
    case SignIn => Some("/login")
    case SignUp => Some("/register")
    case UserMenu => None
  }

  /** The sign-in buttons and the user menu are never shown together. */
  lemma SignInAndUserMenuExclusive(a: AuthState)
    ensures NavbarView(a).Items? ==> (SignIn in NavbarView(a).items) != (UserMenu in NavbarView(a).items)
  {
  }

  /** The Admin link is shown exactly when the guard would render the
      admin-only route, and the Shelf and Pay fees links exactly when the
      guard would render their plain routes: the bar never offers a link
      that the guard then refuses. */
  lemma LinksAgreeWithGuard(a: AuthState)
    requires !a.isLoading
    ensures Admin in NavbarView(a).items <==> Guard(true, a) == Render
    ensures Shelf in NavbarView(a).items <==> Guard(false, a) == Render
    ensures PayFees in NavbarView(a).items <==> Guard(false, a) == Render
  {
  }

  /** Every link shown on a route of the application table leads to a page
      the visitor is allowed to see. */
  lemma ShownLinksAreServable(a: AuthState, item: NavItem, i: int)
    requires !a.isLoading && item in NavbarView(a).items
    requires 0 <= i < |AppRoutes()| && LinkTarget(item) == Some(AppRoutes()[i].path)
    ensures Visit(AppRoutes()[i], a) == Render
  {
  }

  /** Every link of the bar points to a page route of the application table,
      and when the link is shown that route renders for the visitor. */
  lemma LinksHaveRoutes(a: AuthState, item: NavItem)
    requires item != UserMenu
    ensures exists i | 0 <= i < |AppRoutes()| ::
      LinkTarget(item) == Some(AppRoutes()[i].path) && AppRoutes()[i].redirectTo.None?
    ensures !a.isLoading && item in NavbarView(a).items ==>
      exists i | 0 <= i < |AppRoutes()| ::
        LinkTarget(item) == Some(AppRoutes()[i].path) && Visit(AppRoutes()[i], a) == Render
  {
    var rs := AppRoutes();
    var i := match item
      case Home => 1
      case SearchBooks => 2
      case Shelf => 7
      case PayFees => 10
      case Admin => 9
      case SignIn => 5
      case SignUp => 6;
    assert LinkTarget(item) == Some(rs[i].path) && rs[i].redirectTo.None?;
    if !a.isLoading && item in NavbarView(a).items {
      assert Visit(rs[i], a) == Render;
    }
  }

  /** `handleLogout`: the Logout button delegates to the provider's `logout`. */
  method HandleLogout(provider: AuthProvider)
    requires provider.Valid()
    modifies provider
    ensures provider.Valid()
    ensures provider.authState == LoggedOut() && provider.stored.None?
    ensures NavbarView(provider.authState) == Items({Home, SearchBooks, SignIn, SignUp})
  {
    provider.Logout();
  }
}
