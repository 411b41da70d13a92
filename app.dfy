/**
 * The application shell (App.tsx): the auth provider's state, the route table
 * and the guard that sends signed-out visitors of the dashboard to the login
 * page. Routes are matched by exact path equality.
 */
module App {
  import opened Records

  datatype Page = LandingView | LoginView | DashboardView

  /** What the shell puts on screen: the full-screen loader, a redirect, or a page. */
  datatype Rendered = Loader | Redirect(to: string, state: Option<NavState>, replace: bool) | Show(page: Page)

  /**
   * `ProtectedRoute`: the loader while the auth state is unknown; a replacing
   * redirect to the login page, remembering where the visitor was, when nobody
   * is signed in; the guarded page otherwise.
   */
  function ProtectedRoute(user: Option<User>, loading: bool, location: Location, page: Page): (r: Rendered)
    ensures loading ==> r == Loader
    ensures !loading && user.None? ==> r == Redirect("/login", Some(NavState(Some(location))), true)
    ensures !loading && user.Some? ==> r == Show(page)
  {
    if loading then Loader
    else if user.None? then Redirect("/login", Some(NavState(Some(location))), true)
    else Show(page)
  }

  /**
   * `Router`: the loader until the first auth callback; then the landing page,
   * the login page, the guarded dashboard, or, for any other path, a redirect
   * home.
   */
  function Router(user: Option<User>, loading: bool, location: Location): (r: Rendered)
    ensures loading ==> r == Loader
    ensures !loading && location.pathname == "/" ==> r == Show(LandingView)
    ensures !loading && location.pathname == "/login" ==> r == Show(LoginView)
    ensures !loading && location.pathname == "/dashboard" ==> r == ProtectedRoute(user, loading, location, DashboardView)
    ensures !loading && location.pathname !in {"/", "/login", "/dashboard"} ==> r == Redirect("/", None, false)
  {
    if loading then Loader
    else if location.pathname == "/" then Show(LandingView)
    else if location.pathname == "/login" then Show(LoginView)
    else if location.pathname == "/dashboard" then ProtectedRoute(user, loading, location, DashboardView)
    else Redirect("/", None, false)
  }

  /** The dashboard is on screen only for a signed-in user once the auth state is known, and only at its path. */
  lemma DashboardNeedsUser(user: Option<User>, loading: bool, location: Location)
    ensures Router(user, loading, location) == Show(DashboardView) <==>
            !loading && user.Some? && location.pathname == "/dashboard"
  {
  }

  /** Following any redirect the shell issues lands on a page at once: redirects never chain. */
  lemma RedirectsDoNotChain(user: Option<User>, location: Location)
    requires Router(user, false, location).Redirect?
    ensures Router(user, false, Location(Router(user, false, location).to)).Show?
  {
  }

  /** The auth state the provider shares with every page. */
  class AuthProvider {
    var user: Option<User>
    var loading: bool

    constructor ()
      ensures user == None && loading
    {
      user := None;
      loading := true;
    }

    /** The auth listener: it records the reported user (or none) and ends loading. */
    method OnAuthStateChanged(u: Option<User>)
      modifies this
      ensures user == u && !loading
    {
      user := u;
      loading := false;
    }

    function Render(location: Location): Rendered
      reads this
    {
      Router(user, loading, location)
    }
  }
}
