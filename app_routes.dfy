/** The client's route table and the guard around its protected pages. */
module AppRoutes {
  import opened Wrappers
  import opened ClientTypes
  import Auth

  datatype Outcome = ShowLoading | RedirectToLogin | RenderChildren

  /** The guard: wait while loading, send a signed-out visitor to the
      login page, otherwise show the page. */
  function ProtectedRoute(isAuthenticated: bool, isLoading: bool): Outcome {
    if isLoading then ShowLoading
    else if !isAuthenticated then RedirectToLogin
    else RenderChildren
  }

  lemma ProtectedRouteCases(isAuthenticated: bool, isLoading: bool)
    ensures ProtectedRoute(isAuthenticated, isLoading) == ShowLoading <==> isLoading
    ensures ProtectedRoute(isAuthenticated, isLoading) == RedirectToLogin <==> !isLoading && !isAuthenticated
    ensures ProtectedRoute(isAuthenticated, isLoading) == RenderChildren <==> !isLoading && isAuthenticated
  {
  }

  datatype Page = LoginPage | RegisterPage | DashboardPage | SettingsPage

  datatype Route = Route(path: string, page: Page, isProtected: bool)

  /** The children of the layout route at `/`. */
  const Routes: seq<Route> := [
    Route("/login", LoginPage, false),
    Route("/register", RegisterPage, false),
    Route("/", DashboardPage, true),
    Route("/settings", SettingsPage, true)
  ]

  datatype Screen = Loading | Redirect(to: string) | Show(page: Page)

  /** What a visit to a route shows in a session. */
  function Visit(r: Route, s: Auth.Session): Screen {
    if !r.isProtected then Show(r.page)
    else match ProtectedRoute(s.isAuthenticated, s.isLoading)
      case ShowLoading => Loading
      case RedirectToLogin => Redirect("/login")
      case RenderChildren => Show(r.page)
  }

  /** The route serving a path, if any. */
  function Lookup(path: string): (r: Option<Route>)
    ensures r.Some? ==> r.value in Routes && r.value.path == path
    ensures r.None? ==> forall i :: 0 <= i < |Routes| ==> Routes[i].path != path
  {
    if path == "/login" then Some(Routes[0])
    else if path == "/register" then Some(Routes[1])
    else if path == "/" then Some(Routes[2])
    else if path == "/settings" then Some(Routes[3])
    else None
  }

  /** The index and settings pages are guarded, login and register are not,
      and the four paths are distinct. */
  lemma RouteTable()
    ensures |Routes| == 4
    ensures forall i :: 0 <= i < |Routes| ==> (Routes[i].isProtected <==> Routes[i].page in {DashboardPage, SettingsPage})
    ensures forall i, j :: 0 <= i < j < |Routes| ==> Routes[i].path != Routes[j].path
  {
  }

  /** An unprotected page always shows; a protected one shows only in a
      signed-in session that has finished loading. */
  lemma VisitFacts(r: Route, s: Auth.Session)
    ensures !r.isProtected ==> Visit(r, s) == Show(r.page)
    ensures r.isProtected ==> (Visit(r, s) == Show(r.page) <==> s.isAuthenticated && !s.isLoading)
    ensures r.isProtected && s.isLoading ==> Visit(r, s) == Loading
    ensures r.isProtected && !s.isLoading && !s.isAuthenticated ==> Visit(r, s) == Redirect("/login")
  {
  }

  /** The dashboard waits during start-up, shows after a stored token is
      accepted, and redirects to login after it is rejected and after a
      logout; the login page it redirects to is unprotected. */
  lemma DashboardThroughTheSession(stored: string, me: User, s: Auth.Session)
    requires stored != ""
    ensures Visit(Routes[2], Auth.Initial(Some(stored))) == Loading
    ensures Visit(Routes[2], Auth.AfterInit(Auth.Initial(Some(stored)), Some(me))) == Show(DashboardPage)
    ensures Visit(Routes[2], Auth.AfterInit(Auth.Initial(Some(stored)), None)) == Redirect("/login")
    ensures !s.isLoading ==> Visit(Routes[2], Auth.AfterLogout(s)) == Redirect("/login")
    ensures Lookup("/login") == Some(Routes[0]) && !Routes[0].isProtected
  {
  }
}
