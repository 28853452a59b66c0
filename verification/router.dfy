/**
 * The route table of src/router/AppRouter.tsx and what the app renders for
 * a path, given the one session that the single `AuthProvider` around the
 * router supplies to both guards.
 */
module Router {
  import opened Wrappers
  import opened Guards
  import Session
  import Api

  datatype Guard = Public | Protected
  datatype Layout = AuthLayout | MainLayout
  datatype Page = Login | Dashboard | Profile | Tasks

  /** A leaf route: its full path, the guard above it, its layout and its page. */
  datatype Route = Route(path: string, guard: Guard, layout: Layout, page: Page)

  const Routes: seq<Route> := [
    Route("/login", Public, AuthLayout, Login),
    Route("/", Protected, MainLayout, Dashboard),     // the index route under "/"
    Route("/perfil", Protected, MainLayout, Profile),
    Route("/tareas", Protected, MainLayout, Tasks)
  ]

  /** The route declared for `path`, if any. */
  function Find(routes: seq<Route>, path: string): (r: Option<Route>)
    ensures r.Some? ==> r.value in routes && r.value.path == path
    ensures r.None? <==> forall k :: 0 <= k < |routes| ==> routes[k].path != path
  {
    if routes == [] then None
    else if routes[0].path == path then Some(routes[0])
    else Find(routes[1..], path)
  }

  predicate Declared(path: string) { Find(Routes, path).Some? }

  /** What the browser shows. */
  datatype Screen =
    | NoMatch                              // no route matches: nothing renders
    | Loading                              // a guard shows the full-screen loader
    | Shown(layout: Layout, page: Page)    // the guard's Outlet renders layout and page
    | Redirect(to: string, replace: bool)  // the guard navigates elsewhere

  function GuardElement(g: Guard, loading: bool, isLoggedIn: bool): Element
  {
    match g
    case Public => PublicRoute(loading, isLoggedIn)
    case Protected => ProtectedRoute(loading, isLoggedIn)
  }

  /** Rendering `path` under one session `(loading, isLoggedIn)`. */
  function Render(path: string, loading: bool, isLoggedIn: bool): (s: Screen)
    ensures s.Shown? ==> Declared(path) && !loading
    ensures s.Shown? && s.page != Login ==> isLoggedIn
    ensures s.Shown? && s.page == Login ==> !isLoggedIn
  {
    match Find(Routes, path)
    case None => NoMatch
    case Some(r) =>
      match GuardElement(r.guard, loading, isLoggedIn)
      case Loader => Loading
      case Outlet => Shown(r.layout, r.page)
      case Navigate(to, replace) => Redirect(to, replace)
  }

  /** The table as declared: where each path sits and what it renders. */
  lemma RouteTable()
    ensures Find(Routes, "/login") == Some(Route("/login", Public, AuthLayout, Login))
    ensures Find(Routes, "/") == Some(Route("/", Protected, MainLayout, Dashboard))
    ensures Find(Routes, "/perfil") == Some(Route("/perfil", Protected, MainLayout, Profile))
    ensures Find(Routes, "/tareas") == Some(Route("/tareas", Protected, MainLayout, Tasks))
  {
  }

  /** Every declared path is declared once, so it sits under exactly one guard. */
  lemma PathsUnique()
    ensures forall i, j :: 0 <= i < j < |Routes| ==> Routes[i].path != Routes[j].path
    ensures forall k :: 0 <= k < |Routes| && Routes[k].guard == Public ==> Routes[k].path == "/login"
  {
  }

  /** Protected pages are never shown logged out, the login page never logged in. */
  lemma NoLeak(path: string, loading: bool, isLoggedIn: bool)
    ensures Render(path, loading, isLoggedIn).Shown? ==>
      (Find(Routes, path).value.guard == Protected <==> isLoggedIn)
  {
  }

  /** With a settled session, a declared path renders a page, or redirects once to a path that does. */
  lemma NoRedirectLoop(path: string, isLoggedIn: bool)
    requires Declared(path)
    ensures var s := Render(path, false, isLoggedIn);
      s.Shown? ||
      (s.Redirect? && s.replace && Declared(s.to) &&
       Find(Routes, s.to).value.guard != Find(Routes, path).value.guard &&
       Render(s.to, false, isLoggedIn).Shown?)
  {
    RouteTable();
    var r := Find(Routes, path).value;
    assert r in Routes;
  }

  /** In any reachable session, a shown protected page implies a stored token entry. */
  lemma ProtectedPageHasToken(st: Session.SessionState, path: string)
    requires Session.Inv(st)
    requires Render(path, st.loading, st.isLoggedIn).Shown?
    requires Find(Routes, path).value.guard == Protected
    ensures Api.AuthKey in st.storage
  {
    NoLeak(path, st.loading, st.isLoggedIn);
  }
}
