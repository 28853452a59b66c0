/**
 * The two route guards, src/components/ProtectedRoute.tsx and
 * src/components/PublicRoute.tsx: pure decisions on `(loading, isLoggedIn)`.
 */
module Guards {

  /** What a guard renders. */
  datatype Element = Loader | Outlet | Navigate(to: string, replace: bool)

  /** Guard for the signed-in area. */
  function ProtectedRoute(loading: bool, isLoggedIn: bool): (e: Element)
    ensures loading ==> e == Loader
    ensures e == Outlet <==> isLoggedIn && !loading
    ensures !loading && !isLoggedIn ==> e == Navigate("/login", true)
  {
    if loading then Loader
    else if isLoggedIn then Outlet
    else Navigate("/login", true)
  }

  /** Guard for the login area. */
  function PublicRoute(loading: bool, isLoggedIn: bool): (e: Element)
    ensures loading ==> e == Loader
    ensures e == Outlet <==> !isLoggedIn && !loading
    ensures !loading && isLoggedIn ==> e == Navigate("/", true)
  {
    if loading then Loader
    else if !isLoggedIn then Outlet
    else Navigate("/", true)
  }

  /** The two guards never both let their children through; once loading ends, exactly one does. */
  lemma GuardsExclusive(loading: bool, isLoggedIn: bool)
    ensures !(ProtectedRoute(loading, isLoggedIn) == Outlet && PublicRoute(loading, isLoggedIn) == Outlet)
    ensures !loading ==> (ProtectedRoute(loading, isLoggedIn) == Outlet) != (PublicRoute(loading, isLoggedIn) == Outlet)
  {
  }
}
