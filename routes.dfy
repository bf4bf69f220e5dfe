/**
 * The client-side route table of the application and the outcome of a page
 * guard: either the page renders, or it navigates somewhere else and renders
 * nothing.
 */
module Routes {

  /** What a page does when it is entered. */
  datatype Outcome = Render | Redirect(path: string)

  /** The static paths the router declares. */
  const StaticRoutes: set<string> :=
    {"/", "/login", "/register", "/dashboard", "/book-service", "/track-order", "/admin", "/partner"}

  /** The one parameterised route, `/review/:orderId`. */
  const ReviewPrefix: string := "/review/"

  /** True when `path` (without its query string) is matched by a declared route, not by the catch-all. */
  predicate IsDeclared(path: string)
  {
    path in StaticRoutes
    || (|ReviewPrefix| < |path| && path[..|ReviewPrefix|] == ReviewPrefix && '/' !in path[|ReviewPrefix|..])
  }

  /** The page that handles `path`: its own name when declared, "*" (not found) otherwise. */
  function Resolve(path: string): (page: string)
    ensures page == "*" <==> !IsDeclared(path)
    ensures path in StaticRoutes ==> page == path
  {
    if path in StaticRoutes then path
    else if IsDeclared(path) then ReviewPrefix
    else "*"
  }
}
