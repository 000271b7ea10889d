/**
 * The route table and the global navigation guard (src/router/index.ts).
 * Matching is by exact path; a path no record matches has empty meta.
 */
module Router {
  import opened Wrappers

  datatype RouteRecord = RouteRecord(path: string, name: string, requiresAuth: bool)

  /** The route table (index.ts:4-21): only the home page requires a login */
  const Routes: seq<RouteRecord> := [
    RouteRecord("/login", "Login", false),
    RouteRecord("/forgot-password", "ForgotPassword", false),
    RouteRecord("/", "Home", true)
  ]

  const LoginPath := "/login"

  function Match(routes: seq<RouteRecord>, path: string): (r: Option<RouteRecord>)
    ensures r.Some? ==> r.value in routes && r.value.path == path
    ensures r.None? ==> forall i :: 0 <= i < |routes| ==> routes[i].path != path
  {
    if routes == [] then None
    else if routes[0].path == path then Some(routes[0])
    else Match(routes[1..], path)
  }

  /** `to.meta.requiresAuth` for a path of this router */
  predicate RequiresAuth(path: string) {
    var matched := Match(Routes, path);
    matched.Some? && matched.value.requiresAuth
  }

  datatype Navigation = Proceed | RedirectTo(path: string)

  /** `router.beforeEach` (index.ts:29-37) */
  function BeforeEach(to: string, from: string, loggedIn: bool): (n: Navigation)
    ensures n == RedirectTo(LoginPath) <==> RequiresAuth(to) && !loggedIn
    ensures n == Proceed <==> !(RequiresAuth(to) && !loggedIn)
  {
    if RequiresAuth(to) && !loggedIn then RedirectTo(LoginPath) else Proceed
  }

  /** Only `/` requires a login; the other routes, and unknown paths, do not. */
  lemma OnlyHomeRequiresAuth(path: string)
    ensures RequiresAuth(path) <==> path == "/"
  {
    assert Routes[2].path == "/";
    if path == "/" {
      assert Routes[0].path != path && Routes[1].path != path;
      assert Match(Routes, "/") == Match(Routes[1..], "/") == Match(Routes[2..], "/");
    }
  }

  /** The guard's redirect is never redirected again, so navigation cannot loop. */
  lemma RedirectIsFinal(to: string, from: string, loggedIn: bool)
    ensures BeforeEach(to, from, loggedIn).RedirectTo? ==>
              BeforeEach(BeforeEach(to, from, loggedIn).path, to, loggedIn) == Proceed
  {
    OnlyHomeRequiresAuth(LoginPath);
  }

  /** The outcome depends on the target and the login state, never on where navigation starts. */
  lemma GuardIgnoresOrigin(to: string, from1: string, from2: string, loggedIn: bool)
    ensures BeforeEach(to, from1, loggedIn) == BeforeEach(to, from2, loggedIn)
  {
  }

  /** The page the API client sends a dead session to is not in the table, so the guard lets it load. */
  lemma LoginBeforeIsUnguarded(from: string, loggedIn: bool)
    ensures Match(Routes, "/login-before").None?
    ensures BeforeEach("/login-before", from, loggedIn) == Proceed
  {
  }
}
