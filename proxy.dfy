/**
 * The route gate (proxy.ts): a pure decision over the request's pathname and
 * its cookies. Route lists are matched by raw prefix, and only the refresh
 * token's cookie is consulted.
 */
module Gate {
  import opened Tokens

  /** Routes that require authentication. */
  const ProtectedRoutes: seq<string> := ["/dashboard"]
  /** Routes an authenticated user is sent away from. */
  const AuthRoutes: seq<string> := ["/login", "/register"]

  const LoginPath: string := "/login"
  const DashboardPath: string := "/dashboard"

  /** `s.startsWith(prefix)`. */
  predicate StartsWith(s: string, prefix: string) {
    |prefix| <= |s| && s[..|prefix|] == prefix
  }

  /** `routes.some(route => path.startsWith(route))`. */
  function AnyPrefix(routes: seq<string>, path: string): (b: bool)
    ensures b <==> exists i :: 0 <= i < |routes| && StartsWith(path, routes[i])
  {
    if routes == [] then false else StartsWith(path, routes[0]) || AnyPrefix(routes[1..], path)
  }

  predicate IsProtected(path: string) {
    AnyPrefix(ProtectedRoutes, path)
  }

  predicate IsAuthRoute(path: string) {
    AnyPrefix(AuthRoutes, path)
  }

  /** `req.cookies.get("app_refresh_token")?.value`, read for truthiness: absent and "" both mean no token. */
  predicate HasToken(cookies: map<string, string>) {
    Truthy(Lookup(cookies, RefreshKey))
  }

  datatype Decision = RedirectTo(target: string) | Next

  /** No path is both protected and an auth route, since "/d" differs from "/l" and "/r". */
  lemma RouteListsDisjoint(path: string)
    ensures !(IsProtected(path) && IsAuthRoute(path))
  {
    if IsProtected(path) {
      assert path[1] == DashboardPath[1] == 'd';
      assert !StartsWith(path, AuthRoutes[0]) by { assert AuthRoutes[0][1] == 'l'; }
      assert !StartsWith(path, AuthRoutes[1]) by { assert AuthRoutes[1][1] == 'r'; }
    }
  }

  /** `proxy(req)` (lines 10-35). */
  function Proxy(path: string, cookies: map<string, string>): (d: Decision)
    ensures d == RedirectTo(LoginPath) <==> IsProtected(path) && !HasToken(cookies)
    ensures d == RedirectTo(DashboardPath) <==> IsAuthRoute(path) && HasToken(cookies)
    ensures d == Next <==> !(IsProtected(path) && !HasToken(cookies)) && !(IsAuthRoute(path) && HasToken(cookies))
  {
    RouteListsDisjoint(path);
    if IsProtected(path) && !HasToken(cookies) then
      RedirectTo(LoginPath)
    else if IsAuthRoute(path) && HasToken(cookies) then
      RedirectTo(DashboardPath)
    else
      Next
  }

  /** No redirect loop: with the same cookies, wherever the gate redirects to passes. */
  lemma NoRedirectLoop(path: string, cookies: map<string, string>)
    ensures Proxy(path, cookies).RedirectTo? ==> Proxy(Proxy(path, cookies).target, cookies) == Next
  {
    assert StartsWith(LoginPath, AuthRoutes[0]);
    assert StartsWith(DashboardPath, ProtectedRoutes[0]);
    RouteListsDisjoint(LoginPath);
    RouteListsDisjoint(DashboardPath);
  }

  /** Matching is a raw prefix test: "/dashboardX" is protected and "/login-help" is an auth route. */
  lemma RawPrefixMatching(cookies: map<string, string>)
    ensures !HasToken(cookies) ==> Proxy("/dashboardX", cookies) == RedirectTo(LoginPath)
    ensures HasToken(cookies) ==> Proxy("/login-help", cookies) == RedirectTo(DashboardPath)
  {
    assert StartsWith("/dashboardX", ProtectedRoutes[0]);
    assert StartsWith("/login-help", AuthRoutes[0]);
  }

  /** Only the refresh-token cookie matters: cookies that agree on it get the same decision. */
  lemma OnlyRefreshCookieConsulted(path: string, c1: map<string, string>, c2: map<string, string>)
    requires Lookup(c1, RefreshKey) == Lookup(c2, RefreshKey)
    ensures Proxy(path, c1) == Proxy(path, c2)
  {
  }

  /** Once the credential store has cleared its cookies, every protected path is sent to the login page. */
  lemma ClearedCookiesGateProtected(path: string, cookies: map<string, string>)
    requires IsProtected(path)
    ensures Proxy(path, Cleared(cookies)) == RedirectTo(LoginPath)
  {
  }
}
