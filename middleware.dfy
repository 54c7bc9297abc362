/** The route guard of frontend/src/middleware.ts. Pass-through and the
    login redirect are returned as values; the `redirect` search parameter
    carries the pathname (its percent-encoding is not modelled). */
module RouteGuard {

  const TokenCookie: string := "auth-token"

  const ProtectedRoutes: seq<string> := ["/cart", "/checkout", "/orders", "/profile", "/settings"]

  const AdminRoutes: seq<string> := ["/admin"]

  datatype Decision = Next | RedirectToLogin(redirect: string)

  /** `routes.some(route => pathname.startsWith(route))` */
  function SomePrefix(routes: seq<string>, pathname: string): (r: bool)
    ensures r <==> exists i :: 0 <= i < |routes| && routes[i] <= pathname
    decreases |routes|
  {
    if routes == [] then false
    else routes[0] <= pathname || SomePrefix(routes[1..], pathname)
  }

  /** Under /cart, /checkout, /orders, /profile or /settings, by raw prefix. */
  function IsProtectedRoute(pathname: string): (r: bool)
    ensures r <==> "/cart" <= pathname || "/checkout" <= pathname || "/orders" <= pathname
                   || "/profile" <= pathname || "/settings" <= pathname
  {
    SomePrefix(ProtectedRoutes, pathname)
  }

  /** Under /admin, by raw prefix. */
  function IsAdminRoute(pathname: string): (r: bool)
    ensures r <==> "/admin" <= pathname
  {
    SomePrefix(AdminRoutes, pathname)
  }

  /** middleware: a guarded path without the cookie goes to the login page;
      anything else passes. Roles are never looked at. */
  function Middleware(pathname: string, cookies: map<string, string>): (d: Decision)
    ensures d.RedirectToLogin? <==> (IsProtectedRoute(pathname) || IsAdminRoute(pathname)) && TokenCookie !in cookies
    ensures d.RedirectToLogin? ==> d.redirect == pathname
  {
    var hasToken := TokenCookie in cookies;
    if IsProtectedRoute(pathname) && !hasToken then RedirectToLogin(pathname)
    else if IsAdminRoute(pathname) && !hasToken then RedirectToLogin(pathname)
    else Next
  }

  /** `base/:path*`: the base itself or anything below it. */
  predicate MatchesBase(base: string, pathname: string)
  {
    pathname == base || base + "/" <= pathname
  }

  /** The matcher: the middleware runs only on these paths. */
  function Matched(pathname: string): (r: bool)
    ensures r <==> exists i :: 0 <= i < |ProtectedRoutes + AdminRoutes| && MatchesBase((ProtectedRoutes + AdminRoutes)[i], pathname)
  {
    var bases := ProtectedRoutes + AdminRoutes;
    exists i :: 0 <= i < |bases| && MatchesBase(bases[i], pathname)
  }

  /** What a request meets: the middleware on matched paths, pass-through elsewhere. */
  function Route(pathname: string, cookies: map<string, string>): (d: Decision)
    ensures !Matched(pathname) ==> d == Next
  {
    if Matched(pathname) then Middleware(pathname, cookies) else Next
  }

  lemma PrefixOfMatch(base: string, pathname: string)
    requires MatchesBase(base, pathname)
    ensures base <= pathname
  {
    if pathname != base {
      assert pathname[..|base|] == (base + "/")[..|base|];
    }
  }

  /** Every path the matcher sends to the middleware is guarded, so there the
      cookie alone decides. */
  lemma MatchedPathsAreGuarded(pathname: string, cookies: map<string, string>)
    requires Matched(pathname)
    ensures IsProtectedRoute(pathname) || IsAdminRoute(pathname)
    ensures Route(pathname, cookies).RedirectToLogin? <==> TokenCookie !in cookies
  {
    var bases := ProtectedRoutes + AdminRoutes;
    var i :| 0 <= i < |bases| && MatchesBase(bases[i], pathname);
    PrefixOfMatch(bases[i], pathname);
    if i < |ProtectedRoutes| {
      assert ProtectedRoutes[i] <= pathname;
    } else {
      assert AdminRoutes[i - |ProtectedRoutes|] <= pathname;
    }
  }

  /** With the cookie present every path passes, the admin area included. */
  lemma CookieOpensEverything(pathname: string, cookies: map<string, string>)
    requires TokenCookie in cookies
    ensures Middleware(pathname, cookies) == Next && Route(pathname, cookies) == Next
  {
  }

  /** A path outside every guarded prefix passes with or without the cookie. */
  lemma PublicPathsPass(pathname: string, cookies: map<string, string>)
    requires !IsProtectedRoute(pathname) && !IsAdminRoute(pathname)
    ensures Middleware(pathname, cookies) == Next
  {
  }

  /** The prefix test is raw: `/cartx` counts as protected, although the
      matcher never sends it to the middleware. */
  lemma RawPrefix()
    ensures IsProtectedRoute("/cartx")
    ensures Middleware("/cartx", map[]) == RedirectToLogin("/cartx")
    ensures !Matched("/cartx") && Route("/cartx", map[]) == Next
  {
    assert ProtectedRoutes[0] <= "/cartx";
    var bases := ProtectedRoutes + AdminRoutes;
    forall i | 0 <= i < |bases| ensures !MatchesBase(bases[i], "/cartx") {
      if i == 0 {
        assert "/cartx"[5] != (bases[0] + "/")[5];
      } else if i == 1 {
        assert "/cartx"[2] != bases[1][2];
      } else {
        assert "/cartx"[1] != bases[i][1];
      }
    }
  }

  /** A nested admin page without the cookie redirects back to itself after login. */
  lemma AdminPageRedirects()
    ensures Route("/admin/products", map[]) == RedirectToLogin("/admin/products")
  {
    assert MatchesBase("/admin", "/admin/products");
    assert (ProtectedRoutes + AdminRoutes)[5] == "/admin";
    MatchedPathsAreGuarded("/admin/products", map[]);
  }
}
