/** The request gate (`middleware.ts`): for each request the framework
    dispatches to it, allow the request or redirect it to the sign-in page.
    It is a pure decision on the request's path and its cookies. */
module Middleware {
  import opened Wrappers
  import opened Storage

  /** The six public routes, in the order the source lists them. */
  const PublicRoutes: seq<string> := ["/", "/signin", "/signup", "/about", "/contact", "/product"]

  /** The table's shape: six absolute paths, and only the root ends in `/`,
      so the boundary rule never sees a route that already ends in `/`
      except `/` itself. */
  lemma PublicRoutesShape()
    ensures |PublicRoutes| == 6 && PublicRoutes[0] == "/"
    ensures forall k :: 0 <= k < |PublicRoutes| ==> |PublicRoutes[k]| >= 1 && PublicRoutes[k][0] == '/'
    ensures forall k :: 1 <= k < |PublicRoutes| ==> PublicRoutes[k][|PublicRoutes[k]| - 1] != '/'
  {
  }

  /** `s.startsWith(prefix)`. */
  predicate StartsWith(s: string, prefix: string) {
    |prefix| <= |s| && s[..|prefix|] == prefix
  }

  /** `s.charAt(i)`: the one-character string at `i`, or `""` past the end. */
  function CharAt(s: string, i: nat): (r: string)
    ensures i < |s| ==> r == [s[i]]
    ensures i >= |s| ==> r == ""
  {
    if i < |s| then [s[i]] else ""
  }

  /** The test `publicRoutes.some` applies to one route: equal to it, or
      starting with it and either equal to it or followed by `/`. */
  predicate RouteMatches(route: string, path: string) {
    route == path || (StartsWith(path, route) && (path == route || CharAt(path, |route|) == "/"))
  }

  /** `routes.some(route => RouteMatches(route, path))`, scanning from the left. */
  function AnyRouteMatches(routes: seq<string>, path: string): (r: bool)
    ensures r <==> exists i :: 0 <= i < |routes| && RouteMatches(routes[i], path)
  {
    if routes == [] then false
    else
      var rest := AnyRouteMatches(routes[1..], path);
      assert rest <==> exists i :: 1 <= i < |routes| && RouteMatches(routes[i], path) by {
        forall i | 1 <= i < |routes| ensures routes[i] == routes[1..][i - 1] { }
      }
      RouteMatches(routes[0], path) || rest
  }

  /** `isPublicRoute(path)`. */
  predicate IsPublicRoute(path: string)
    ensures path in PublicRoutes ==> IsPublicRoute(path)
  {
    AnyRouteMatches(PublicRoutes, path)
  }

  /** The boundary rule: a path matches a route when it is the route itself
      or extends it with a `/`; extending it with any other character
      (`/aboutus` for `/about`) does not match. */
  lemma RouteMatchesBoundary(route: string, path: string)
    ensures RouteMatches(route, path) <==> path == route || StartsWith(path, route + "/")
  {
    if StartsWith(path, route + "/") {
      assert path[..|route|] == (route + "/")[..|route|] == route;
      assert path[|route|] == (route + "/")[|route|] == '/';
    }
    if RouteMatches(route, path) && path != route {
      assert |path| > |route| && path[|route|] == '/';
      assert path[..|route| + 1] == path[..|route|] + [path[|route|]];
    }
  }

  /** Which paths are public, written out: the six routes themselves and
      everything below one of them. Because `/` is a route, everything
      below it is every path that starts with `//`. */
  lemma PublicRouteClosedForm(path: string)
    ensures IsPublicRoute(path) <==>
      path in PublicRoutes ||
      StartsWith(path, "//") || StartsWith(path, "/signin/") || StartsWith(path, "/signup/") ||
      StartsWith(path, "/about/") || StartsWith(path, "/contact/") || StartsWith(path, "/product/")
  {
    var R := PublicRoutes;
    RouteMatchesBoundary(R[0], path);
    RouteMatchesBoundary(R[1], path);
    RouteMatchesBoundary(R[2], path);
    RouteMatchesBoundary(R[3], path);
    RouteMatchesBoundary(R[4], path);
    RouteMatchesBoundary(R[5], path);
    assert R[0] + "/" == "//";
    assert R[1] + "/" == "/signin/";
    assert R[2] + "/" == "/signup/";
    assert R[3] + "/" == "/about/";
    assert R[4] + "/" == "/contact/";
    assert R[5] + "/" == "/product/";
    assert IsPublicRoute(path) <==>
      RouteMatches(R[0], path) || RouteMatches(R[1], path) || RouteMatches(R[2], path) ||
      RouteMatches(R[3], path) || RouteMatches(R[4], path) || RouteMatches(R[5], path)
    by {
      if IsPublicRoute(path) {
        var i :| 0 <= i < |R| && RouteMatches(R[i], path);
        assert i == 0 || i == 1 || i == 2 || i == 3 || i == 4 || i == 5;
      }
    }
  }

  /** Every path under `/product/`, the booking, tracking and detail pages
      included, passes the gate through the `/product` route. */
  lemma ProductSubtreeIsPublic(path: string)
    requires StartsWith(path, "/product/")
    ensures IsPublicRoute(path)
  {
    PublicRouteClosedForm(path);
  }

  /** Every path whose second character is `/` passes through the `/` route. */
  lemma DoubleSlashIsPublic(path: string)
    requires |path| >= 2 && path[0] == '/' && path[1] == '/'
    ensures IsPublicRoute(path)
  {
    assert path[..2] == "//";
    PublicRouteClosedForm(path);
  }

  /** A path that differs from `prefix` at position `i` does not start with it. */
  lemma DiffersAt(path: string, prefix: string, i: nat)
    requires i < |path| && i < |prefix| && path[i] != prefix[i]
    ensures !StartsWith(path, prefix) && path != prefix
  {
  }

  /** A path none of whose characters after the first is `/`, and which
      equals no route, is protected. */
  lemma SingleSegmentProtected(path: string)
    requires |path| >= 2 && path[0] == '/'
    requires path !in PublicRoutes
    requires forall i :: 1 <= i < |path| ==> path[i] != '/'
    ensures !IsPublicRoute(path)
  {
    PublicRouteClosedForm(path);
    DiffersAt(path, "//", 1);
    var prefixes := ["/signin/", "/signup/", "/about/", "/contact/", "/product/"];
    forall k | 0 <= k < |prefixes| ensures !StartsWith(path, prefixes[k]) {
      var p := prefixes[k];
      assert p[|p| - 1] == '/';
      if |p| <= |path| {
        DiffersAt(path, p, |p| - 1);
      }
    }
  }

  /** Extending a public route with a character other than `/` leaves it. */
  lemma BoundaryExamplesOutside()
    ensures !IsPublicRoute("/aboutus") && !IsPublicRoute("/productcatalog") && !IsPublicRoute("/signinx")
  {
    var R := PublicRoutes;
    assert "/aboutus" !in R by {
      DiffersAt("/aboutus", R[1], 1);
      DiffersAt("/aboutus", R[2], 1);
      DiffersAt("/aboutus", R[4], 1);
      DiffersAt("/aboutus", R[5], 1);
    }
    assert "/productcatalog" !in R;
    assert "/signinx" !in R by {
      DiffersAt("/signinx", R[3], 1);
      DiffersAt("/signinx", R[4], 1);
      DiffersAt("/signinx", R[5], 1);
    }
    SingleSegmentProtected("/aboutus");
    SingleSegmentProtected("/productcatalog");
    SingleSegmentProtected("/signinx");
  }

  /** Extending a public route with `/` stays inside it. */
  lemma AboutSubpathIsPublic()
    ensures IsPublicRoute("/about/extra")
  {
    PublicRouteClosedForm("/about/extra");
    assert StartsWith("/about/extra", "/about/");
  }

  lemma VesselBookingIsPublic()
    ensures IsPublicRoute("/product/vessel/booking")
  {
    ProductSubtreeIsPublic("/product/vessel/booking");
  }

  lemma TruckingBookingIsPublic()
    ensures IsPublicRoute("/product/trucking/booking")
  {
    ProductSubtreeIsPublic("/product/trucking/booking");
  }

  lemma TruckingInfoIsPublic()
    ensures IsPublicRoute("/product/trucking/info")
  {
    ProductSubtreeIsPublic("/product/trucking/info");
  }

  /** `//dashboard` passes through the `/` route; the dashboard itself does not. */
  lemma RootRouteExamples()
    ensures IsPublicRoute("//dashboard") && !IsPublicRoute("/dashboard/analytics")
  {
    PublicRouteClosedForm("//dashboard");
    PublicRouteClosedForm("/dashboard/analytics");
  }

  /** `request.cookies.get("isLoggedIn")?.value === "true"`. */
  predicate CookieLoggedIn(cookies: map<string, string>)
    ensures CookieLoggedIn(cookies) <==> GetItem(cookies, IsLoggedInKey) == Some("true")
  {
    IsLoggedInKey in cookies && cookies[IsLoggedInKey] == "true"
  }

  /** Only the exact string `"true"` counts as logged in. */
  lemma CookieValues()
    ensures !CookieLoggedIn(map[])
    ensures !CookieLoggedIn(map[IsLoggedInKey := "false"])
    ensures !CookieLoggedIn(map[IsLoggedInKey := "1"])
    ensures !CookieLoggedIn(map[IsLoggedInKey := ""])
    ensures !CookieLoggedIn(map[IsLoggedInKey := "True"])
    ensures CookieLoggedIn(map[IsLoggedInKey := "true"])
  {
  }

  /** Where the gate sends a request it refuses: path `/signin` with the
      single query parameter `redirect` set to the requested path (the
      origin of the request is kept and not modelled). */
  datatype SignInRedirect = SignInRedirect(path: string, redirect: string)

  datatype Response = Next | Redirect(location: SignInRedirect)

  /** `middleware(request)`. */
  function Gate(pathname: string, cookies: map<string, string>): (r: Response)
    ensures r.Redirect? <==> !IsPublicRoute(pathname) && !CookieLoggedIn(cookies)
    ensures r.Redirect? ==> r.location == SignInRedirect("/signin", pathname)
  {
    if !IsPublicRoute(pathname) && !CookieLoggedIn(cookies) then
      Redirect(SignInRedirect("/signin", pathname))
    else Next
  }

  /** A public path passes whatever the cookies hold. */
  lemma PublicPathIgnoresCookies(pathname: string, cookies: map<string, string>)
    requires IsPublicRoute(pathname)
    ensures Gate(pathname, cookies) == Next
  {
  }

  /** A protected path passes exactly when the marker cookie is `"true"`. */
  lemma ProtectedPathNeedsCookie(pathname: string, cookies: map<string, string>)
    requires !IsPublicRoute(pathname)
    ensures Gate(pathname, cookies) == Next <==> CookieLoggedIn(cookies)
  {
  }

  /** The gate's decisions on the home page, the dashboard, a product page
      with and without the cookie, `/about/extra` and `/aboutus`. */
  lemma GateScenarios()
    ensures Gate("/", map[]) == Next
    ensures Gate("/dashboard/analytics", map[]) == Redirect(SignInRedirect("/signin", "/dashboard/analytics"))
    ensures Gate("/product/vessel/booking", map[IsLoggedInKey := "true"]) == Next
    ensures Gate("/product/vessel/booking", map[IsLoggedInKey := "false"]) == Next
    ensures Gate("/about/extra", map[]) == Next
    ensures Gate("/aboutus", map[]) == Redirect(SignInRedirect("/signin", "/aboutus"))
  {
    BoundaryExamplesOutside();
    AboutSubpathIsPublic();
    VesselBookingIsPublic();
    TruckingInfoIsPublic();
    RootRouteExamples();
    PublicRouteClosedForm("/");
  }

  /** The alternatives of the negative lookahead in `config.matcher`. */
  const ExcludedPatterns: seq<string> := ["_next/static", "_next/image", "favicon.ico", "images"]

  /** A lookahead alternative matches at the start of `s`. The matcher is a
      regular expression, so the `.` of `favicon.ico` stands for any one
      character, and no alternative needs a `/` after it. */
  predicate PatternAt(pattern: string, s: string) {
    |pattern| <= |s| && forall i :: 0 <= i < |pattern| ==> pattern[i] == '.' || pattern[i] == s[i]
  }

  /** `config.matcher`: the middleware runs on a path that starts with `/`
      and whose text after that `/` begins with none of the alternatives. */
  predicate MatcherSelects(path: string) {
    |path| >= 1 && path[0] == '/' &&
    !exists k :: 0 <= k < |ExcludedPatterns| && PatternAt(ExcludedPatterns[k], path[1..])
  }

  /** What the framework does with a request: asset paths never reach the
      gate and are served; every other path gets the gate's decision. */
  function Dispatch(pathname: string, cookies: map<string, string>): (r: Response)
    ensures !MatcherSelects(pathname) ==> r == Next
    ensures MatcherSelects(pathname) ==> r == Gate(pathname, cookies)
  {
    if MatcherSelects(pathname) then Gate(pathname, cookies) else Next
  }

  /** Paths under the four excluded prefixes bypass the gate, whatever follows. */
  lemma ExcludedPathsBypassGate(k: nat, rest: string, cookies: map<string, string>)
    requires k < |ExcludedPatterns|
    ensures !MatcherSelects("/" + ExcludedPatterns[k] + rest)
    ensures Dispatch("/" + ExcludedPatterns[k] + rest, cookies) == Next
  {
    var path := "/" + ExcludedPatterns[k] + rest;
    assert path[1..] == ExcludedPatterns[k] + rest;
    assert PatternAt(ExcludedPatterns[k], path[1..]);
  }

  /** The lookahead has no boundary and its `.` is a wildcard, so some paths
      that are not assets bypass the gate too. */
  lemma MatcherLooseEdges()
    ensures !MatcherSelects("/imagesecret") && !MatcherSelects("/favicon-ico")
  {
    assert "/imagesecret"[1..] == "imagesecret";
    assert PatternAt(ExcludedPatterns[3], "imagesecret");
    assert "/favicon-ico"[1..] == "favicon-ico";
    assert PatternAt(ExcludedPatterns[2], "favicon-ico");
  }

  /** Page paths are dispatched to the gate. */
  lemma MatcherSelectsPages()
    ensures MatcherSelects("/dashboard/analytics") && MatcherSelects("/")
  {
    var s := "/dashboard/analytics"[1..];
    assert s[0] == 'd';
    forall k | 0 <= k < |ExcludedPatterns| ensures !PatternAt(ExcludedPatterns[k], s) {
      assert ExcludedPatterns[k][0] != 'd' && ExcludedPatterns[k][0] != '.';
    }
    assert "/"[1..] == "";
  }
}
