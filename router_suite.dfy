/**
 * The router's test suite as client code. Each method builds a fresh router,
 * registers routes and matches a request, as one test does, but for every
 * pattern, handler and URI of the test's shape; its contract states what the
 * test expects of the route `match` returns. The test's own strings are
 * instances: SuiteRoutes and SuiteHandlers work out what the general
 * statements say for them.
 */
module RouterSuite {
  import opened Wrappers
  import opened Pattern
  import opened Matcher
  import opened MatcherProofs
  import opened Params
  import opened Handler
  import opened Routing
  import opened RouteShapes

  /** r was registered under httpMethod for pattern, with these derived fields. */
  predicate Registered(r: Route, httpMethod: string, pattern: string, regexPattern: string,
                       controller: string, action: string)
  {
    CompiledFor(r, httpMethod) && r.pattern == pattern && r.regexPattern == regexPattern
    && r.controller == controller && r.action == action
  }

  /**
   * As the only route of its list, r is the first match for uri, and the
   * match binds its parameters to params.
   */
  predicate Serves(r: Route, uri: string, params: Params)
  {
    FirstMatch([r], uri) == Some(0) && MatchFrom(r.matcher, uri).Some?
    && |ExtractParamNames(r.pattern)| == |MatchFrom(r.matcher, uri).value|
    && Combine(ExtractParamNames(r.pattern), MatchFrom(r.matcher, uri).value) == params
  }

  /** A route built from a handler that splits into token and action carries ControllerName(token) and action. */
  lemma HandlerRoute(r: Route, m: string, p: string, handler: string, token: string, action: string)
    requires BuiltFrom(r, m, p, handler) && SplitHandler(handler) == Some((token, action))
    ensures CompiledFor(r, m) && r.pattern == p && r.controller == ControllerName(token) && r.action == action
  {
  }

  /** The only route, if it accepts u, is the first match. */
  lemma SoleRoute(rs: seq<Route>, u: string)
    requires |rs| == 1 && Accepts(rs[0].matcher, u)
    ensures FirstMatch(rs, u) == Some(0)
  {
  }

  /** A fresh router holding one route, registered under m for pattern and handler. */
  method RouterWith(m: string, pattern: string, handler: string) returns (router: Router, r: Route)
    requires (m == "GET" || m == "POST") && PlainPattern(pattern) && '#' in handler
    ensures fresh(router) && fresh(r) && router.Valid()
    ensures router.Bucket(m) == [r] && BuiltFrom(r, m, pattern, handler) && r.params == []
    ensures forall m' :: m' != m ==> router.Bucket(m') == []
  {
    router := new Router();
    if m == "GET" {
      var _ := router.Get(pattern, handler);
    } else {
      var _ := router.Post(pattern, handler);
    }
    r := router.Last(m);
    assert router.Bucket(m) == [r];
  }

  /** The only route rejects u, so nothing matches. */
  lemma NoRoute(rs: seq<Route>, u: string)
    requires |rs| == 1 && !Accepts(rs[0].matcher, u)
    ensures FirstMatch(rs, u) == None
  {
  }

  /** A fresh router holding two routes, registered in order for (m1, pattern1, handler1) and (m2, pattern2, handler2). */
  method RouterWithTwo(m1: string, pattern1: string, handler1: string, m2: string, pattern2: string, handler2: string)
    returns (router: Router, r1: Route, r2: Route)
    requires (m1 == "GET" || m1 == "POST") && PlainPattern(pattern1) && '#' in handler1
    requires (m2 == "GET" || m2 == "POST") && PlainPattern(pattern2) && '#' in handler2
    ensures fresh(router) && fresh(r1) && fresh(r2) && router.Valid()
    ensures BuiltFrom(r1, m1, pattern1, handler1) && BuiltFrom(r2, m2, pattern2, handler2)
    ensures m1 == m2 ==> router.Bucket(m1) == [r1, r2]
    ensures m1 != m2 ==> router.Bucket(m1) == [r1] && router.Bucket(m2) == [r2]
  {
    router, r1 := RouterWith(m1, pattern1, handler1);
    ghost var before := router.routes;
    var _ := router.AddRoute(m2, pattern2, handler2);
    r2 := router.Last(m2);
    if m1 != m2 {
      assert router.routes[m1] == before[m1];
    }
  }

  /**
   * GET p against a route registered for a pattern p without placeholders
   * (like `/` and `/home` for `home#index`): the route is returned, its regex
   * is p between `#^` and `$#`, and it has no parameters.
   */
  method StaticRoute(p: string, handler: string, token: string, action: string) returns (route: Route?)
    requires '{' !in p && PlainPattern(p) && SplitHandler(handler) == Some((token, action))
    ensures route != null && Registered(route, "GET", p, "#^" + p + "$#", ControllerName(token), action)
    ensures route != null ==> route.params == []
  {
    var router, r := RouterWith("GET", p, handler);
    HandlerRoute(r, "GET", p, handler, token, action);
    StaticNames(p);
    StaticCompilesToItself(p);
    StaticMatchesOnlyItself(p, p);
    SoleRoute([r], p);
    route := router.Match("GET", p);
  }

  /**
   * GET u against a single route for a pattern p without placeholders, where
   * u differs from p (like `/not-found` or `/about/` against `/about`): null.
   */
  method StaticRouteMisses(p: string, handler: string, u: string) returns (route: Route?)
    requires '{' !in p && PlainPattern(p) && '#' in handler && u != p
    ensures route == null
  {
    var router, r := RouterWith("GET", p, handler);
    assert CompiledFor(r, "GET");
    StaticNames(p);
    StaticMatchesOnlyItself(p, u);
    NoRoute([r], u);
    route := router.Match("GET", u);
  }

  /**
   * A route registered under one method is not found under any other, be it
   * the other supported method or one the router has no list for (like PUT).
   */
  method OtherMethodMisses(m: string, p: string, handler: string, other: string, u: string) returns (route: Route?)
    requires (m == "GET" || m == "POST") && PlainPattern(p) && '#' in handler && other != m
    ensures route == null
  {
    var router, r := RouterWith(m, p, handler);
    route := router.Match(other, u);
  }

  /**
   * The same pattern registered for GET and for POST (like `/login` for
   * `auth#form` and `auth#submit`): each method gets its own route back.
   */
  method MethodsKeptApart(p: string, getHandler: string, getAction: string, postHandler: string, postAction: string)
    returns (getRoute: Route?, postRoute: Route?)
    requires '{' !in p && PlainPattern(p)
    requires SplitHandler(getHandler).Some? && SplitHandler(getHandler).value.1 == getAction
    requires SplitHandler(postHandler).Some? && SplitHandler(postHandler).value.1 == postAction
    ensures getRoute != null && getRoute.httpMethod == "GET" && getRoute.action == getAction
    ensures postRoute != null && postRoute.httpMethod == "POST" && postRoute.action == postAction
  {
    var router, g, q := RouterWithTwo("GET", p, getHandler, "POST", p, postHandler);
    StaticNames(p);
    StaticMatchesOnlyItself(p, p);
    assert CompiledFor(g, "GET") && g.pattern == p && CompiledFor(q, "POST") && q.pattern == p;
    SoleRoute([g], p);
    SoleRoute([q], p);
    getRoute := router.Match("GET", p);
    postRoute := router.Match("POST", p);
  }

  /**
   * The same pattern registered twice for GET (like `/home` for `pages#first`
   * then `pages#second`): the first registration is the one returned.
   */
  method FirstOnDuplicate(p: string, firstHandler: string, firstAction: string, secondHandler: string)
    returns (route: Route?)
    requires '{' !in p && PlainPattern(p) && '#' in secondHandler
    requires SplitHandler(firstHandler).Some? && SplitHandler(firstHandler).value.1 == firstAction
    ensures route != null && route.action == firstAction
  {
    var router, first, second := RouterWithTwo("GET", p, firstHandler, "GET", p, secondHandler);
    StaticNames(p);
    StaticMatchesOnlyItself(p, p);
    assert CompiledFor(first, "GET") && first.pattern == p;
    assert FirstMatch([first, second], p) == Some(0);
    route := router.Match("GET", p);
  }

  /**
   * A handler without `#` (like `missingSeparator`) is refused with the
   * format message and nothing is registered: the pattern then matches
   * nothing.
   */
  method InvalidHandler(p: string, handler: string) returns (res: Outcome<string>, route: Route?)
    requires PlainPattern(p) && '#' !in handler
    ensures res == Fail(HandlerFormatMessage) && route == null
  {
    var router := new Router();
    res := router.Get(p, handler);
    route := router.Match("GET", p);
  }

  /** The route registered for `x{n}` and handler, as compiled and as it binds `x v`. */
  lemma OneParameterServes(r: Route, x: string, n: string, v: string, handler: string, token: string, action: string)
    requires '{' !in x && IsSegmentValue(n) && IsSegmentValue(v) && SplitHandler(handler) == Some((token, action))
    requires BuiltFrom(r, "GET", x + Placeholder(n), handler)
    ensures Registered(r, "GET", x + Placeholder(n), "#^" + (x + SegmentGroup) + "$#", ControllerName(token), action)
    ensures Serves(r, x + v, [(n, v)])
  {
    HandlerRoute(r, "GET", x + Placeholder(n), handler, token, action);
    OneParameterRegex(x, n);
    OneParameterMatch(x, n, v);
    SoleRoute([r], x + v);
  }

  /**
   * GET `x v` against a route `x{n}` (like `/posts/{postId}` and
   * `/posts/42`): the route is returned with n bound to v.
   */
  method OneParameter(x: string, n: string, v: string, handler: string, token: string, action: string)
    returns (route: Route?)
    requires '{' !in x && IsSegmentValue(n) && IsSegmentValue(v) && SplitHandler(handler) == Some((token, action))
    requires PlainPattern(x + Placeholder(n))
    ensures route != null && Registered(route, "GET", x + Placeholder(n), "#^" + (x + SegmentGroup) + "$#",
                                        ControllerName(token), action)
    ensures route != null ==> route.params == [(n, v)]
  {
    var router, r := RouterWith("GET", x + Placeholder(n), handler);
    OneParameterServes(r, x, n, v, handler, token, action);
    route := router.Match("GET", x + v);
  }

  /**
   * A route ending in a placeholder (like `/posts/{id}`) against a URI
   * ending in `/` (like `/posts/`, `/posts//` or `/posts/42/comments/`): null.
   */
  method EmptyLastParameter(p: string, handler: string, u: string) returns (route: Route?)
    requires PlainPattern(p) && '#' in handler && p != [] && p[|p| - 1] == '}' && EndsWithSlash(u)
    ensures route == null
  {
    var router, r := RouterWith("GET", p, handler);
    assert CompiledFor(r, "GET");
    ParameterRouteRejectsTrailingSlash(p, u);
    NoRoute([r], u);
    route := router.Match("GET", u);
  }

  /** A route `x{n}y{m}` against `x y w`, which leaves the first parameter empty (like `/posts//comments/56`): null. */
  method EmptyFirstParameter(x: string, n: string, y: string, m: string, w: string, handler: string) returns (route: Route?)
    requires '{' !in x && IsSegmentValue(n) && '{' !in y && y != [] && y[0] == '/' && IsSegmentValue(m)
    requires PlainPattern(x + (Placeholder(n) + (y + Placeholder(m)))) && '#' in handler
    ensures route == null
  {
    var router, r := RouterWith("GET", x + (Placeholder(n) + (y + Placeholder(m))), handler);
    assert CompiledFor(r, "GET");
    TwoParameterRejectsEmptyFirst(x, n, y, m, w);
    NoRoute([r], x + (y + w));
    route := router.Match("GET", x + (y + w));
  }

  /** The route registered for `x{n}y{m}` and handler, as compiled and as it binds `x v y w`. */
  lemma TwoParameterServes(r: Route, x: string, n: string, y: string, m: string, v: string, w: string,
                           handler: string, token: string, action: string)
    requires '{' !in x && IsSegmentValue(n) && '{' !in y && y != [] && y[0] == '/' && IsSegmentValue(m) && n != m
    requires IsSegmentValue(v) && IsSegmentValue(w) && SplitHandler(handler) == Some((token, action))
    requires BuiltFrom(r, "GET", x + (Placeholder(n) + (y + Placeholder(m))), handler)
    ensures Registered(r, "GET", x + (Placeholder(n) + (y + Placeholder(m))),
                       "#^" + (x + (SegmentGroup + (y + SegmentGroup))) + "$#", ControllerName(token), action)
    ensures Serves(r, x + (v + (y + w)), [(n, v), (m, w)])
  {
    HandlerRoute(r, "GET", x + (Placeholder(n) + (y + Placeholder(m))), handler, token, action);
    TwoParameterRegex(x, n, y, m);
    TwoParameterNames(x, n, y, m);
    TwoParameterMatch(x, n, y, m, v, w);
    CombinePair(n, m, v, w);
    SoleRoute([r], x + (v + (y + w)));
  }

  /**
   * GET `x v y w` against a route `x{n}y{m}` (like
   * `/posts/{postId}/comments/{commentId}` and `/posts/42/comments/56`):
   * the route is returned with n bound to v and m to w, in that order.
   */
  method TwoParameters(x: string, n: string, y: string, m: string, v: string, w: string,
                       handler: string, token: string, action: string) returns (route: Route?)
    requires '{' !in x && IsSegmentValue(n) && '{' !in y && y != [] && y[0] == '/' && IsSegmentValue(m) && n != m
    requires IsSegmentValue(v) && IsSegmentValue(w) && SplitHandler(handler) == Some((token, action))
    requires PlainPattern(x + (Placeholder(n) + (y + Placeholder(m))))
    ensures route != null && Registered(route, "GET", x + (Placeholder(n) + (y + Placeholder(m))),
                                        "#^" + (x + (SegmentGroup + (y + SegmentGroup))) + "$#", ControllerName(token), action)
    ensures route != null ==> route.params == [(n, v), (m, w)]
  {
    var router, r := RouterWith("GET", x + (Placeholder(n) + (y + Placeholder(m))), handler);
    TwoParameterServes(r, x, n, y, m, v, w, handler, token, action);
    route := router.Match("GET", x + (v + (y + w)));
  }
}
