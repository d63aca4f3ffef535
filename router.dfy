/**
 * The router: a table of routes per HTTP method, filled by `get` and `post`
 * and searched by `match`, which records the bound parameters on the route
 * it returns.
 */
module Routing {
  import opened Wrappers
  import opened Pattern
  import opened Matcher
  import opened MatcherProofs
  import opened Params
  import opened Handler
  import opened Binding

  /** A registered route; everything but the bound parameters is fixed at registration. */
  class Route {
    const httpMethod: string
    const pattern: string
    const regexPattern: string
    /** The compiled matcher the regex text stands for. */
    const matcher: seq<Token>
    const controller: string
    const action: string
    /** The parameters bound by the most recent successful match of this route. */
    var params: Params

    constructor (httpMethod: string, pattern: string, regexPattern: string, matcher: seq<Token>,
                 controller: string, action: string, params: Params)
      ensures this.httpMethod == httpMethod && this.pattern == pattern && this.regexPattern == regexPattern
      ensures this.matcher == matcher && this.controller == controller && this.action == action
      ensures this.params == params
    {
      this.httpMethod := httpMethod;
      this.pattern := pattern;
      this.regexPattern := regexPattern;
      this.matcher := matcher;
      this.controller := controller;
      this.action := action;
      this.params := params;
    }
  }

  /** r is filed under method m and its regex and matcher are compiled from its pattern. */
  predicate CompiledFor(r: Route, m: string)
  {
    r.httpMethod == m && r.matcher == Tokenize(r.pattern) && r.regexPattern == CompilePattern(r.pattern)
  }

  /** The route fields `addRoute` derives from a pattern and a well-formed handler. */
  predicate BuiltFrom(r: Route, httpMethod: string, pattern: string, handler: string)
  {
    match SplitHandler(handler)
    case None => false
    case Some((token, action)) =>
      CompiledFor(r, httpMethod) && r.pattern == pattern
      && r.controller == ControllerName(token) && r.action == action
  }

  /**
   * The position of the first route of rs, in registration order, whose
   * compiled pattern accepts u.
   */
  function FirstMatch(rs: seq<Route>, u: string): (r: Option<nat>)
    ensures r.Some? ==> r.value < |rs| && Accepts(rs[r.value].matcher, u)
    ensures r.Some? ==> forall j :: 0 <= j < r.value ==> !Accepts(rs[j].matcher, u)
    ensures r.None? <==> forall j :: 0 <= j < |rs| ==> !Accepts(rs[j].matcher, u)
  {
    if rs == [] then None
    else if Accepts(rs[0].matcher, u) then Some(0)
    else match FirstMatch(rs[1..], u)
      case Some(i) => Some(i + 1)
      case None => None
  }

  /** The first accepting route is the one no earlier route precedes. */
  lemma {:induction false} FirstMatchAt(rs: seq<Route>, u: string, i: nat)
    requires i < |rs| && Accepts(rs[i].matcher, u)
    requires forall j :: 0 <= j < i ==> !Accepts(rs[j].matcher, u)
    ensures FirstMatch(rs, u) == Some(i)
  {
    if i > 0 {
      FirstMatchAt(rs[1..], u, i - 1);
    }
  }

  /** Of two routes with the same pattern in one list, the later one is never the first match. */
  lemma EarlierRegistrationShadows(rs: seq<Route>, u: string, i: nat, j: nat)
    requires i < j < |rs| && rs[i].pattern == rs[j].pattern
    requires rs[i].matcher == Tokenize(rs[i].pattern) && rs[j].matcher == Tokenize(rs[j].pattern)
    ensures FirstMatch(rs, u) != Some(j)
  {
  }

  class Router {
    /** The route lists, keyed by HTTP method, in registration order. */
    var routes: map<string, seq<Route>>

    ghost predicate Valid()
      reads this
    {
      routes.Keys == {"GET", "POST"}
      && forall m, i :: m in routes && 0 <= i < |routes[m]| ==> CompiledFor(routes[m][i], m)
    }

    /** `$this->routes[$method] ?? []`. */
    function Bucket(httpMethod: string): seq<Route>
      reads this
    {
      if httpMethod in routes then routes[httpMethod] else []
    }

    constructor ()
      ensures Valid()
      ensures routes == map["GET" := [], "POST" := []]
    {
      routes := map["GET" := [], "POST" := []];
    }

    /**
     * A successful registration under method: exactly one fresh route,
     * built from pattern and handler and with no parameters, at the end of
     * that method's list; every other list is as before.
     */
    twostate predicate Appended(httpMethod: string, pattern: string, handler: string)
      reads this
    {
      httpMethod in routes && routes[httpMethod] != []
      && var r := routes[httpMethod][|routes[httpMethod]| - 1];
      routes == old(routes)[httpMethod := old(Bucket(httpMethod)) + [r]]
      && fresh(r) && BuiltFrom(r, httpMethod, pattern, handler)
    }

    /** The route the latest successful registration under httpMethod appended. */
    function Last(httpMethod: string): Route
      reads this
      requires httpMethod in routes && routes[httpMethod] != []
    {
      routes[httpMethod][|routes[httpMethod]| - 1]
    }

    /**
     * `addRoute`: rejects a handler without `#` (the source throws
     * InvalidArgumentException) and leaves the table unchanged; otherwise
     * appends the new route.
     */
    method AddRoute(httpMethod: string, pattern: string, handler: string) returns (res: Outcome<string>)
      requires Valid() && (httpMethod == "GET" || httpMethod == "POST") && PlainPattern(pattern)
      modifies this
      ensures Valid()
      ensures res == if '#' in handler then Pass else Fail(HandlerFormatMessage)
      ensures res.Fail? ==> routes == old(routes)
      ensures res.Pass? ==> Appended(httpMethod, pattern, handler) && Last(httpMethod).params == []
    {
      if '#' !in handler {
        return Fail(HandlerFormatMessage);
      }
      var (token, action) := SplitHandler(handler).value;
      var controller := ControllerName(token);
      var regexPattern := CompilePattern(pattern);
      var route := new Route(httpMethod, pattern, regexPattern, Tokenize(pattern), controller, action, []);
      routes := routes[httpMethod := routes[httpMethod] + [route]];
      return Pass;
    }

    /** `get`: registers a route for GET requests. */
    method Get(pattern: string, handler: string) returns (res: Outcome<string>)
      requires Valid() && PlainPattern(pattern)
      modifies this
      ensures Valid()
      ensures res == if '#' in handler then Pass else Fail(HandlerFormatMessage)
      ensures res.Fail? ==> routes == old(routes)
      ensures res.Pass? ==> Appended("GET", pattern, handler) && Last("GET").params == []
    {
      res := AddRoute("GET", pattern, handler);
    }

    /** `post`: registers a route for POST requests. */
    method Post(pattern: string, handler: string) returns (res: Outcome<string>)
      requires Valid() && PlainPattern(pattern)
      modifies this
      ensures Valid()
      ensures res == if '#' in handler then Pass else Fail(HandlerFormatMessage)
      ensures res.Fail? ==> routes == old(routes)
      ensures res.Pass? ==> Appended("POST", pattern, handler) && Last("POST").params == []
    {
      res := AddRoute("POST", pattern, handler);
    }

    /**
     * `match`: the first route of method's list whose pattern accepts uri,
     * with its parameters bound to the captured segments; null when the
     * method has no list or nothing in it matches. Only the returned route
     * changes.
     */
    method Match(httpMethod: string, uri: string) returns (route: Route?)
      requires Valid()
      modifies set r | r in Bucket(httpMethod)
      ensures Valid() && routes == old(routes)
      ensures route == null <==> FirstMatch(Bucket(httpMethod), uri).None?
      ensures route != null ==> route == Bucket(httpMethod)[FirstMatch(Bucket(httpMethod), uri).value]
      ensures route != null ==> route.httpMethod == httpMethod
      ensures route != null ==>
                route.params == Combine(ExtractParamNames(route.pattern), MatchFrom(route.matcher, uri).value)
      ensures route != null && Distinct(ExtractParamNames(route.pattern)) ==> Substitute(route.matcher, route.params) == uri
      ensures forall m, i :: m in routes && 0 <= i < |routes[m]| && routes[m][i] != route ==>
                routes[m][i].params == old(routes[m][i].params)
    {
      var bucket := Bucket(httpMethod);
      var i := 0;
      while i < |bucket| && MatchFrom(bucket[i].matcher, uri).None?
        invariant 0 <= i <= |bucket|
        invariant forall j :: 0 <= j < i ==> !Accepts(bucket[j].matcher, uri)
      {
        i := i + 1;
      }
      if i == |bucket| {
        return null;
      }
      route := bucket[i];
      FirstMatchAt(bucket, uri, i);
      assert CompiledFor(route, httpMethod);
      if Distinct(ExtractParamNames(route.pattern)) {
        BindingRoundTrip(route.pattern, uri);
      }
      route.params := Combine(ExtractParamNames(route.pattern), MatchFrom(route.matcher, uri).value);
    }
  }
}
