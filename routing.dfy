/**
 * How the framework picks the handler for a request in main.py: the routes are tried in the
 * order they were registered, and the first whose path and method both match handles it. A
 * route whose path matches but whose methods do not is remembered, and gives 405 when no route
 * matches fully; no path match at all gives 404.
 */
module Routing {

  /** The two handlers main.py registers. */
  datatype Handler = CatchAllProxyHandler | HealthCheckHandler

  /** A route's path pattern: any path (`/{path:path}`), or one exact path. */
  datatype PathPattern = AnyPath | Exactly(path: string)

  datatype Route = Route(pattern: PathPattern, methods: set<string>, handler: Handler)

  /** How the framework answers a request. */
  datatype Dispatch = Handle(handler: Handler) | MethodNotAllowed | NotFound

  predicate PathMatches(r: Route, path: string) {
    r.pattern.AnyPath? || r.pattern.path == path
  }

  /** The route matches fully: its path and its method. */
  predicate FullMatch(r: Route, verb: string, path: string) {
    PathMatches(r, path) && verb in r.methods
  }

  /** The index of the first route that matches fully, or `|routes|` when none does. */
  function FirstFullMatch(routes: seq<Route>, verb: string, path: string): (i: nat)
    ensures i <= |routes|
    ensures i < |routes| ==> FullMatch(routes[i], verb, path)
    ensures forall j :: 0 <= j < i && j < |routes| ==> !FullMatch(routes[j], verb, path)
  {
    if |routes| == 0 then 0
    else if FullMatch(routes[0], verb, path) then 0
    else 1 + FirstFullMatch(routes[1..], verb, path)
  }

  /** The framework's dispatch over routes in registration order. */
  function DispatchOf(routes: seq<Route>, verb: string, path: string): Dispatch {
    var i := FirstFullMatch(routes, verb, path);
    if i < |routes| then Handle(routes[i].handler)
    else if exists j :: 0 <= j < |routes| && PathMatches(routes[j], path) then MethodNotAllowed
    else NotFound
  }

  /** The methods main.py:71 lists for the catch-all route. */
  const CatchAllMethods := {"GET", "POST", "PUT", "DELETE", "PATCH", "HEAD", "OPTIONS"}

  const CatchAllRoute := Route(AnyPath, CatchAllMethods, CatchAllProxyHandler)

  /** `@app.get("/health")` (main.py:84). */
  const HealthRoute := Route(Exactly("/health"), {"GET"}, HealthCheckHandler)

  /** The routes as main.py registers them: the catch-all first (line 71), health after (line 84). */
  const AppRoutes := [CatchAllRoute, HealthRoute]

  /** The evidently intended order: the specific route before the catch-all. */
  const CorrectedRoutes := [HealthRoute, CatchAllRoute]

  /**
   * As registered, the catch-all route handles every request whose method it lists, including
   * `GET /health`: the health handler is never reached. Other methods are answered 405.
   */
  lemma CatchAllShadowsHealth(verb: string, path: string)
    ensures verb in CatchAllMethods ==> DispatchOf(AppRoutes, verb, path) == Handle(CatchAllProxyHandler)
    ensures verb !in CatchAllMethods ==> DispatchOf(AppRoutes, verb, path) == MethodNotAllowed
    ensures DispatchOf(AppRoutes, verb, path) != Handle(HealthCheckHandler)
  {
    assert FullMatch(AppRoutes[0], verb, path) <==> verb in CatchAllMethods;
    if verb !in CatchAllMethods {
      assert !FullMatch(AppRoutes[1], verb, path);
      assert PathMatches(AppRoutes[0], path);
    }
  }

  /**
   * With the health route registered first, `GET /health` reaches the health handler, and
   * every other request the catch-all lists still goes to the catch-all.
   */
  lemma HealthFirstReachesHealth(verb: string, path: string)
    ensures verb == "GET" && path == "/health" ==>
      DispatchOf(CorrectedRoutes, verb, path) == Handle(HealthCheckHandler)
    ensures verb in CatchAllMethods && !(verb == "GET" && path == "/health") ==>
      DispatchOf(CorrectedRoutes, verb, path) == Handle(CatchAllProxyHandler)
  {
    assert FullMatch(CorrectedRoutes[0], verb, path) <==> verb == "GET" && path == "/health";
    assert FullMatch(CorrectedRoutes[1], verb, path) <==> verb in CatchAllMethods;
  }
}
