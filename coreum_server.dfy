// The server of the oldest generation, src/lib/Server/__Coreum_Server.ts:
// its constructor wraps every controller route in the listed middlewares and
// collects the routes by id; a request then goes to the preflight answer,
// the method-not-allowed handler, the first matching route or the not-found
// handler, and a throw on the way goes to the error handler; `handleFetch`
// finally puts the CORS headers on the response. The database client,
// static pages, `listen` and `exit` are not part of this model.

module CoreumServers {
  import opened Wrappers
  import opened HttpErrors
  import opened OrderedMaps
  import opened CoreumMiddleware
  import HeaderList
  import CorsHeaders
  import Requests
  import Responses
  import HttpTables
  import Json
  import RouteTable
  import RoutePattern
  import TextEqual
  import Strings
  import MiddlewareScopes

  /** `this.routes.set(route.id, route)` for each route in turn. */
  function PutRoutes(m: OrderedMap<CoreumRoute>, routes: seq<CoreumRoute>): (r: OrderedMap<CoreumRoute>)
    ensures Valid(m) ==> Valid(r)
  {
    if routes == [] then m
    else Put(PutRoutes(m, routes[..|routes| - 1]), routes[|routes| - 1].id, routes[|routes| - 1])
  }

  /** The last of the routes with this id, which is the one the table keeps. */
  function LastWithId(routes: seq<CoreumRoute>, id: string): (r: Option<CoreumRoute>)
    ensures r.Some? ==> r.value in routes && r.value.id == id
    ensures r.None? <==> forall i :: 0 <= i < |routes| ==> routes[i].id != id
  {
    if routes == [] then None
    else if routes[|routes| - 1].id == id then Some(routes[|routes| - 1])
    else LastWithId(routes[..|routes| - 1], id)
  }

  /** Setting the routes of `a + b` is setting those of `a`, then those of `b`. */
  lemma {:induction false} PutRoutesAppend(m: OrderedMap<CoreumRoute>, a: seq<CoreumRoute>, b: seq<CoreumRoute>)
    ensures PutRoutes(m, a + b) == PutRoutes(PutRoutes(m, a), b)
  {
    if b == [] {
      assert a + b == a;
    } else {
      assert (a + b)[..|a + b| - 1] == a + b[..|b| - 1];
      PutRoutesAppend(m, a, b[..|b| - 1]);
    }
  }

  /**
   * A route of the list is found under its id, and of several routes with
   * one id the last set wins; an id no route has keeps what the table held.
   */
  lemma {:induction false} PutRoutesLookup(m: OrderedMap<CoreumRoute>, routes: seq<CoreumRoute>, id: string)
    ensures var r := PutRoutes(m, routes);
      LastWithId(routes, id).Some? ==> id in r.items && r.items[id] == LastWithId(routes, id).value
    ensures var r := PutRoutes(m, routes);
      LastWithId(routes, id).None? ==> (id in r.items <==> id in m.items) && (id in m.items ==> r.items[id] == m.items[id])
  {
    if routes != [] {
      PutRoutesLookup(m, routes[..|routes| - 1], id);
    }
  }

  /** The middleware callbacks, in the order the constructor applies them. */
  function Callbacks(middlewares: seq<Middleware>): (r: seq<nat>)
    ensures |r| == |middlewares|
    ensures forall i :: 0 <= i < |r| ==> r[i] == middlewares[i].callback
  {
    seq(|middlewares|, i requires 0 <= i < |middlewares| => middlewares[i].callback)
  }

  /** A handler after each callback in turn wrapped it `n` times. */
  function WrapAll(h: RouteHandler, callbacks: seq<nat>, path: string, n: nat): RouteHandler
  {
    if callbacks == [] then h
    else WrapN(WrapAll(h, callbacks[..|callbacks| - 1], path, n), callbacks[|callbacks| - 1], path, n)
  }

  /** Each callback `n` times, the last callback first. */
  function ReversedRepeats(callbacks: seq<nat>, n: nat): seq<nat>
  {
    if callbacks == [] then []
    else MiddlewareScopes.Repeat(callbacks[|callbacks| - 1], n) + ReversedRepeats(callbacks[..|callbacks| - 1], n)
  }

  /**
   * After all the middlewares, a call runs the last middleware's callback
   * first and the first one's last, each once per listing of the route, and
   * then the route's own code.
   */
  lemma {:induction false} WrapAllCalls(h: RouteHandler, callbacks: seq<nat>, path: string, n: nat)
    ensures Calls(WrapAll(h, callbacks, path, n)) == ReversedRepeats(callbacks, n) + Calls(h)
    ensures Bottom(WrapAll(h, callbacks, path, n)) == Bottom(h)
  {
    if callbacks != [] {
      var last := callbacks[|callbacks| - 1];
      WrapAllCalls(h, callbacks[..|callbacks| - 1], path, n);
      WrapNCalls(WrapAll(h, callbacks[..|callbacks| - 1], path, n), last, path, n);
    }
  }

  /** A route listed once, under middlewares `[m1, m2]`, runs `m2`, then `m1`, then its own code. */
  lemma TwoMiddlewares(h: RouteHandler, first: nat, second: nat, path: string)
    ensures Calls(WrapAll(h, [first, second], path, 1)) == [second, first] + Calls(h)
  {
    WrapAllCalls(h, [first, second], path, 1);
    assert [first, second][..1] == [first];
    assert [first][..0] == [];
    assert MiddlewareScopes.Repeat(first, 1) == [first];
    assert MiddlewareScopes.Repeat(second, 1) == [second];
    assert ReversedRepeats([first], 1) == [first];
  }

  /** The constructor's loop over the middlewares: each one's `use` on the same controllers. */
  method ApplyMiddlewares(middlewares: seq<Middleware>, controllers: seq<CoreumController>)
    modifies set rt | rt in AllRoutes(controllers)
    ensures forall rt: CoreumRoute :: old(allocated(rt)) && rt in old(AllRoutes(controllers)) ==>
      rt.handler == WrapAll(old(rt.handler), Callbacks(middlewares), rt.path, multiset(old(AllRoutes(controllers)))[rt])
  {
    ghost var lists := RouteLists(controllers);
    ghost var allSet: set<CoreumRoute> := set rt | rt in Concat(lists);
    ghost var start: map<CoreumRoute, RouteHandler> := map rt | rt in allSet :: rt.handler;
    ApplyEach(middlewares, controllers, lists, allSet, start);
  }

  method ApplyEach(middlewares: seq<Middleware>, controllers: seq<CoreumController>, ghost lists: seq<seq<CoreumRoute>>,
                   ghost allSet: set<CoreumRoute>, ghost start: map<CoreumRoute, RouteHandler>)
    requires |lists| == |controllers|
    requires forall k :: 0 <= k < |controllers| ==> controllers[k].routes == lists[k]
    requires forall rt :: rt in Concat(lists) <==> rt in allSet
    requires forall rt :: rt in allSet ==> rt in start && rt.handler == start[rt]
    modifies allSet
    ensures forall rt: CoreumRoute :: rt in allSet ==>
      rt.handler == WrapAll(start[rt], Callbacks(middlewares), rt.path, multiset(Concat(lists))[rt])
  {
    for i := 0 to |middlewares|
      invariant forall k :: 0 <= k < |controllers| ==> controllers[k].routes == lists[k]
      invariant forall rt: CoreumRoute :: rt in allSet ==>
        rt.handler == WrapAll(start[rt], Callbacks(middlewares[..i]), rt.path, multiset(Concat(lists))[rt])
    {
      ghost var done := Callbacks(middlewares[..i]);
      CallbacksSnoc(middlewares, i);
      assert AllRoutes(controllers) == Concat(lists) by {
        assert RouteLists(controllers) == lists;
      }
      var _ := middlewares[i].Use(controllers);
      forall rt: CoreumRoute | rt in allSet
        ensures rt.handler == WrapAll(start[rt], done + [middlewares[i].callback], rt.path, multiset(Concat(lists))[rt])
      {
        WrapAllSnoc(start[rt], done, middlewares[i].callback, rt.path, multiset(Concat(lists))[rt]);
      }
    }
    assert middlewares[..|middlewares|] == middlewares;
  }

  lemma CallbacksSnoc(middlewares: seq<Middleware>, i: nat)
    requires i < |middlewares|
    ensures Callbacks(middlewares[..i + 1]) == Callbacks(middlewares[..i]) + [middlewares[i].callback]
  {
  }

  lemma WrapAllSnoc(h: RouteHandler, callbacks: seq<nat>, c: nat, path: string, n: nat)
    ensures WrapAll(h, callbacks + [c], path, n) == WrapN(WrapAll(h, callbacks, path, n), c, path, n)
  {
    assert (callbacks + [c])[..|callbacks|] == callbacks;
  }

  /** The inner loop of the constructor: each route of one list set under its id. */
  method PutEach(m: OrderedMap<CoreumRoute>, routes: seq<CoreumRoute>) returns (r: OrderedMap<CoreumRoute>)
    ensures r == PutRoutes(m, routes)
  {
    r := m;
    for i := 0 to |routes|
      invariant r == PutRoutes(m, routes[..i])
    {
      TakeOneMore(routes, i);
      assert routes[..i + 1][..i] == routes[..i];
      r := Put(r, routes[i].id, routes[i]);
    }
    assert routes[..|routes|] == routes;
  }

  /** The constructor's route table: each controller's routes in turn, then the floating routes. */
  method CollectRoutes(controllers: seq<CoreumController>, floating: seq<CoreumRoute>) returns (r: OrderedMap<CoreumRoute>)
    ensures r == PutRoutes(EmptyMap(), AllRoutes(controllers) + floating)
  {
    ghost var lists := RouteLists(controllers);
    r := EmptyMap();
    for i := 0 to |controllers|
      invariant r == PutRoutes(EmptyMap(), Concat(lists[..i]))
    {
      ConcatSnoc(lists, i);
      PutRoutesAppend(EmptyMap(), Concat(lists[..i]), lists[i]);
      r := PutEach(r, controllers[i].routes);
    }
    assert lists[..|controllers|] == lists;
    PutRoutesAppend(EmptyMap(), AllRoutes(controllers), floating);
    r := PutEach(r, floating);
  }

  /** The test `findMatchingRoute` applies: the pattern matches the pathname and the methods agree, ignoring case. */
  predicate RouteMatches(rt: CoreumRoute, pathname: string, httpMethod: string)
  {
    RoutePattern.Matches(rt.pattern, pathname) && TextEqual.TextIsEqual(httpMethod, HttpTables.MethodName(rt.httpMethod), TextEqual.Upper)
  }

  function MatchTest(routes: seq<CoreumRoute>, pathname: string, httpMethod: string): int -> bool
  {
    i => 0 <= i < |routes| && RouteMatches(routes[i], pathname, httpMethod)
  }

  /** The position of the first route in table order that matches. */
  function MatchIndex(routes: seq<CoreumRoute>, pathname: string, httpMethod: string): (r: Option<nat>)
    ensures r.Some? ==> r.value < |routes| && RouteMatches(routes[r.value], pathname, httpMethod)
    ensures r.Some? ==> forall j :: 0 <= j < r.value ==> !RouteMatches(routes[j], pathname, httpMethod)
    ensures r.None? ==> forall j :: 0 <= j < |routes| ==> !RouteMatches(routes[j], pathname, httpMethod)
  {
    var hits := seq(|routes|, MatchTest(routes, pathname, httpMethod));
    assert forall j :: 0 <= j < |routes| ==> hits[j] == RouteMatches(routes[j], pathname, httpMethod);
    RouteTable.FirstTrue(hits)
  }

  /** `Array.from(this.routes.values()).find(...)`: the first route in table order that matches, if any. */
  function FirstMatch(routes: seq<CoreumRoute>, pathname: string, httpMethod: string): Option<CoreumRoute>
  {
    var i := MatchIndex(routes, pathname, httpMethod);
    if i.Some? then Some(routes[i.value]) else None
  }

  /**
   * A known path asked with a method no route of that path has is not found
   * (404): the server only answers 405 for a method it does not know at all.
   */
  lemma WrongMethodNotFound(routes: seq<CoreumRoute>, pathname: string, httpMethod: string)
    requires forall i :: 0 <= i < |routes| && RoutePattern.Matches(routes[i].pattern, pathname) ==>
      !TextEqual.TextIsEqual(httpMethod, HttpTables.MethodName(routes[i].httpMethod), TextEqual.Upper)
    ensures FirstMatch(routes, pathname, httpMethod).None?
    ensures Decide(false, false, FirstMatch(routes, pathname, httpMethod)) == ToNotFound
  {
  }

  /** Where `getResponse` sends a request before anything can throw. */
  datatype Decision = ToDeparted | ToMethodNotAllowed | ToRoute(route: CoreumRoute) | ToNotFound

  function Decide(isPreflight: bool, isMethodNotAllowed: bool, found: Option<CoreumRoute>): (d: Decision)
    ensures d.ToDeparted? <==> isPreflight
    ensures d.ToMethodNotAllowed? <==> !isPreflight && isMethodNotAllowed
    ensures d.ToRoute? <==> !isPreflight && !isMethodNotAllowed && found.Some?
    ensures d.ToRoute? ==> d.route == found.value
  {
    if isPreflight then ToDeparted
    else if isMethodNotAllowed then ToMethodNotAllowed
    else if found.Some? then ToRoute(found.value)
    else ToNotFound
  }

  /** The body a response built from `b` keeps: a serialisable value as its JSON text. */
  function Sent(b: Responses.CoreumBody): Responses.CoreumBody
  {
    if b.Serialisable? then Responses.Raw(Some(Json.Stringify(b.value))) else b
  }

  /** `new __Coreum_Response(body, { status })`. */
  method StatusResponse(body: Responses.CoreumBody, status: int) returns (res: Responses.CoreumResponse)
    ensures fresh(res) && res.headers.Valid() && res.body == Sent(body) && res.status == status && res.statusText == "OK"
  {
    res := new Responses.CoreumResponse(body, Responses.ResponseInit(None, None, Some(status), None));
  }

  /** The `catch` of `getResponse`: a response passes; a throw goes to `handleError`. */
  method Recover(attempt: Outcome<Responses.CoreumResponse>, onError: Option<nat>,
                 errorCall: (nat, Thrown) -> Responses.CoreumResponse, errorBody: Thrown -> Responses.CoreumBody)
    returns (res: Responses.CoreumResponse)
    ensures attempt.Ok? ==> res == attempt.value
    ensures attempt.Throw? && onError.Some? ==> res == errorCall(onError.value, attempt.err)
    ensures attempt.Throw? && onError.None? ==>
      fresh(res) && res.status == HttpTables.INTERNAL_SERVER_ERROR && res.body == Sent(errorBody(attempt.err))
  {
    if attempt.Ok? {
      res := attempt.value;
    } else if onError.Some? {
      res := errorCall(onError.value, attempt.err);
    } else {
      res := StatusResponse(errorBody(attempt.err), HttpTables.INTERNAL_SERVER_ERROR);
    }
  }

  /**
   * The oldest server. Its route table is fixed by the constructor; the
   * handlers are tokens whose results the methods take as parameters.
   */
  class CoreumServer {
    const controllers: seq<CoreumController>
    const routes: OrderedMap<CoreumRoute>
    const cors: Option<CorsHeaders.CoreumCors>
    const onError: Option<nat>
    const onNotFound: Option<nat>
    const onMethodNotAllowed: Option<nat>

    ghost predicate Valid()
    {
      OrderedMaps.Valid(routes)
    }

    /**
     * Each middleware in turn wraps the routes of the controllers; then the
     * controllers' routes and the floating routes are set by id.
     */
    constructor(controllers: seq<CoreumController>, middlewares: Option<seq<Middleware>>, floating: Option<seq<CoreumRoute>>,
                cors: Option<CorsHeaders.CoreumCors>, onError: Option<nat>, onNotFound: Option<nat>, onMethodNotAllowed: Option<nat>)
      modifies set rt | rt in AllRoutes(controllers)
      ensures Valid()
      ensures this.controllers == controllers && this.cors == cors
      ensures this.onError == onError && this.onNotFound == onNotFound && this.onMethodNotAllowed == onMethodNotAllowed
      ensures routes == PutRoutes(EmptyMap(), AllRoutes(controllers) + floating.GetOr([]))
      ensures forall rt: CoreumRoute :: old(allocated(rt)) && rt in old(AllRoutes(controllers)) ==>
        rt.handler == WrapAll(old(rt.handler), Callbacks(middlewares.GetOr([])), rt.path, multiset(old(AllRoutes(controllers)))[rt])
    {
      ApplyMiddlewares(middlewares.GetOr([]), controllers);
      var table := CollectRoutes(controllers, floating.GetOr([]));
      this.controllers := controllers;
      routes := table;
      this.cors := cors;
      this.onError := onError;
      this.onNotFound := onNotFound;
      this.onMethodNotAllowed := onMethodNotAllowed;
    }

    /** `findMatchingRoute(req)`: a scan of the table's routes in order for the first that matches. */
    method FindMatchingRoute(pathname: string, httpMethod: string) returns (r: Option<CoreumRoute>)
      requires Valid()
      ensures r == FirstMatch(Values(routes), pathname, httpMethod)
    {
      var values := Values(routes);
      var found := RouteTable.FindFirst(|values|, MatchTest(values, pathname, httpMethod));
      assert found == MatchIndex(values, pathname, httpMethod);
      r := if found.Some? then Some(values[found.value]) else None;
    }

    /** Where `getResponse` sends the request, given its URL. */
    function DecisionFor(req: Requests.CoreumRequest, url: Requests.Url): Decision
      requires Valid()
    {
      Decide(req.IsPreflight(), req.IsMethodNotAllowed(), FirstMatch(Values(routes), url.pathname, req.httpMethod))
    }

    /**
     * The `try` block of `getResponse(req)`, where `url` is the request's URL,
     * `handle` gives what a route's handler returns or throws, the `...Call`
     * parameters what the installed handlers do, and `textBody` how the
     * response constructor reads a string.
     */
    method Attempt(req: Requests.CoreumRequest, url: Requests.Url,
                   handle: RouteHandler -> Outcome<Responses.CoreumResponse>,
                   methodNotAllowedCall: (nat, Requests.CoreumRequest) -> Outcome<Responses.CoreumResponse>,
                   notFoundCall: (nat, Requests.CoreumRequest) -> Outcome<Responses.CoreumResponse>,
                   textBody: string -> Responses.CoreumBody)
      returns (attempt: Outcome<Responses.CoreumResponse>)
      requires Valid()
      ensures var d := DecisionFor(req, url);
        d.ToDeparted? ==> attempt.Ok? && fresh(attempt.value) && attempt.value.status == HttpTables.OK &&
                          attempt.value.body == Sent(textBody("Departed"))
      ensures var d := DecisionFor(req, url);
        d.ToMethodNotAllowed? && onMethodNotAllowed.Some? ==> attempt == methodNotAllowedCall(onMethodNotAllowed.value, req)
      ensures var d := DecisionFor(req, url);
        d.ToMethodNotAllowed? && onMethodNotAllowed.None? ==>
          attempt.Ok? && fresh(attempt.value) && attempt.value.status == HttpTables.METHOD_NOT_ALLOWED &&
          attempt.value.body == Sent(textBody(req.httpMethod + " does not exist."))
      ensures var d := DecisionFor(req, url);
        d.ToRoute? ==> attempt == handle(d.route.handler)
      ensures var d := DecisionFor(req, url);
        d.ToNotFound? && onNotFound.Some? ==> attempt == notFoundCall(onNotFound.value, req)
      ensures var d := DecisionFor(req, url);
        d.ToNotFound? && onNotFound.None? ==>
          attempt.Ok? && fresh(attempt.value) && attempt.value.status == HttpTables.NOT_FOUND &&
          attempt.value.body == Sent(textBody(req.httpMethod + " on " + url.href + " does not exist."))
    {
      var found := FindMatchingRoute(url.pathname, req.httpMethod);
      var d := Decide(req.IsPreflight(), req.IsMethodNotAllowed(), found);
      assert d == DecisionFor(req, url);
      match d
      case ToDeparted =>
        var made := StatusResponse(textBody("Departed"), HttpTables.OK);
        attempt := Ok(made);
      case ToMethodNotAllowed =>
        if onMethodNotAllowed.Some? {
          attempt := methodNotAllowedCall(onMethodNotAllowed.value, req);
        } else {
          var made := StatusResponse(textBody(req.httpMethod + " does not exist."), HttpTables.METHOD_NOT_ALLOWED);
          attempt := Ok(made);
        }
      case ToRoute(route) =>
        attempt := handle(route.handler);
      case ToNotFound =>
        if onNotFound.Some? {
          attempt := notFoundCall(onNotFound.value, req);
        } else {
          var made := StatusResponse(textBody(req.httpMethod + " on " + url.href + " does not exist."), HttpTables.NOT_FOUND);
          attempt := Ok(made);
        }
    }

    /**
     * `getResponse(req)`: the `try` block's outcome (`attempt`), and the
     * response; a throw goes to the installed error handler (`errorCall`),
     * else to a 500 response built from the thrown value (`errorBody`).
     */
    method GetResponse(req: Requests.CoreumRequest, url: Requests.Url,
                       handle: RouteHandler -> Outcome<Responses.CoreumResponse>,
                       methodNotAllowedCall: (nat, Requests.CoreumRequest) -> Outcome<Responses.CoreumResponse>,
                       notFoundCall: (nat, Requests.CoreumRequest) -> Outcome<Responses.CoreumResponse>,
                       errorCall: (nat, Thrown) -> Responses.CoreumResponse,
                       textBody: string -> Responses.CoreumBody, errorBody: Thrown -> Responses.CoreumBody)
      returns (attempt: Outcome<Responses.CoreumResponse>, res: Responses.CoreumResponse)
      requires Valid()
      ensures var d := DecisionFor(req, url);
        d.ToDeparted? ==> attempt.Ok? && fresh(attempt.value) && attempt.value.status == HttpTables.OK &&
                          attempt.value.body == Sent(textBody("Departed"))
      ensures var d := DecisionFor(req, url);
        d.ToMethodNotAllowed? && onMethodNotAllowed.Some? ==> attempt == methodNotAllowedCall(onMethodNotAllowed.value, req)
      ensures var d := DecisionFor(req, url);
        d.ToMethodNotAllowed? && onMethodNotAllowed.None? ==>
          attempt.Ok? && fresh(attempt.value) && attempt.value.status == HttpTables.METHOD_NOT_ALLOWED &&
          attempt.value.body == Sent(textBody(req.httpMethod + " does not exist."))
      ensures var d := DecisionFor(req, url);
        d.ToRoute? ==> attempt == handle(d.route.handler)
      ensures var d := DecisionFor(req, url);
        d.ToNotFound? && onNotFound.Some? ==> attempt == notFoundCall(onNotFound.value, req)
      ensures var d := DecisionFor(req, url);
        d.ToNotFound? && onNotFound.None? ==>
          attempt.Ok? && fresh(attempt.value) && attempt.value.status == HttpTables.NOT_FOUND &&
          attempt.value.body == Sent(textBody(req.httpMethod + " on " + url.href + " does not exist."))
      ensures attempt.Ok? ==> res == attempt.value
      ensures attempt.Throw? && onError.Some? ==> res == errorCall(onError.value, attempt.err)
      ensures attempt.Throw? && onError.None? ==>
        fresh(res) && res.status == HttpTables.INTERNAL_SERVER_ERROR && res.body == Sent(errorBody(attempt.err))
    {
      attempt := Attempt(req, url, handle, methodNotAllowedCall, notFoundCall, textBody);
      res := Recover(attempt, onError, errorCall, errorBody);
    }

    /**
     * `handleFetch(req)` after `getResponse`, as written: the CORS headers
     * are computed on a copy of the response headers, and then the whole copy
     * is combined back into them.
     */
    method HandleFetchAsWritten(req: Requests.CoreumRequest, res: Responses.CoreumResponse)
      requires res.headers.Valid()
      modifies res.headers
      ensures res.headers.Valid()
      ensures cors.None? ==> res.headers.list == old(res.headers.list)
      ensures cors.Some? ==>
        var origin := CorsHeaders.RequestOrigin(HeaderList.Normalise(req.headers));
        res.headers.list == HeaderList.CombineSpec(CorsHeaders.CorsSpec(cors.value.keys, cors.value.config, origin, old(res.headers.list)),
                                                   old(res.headers.list))
    {
      if cors.Some? {
        var request := new HeaderList.HttpHeaders(HeaderList.Normalise(req.headers));
        var headers := cors.value.GetCorsHeaders(request, res.headers);
        var _ := res.headers.InnerCombine(headers);
      }
    }

    /** `handleFetch(req)` as intended: only the CORS headers are added to the response. */
    method HandleFetch(req: Requests.CoreumRequest, res: Responses.CoreumResponse)
      requires res.headers.Valid()
      modifies res.headers
      ensures res.headers.Valid()
      ensures cors.None? ==> res.headers.list == old(res.headers.list)
      ensures cors.Some? ==>
        res.headers.list == CorsHeaders.CorsSpec(cors.value.keys, cors.value.config,
                                                 CorsHeaders.RequestOrigin(HeaderList.Normalise(req.headers)), old(res.headers.list))
    {
      if cors.Some? {
        var request := new HeaderList.HttpHeaders(HeaderList.Normalise(req.headers));
        var headers := cors.value.GetCorsHeaders(request, res.headers);
        res.headers.list := headers.list;
      }
    }
  }

  /**
   * As written, `handleFetch` sends every Set-Cookie line of the response
   * twice: the copy carries them, and combining appends a copy's Set-Cookie
   * lines after the response's own.
   */
  lemma FetchDoublesCookies(k: CorsHeaders.CorsKeys, opts: CorsHeaders.CorsOptions, origin: string, list: HeaderList.HeaderList)
    requires HeaderList.Normalised(list) && CorsHeaders.KeysDistinct(k)
    ensures var sent := HeaderList.CombineSpec(CorsHeaders.CorsSpec(k, opts, origin, list), list);
      HeaderList.Values(sent, HeaderList.SetCookie) == HeaderList.Values(list, HeaderList.SetCookie) + HeaderList.Values(list, HeaderList.SetCookie)
  {
    var cs := CorsHeaders.CorsSpec(k, opts, origin, list);
    CorsHeaders.CorsNormalised(k, opts, origin, list);
    HeaderList.SetCookieLower(HeaderList.SetCookie);
    HeaderList.CombineGet(cs, list, HeaderList.SetCookie);
    CorsHeaders.CorrectedApplyKeepsCookies(k, opts, origin, list);
  }

  /** Every other header reads the same as in the intended version, so the Set-Cookie lines are the only damage. */
  lemma FetchKeepsOtherHeaders(k: CorsHeaders.CorsKeys, opts: CorsHeaders.CorsOptions, origin: string, list: HeaderList.HeaderList, name: string)
    requires HeaderList.Normalised(list) && Strings.ToLower(name) != HeaderList.SetCookie
    ensures var cs := CorsHeaders.CorsSpec(k, opts, origin, list);
      HeaderList.GetSpec(HeaderList.CombineSpec(cs, list), name) == HeaderList.GetSpec(cs, name)
  {
    var cs := CorsHeaders.CorsSpec(k, opts, origin, list);
    CorsHeaders.CorsNormalised(k, opts, origin, list);
    HeaderList.CombineGet(cs, list, name);
    CorsHeaders.CorsValues(k, opts, origin, list, Strings.ToLower(name));
  }

  /** A response with one cookie and CORS configured sends that cookie twice as written and once as intended. */
  lemma OneCookieSentTwice(k: CorsHeaders.CorsKeys, opts: CorsHeaders.CorsOptions, origin: string, name: string, cookie: string)
    requires CorsHeaders.KeysDistinct(k) && name == HeaderList.SetCookie
    ensures HeaderList.Values(HeaderList.CombineSpec(CorsHeaders.CorsSpec(k, opts, origin, [(name, cookie)]), [(name, cookie)]), name) == [cookie, cookie]
    ensures HeaderList.Values(CorsHeaders.CorsSpec(k, opts, origin, [(name, cookie)]), name) == [cookie]
  {
    var list: HeaderList.HeaderList := [(name, cookie)];
    HeaderList.SetCookieLower(name);
    assert HeaderList.Normalised(list);
    assert HeaderList.Values(list, name) == [cookie];
    FetchDoublesCookies(k, opts, origin, list);
    CorsHeaders.CorrectedApplyKeepsCookies(k, opts, origin, list);
  }
}
