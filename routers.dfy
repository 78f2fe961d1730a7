// The router of src/Router/Router.ts, which wires the endpoint-keyed route
// registry, the composing middleware registry and the interning model
// registry into one handler per request, and the route objects of
// src/Route/Route.ts and src/Route/StaticRoute.ts, which register themselves
// with the router when they are built.

module Routers {
  import opened Wrappers
  import opened HttpErrors
  import opened RouteTable
  import opened Parsing
  import opened BodyParsing
  import opened OrderedMaps
  import EndpointRouteRegistry
  import MiddlewareChain
  import MiddlewareScopes
  import ModelIntern
  import Contexts
  import Requests
  import Responses
  import ResponseBodies
  import HeaderList
  import CookieJar
  import CookieHeader
  import Coercion
  import HttpTables
  import RoutePattern
  import RouteResolve
  import ResponseEdits
  import Strings

  /** A route as the router receives it: the record it stores and the model the route was declared with. */
  datatype AnyRoute = AnyRoute(entry: RouteEntry, model: Option<ModelIntern.RouteModel>)

  /** One enumerable field of a controller object: a route, or anything else (its prefix, its id set, ...). */
  datatype Field = RouteField(route: AnyRoute) | OtherField

  /** The error the registry's `find` throws for a failed lookup. */
  function LookupError(l: Lookup): (e: Thrown)
    requires !l.Found?
    ensures e.Http? && l.NotFound? ==> StatusOf(e) == HttpTables.NOT_FOUND
    ensures e.Http? && l.MethodNotAllowed? ==> StatusOf(e) == HttpTables.METHOD_NOT_ALLOWED
    ensures e.Http?
  {
    if l.NotFound? then Http(HttpErrors.NotFound(None)) else Http(HttpErrors.MethodNotAllowed(None))
  }

  /** A stored model entry read back as the validators the context parsers apply. */
  function ModelOf(entry: Option<ModelIntern.Entry>, validators: nat -> Validator): (m: Option<Contexts.Model>)
    ensures m.Some? <==> entry.Some?
    ensures m.Some? ==> (m.value.body.Some? <==> entry.value.body.Some?) && (m.value.search.Some? <==> entry.value.search.Some?)
                        && (m.value.params.Some? <==> entry.value.params.Some?)
  {
    if entry.None? then None
    else
      var e := entry.value;
      Some(Contexts.Model(
        if e.body.Some? then Some(validators(e.body.value)) else None,
        if e.search.Some? then Some(validators(e.search.value)) else None,
        if e.params.Some? then Some(validators(e.params.value)) else None))
  }

  /** What `getRouteHandler` captures in the handler it builds: the route, a fresh context, the middleware and the model. */
  datatype Prepared = Prepared(route: RouteEntry, ctx: Contexts.Context, middleware: MiddlewareChain.Handler, model: Option<ModelIntern.Entry>)

  /** What a route's callback returns: a response, any other data, or a throw. */
  datatype HandlerResult = Respond(response: Responses.HttpResponse) | Result(body: ResponseBodies.Body) | Reject(err: Thrown)

  /** The routes among a controller's fields, in field order. */
  function RoutesOf(fields: seq<Field>): (r: seq<AnyRoute>)
    ensures |r| <= |fields|
  {
    if fields == [] then []
    else RoutesOf(fields[..|fields| - 1]) + (if fields[|fields| - 1].RouteField? then [fields[|fields| - 1].route] else [])
  }

  /**
   * What the router's registries hold: the endpoint table (keys in
   * insertion order), the middleware chains, and the model entries with
   * their intern map. A registry never created reads as empty.
   */
  datatype Tables = Tables(keys: seq<string>, store: map<string, RouteEntry>, chains: map<string, MiddlewareChain.Handler>,
                           models: map<string, ModelIntern.Entry>, intern: map<string, nat>)

  const NoTables := Tables([], map[], map[], map[], map[])

  /** `addModel(routeId, model)`: the interned entry replaces the route's earlier one. */
  function AddModelSpec(t: Tables, routeId: string, model: ModelIntern.RouteModel): Tables
  {
    var (e, m) := ModelIntern.AddEntry(t.intern, model);
    t.(models := t.models[routeId := e], intern := m)
  }

  /** `addRoute(r)`: store under the endpoint, replacing any route there, then add the model when there is one. */
  function AddRouteSpec(t: Tables, r: AnyRoute): Tables
  {
    var stored := t.(keys := InsertKey(t.keys, r.entry.endpoint), store := t.store[r.entry.endpoint := r.entry]);
    if r.model.Some? then AddModelSpec(stored, r.entry.id, r.model.value) else stored
  }

  /** Adding each route in turn. */
  function AddAllSpec(t: Tables, routes: seq<AnyRoute>): Tables
  {
    if routes == [] then t else AddRouteSpec(AddAllSpec(t, routes[..|routes| - 1]), routes[|routes| - 1])
  }

  /** Adding a route changes the endpoint table and the models only: the middleware chains stay. */
  lemma AddRouteKeepsChains(t: Tables, r: AnyRoute)
    ensures AddRouteSpec(t, r).chains == t.chains
    ensures AddRouteSpec(t, r).store == t.store[r.entry.endpoint := r.entry]
    ensures r.model.None? ==> AddRouteSpec(t, r).models == t.models && AddRouteSpec(t, r).intern == t.intern
  {
  }

  /**
   * A route added twice (by its own constructor, then again through its
   * controller) leaves the tables as one addition does; this includes the
   * model, whose validators are found interned the second time.
   */
  lemma AddRouteTwice(t: Tables, r: AnyRoute)
    ensures AddRouteSpec(AddRouteSpec(t, r), r) == AddRouteSpec(t, r)
  {
    if r.model.Some? {
      var stored := t.(keys := InsertKey(t.keys, r.entry.endpoint), store := t.store[r.entry.endpoint := r.entry]);
      ModelIntern.AddEntryTwice(stored.intern, r.model.value);
    }
  }

  /** The model registered once more right after `addRoute` (as `new Route` does) changes nothing. */
  lemma ModelAgainAfterRoute(t: Tables, r: AnyRoute)
    requires r.model.Some?
    ensures AddModelSpec(AddRouteSpec(t, r), r.entry.id, r.model.value) == AddRouteSpec(t, r)
  {
    var stored := t.(keys := InsertKey(t.keys, r.entry.endpoint), store := t.store[r.entry.endpoint := r.entry]);
    ModelIntern.AddEntryTwice(stored.intern, r.model.value);
  }

  lemma RoutesOfStep(fields: seq<Field>, i: nat)
    requires i < |fields|
    ensures RoutesOf(fields[..i + 1]) == RoutesOf(fields[..i]) + (if fields[i].RouteField? then [fields[i].route] else [])
  {
    assert fields[..i + 1][..i] == fields[..i];
  }

  lemma AddAllSnoc(t: Tables, routes: seq<AnyRoute>, r: AnyRoute)
    ensures AddAllSpec(t, routes + [r]) == AddRouteSpec(AddAllSpec(t, routes), r)
  {
    assert (routes + [r])[..|routes|] == routes;
  }

  /** Fields that are not routes add nothing. */
  lemma {:induction false} OtherFieldsIgnored(fields: seq<Field>, more: seq<Field>)
    requires forall i :: 0 <= i < |more| ==> more[i].OtherField?
    ensures RoutesOf(fields + more) == RoutesOf(fields)
  {
    if more != [] {
      var init := more[..|more| - 1];
      assert (fields + more)[..|fields + more| - 1] == fields + init;
      assert (fields + more)[|fields + more| - 1] == more[|more| - 1];
      assert more[|more| - 1].OtherField?;
      assert forall i :: 0 <= i < |init| ==> init[i] == more[i];
      OtherFieldsIgnored(fields, init);
    } else {
      assert fields + more == fields;
    }
  }

  /** A route's record is what its endpoint holds at the end, unless a later route took that endpoint. */
  lemma {:induction false} LastRouteWins(t: Tables, routes: seq<AnyRoute>, i: nat)
    requires i < |routes|
    requires forall j :: i < j < |routes| ==> routes[j].entry.endpoint != routes[i].entry.endpoint
    ensures routes[i].entry.endpoint in AddAllSpec(t, routes).store
    ensures AddAllSpec(t, routes).store[routes[i].entry.endpoint] == routes[i].entry
  {
    var last := routes[|routes| - 1];
    AddRouteKeepsChains(AddAllSpec(t, routes[..|routes| - 1]), last);
    if i < |routes| - 1 {
      LastRouteWins(t, routes[..|routes| - 1], i);
    }
  }

  /** Adding routes never touches the middleware chains. */
  lemma {:induction false} AddAllKeepsChains(t: Tables, routes: seq<AnyRoute>)
    ensures AddAllSpec(t, routes).chains == t.chains
  {
    if routes != [] {
      AddAllKeepsChains(t, routes[..|routes| - 1]);
      AddRouteKeepsChains(AddAllSpec(t, routes[..|routes| - 1]), routes[|routes| - 1]);
    }
  }

  /**
   * The router: a per-request handler cache, a global prefix, and three
   * registries, each created on first use. A registry here is allocated
   * with the router and a flag records whether the source would have
   * created it yet; one not yet created is empty.
   */
  class Router {
    var cache: map<Requests.HttpRequest, Prepared>
    var globalPrefix: string
    const routes: EndpointRouteRegistry.Registry
    const middlewares: MiddlewareChain.Registry
    const models: ModelIntern.ModelRegistry
    var routeRegistryCreated: bool
    var middlewareRegistryCreated: bool
    var modelRegistryCreated: bool

    ghost predicate Valid()
      reads this`routeRegistryCreated, this`middlewareRegistryCreated, this`modelRegistryCreated, routes, middlewares, models
    {
      routes.Valid() &&
      (!routeRegistryCreated ==> routes.keys == [] && routes.store == map[]) &&
      (!middlewareRegistryCreated ==> middlewares.handlers == map[]) &&
      (!modelRegistryCreated ==> models.data == map[] && models.internMap == map[])
    }

    /** The registries' contents. */
    ghost function State(): Tables
      reads routes, middlewares, models
    {
      Tables(routes.keys, routes.store, middlewares.handlers, models.data, models.internMap)
    }

    /** `findMiddleware(routeId)`: a handler that does nothing while no middleware registry was created. */
    ghost function MiddlewareFor(routeId: string): MiddlewareChain.Handler
      reads this`middlewareRegistryCreated, middlewares
    {
      if !middlewareRegistryCreated then MiddlewareChain.Compiled([])
      else MiddlewareChain.FindSpec(middlewares.handlers, routeId)
    }

    constructor()
      ensures Valid() && cache == map[] && globalPrefix == "" && State() == NoTables
      ensures !routeRegistryCreated && !middlewareRegistryCreated && !modelRegistryCreated
      ensures fresh(routes) && fresh(middlewares) && fresh(models)
    {
      cache := map[];
      globalPrefix := "";
      routes := new EndpointRouteRegistry.Registry();
      middlewares := new MiddlewareChain.Registry();
      models := new ModelIntern.ModelRegistry();
      routeRegistryCreated := false;
      middlewareRegistryCreated := false;
      modelRegistryCreated := false;
    }

    /** `setGlobalPrefix(value)`: stored as given. */
    method SetGlobalPrefix(value: string)
      modifies this`globalPrefix
      ensures globalPrefix == value
    {
      globalPrefix := value;
    }

    /** The `routeRegistry` getter: the registry, created (empty) on the first call and the same one afterwards. */
    method RouteRegistry() returns (r: EndpointRouteRegistry.Registry)
      modifies this`routeRegistryCreated
      ensures r == routes && routeRegistryCreated
    {
      routeRegistryCreated := true;
      r := routes;
    }

    /** The `middlewareRegistry` getter. */
    method MiddlewareRegistry() returns (r: MiddlewareChain.Registry)
      modifies this`middlewareRegistryCreated
      ensures r == middlewares && middlewareRegistryCreated
    {
      middlewareRegistryCreated := true;
      r := middlewares;
    }

    /** The `modelRegistry` getter. */
    method ModelRegistry() returns (r: ModelIntern.ModelRegistry)
      modifies this`modelRegistryCreated
      ensures r == models && modelRegistryCreated
    {
      modelRegistryCreated := true;
      r := models;
    }

    /** `getRouteList()`: (method, endpoint) pairs in registration order; reading it creates the registry. */
    method GetRouteList() returns (list: seq<(string, string)>)
      requires Valid()
      modifies this`routeRegistryCreated
      ensures Valid() && routeRegistryCreated
      ensures |list| == |State().keys|
      ensures forall i :: 0 <= i < |list| ==> list[i] == (State().store[State().keys[i]].httpMethod, State().keys[i])
    {
      var reg := RouteRegistry();
      list := reg.List();
    }

    /** `addModel(routeId, model)`. */
    method AddModel(routeId: string, model: ModelIntern.RouteModel)
      requires Valid()
      modifies this`modelRegistryCreated, models
      ensures Valid() && modelRegistryCreated
      ensures State() == AddModelSpec(old(State()), routeId, model)
    {
      var reg := ModelRegistry();
      reg.Add(routeId, model);
    }

    /** `addRoute(r)`. */
    method AddRoute(r: AnyRoute)
      requires Valid()
      modifies this`routeRegistryCreated, this`modelRegistryCreated, routes, models
      ensures Valid() && routeRegistryCreated
      ensures State() == AddRouteSpec(old(State()), r)
      ensures r.model.None? ==> modelRegistryCreated == old(modelRegistryCreated)
    {
      var reg := RouteRegistry();
      reg.Add(r.entry);
      if r.model.Some? {
        AddModel(r.entry.id, r.model.value);
      }
    }

    /** `addController(c)`: every field that is a route is added, in field order; other fields are skipped. */
    method AddController(fields: seq<Field>)
      requires Valid()
      modifies this`routeRegistryCreated, this`modelRegistryCreated, routes, models
      ensures Valid()
      ensures State() == AddAllSpec(old(State()), RoutesOf(fields))
    {
      ghost var start := State();
      for i := 0 to |fields|
        invariant Valid()
        invariant State() == AddAllSpec(start, RoutesOf(fields[..i]))
      {
        RoutesOfStep(fields, i);
        if fields[i].RouteField? {
          AddField(start, fields[..i], fields[i].route);
        } else {
          assert RoutesOf(fields[..i + 1]) == RoutesOf(fields[..i]);
        }
      }
      assert fields[..|fields|] == fields;
    }

    /** One route field of `addController`. */
    method AddField(ghost start: Tables, done: seq<Field>, r: AnyRoute)
      requires Valid() && State() == AddAllSpec(start, RoutesOf(done))
      modifies this`routeRegistryCreated, this`modelRegistryCreated, routes, models
      ensures Valid()
      ensures State() == AddAllSpec(start, RoutesOf(done) + [r])
    {
      AddAllSnoc(start, RoutesOf(done), r);
      AddRoute(r);
    }

    /** `addMiddleware(m)`. */
    method AddMiddleware(useOn: MiddlewareScopes.UseOn, handler: nat)
      requires Valid()
      modifies this`middlewareRegistryCreated, middlewares
      ensures Valid() && middlewareRegistryCreated
      ensures State() == old(State()).(chains := MiddlewareChain.AddSpec(old(State()).chains, useOn, handler))
    {
      var reg := MiddlewareRegistry();
      reg.Add(useOn, handler);
    }

    /** `findMiddleware(routeId)`: a no-op while the registry was never created. */
    method FindMiddleware(routeId: string) returns (h: MiddlewareChain.Handler)
      ensures h == MiddlewareFor(routeId)
    {
      if !middlewareRegistryCreated {
        return MiddlewareChain.Compiled([]);
      }
      h := middlewares.Find(routeId);
    }

    /** `findModel(routeId)`: undefined while the registry was never created, else the stored entry if any. */
    function FindModel(routeId: string): (r: Option<ModelIntern.Entry>)
      reads this`modelRegistryCreated, models
      ensures !modelRegistryCreated ==> r.None?
      ensures modelRegistryCreated ==> (r.Some? <==> routeId in models.data)
      ensures r.Some? ==> r.value == models.data[routeId]
    {
      if !modelRegistryCreated then None else models.Find(routeId)
    }

    /** The registry's answer for a request's pathname and method. */
    ghost function LookupOf(req: Requests.HttpRequest): Lookup
      requires Valid()
      reads this`routeRegistryCreated, this`middlewareRegistryCreated, this`modelRegistryCreated, routes, middlewares, models
    {
      EndpointRouteRegistry.FindEndpoint(State().keys, State().store, req.urlObject.pathname, req.httpMethod)
    }

    /** `findRoute(req)`: the registry's route, or the 404 or 405 it throws. */
    method FindRoute(req: Requests.HttpRequest) returns (r: Outcome<RouteEntry>)
      requires Valid()
      modifies this`routeRegistryCreated
      ensures Valid() && State() == old(State()) && routeRegistryCreated
      ensures LookupOf(req).Found? ==> r == Ok(LookupOf(req).entry)
      ensures !LookupOf(req).Found? ==> r == Throw(LookupError(LookupOf(req)))
    {
      var reg := RouteRegistry();
      var found := reg.Find(req.urlObject.pathname, req.httpMethod);
      if !found.Found? {
        return Throw(LookupError(found));
      }
      r := Ok(found.entry);
    }

    /** What the handler for a found route captures: a fresh context with empty parts, and the route's middleware and model. */
    method Prepare(req: Requests.HttpRequest, route: RouteEntry) returns (p: Prepared)
      ensures p.route == route && p.middleware == MiddlewareFor(route.id) && p.model == FindModel(route.id)
      ensures fresh(p.ctx) && fresh(p.ctx.res) && p.ctx.req == req && p.ctx.Parts() == Contexts.Unparsed
      ensures p.ctx.res.cookies.Valid() && p.ctx.res.status == HttpTables.OK
    {
      var ctx := Contexts.Context.MakeFromRequest(req);
      var middleware := FindMiddleware(route.id);
      var model := FindModel(route.id);
      p := Prepared(route, ctx, middleware, model);
    }

    /**
     * `getRouteHandler(req)`: the cached handler of this request object when
     * there is one; otherwise the route is looked up (a failed lookup throws
     * before anything is cached), and the handler prepared for it is cached
     * for the request.
     */
    method GetRouteHandler(req: Requests.HttpRequest) returns (r: Outcome<Prepared>)
      requires Valid()
      modifies this`cache, this`routeRegistryCreated
      ensures Valid() && State() == old(State())
      ensures req in old(cache) ==> r == Ok(old(cache)[req]) && cache == old(cache)
      ensures req !in old(cache) && !LookupOf(req).Found? ==> r == Throw(LookupError(LookupOf(req))) && cache == old(cache)
      ensures req !in old(cache) && LookupOf(req).Found? ==>
        r.Ok? && cache == old(cache)[req := r.value] && r.value.route == LookupOf(req).entry &&
        r.value.middleware == MiddlewareFor(r.value.route.id) && r.value.model == FindModel(r.value.route.id)
      ensures req !in old(cache) && r.Ok? ==>
        fresh(r.value.ctx) && fresh(r.value.ctx.res) && r.value.ctx.req == req && r.value.ctx.Parts() == Contexts.Unparsed &&
        r.value.ctx.res.cookies.Valid() && r.value.ctx.res.status == HttpTables.OK
    {
      if req in cache {
        return Ok(cache[req]);
      }
      r := Resolve(req);
      if r.Ok? {
        cache := cache[req := r.value];
      }
    }

    /** The uncached path of `getRouteHandler`: the lookup, then the handler prepared for the route found. */
    method Resolve(req: Requests.HttpRequest) returns (r: Outcome<Prepared>)
      requires Valid()
      modifies this`routeRegistryCreated
      ensures Valid() && State() == old(State())
      ensures !LookupOf(req).Found? ==> r == Throw(LookupError(LookupOf(req)))
      ensures LookupOf(req).Found? ==>
        r.Ok? && r.value.route == LookupOf(req).entry &&
        r.value.middleware == MiddlewareFor(r.value.route.id) && r.value.model == FindModel(r.value.route.id)
      ensures r.Ok? ==>
        fresh(r.value.ctx) && fresh(r.value.ctx.res) && r.value.ctx.req == req && r.value.ctx.Parts() == Contexts.Unparsed &&
        r.value.ctx.res.cookies.Valid() && r.value.ctx.res.status == HttpTables.OK
    {
      var found := FindRoute(req);
      if found.Throw? {
        return Throw(found.err);
      }
      var prepared := Prepare(req, found.value);
      r := Ok(prepared);
    }
  }

  /**
   * A response made from a non-binary body and the context's response `res`:
   * its status (the status text derived from it, as the response
   * constructor ignores the one given), its headers and copies of its cookies.
   */
  ghost predicate BuiltFrom(body: ResponseBodies.Body, res: ResponseEdits.Res<string>, made: Responses.HttpResponse)
    reads made, made.headers, made.cookies
  {
    !body.Binary? && ResponseBodies.Render(body).Ok? && made.cookies.Valid() && CookieJar.Sound(res.cookies) &&
    made.body == ResponseBodies.Render(body).value.0 &&
    made.status == Responses.StatusFor(Some(res.status), HeaderList.Normalise(res.headers)) &&
    made.statusText == Responses.StatusTextFor(made.status) &&
    made.cookies.store == CookieHeader.StoreAll(EmptyMap(), CookieJar.Copies(res.cookies), CookieJar.Header) &&
    made.headers.list == Responses.Assembled(Some(res.headers), made.cookies.ToSetCookieHeaders(), ResponseBodies.Render(body).value.1)
  }

  /**
   * The last step of the handler: a response the callback returned passes
   * through, a throw propagates, and any other value becomes a new response
   * built with the cookies, headers and status of the context's response
   * (its status text is derived from the status, as the response
   * constructor ignores the one given).
   */
  method WrapResult(result: HandlerResult, res: Responses.HttpResponse) returns (r: Outcome<Responses.HttpResponse>)
    requires res.cookies.Valid()
    ensures result.Respond? ==> r == Ok(result.response)
    ensures result.Reject? ==> r == Throw(result.err)
    ensures result.Result? ==> (r.Throw? <==> result.body.Binary?)
    ensures result.Result? && r.Ok? ==> fresh(r.value) && BuiltFrom(result.body, ResponseEdits.OfResponse(res), r.value)
  {
    match result
    case Respond(response) =>
      r := Ok(response);
    case Reject(err) =>
      r := Throw(err);
    case Result(body) =>
      var init := Responses.ResponseInit(CookieJar.FromJar(res.cookies), Some(res.headers.list), Some(res.status), Some(res.statusText));
      r := Responses.NewHttpResponse(body, init);
  }

  /**
   * The middleware and parsing steps of the handler `getRouteHandler`
   * builds: the middleware runs first, seeing the context parts as they are
   * (`throws` names the middleware that throw and `middlewareError` is what
   * they throw); only if it finishes are the body, search and params parsed
   * into the context (`validators` reads a stored validator); the parts the
   * callback is handed are the parsed ones, and it is handed nothing when
   * either step threw.
   */
  method RunUntilCallback(p: Prepared, raw: RawBody, validators: nat -> Validator, throws: set<nat>, middlewareError: Thrown)
    returns (saw: Contexts.Parsed, ran: seq<nat>, handed: Outcome<Contexts.Parsed>)
    modifies p.ctx
    ensures saw == old(p.ctx.Parts())
    ensures ran == MiddlewareChain.Run(p.middleware, throws).ran
    ensures !MiddlewareChain.Run(p.middleware, throws).ok ==> handed == Throw(middlewareError) && p.ctx.Parts() == saw
    ensures MiddlewareChain.Run(p.middleware, throws).ok ==>
      var st := Contexts.AfterAppend(TopLevel, Coercion.ProcessString, Contexts.IncomingOf(p.ctx.req, raw), p.ctx.url, p.route.endpoint, ModelOf(p.model, validators), saw);
      p.ctx.Parts() == st.parts && (st.thrown.Some? ==> handed == Throw(st.thrown.value)) && (st.thrown.None? ==> handed == Ok(st.parts))
  {
    saw := p.ctx.Parts();
    var outcome := MiddlewareChain.Run(p.middleware, throws);
    ran := outcome.ran;
    if !outcome.ok {
      return saw, ran, Throw(middlewareError);
    }
    var thrown := Contexts.Context.AppendParsedData(p.ctx, p.ctx.req, raw, p.route.endpoint, ModelOf(p.model, validators));
    if thrown.Some? {
      return saw, ran, Throw(thrown.value);
    }
    handed := Ok(p.ctx.Parts());
  }

  /**
   * The whole handler: middleware, then parsing, then the callback
   * (`callback` is the route code's value), then the wrapping. What the
   * middleware and the route code do to `ctx.res` (`fx`) is applied to the
   * context's response before it is wrapped, so a status, header or cookie
   * they set reaches the response.
   */
  method RunHandler(p: Prepared, raw: RawBody, validators: nat -> Validator, throws: set<nat>, middlewareError: Thrown,
                    callback: (Handler, Contexts.Parsed) -> HandlerResult, fx: ResponseEdits.Effects<Handler, Contexts.Parsed>)
    returns (saw: Contexts.Parsed, ran: seq<nat>, handed: Outcome<Contexts.Parsed>, r: Outcome<Responses.HttpResponse>)
    requires p.ctx.res.cookies.Valid() && p.ctx.res.headers.Valid()
    modifies p.ctx, p.ctx.res, p.ctx.res.headers, p.ctx.res.cookies
    ensures saw == old(p.ctx.Parts()) && ran == MiddlewareChain.Run(p.middleware, throws).ran
    ensures handed.Throw? ==> r == Throw(handed.err)
    ensures handed.Ok? && callback(p.route.handler, handed.value).Respond? ==> r == Ok(callback(p.route.handler, handed.value).response)
    ensures handed.Ok? && callback(p.route.handler, handed.value).Reject? ==> r == Throw(callback(p.route.handler, handed.value).err)
    ensures handed.Ok? && callback(p.route.handler, handed.value).Result? ==>
      (r.Throw? <==> callback(p.route.handler, handed.value).body.Binary?)
    ensures handed.Ok? && callback(p.route.handler, handed.value).Result? && r.Ok? ==>
      fresh(r.value) &&
      BuiltFrom(callback(p.route.handler, handed.value).body,
                ResponseEdits.After(old(ResponseEdits.OfResponse(p.ctx.res)),
                                    ResponseEdits.RouteEdits(fx, ran, p.route.handler, handed.value), CookieJar.Header),
                r.value)
  {
    saw, ran, handed := RunUntilCallback(p, raw, validators, throws, middlewareError);
    if handed.Throw? {
      return saw, ran, handed, Throw(handed.err);
    }
    r := EditAndWrap(p.ctx.res, ResponseEdits.RouteEdits(fx, ran, p.route.handler, handed.value),
                     callback(p.route.handler, handed.value));
  }

  /** The route code's edits on the context's response, then the wrapping of its value. */
  method EditAndWrap(res: Responses.HttpResponse, edits: seq<ResponseEdits.Edit>, result: HandlerResult)
    returns (r: Outcome<Responses.HttpResponse>)
    requires res.cookies.Valid() && res.headers.Valid()
    modifies res, res.headers, res.cookies
    ensures result.Respond? ==> r == Ok(result.response)
    ensures result.Reject? ==> r == Throw(result.err)
    ensures result.Result? ==> (r.Throw? <==> result.body.Binary?)
    ensures result.Result? && r.Ok? ==>
      fresh(r.value) && BuiltFrom(result.body, ResponseEdits.After(old(ResponseEdits.OfResponse(res)), edits, CookieJar.Header), r.value)
  {
    ResponseEdits.EditAll(res, edits);
    r := WrapResult(result, res);
  }

  /** A status the route code sets, and does not set again, is the status of the response built. */
  lemma BuiltWithStatus(body: ResponseBodies.Body, start: ResponseEdits.Res<string>, before: seq<ResponseEdits.Edit>, s: int,
                        later: seq<ResponseEdits.Edit>, made: Responses.HttpResponse)
    requires s != 0 && forall i :: 0 <= i < |later| ==> !ResponseEdits.SetsStatus(later[i])
    requires BuiltFrom(body, ResponseEdits.After(start, before + [ResponseEdits.Status(s)] + later, CookieJar.Header), made)
    ensures made.status == s
  {
    ResponseEdits.StatusReachesResponse(start, before, s, later, CookieJar.Header);
  }

  /**
   * A header the route code sets, and does not touch again, reads back from
   * the response built with the value set (other than Content-Type, which
   * the body may overwrite, and Set-Cookie, which the cookies extend).
   */
  lemma BuiltWithHeader(body: ResponseBodies.Body, start: ResponseEdits.Res<string>, before: seq<ResponseEdits.Edit>,
                        n: string, v: string, later: seq<ResponseEdits.Edit>, made: Responses.HttpResponse)
    requires HeaderList.Normalised(start.headers)
    requires Strings.ToLower(n) != Strings.ToLower(Responses.ContentType) && Strings.ToLower(n) != HeaderList.SetCookie
    requires forall i :: 0 <= i < |later| ==> !ResponseEdits.TouchesHeader(later[i], Strings.ToLower(n))
    requires BuiltFrom(body, ResponseEdits.After(start, before + [ResponseEdits.HeaderSet(n, v)] + later, CookieJar.Header), made)
    ensures HeaderList.GetSpec(made.headers.list, n) == Some(v)
  {
    ResponseEdits.HeaderReachesResponse(start, before, n, v, later, CookieJar.Header,
                                        made.cookies.ToSetCookieHeaders(), ResponseBodies.Render(body).value.1);
  }

  /**
   * A cookie the route code sets with a defined value, and does not set
   * again, is written to the response built as a Set-Cookie line with its
   * name and value: the options other than those two are not carried over.
   */
  lemma BuiltWithCookie(body: ResponseBodies.Body, start: ResponseEdits.Res<string>, before: seq<ResponseEdits.Edit>,
                        opts: CookieHeader.CookieOptions, later: seq<ResponseEdits.Edit>, made: Responses.HttpResponse)
    requires Strings.TextIsDefined(opts.value)
    requires forall i :: 0 <= i < |later| ==> !ResponseEdits.SetsCookie(later[i], opts.name)
    requires BuiltFrom(body, ResponseEdits.After(start, before + [ResponseEdits.CookieSet(opts)] + later, CookieJar.Header), made)
    ensures CookieJar.Header(CookieHeader.Plain(opts.name, opts.value)) in HeaderList.Values(made.headers.list, HeaderList.SetCookie)
  {
    var jar := ResponseEdits.After(start, before + [ResponseEdits.CookieSet(opts)] + later, CookieJar.Header).cookies;
    ResponseEdits.CookieSetWins(start, before, opts, later, CookieJar.Header);
    CookieJar.HeaderReads(opts);
    assert CookieJar.ValueOf(jar, opts.name) == Some(opts.value);
    var i :| 0 <= i < |jar.keys| && jar.keys[i] == opts.name;
    CookieJar.CopiedEntry(jar, i);
    var stored := made.cookies.store;
    var j :| 0 <= j < |stored.keys| && stored.keys[j] == opts.name;
    assert OrderedMaps.Values(stored)[j] == CookieJar.Header(CookieHeader.Plain(opts.name, opts.value));
    Responses.SetCookiesKept(Some(ResponseEdits.After(start, before + [ResponseEdits.CookieSet(opts)] + later, CookieJar.Header).headers),
                             made.cookies.ToSetCookieHeaders(), ResponseBodies.Render(body).value.1);
  }

  /** `new Route(definition, handler, model)` of src/Route/Route.ts. */
  class Route {
    const variant: RouteResolve.RouteVariant
    const endpoint: string
    const httpMethod: HttpTables.Method
    const pattern: seq<RoutePattern.Seg>
    const id: string
    const model: Option<ModelIntern.RouteModel>
    const handler: Handler

    /** The record the router stores for this route. */
    function Entry(): RouteEntry
    {
      RouteEntry(id, endpoint, HttpTables.MethodName(httpMethod), pattern, handler)
    }

    /**
     * The endpoint (under the configured global prefix `prefix`), then the
     * method, pattern and id are resolved; the route adds itself to the
     * router, and then adds its model once more, which stores the same
     * entry again.
     */
    constructor(router: Router, prefix: string, definition: RouteResolve.RouteDefinition, handler: Handler, model: Option<ModelIntern.RouteModel>)
      requires router.Valid()
      modifies router`routeRegistryCreated, router`modelRegistryCreated, router.routes, router.models
      ensures variant == RouteResolve.Dynamic
      ensures endpoint == RouteResolve.ResolveEndpoint(definition, RouteResolve.Dynamic, prefix)
      ensures httpMethod == RouteResolve.ResolveMethod(definition)
      ensures pattern == RoutePattern.ResolvePattern(endpoint)
      ensures id == RouteResolve.ResolveId(httpMethod, endpoint)
      ensures this.model == model && this.handler == handler
      ensures router.Valid()
      ensures router.State() == AddRouteSpec(old(router.State()), AnyRoute(Entry(), model))
    {
      var e := RouteResolve.ResolveEndpoint(definition, RouteResolve.Dynamic, prefix);
      var m := RouteResolve.ResolveMethod(definition);
      variant := RouteResolve.Dynamic;
      endpoint := e;
      httpMethod := m;
      pattern := RoutePattern.ResolvePattern(e);
      id := RouteResolve.ResolveId(m, e);
      this.model := model;
      this.handler := handler;
      new;
      ghost var before := router.State();
      router.AddRoute(AnyRoute(Entry(), model));
      if model.Some? {
        ModelAgainAfterRoute(before, AnyRoute(Entry(), model));
        router.AddModel(id, model.value);
      }
    }
  }

  /** `new StaticRoute(path, filePath, handler, model)` of src/Route/StaticRoute.ts. */
  class StaticRoute {
    const endpoint: string
    const filePath: string
    const pattern: seq<RoutePattern.Seg>
    const id: string
    const model: Option<ModelIntern.RouteModel>
    const handler: Handler

    function Entry(): RouteEntry
    {
      RouteEntry(id, endpoint, HttpTables.MethodName(HttpTables.GET), pattern, handler)
    }

    /**
     * The path is kept as given (no prefix), the method is GET, and the
     * handler serves the file and then calls the given callback, if any; the
     * route adds itself to the router, whose `addRoute` adds the model.
     */
    constructor(router: Router, path: string, filePath: string, callback: Option<nat>, model: Option<ModelIntern.RouteModel>)
      requires router.Valid()
      modifies router`routeRegistryCreated, router`modelRegistryCreated, router.routes, router.models
      ensures endpoint == RouteResolve.ResolveEndpoint(RouteResolve.PathDef(path), RouteResolve.Static, "")
      ensures pattern == RoutePattern.ResolvePattern(endpoint)
      ensures id == RouteResolve.ResolveId(HttpTables.GET, endpoint)
      ensures handler == StaticFile(filePath, callback) && this.filePath == filePath && this.model == model
      ensures router.Valid()
      ensures router.State() == AddRouteSpec(old(router.State()), AnyRoute(Entry(), model))
    {
      endpoint := path;
      this.filePath := filePath;
      pattern := RoutePattern.ResolvePattern(path);
      id := RouteResolve.ResolveId(HttpTables.GET, path);
      this.model := model;
      handler := StaticFile(filePath, callback);
      new;
      router.AddRoute(AnyRoute(Entry(), model));
    }
  }
}
