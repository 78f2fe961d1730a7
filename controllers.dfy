// The controllers that build routes under a common prefix:
// src/Controller/ControllerAbstract.ts (over the router of src/Router) and
// src/modules/Controller/ControllerAbstract.ts (over the router of
// src/modules/Router); and the handler each route of
// src/lib/Route/__Coreum_Route.ts runs.

module Controllers {
  import opened Wrappers
  import opened RouteTable
  import opened OrderedMaps
  import PathJoin
  import RouteResolve
  import Routers
  import ModelIntern

  /** `resolveRouteDefinition(definition)`: the path goes under the controller's prefix; an object keeps its method. */
  function ResolveRouteDefinition(prefix: Option<string>, definition: RouteResolve.RouteDefinition): (r: RouteResolve.RouteDefinition)
  {
    match definition
    case PathDef(path) => RouteResolve.PathDef(PathJoin.JoinPathSegments([prefix, Some(path)]))
    case MethodPathDef(m, path) => RouteResolve.MethodPathDef(m, PathJoin.JoinPathSegments([prefix, Some(path)]))
  }

  /**
   * A route built through a controller ends up at the global prefix, the
   * controller's prefix and its own path joined in one go, with the method
   * of its definition (GET for a plain path).
   */
  lemma ControllerEndpoint(globalPrefix: string, prefix: Option<string>, definition: RouteResolve.RouteDefinition)
    ensures var d := ResolveRouteDefinition(prefix, definition);
      RouteResolve.ResolveEndpoint(d, RouteResolve.Dynamic, globalPrefix) ==
        PathJoin.JoinPathSegments([Some(globalPrefix), prefix, Some(definition.path)]) &&
      RouteResolve.ResolveMethod(d) == RouteResolve.ResolveMethod(definition)
  {
    PathJoin.NestedJoin([Some(globalPrefix)], [prefix, Some(definition.path)]);
    assert [Some(globalPrefix)] + [Some(PathJoin.JoinPathSegments([prefix, Some(definition.path)]))] ==
      [Some(globalPrefix), Some(PathJoin.JoinPathSegments([prefix, Some(definition.path)]))];
    assert [Some(globalPrefix)] + [prefix, Some(definition.path)] == [Some(globalPrefix), prefix, Some(definition.path)];
  }

  /** The route a controller builds: its definition under the controller's prefix, then under the global prefix. */
  method NewRoute(router: Routers.Router, globalPrefix: string, prefix: Option<string>, definition: RouteResolve.RouteDefinition,
                  handler: Handler, model: Option<ModelIntern.RouteModel>) returns (route: Routers.Route)
    requires router.Valid()
    modifies router`routeRegistryCreated, router`modelRegistryCreated, router.routes, router.models
    ensures fresh(route)
    ensures route.endpoint == PathJoin.JoinPathSegments([Some(globalPrefix), prefix, Some(definition.path)])
    ensures route.httpMethod == RouteResolve.ResolveMethod(definition) && route.handler == handler
    ensures router.Valid()
    ensures router.State() == Routers.AddRouteSpec(old(router.State()), Routers.AnyRoute(route.Entry(), model))
  {
    var d := ResolveRouteDefinition(prefix, definition);
    ControllerEndpoint(globalPrefix, prefix, definition);
    route := new Routers.Route(router, globalPrefix, d, handler, model);
  }

  /** A controller of src/Controller: its prefix, its `beforeEach` hook, and the ids of the routes it built. */
  class Controller {
    const prefix: Option<string>
    const beforeEach: Option<nat>
    var routeIds: seq<string>

    constructor(prefix: Option<string>, beforeEach: Option<nat>)
      ensures this.prefix == prefix && this.beforeEach == beforeEach && routeIds == []
    {
      this.prefix := prefix;
      this.beforeEach := beforeEach;
      routeIds := [];
    }

    /**
     * `route(definition, handler, model)`: a route whose handler awaits
     * `beforeEach` (when set) and then the given handler; its id joins the
     * controller's id set (insertion-ordered, no duplicates).
     */
    method Route(router: Routers.Router, globalPrefix: string, definition: RouteResolve.RouteDefinition, handler: nat,
                 model: Option<ModelIntern.RouteModel>) returns (route: Routers.Route)
      requires router.Valid()
      modifies this`routeIds, router`routeRegistryCreated, router`modelRegistryCreated, router.routes, router.models
      ensures fresh(route)
      ensures route.endpoint == PathJoin.JoinPathSegments([Some(globalPrefix), prefix, Some(definition.path)])
      ensures route.httpMethod == RouteResolve.ResolveMethod(definition)
      ensures route.handler == Guarded(beforeEach, handler)
      ensures routeIds == InsertKey(old(routeIds), route.id)
      ensures router.Valid()
      ensures router.State() == Routers.AddRouteSpec(old(router.State()), Routers.AnyRoute(route.Entry(), model))
    {
      route := NewRoute(router, globalPrefix, prefix, definition, Guarded(beforeEach, handler), model);
      routeIds := InsertKey(routeIds, route.id);
    }

    /** `staticRoute(path, filePath, handler, model)`: the path goes under the prefix; the id joins the set. */
    method StaticRoute(router: Routers.Router, path: string, filePath: string, callback: Option<nat>,
                       model: Option<ModelIntern.RouteModel>) returns (route: Routers.StaticRoute)
      requires router.Valid()
      modifies this`routeIds, router`routeRegistryCreated, router`modelRegistryCreated, router.routes, router.models
      ensures fresh(route)
      ensures route.endpoint == PathJoin.JoinPathSegments([prefix, Some(path)])
      ensures route.handler == StaticFile(filePath, callback)
      ensures routeIds == InsertKey(old(routeIds), route.id)
      ensures router.Valid()
      ensures router.State() == Routers.AddRouteSpec(old(router.State()), Routers.AnyRoute(route.Entry(), model))
    {
      route := new Routers.StaticRoute(router, PathJoin.JoinPathSegments([prefix, Some(path)]), filePath, callback, model);
      routeIds := InsertKey(routeIds, route.id);
    }
  }
}

module ModulesControllers {
  import opened Wrappers
  import opened RouteTable
  import opened OrderedMaps
  import PathJoin
  import RouteResolve
  import ModulesRouters
  import Schemas
  import HttpTables

  /** The definition `route` hands to `new Route`: always an object, with the method resolved and the path under the prefix. */
  function Definition(prefix: Option<string>, definition: RouteResolve.RouteDefinition): (r: RouteResolve.RouteDefinition)
    ensures r.MethodPathDef?
  {
    RouteResolve.MethodPathDef(RouteResolve.ResolveMethod(definition), PathJoin.JoinPathSegments([prefix, Some(definition.path)]))
  }

  /** A static route's path under the controller's prefix (`joinPathSegments(prefix, path)`). */
  function StaticEndpoint(prefix: Option<string>, path: string): (r: string)
    ensures |r| > 0 && r[0] == '/'
  {
    PathJoin.JoinPathSegments([prefix, Some(path)])
  }

  /** The static route a controller builds: its path is kept as given, with no global prefix. */
  method NewStaticRoute(router: ModulesRouters.Router, endpoint: string, filePath: string, extension: Option<string>)
    returns (route: ModulesRouters.StaticRoute)
    requires router.Valid()
    modifies router`routeRegistryCreated, router.routes
    ensures fresh(route)
    ensures route.endpoint == endpoint && route.filePath == filePath && route.id == RouteResolve.ResolveId(HttpTables.GET, endpoint)
    ensures router.Valid()
    ensures router.State() == ModulesRouters.AddRouteSpec(old(router.State()), route.Entry())
  {
    route := new ModulesRouters.StaticRoute(router, endpoint, filePath, extension);
  }

  /** The route a controller builds: its definition under the controller's prefix, then under the router's global prefix. */
  method NewRoute(router: ModulesRouters.Router, prefix: Option<string>, definition: RouteResolve.RouteDefinition,
                  handler: Handler, schemas: Option<seq<(string, Schemas.Schema)>>) returns (route: ModulesRouters.Route)
    requires router.Valid()
    modifies router`routeRegistryCreated, router`modelRegistryCreated, router.routes, router.models
    ensures fresh(route)
    ensures route.endpoint == PathJoin.JoinPathSegments([Some(old(router.globalPrefix)), prefix, Some(definition.path)])
    ensures route.httpMethod == RouteResolve.ResolveMethod(definition) && route.handler == handler
    ensures router.Valid()
    ensures schemas.None? ==> router.State() == ModulesRouters.AddRouteSpec(old(router.State()), route.Entry())
    ensures schemas.Some? ==>
      router.State() == ModulesRouters.AddModelSpec(ModulesRouters.AddRouteSpec(old(router.State()), route.Entry()), route.id, schemas.value)
  {
    var d := Definition(prefix, definition);
    PathJoin.NestedJoin([Some(router.globalPrefix)], [prefix, Some(definition.path)]);
    assert [Some(router.globalPrefix)] + [prefix, Some(definition.path)] == [Some(router.globalPrefix), prefix, Some(definition.path)];
    route := new ModulesRouters.Route(router, d, handler, schemas);
  }

  /** A controller of src/modules/Controller. */
  class Controller {
    const prefix: Option<string>
    const beforeEach: Option<nat>
    var routeIds: seq<string>

    constructor(prefix: Option<string>, beforeEach: Option<nat>)
      ensures this.prefix == prefix && this.beforeEach == beforeEach && routeIds == []
    {
      this.prefix := prefix;
      this.beforeEach := beforeEach;
      routeIds := [];
    }

    /** `route(definition, handler, schemas)`: GET for a plain path, the path under the prefix and then the router's global prefix. */
    method Route(router: ModulesRouters.Router, definition: RouteResolve.RouteDefinition, handler: nat,
                 schemas: Option<seq<(string, Schemas.Schema)>>) returns (route: ModulesRouters.Route)
      requires router.Valid()
      modifies this`routeIds, router`routeRegistryCreated, router`modelRegistryCreated, router.routes, router.models
      ensures fresh(route)
      ensures route.endpoint == PathJoin.JoinPathSegments([Some(old(router.globalPrefix)), prefix, Some(definition.path)])
      ensures route.httpMethod == RouteResolve.ResolveMethod(definition)
      ensures route.handler == Guarded(beforeEach, handler)
      ensures routeIds == InsertKey(old(routeIds), route.id)
      ensures router.Valid()
      ensures schemas.None? ==> router.State() == ModulesRouters.AddRouteSpec(old(router.State()), route.Entry())
      ensures schemas.Some? ==>
        router.State() == ModulesRouters.AddModelSpec(ModulesRouters.AddRouteSpec(old(router.State()), route.Entry()), route.id, schemas.value)
    {
      route := NewRoute(router, prefix, definition, Guarded(beforeEach, handler), schemas);
      routeIds := InsertKey(routeIds, route.id);
    }

    /** `staticRoute(path, filePath, extension)`: the path goes under the prefix; the id joins the set. */
    method StaticRoute(router: ModulesRouters.Router, path: string, filePath: string, extension: Option<string>)
      returns (route: ModulesRouters.StaticRoute)
      requires router.Valid()
      modifies this`routeIds, router`routeRegistryCreated, router.routes
      ensures fresh(route)
      ensures route.endpoint == StaticEndpoint(prefix, path)
      ensures route.filePath == filePath
      ensures routeIds == InsertKey(old(routeIds), route.id)
      ensures router.Valid()
      ensures router.State() == ModulesRouters.AddRouteSpec(old(router.State()), route.Entry())
    {
      // The id depends on the endpoint alone, so it is recorded before the
      // route is built; adding it after, as the source does, ends in the same state.
      var endpoint := StaticEndpoint(prefix, path);
      routeIds := InsertKey(routeIds, RouteResolve.ResolveId(HttpTables.GET, endpoint));
      route := NewStaticRoute(router, endpoint, filePath, extension);
    }
  }
}

/** The `handler` of a route of src/lib/Route/__Coreum_Route.ts. */
module CoreumRouteHandlers {
  import opened Wrappers
  import opened HttpErrors
  import opened OrderedMaps
  import CoreumMiddleware
  import Contexts
  import Requests
  import Responses
  import CookieHeader
  import CookieOptionsJar
  import HttpTables
  import ResponseEdits
  import Parsing

  /** The response fields of a context built by the handler itself, before the route code runs. */
  function CoreumStart(init: Requests.RequestInit): ResponseEdits.Res<CookieHeader.CookieOptions>
  {
    ResponseEdits.Res(HttpTables.OK, "OK", Requests.CoreumHeaders(init), EmptyMap())
  }

  /**
   * `handler(req, ctx)`: the given context, or a new one built for the
   * route's path and schemas (whose eager parsing may throw); then the
   * callback, which yields its value (`result`, or what it throws) after
   * making its edits (`edits`) to the context's status, status text,
   * headers and cookies; then a new response with that value and the
   * context's edited fields. The cookies' Set-Cookie lines come from the
   * platform's cookie map (`setCookieLines`).
   */
  method Handle(route: CoreumMiddleware.CoreumRoute, info: Requests.RequestInfo, init: Requests.RequestInit,
                ctx: Option<Contexts.CoreumContext>, edits: seq<ResponseEdits.Edit>, result: Outcome<Responses.CoreumBody>,
                setCookieLines: OrderedMap<CookieHeader.CookieOptions> -> seq<string>)
    returns (r: Outcome<Responses.CoreumResponse>)
    modifies if ctx.Some? then {ctx.value} else {}
    ensures ctx.None? && Contexts.CoreumEager(Requests.ResolveUrlObject(info), route.path, route.schemas).Throw? ==>
      r == Throw(Contexts.CoreumEager(Requests.ResolveUrlObject(info), route.path, route.schemas).err)
    ensures (ctx.Some? || Contexts.CoreumEager(Requests.ResolveUrlObject(info), route.path, route.schemas).Ok?) && result.Throw? ==>
      r == Throw(result.err)
    ensures (ctx.Some? || Contexts.CoreumEager(Requests.ResolveUrlObject(info), route.path, route.schemas).Ok?) && result.Ok? ==> r.Ok?
    ensures r.Ok? ==> result.Ok? && fresh(r.value) && r.value.headers.Valid()
    ensures r.Ok? ==>
      var done := ResponseEdits.After(if ctx.Some? then old(ctx.value.Response()) else CoreumStart(init), edits, CookieOptionsJar.Same);
      r.value.status == done.status && r.value.statusText == done.statusText &&
      r.value.headers.list == Responses.CoreumAssembled(Some(done.headers), setCookieLines(done.cookies), result.value.Serialisable?)
    ensures ctx.Some? ==> ctx.value.data == old(ctx.value.data)
  {
    var context: Contexts.CoreumContext;
    if ctx.Some? {
      context := ctx.value;
    } else {
      var made := Contexts.NewCoreumContext(info, init, route.path, route.schemas, None);
      if made.Throw? {
        return Throw(made.err);
      }
      context := made.value;
    }
    if result.Throw? {
      return Throw(result.err);
    }
    context.EditAll(edits);
    var res := new Responses.CoreumResponse(result.value,
      Responses.ResponseInit(Some(setCookieLines(context.cookies)), Some(context.headers), Some(context.status), Some(context.statusText)));
    r := Ok(res);
  }
  /**
   * The handler `use` installs around a route's handler: the given
   * context, or a new one for the route's path built with `schemas`; then
   * the middleware callback (`callback`: the data it yields, or what it
   * throws), whose data is stored on the context; then the wrapped
   * handler with that context. `given` is the context the callback
   * receives.
   */
  method WrapWith(route: CoreumMiddleware.CoreumRoute, schemas: Option<Contexts.Model>,
                  info: Requests.RequestInfo, init: Requests.RequestInit, ctx: Option<Contexts.CoreumContext>,
                  callback: Outcome<Option<Parsing.Data>>, edits: seq<ResponseEdits.Edit>, result: Outcome<Responses.CoreumBody>,
                  setCookieLines: OrderedMap<CookieHeader.CookieOptions> -> seq<string>)
    returns (r: Outcome<Responses.CoreumResponse>, given: Option<Contexts.CoreumContext>)
    modifies if ctx.Some? then {ctx.value} else {}
    ensures ctx.Some? ==> given == ctx
    ensures ctx.None? ==> (given.Some? <==> Contexts.CoreumEager(Requests.ResolveUrlObject(info), route.path, schemas).Ok?)
    ensures ctx.None? && given.Some? ==> fresh(given.value) && given.value.schemas == schemas && given.value.path == route.path
    ensures given.None? ==> r == Throw(Contexts.CoreumEager(Requests.ResolveUrlObject(info), route.path, schemas).err)
    ensures given.Some? && callback.Throw? ==> r == Throw(callback.err)
    ensures given.Some? && callback.Ok? ==> given.value.data == callback.value
    ensures given.Some? && callback.Ok? && result.Throw? ==> r == Throw(result.err)
    ensures given.Some? && callback.Ok? && result.Ok? ==> r.Ok?
    ensures r.Ok? ==>
      var done := ResponseEdits.After(if ctx.Some? then old(ctx.value.Response()) else CoreumStart(init), edits, CookieOptionsJar.Same);
      r.value.status == done.status && r.value.statusText == done.statusText &&
      r.value.headers.list == Responses.CoreumAssembled(Some(done.headers), setCookieLines(done.cookies), result.value.Serialisable?)
  {
    var made := ContextFor(route.path, schemas, info, init, ctx);
    if made.Throw? {
      return Throw(made.err), None;
    }
    var context := made.value;
    given := Some(context);
    if callback.Throw? {
      return Throw(callback.err), given;
    }
    ghost var start := context.Response();
    context.data := callback.value;
    assert context.Response() == start;
    r := Handle(route, info, init, Some(context), edits, result, setCookieLines);
  }

  /** `ctx ?? new __Coreum_Context(req, path, schemas)`. */
  method ContextFor(path: string, schemas: Option<Contexts.Model>, info: Requests.RequestInfo, init: Requests.RequestInit,
                    ctx: Option<Contexts.CoreumContext>)
    returns (made: Outcome<Contexts.CoreumContext>)
    ensures ctx.Some? ==> made == Ok(ctx.value)
    ensures ctx.None? ==> (made.Ok? <==> Contexts.CoreumEager(Requests.ResolveUrlObject(info), path, schemas).Ok?)
    ensures ctx.None? && made.Throw? ==> made.err == Contexts.CoreumEager(Requests.ResolveUrlObject(info), path, schemas).err
    ensures ctx.None? && made.Ok? ==>
      fresh(made.value) && made.value.schemas == schemas && made.value.path == path && made.value.Response() == CoreumStart(init)
  {
    if ctx.Some? {
      made := Ok(ctx.value);
    } else {
      made := Contexts.NewCoreumContext(info, init, path, schemas, None);
    }
  }

  /**
   * The wrapper as written: the context it builds carries no schemas, so
   * whatever schemas the route declares, building it never throws and the
   * callback (and the route code) sees a context whose params, search and
   * body are not validated.
   */
  method HandleWrapped(route: CoreumMiddleware.CoreumRoute, info: Requests.RequestInfo, init: Requests.RequestInit,
                       ctx: Option<Contexts.CoreumContext>, callback: Outcome<Option<Parsing.Data>>, edits: seq<ResponseEdits.Edit>,
                       result: Outcome<Responses.CoreumBody>, setCookieLines: OrderedMap<CookieHeader.CookieOptions> -> seq<string>)
    returns (r: Outcome<Responses.CoreumResponse>, given: Option<Contexts.CoreumContext>)
    modifies if ctx.Some? then {ctx.value} else {}
    ensures ctx.None? ==> given.Some? && given.value.schemas.None? && given.value.path == route.path
    ensures ctx.None? && callback.Ok? && result.Ok? ==> r.Ok?
    ensures ctx.None? && callback.Ok? && result.Throw? ==> r == Throw(result.err)
  {
    Contexts.CoreumEagerErrors(Requests.ResolveUrlObject(info), route.path, None);
    r, given := WrapWith(route, None, info, init, ctx, callback, edits, result, setCookieLines);
  }

  /**
   * The wrapper building its context with the route's schemas, as the
   * route's own handler does: a wrapped route then rejects exactly the
   * params and search its schemas reject, before the callback runs.
   */
  method HandleWrappedValidated(route: CoreumMiddleware.CoreumRoute, info: Requests.RequestInfo, init: Requests.RequestInit,
                                ctx: Option<Contexts.CoreumContext>, callback: Outcome<Option<Parsing.Data>>, edits: seq<ResponseEdits.Edit>,
                                result: Outcome<Responses.CoreumBody>, setCookieLines: OrderedMap<CookieHeader.CookieOptions> -> seq<string>)
    returns (r: Outcome<Responses.CoreumResponse>, given: Option<Contexts.CoreumContext>)
    modifies if ctx.Some? then {ctx.value} else {}
    ensures ctx.None? && Contexts.CoreumEager(Requests.ResolveUrlObject(info), route.path, route.schemas).Throw? ==>
      given.None? && r == Throw(Contexts.CoreumEager(Requests.ResolveUrlObject(info), route.path, route.schemas).err)
    ensures ctx.None? && Contexts.CoreumEager(Requests.ResolveUrlObject(info), route.path, route.schemas).Ok? ==>
      given.Some? && given.value.schemas == route.schemas && given.value.path == route.path
  {
    r, given := WrapWith(route, route.schemas, info, init, ctx, callback, edits, result, setCookieLines);
  }
}
