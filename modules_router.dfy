// The router of src/modules/Router/Router.ts, which holds the id-keyed route
// registry, the ordered middleware registry and the key-filtering model
// registry of src/modules/Registry, each created on first use, and the route
// objects of src/modules/Route/Route.ts and src/modules/Route/StaticRoute.ts,
// which register themselves with the router when they are built.

module ModulesRouters {
  import opened Wrappers
  import opened HttpErrors
  import opened RouteTable
  import opened OrderedMaps
  import IdRegistry = RouteRegistry
  import MiddlewareOrder
  import MiddlewareScopes
  import ModelKeys
  import Schemas
  import Requests
  import HttpTables
  import RoutePattern
  import RouteResolve
  import RouteIds
  import Strings

  /** What the router's registries hold: the route table, its collision index, the middleware lists and the models. */
  datatype Tables = Tables(keys: seq<string>, data: map<string, RouteEntry>, possibles: seq<string>,
                           lists: MiddlewareOrder.Lists, models: map<string, map<string, ModelKeys.Stored>>)

  /** What a router holds before anything is registered. */
  const NoTables := Tables([], map[], [], MiddlewareOrder.Initial, map[])

  /** `addRoute(r)`: the collision index records the endpoint, and the record is stored under its id. */
  function AddRouteSpec(t: Tables, e: RouteEntry): Tables
  {
    t.(keys := InsertKey(t.keys, e.id), data := t.data[e.id := e],
       possibles := IdRegistry.PossiblesAfter(t.possibles, e.endpoint))
  }

  /** `addModel(routeId, model)`: the filtered entry replaces the route's earlier one. */
  function AddModelSpec(t: Tables, routeId: string, model: seq<(string, Schemas.Schema)>): Tables
  {
    t.(models := ModelKeys.AddSpec(t.models, routeId, model))
  }

  /** The error `find` throws for a failed lookup. */
  function LookupError(l: Lookup): (e: Thrown)
    requires !l.Found?
    ensures e.Http? && StatusOf(e) == (if l.NotFound? then HttpTables.NOT_FOUND else HttpTables.METHOD_NOT_ALLOWED)
  {
    if l.NotFound? then Http(HttpErrors.NotFound(None)) else Http(HttpErrors.MethodNotAllowed(None))
  }

  /**
   * A registry that was never created answers as a fresh one would: no
   * middleware for any route and no model for any id. So the defaults of
   * `findMiddleware` and `findModel` cannot be told apart from a lookup.
   */
  lemma NeverCreatedIsEmpty(routeId: string)
    ensures MiddlewareOrder.Composed(MiddlewareOrder.Initial, routeId) == []
    ensures ModelKeys.FindSpec(map[], routeId) == None
  {
    assert MiddlewareOrder.Get(MiddlewareOrder.Initial.data, MiddlewareScopes.Global) == [];
    MiddlewareOrder.SortedIsFixed([]);
    if routeId == MiddlewareScopes.Global {
    } else {
      assert MiddlewareOrder.Get(MiddlewareOrder.Initial.data, routeId) == [];
    }
  }

  /** After `addRoute`, a request for the route's endpoint with the route's own method finds it by its id, whatever was registered before. */
  lemma {:induction false} AddedRouteFoundExactly(t: Tables, e: RouteEntry, m: HttpTables.Method, rule: IdRegistry.TrailingRule)
    requires TableValid(t.keys, t.data)
    requires e.httpMethod == HttpTables.MethodName(m) && e.id == RouteResolve.ResolveId(m, e.endpoint)
    ensures var after := AddRouteSpec(t, e);
      TableValid(after.keys, after.data) &&
      IdRegistry.FindByPathname(after.keys, after.data, e.endpoint, e.httpMethod, rule) == Found(e)
  {
    var after := AddRouteSpec(t, e);
    assert IdRegistry.ExactId(e.httpMethod, e.endpoint) == e.id;
    IdRegistry.ExactIdWins(after.keys, after.data, e.endpoint, e.httpMethod, rule);
  }

  /**
   * The router. Each registry is allocated with the router, and a flag
   * records whether the source would have created it yet; one not yet
   * created is empty.
   */
  class Router {
    var globalPrefix: string
    const routes: IdRegistry.Registry
    const middlewares: MiddlewareOrder.Registry
    const models: ModelKeys.ModelRegistry
    var routeRegistryCreated: bool
    var middlewareRegistryCreated: bool
    var modelRegistryCreated: bool

    ghost predicate Valid()
      reads this, routes, middlewares, models
    {
      routes.Valid() && routes.rule == IdRegistry.PopParam && middlewares.Valid() &&
      (!routeRegistryCreated ==> routes.keys == [] && routes.data == map[] && routes.possibles == []) &&
      (!middlewareRegistryCreated ==> MiddlewareOrder.Lists(middlewares.keys, middlewares.data) == MiddlewareOrder.Initial) &&
      (!modelRegistryCreated ==> models.data == map[])
    }

    /** The registries' contents. */
    ghost function State(): Tables
      reads this, routes, middlewares, models
    {
      Tables(routes.keys, routes.data, routes.possibles, MiddlewareOrder.Lists(middlewares.keys, middlewares.data), models.data)
    }

    constructor()
      ensures Valid() && globalPrefix == "" && State() == NoTables
      ensures !routeRegistryCreated && !middlewareRegistryCreated && !modelRegistryCreated
      ensures fresh(routes) && fresh(middlewares) && fresh(models)
    {
      globalPrefix := "";
      routes := new IdRegistry.Registry(IdRegistry.PopParam);
      middlewares := new MiddlewareOrder.Registry();
      models := new ModelKeys.ModelRegistry();
      routeRegistryCreated := false;
      middlewareRegistryCreated := false;
      modelRegistryCreated := false;
    }

    /** `setGlobalPrefix(value)`: stored as given. */
    method SetGlobalPrefix(value: string)
      modifies this`globalPrefix
      ensures globalPrefix == value
    {
      globalPrefix := value;
    }

    /** The `routeRegistry` getter: created (empty) on the first call, the same registry afterwards. */
    method RouteRegistry() returns (r: IdRegistry.Registry)
      modifies this`routeRegistryCreated
      ensures r == routes && routeRegistryCreated
    {
      routeRegistryCreated := true;
      r := routes;
    }

    /** The `middlewareRegistry` getter. */
    method MiddlewareRegistry() returns (r: MiddlewareOrder.Registry)
      modifies this`middlewareRegistryCreated
      ensures r == middlewares && middlewareRegistryCreated
    {
      middlewareRegistryCreated := true;
      r := middlewares;
    }

    /** The `modelRegistry` getter. */
    method ModelRegistry() returns (r: ModelKeys.ModelRegistry)
      modifies this`modelRegistryCreated
      ensures r == models && modelRegistryCreated
    {
      modelRegistryCreated := true;
      r := models;
    }

    /** The `routes` getter: the route records by id; reading them creates the registry. */
    method Routes() returns (d: map<string, RouteEntry>)
      requires Valid()
      modifies this`routeRegistryCreated
      ensures Valid() && routeRegistryCreated && State() == old(State())
      ensures d == State().data
    {
      var reg := RouteRegistry();
      d := reg.data;
    }

    /** `addRoute(r)`. */
    method AddRoute(e: RouteEntry)
      requires Valid()
      modifies this`routeRegistryCreated, routes
      ensures Valid() && routeRegistryCreated
      ensures State() == AddRouteSpec(old(State()), e)
    {
      var reg := RouteRegistry();
      reg.Add(e);
    }

    /** `findRoute(req)`: the registry's route, or the 404 or 405 it throws. */
    method FindRoute(req: Requests.ModulesHttpRequest) returns (r: Outcome<RouteEntry>)
      requires Valid()
      modifies this`routeRegistryCreated
      ensures Valid() && routeRegistryCreated && State() == old(State())
      ensures var l := IdRegistry.FindByPathname(State().keys, State().data, req.UrlObject().pathname, Strings.ToUpper(req.httpMethod), IdRegistry.PopParam);
        (l.Found? ==> r == Ok(l.entry)) && (!l.Found? ==> r == Throw(LookupError(l)))
    {
      var reg := RouteRegistry();
      var found := reg.Find(req.UrlObject().pathname, req.httpMethod);
      if !found.Found? {
        return Throw(LookupError(found));
      }
      r := Ok(found.entry);
    }

    /** `addMiddleware(opts)`. */
    method AddMiddleware(useOn: MiddlewareScopes.UseOn, handler: nat)
      requires Valid()
      modifies this`middlewareRegistryCreated, middlewares
      ensures Valid() && middlewareRegistryCreated
      ensures State() == old(State()).(lists := MiddlewareOrder.AddSpec(old(State()).lists, useOn, handler))
    {
      var reg := MiddlewareRegistry();
      reg.Add(useOn, handler);
    }

    /**
     * `findMiddleware(routeId)`: [] while the registry was never created,
     * else the global entries then the route's, each in registration order;
     * the registry sorts its lists where they are stored, which leaves them
     * as they were.
     */
    method FindMiddleware(routeId: string) returns (r: seq<MiddlewareOrder.Entry>)
      requires Valid()
      modifies middlewares
      ensures Valid() && State() == old(State())
      ensures !middlewareRegistryCreated ==> r == []
      ensures middlewareRegistryCreated ==> r == MiddlewareOrder.Composed(State().lists, routeId)
    {
      if !middlewareRegistryCreated {
        return [];
      }
      r := middlewares.Find(routeId);
    }

    /** `addModel(routeId, model)`. */
    method AddModel(routeId: string, model: seq<(string, Schemas.Schema)>)
      requires Valid()
      modifies this`modelRegistryCreated, models
      ensures Valid() && modelRegistryCreated
      ensures State() == AddModelSpec(old(State()), routeId, model)
    {
      var reg := ModelRegistry();
      reg.Add(routeId, model);
    }

    /** `findModel(routeId)`: undefined while the registry was never created, else what was last stored for the id. */
    function FindModel(routeId: string): (r: Option<map<string, ModelKeys.Stored>>)
      reads this, models
      ensures !modelRegistryCreated ==> r.None?
      ensures modelRegistryCreated ==> r == ModelKeys.FindSpec(models.data, routeId)
    {
      if !modelRegistryCreated then None else models.Find(routeId)
    }
  }

  /** `new Route(definition, handler, model)` of src/modules/Route/Route.ts. */
  class Route {
    const variant: RouteResolve.RouteVariant
    const endpoint: string
    const httpMethod: HttpTables.Method
    const pattern: seq<RoutePattern.Seg>
    const id: string
    const handler: Handler

    /** The record the registry stores for this route. */
    function Entry(): RouteEntry
    {
      RouteEntry(id, endpoint, HttpTables.MethodName(httpMethod), pattern, handler)
    }

    /**
     * The endpoint is joined under the router's global prefix; then the
     * method, pattern and id are resolved; the route adds itself to the
     * router, and then its model, when one is given.
     */
    constructor(router: Router, definition: RouteResolve.RouteDefinition, handler: Handler, model: Option<seq<(string, Schemas.Schema)>>)
      requires router.Valid()
      modifies router`routeRegistryCreated, router`modelRegistryCreated, router.routes, router.models
      ensures variant == RouteResolve.Dynamic
      ensures endpoint == RouteResolve.ResolveEndpoint(definition, RouteResolve.Dynamic, old(router.globalPrefix))
      ensures httpMethod == RouteResolve.ResolveMethod(definition)
      ensures pattern == RoutePattern.ResolvePattern(endpoint)
      ensures id == RouteResolve.ResolveId(httpMethod, endpoint)
      ensures this.handler == handler
      ensures router.Valid()
      ensures model.None? ==> router.State() == AddRouteSpec(old(router.State()), Entry())
      ensures model.Some? ==> router.State() == AddModelSpec(AddRouteSpec(old(router.State()), Entry()), id, model.value)
    {
      var e := RouteResolve.ResolveEndpoint(definition, RouteResolve.Dynamic, router.globalPrefix);
      var m := RouteResolve.ResolveMethod(definition);
      variant := RouteResolve.Dynamic;
      endpoint := e;
      httpMethod := m;
      pattern := RoutePattern.ResolvePattern(e);
      id := RouteResolve.ResolveId(m, e);
      this.handler := handler;
      new;
      ghost var before := router.State();
      router.AddRoute(Entry());
      assert router.State() == AddRouteSpec(before, Entry());
      if model.Some? {
        router.AddModel(id, model.value);
      }
    }
  }

  /** The file extension a static route serves: the given one, else the text after the file path's last ".", else "txt". */
  function ExtensionOf(extension: Option<string>, filePath: string): (r: string)
    ensures extension.Some? && extension.value != "" ==> r == extension.value
    ensures r != ""
  {
    if extension.Some? && extension.value != "" then extension.value
    else
      var parts := Strings.Split(filePath, '.');
      var last := parts[|parts| - 1];
      if last != "" then last else "txt"
  }

  /** Without an extension, a file path with no "." is its own last part. */
  lemma ExtensionWithoutDot(filePath: string)
    requires filePath != "" && '.' !in filePath
    ensures ExtensionOf(None, filePath) == filePath
  {
    Strings.SplitNoSep(filePath, '.');
  }

  /** `new StaticRoute(path, filePath, extension)` of src/modules/Route/StaticRoute.ts. */
  class StaticRoute {
    const endpoint: string
    const filePath: string
    const extension: string
    const pattern: seq<RoutePattern.Seg>
    const id: string

    /** The record the registry stores: a GET route serving the file. */
    function Entry(): RouteEntry
    {
      RouteEntry(id, endpoint, HttpTables.MethodName(HttpTables.GET), pattern, StaticFile(filePath, None))
    }

    /** The path is kept as given (no prefix), the method is GET, and the route adds itself to the router. */
    constructor(router: Router, path: string, filePath: string, extension: Option<string>)
      requires router.Valid()
      modifies router`routeRegistryCreated, router.routes
      ensures endpoint == RouteResolve.ResolveEndpoint(RouteResolve.PathDef(path), RouteResolve.Static, router.globalPrefix)
      ensures pattern == RoutePattern.ResolvePattern(endpoint)
      ensures id == RouteResolve.ResolveId(HttpTables.GET, endpoint)
      ensures this.filePath == filePath && this.extension == ExtensionOf(extension, filePath)
      ensures router.Valid()
      ensures router.State() == AddRouteSpec(old(router.State()), Entry())
    {
      endpoint := path;
      this.filePath := filePath;
      this.extension := ExtensionOf(extension, filePath);
      pattern := RoutePattern.ResolvePattern(path);
      id := RouteResolve.ResolveId(HttpTables.GET, path);
      new;
      router.AddRoute(Entry());
    }
  }
}
