// The servers of the three generations: src/Server/ServerAbstract.ts,
// src/modules/Server/ServerAbstract.ts and src/lib/Server/__Coreum_Server.ts.
// Each turns a request into a response: a preflight departs at once, a
// routed request gets its handler's response, and what the routing throws
// goes to the not-found, method-not-allowed or error handler; the CORS
// headers are then put on the response and the after-response hook, if any,
// has the last word. Listening, signals and the platform server are not part
// of this model; user callbacks are tokens whose results are parameters.

/** src/Server/ServerAbstract.ts. */
module Servers {
  import opened Wrappers
  import opened HttpErrors
  import opened Json
  import opened ResponseBodies
  import Responses
  import Requests
  import CorsHeaders
  import HeaderList
  import CookieJar
  import HttpTables

  /** Where `getResponse` sends a request. */
  datatype Destination<T> = Departed | Served(value: T) | ToNotFound | ToMethodNotAllowed | ToError(err: Thrown)

  /**
   * `getResponse`: a preflight departs; otherwise the routed handler's
   * response is served, and what it throws goes to the not-found handler
   * when it is an HttpError of status 404, to the method-not-allowed handler
   * when it is one of status 405, and to the error handler in every other case.
   */
  function Dispatch<T>(isPreflight: bool, routed: Outcome<T>): (d: Destination<T>)
    ensures d.Departed? <==> isPreflight
    ensures d.Served? <==> !isPreflight && routed.Ok?
    ensures d.Served? ==> d.value == routed.value
    ensures d.ToError? ==> routed == Throw(d.err)
  {
    if isPreflight then Departed
    else if routed.Ok? then Served(routed.value)
    else if routed.err.Http? && IsStatusOf(routed.err.error, HttpTables.NOT_FOUND) then ToNotFound
    else if routed.err.Http? && IsStatusOf(routed.err.error, HttpTables.METHOD_NOT_ALLOWED) then ToMethodNotAllowed
    else ToError(routed.err)
  }

  /** A thrown value reaches the handler its status names; anything that is not an HttpError counts as 500. */
  lemma ThrownGoesByStatus<T>(routed: Outcome<T>)
    requires routed.Throw?
    ensures Dispatch(false, routed).ToNotFound? <==> StatusOf(routed.err) == HttpTables.NOT_FOUND
    ensures Dispatch(false, routed).ToMethodNotAllowed? <==> StatusOf(routed.err) == HttpTables.METHOD_NOT_ALLOWED
    ensures Dispatch(false, routed).ToError? <==>
      StatusOf(routed.err) != HttpTables.NOT_FOUND && StatusOf(routed.err) != HttpTables.METHOD_NOT_ALLOWED
  {
  }

  /** The message a thrown value puts under "message" in the default error body. */
  function ErrorMessage(err: Thrown): string
  {
    match err
    case Http(e) => e.message
    case Syntax(m) => m
    case Failure(m) => m
    case NonError(_) => "Unknown"
  }

  /**
   * The default `handleError` body: `toResponse()`'s for an HttpError; the
   * value and "Unknown" for a thrown value that is not an Error; and for any
   * other Error the error itself, which serialises as `{}` because its own
   * properties are not enumerable, and its message.
   */
  function ErrorFields(err: Thrown): seq<(string, Json)>
  {
    match err
    case Http(e) => ErrorBody(e).fields
    case NonError(v) => [("error", v), ("message", JStr("Unknown"))]
    case _ => [("error", JObj([])), ("message", JStr(ErrorMessage(err)))]
  }

  /** Every default error body names the message, and the thrown value itself when it is not an Error. */
  lemma ErrorFieldsCarry(err: Thrown)
    ensures Field(JObj(ErrorFields(err)), "message") == Some(JStr(ErrorMessage(err)))
    ensures Field(JObj(ErrorFields(err)), "error").Some?
    ensures err.NonError? ==> Field(JObj(ErrorFields(err)), "error") == Some(err.value)
    ensures err.Http? ==> Truthy(Field(JObj(ErrorFields(err)), "error").value)
  {
    if err.Http? {
      ToResponseCarries(err.error);
    } else {
      var f := ErrorFields(err);
      assert f[0].0 == "error" && f[1].0 == "message";
      assert "error" != "message";
      assert FieldIn(f[..1], "error") == Some(f[0].1);
    }
  }

  /** The default `handleNotFound` body. */
  function NotFoundFields(httpMethod: string, url: string): seq<(string, Json)>
  {
    [("error", JBool(true)), ("message", JStr(httpMethod + " on " + url + " does not exist."))]
  }

  /** The default `handleMethodNotAllowed` body. */
  function MethodNotAllowedFields(httpMethod: string): seq<(string, Json)>
  {
    [("error", JStr(httpMethod + " does not exist."))]
  }

  /** A JSON response with no cookies and no headers of its own. */
  method JsonResponse(fields: seq<(string, Json)>, status: int) returns (res: Responses.HttpResponse)
    ensures fresh(res) && res.headers.Valid() && res.body == Stringify(JObj(fields))
    ensures res.status == if status != 0 then status else HttpTables.OK
  {
    res := new Responses.HttpResponse(PlainObject(fields), Responses.ResponseInit(CookieJar.NoInit, None, Some(status), None));
    assert HeaderList.Normalise([]) == [];
  }

  /** The default `handleError`: the error body with the error's status, 500 for all but an HttpError. */
  method DefaultError(err: Thrown) returns (res: Responses.HttpResponse)
    ensures fresh(res) && res.headers.Valid() && res.body == Stringify(JObj(ErrorFields(err)))
    ensures res.status == if StatusOf(err) != 0 then StatusOf(err) else HttpTables.OK
  {
    res := JsonResponse(ErrorFields(err), StatusOf(err));
  }

  /** `src/Server`'s server: its CORS settings and the hooks the setters install. */
  class Server {
    var cors: Option<CorsHeaders.Cors>
    var onError: Option<nat>
    var onNotFound: Option<nat>
    var onBeforeListen: Option<nat>
    var onBeforeClose: Option<nat>
    var onAfterResponse: Option<nat>

    constructor()
      ensures cors.None? && onError.None? && onNotFound.None?
      ensures onBeforeListen.None? && onBeforeClose.None? && onAfterResponse.None?
    {
      cors := None;
      onError := None;
      onNotFound := None;
      onBeforeListen := None;
      onBeforeClose := None;
      onAfterResponse := None;
    }

    /** `setCors(opts)`: a new `Cors` with these options. */
    method SetCors(opts: CorsHeaders.CorsOptions)
      modifies this`cors
      ensures cors.Some? && fresh(cors.value) && cors.value.opts == opts && cors.value.keys == CorsHeaders.DefaultKeys
    {
      var c := new CorsHeaders.Cors(opts);
      cors := Some(c);
    }

    method SetOnError(handler: nat)
      modifies this`onError
      ensures onError == Some(handler)
    {
      onError := Some(handler);
    }

    method SetOnNotFound(handler: nat)
      modifies this`onNotFound
      ensures onNotFound == Some(handler)
    {
      onNotFound := Some(handler);
    }

    method SetOnBeforeListen(handler: nat)
      modifies this`onBeforeListen
      ensures onBeforeListen == Some(handler)
    {
      onBeforeListen := Some(handler);
    }

    method SetOnBeforeClose(handler: nat)
      modifies this`onBeforeClose
      ensures onBeforeClose == Some(handler)
    {
      onBeforeClose := Some(handler);
    }

    method SetOnAfterResponse(handler: nat)
      modifies this`onAfterResponse
      ensures onAfterResponse == Some(handler)
    {
      onAfterResponse := Some(handler);
    }

    /**
     * `getResponse(req)` given what the router's handler produced (`routed`):
     * each destination of `Dispatch` answered by its handler, an installed
     * one (`errorCall`, `notFoundCall`) or the default.
     */
    method GetResponse(req: Requests.HttpRequest, routed: Outcome<Responses.HttpResponse>,
                       errorCall: (nat, Thrown) -> Responses.HttpResponse,
                       notFoundCall: (nat, Requests.HttpRequest) -> Responses.HttpResponse)
      returns (res: Responses.HttpResponse)
      ensures var d := Dispatch(req.isPreflight, routed);
        d.Departed? ==> fresh(res) && res.body == "Departed" && res.status == HttpTables.OK
      ensures var d := Dispatch(req.isPreflight, routed);
        d.Served? ==> res == d.value
      ensures var d := Dispatch(req.isPreflight, routed);
        d.ToNotFound? && onNotFound.Some? ==> res == notFoundCall(onNotFound.value, req)
      ensures var d := Dispatch(req.isPreflight, routed);
        d.ToNotFound? && onNotFound.None? ==>
          fresh(res) && res.status == HttpTables.NOT_FOUND &&
          res.body == Stringify(JObj(NotFoundFields(req.httpMethod, req.urlObject.href)))
      ensures var d := Dispatch(req.isPreflight, routed);
        d.ToMethodNotAllowed? ==>
          fresh(res) && res.status == HttpTables.METHOD_NOT_ALLOWED &&
          res.body == Stringify(JObj(MethodNotAllowedFields(req.httpMethod)))
      ensures var d := Dispatch(req.isPreflight, routed);
        d.ToError? && onError.Some? ==> res == errorCall(onError.value, d.err)
      ensures var d := Dispatch(req.isPreflight, routed);
        d.ToError? && onError.None? ==>
          fresh(res) && res.body == Stringify(JObj(ErrorFields(d.err))) &&
          res.status == if StatusOf(d.err) != 0 then StatusOf(d.err) else HttpTables.OK
    {
      var d := Dispatch(req.isPreflight, routed);
      match d
      case Departed =>
        res := new Responses.HttpResponse(Primitive("Departed"), Responses.ResponseInit(CookieJar.NoInit, None, None, None));
        assert HeaderList.Normalise([]) == [];
      case Served(v) =>
        res := v;
      case ToNotFound =>
        if onNotFound.Some? {
          res := notFoundCall(onNotFound.value, req);
        } else {
          res := JsonResponse(NotFoundFields(req.httpMethod, req.urlObject.href), HttpTables.NOT_FOUND);
        }
      case ToMethodNotAllowed =>
        res := JsonResponse(MethodNotAllowedFields(req.httpMethod), HttpTables.METHOD_NOT_ALLOWED);
      case ToError(err) =>
        if onError.Some? {
          res := errorCall(onError.value, err);
        } else {
          res := DefaultError(err);
        }
    }

    /**
     * The rest of `handle(request)`: the CORS headers are applied to the
     * response (with `apply` as corrected, see CorsHeaders), then the
     * after-response hook, when installed, gives the response returned.
     */
    method Finish(req: Requests.HttpRequest, res: Responses.HttpResponse,
                  afterResponse: (nat, Responses.HttpResponse) -> Responses.HttpResponse)
      returns (out: Responses.HttpResponse)
      requires res.headers.Valid()
      modifies res.headers
      ensures res.headers.Valid()
      ensures cors.None? ==> res.headers.list == old(res.headers.list)
      ensures cors.Some? ==>
        res.headers.list == CorsHeaders.CorsSpec(cors.value.keys, cors.value.opts,
                                                 CorsHeaders.RequestOrigin(HeaderList.Normalise(req.headers)), old(res.headers.list))
      ensures out == if onAfterResponse.Some? then afterResponse(onAfterResponse.value, res) else res
    {
      if cors.Some? {
        var request := new HeaderList.HttpHeaders(HeaderList.Normalise(req.headers));
        cors.value.Apply(request, res.headers);
      }
      out := if onAfterResponse.Some? then afterResponse(onAfterResponse.value, res) else res;
    }
  }
}

/** src/modules/Server/ServerAbstract.ts. */
module ModulesServers {
  import opened Wrappers
  import opened HttpErrors
  import opened Json
  import opened ResponseBodies
  import opened Parsing
  import opened Extraction
  import opened BodyParsing
  import Servers
  import Responses
  import Requests
  import Contexts
  import CorsHeaders
  import HeaderList
  import CookieOptionsJar
  import HttpTables
  import Coercion
  import ContentTypes
  import Strings
  import RouteTable
  import IdRegistry = RouteRegistry
  import MiddlewareOrder
  import MiddlewareChain
  import ModelKeys
  import ModulesRouters
  import ResponseEdits
  import CookieHeader
  import OrderedMaps

  /** `getResponse` with the static `HttpError.isStatusOf`, which reads any non-HttpError as a 500. */
  function Dispatch<T>(isPreflight: bool, routed: Outcome<T>): (d: Servers.Destination<T>)
    ensures d.Departed? <==> isPreflight
    ensures d.Served? <==> !isPreflight && routed.Ok?
    ensures d.ToError? ==> routed == Throw(d.err)
  {
    if isPreflight then Servers.Departed
    else if routed.Ok? then Servers.Served(routed.value)
    else if ModulesIsStatusOf(routed.err, HttpTables.NOT_FOUND) then Servers.ToNotFound
    else if ModulesIsStatusOf(routed.err, HttpTables.METHOD_NOT_ALLOWED) then Servers.ToMethodNotAllowed
    else Servers.ToError(routed.err)
  }

  /** The two generations send every request to the same handler, though only one of them tests for HttpError first. */
  lemma SameDispatch<T>(isPreflight: bool, routed: Outcome<T>)
    ensures Dispatch(isPreflight, routed) == Servers.Dispatch(isPreflight, routed)
  {
  }

  /** A JSON value handed to the response constructor, as `getBody` tells it apart. */
  function JsonBody(j: Json): (b: Body)
    ensures !b.Binary?
    ensures Serialisable(b) <==> j.JArr? || j.JObj?
    ensures (j.JArr? || j.JObj?) ==> Render(b) == Ok((Stringify(j), ApplicationJson))
    ensures j.JStr? ==> Render(b) == Ok((j.s, TextPlain))
    ensures j.JNull? ==> Render(b) == Ok(("", TextPlain))
    ensures j.JNum? || j.JBool? ==> Render(b) == Ok((Stringify(j), TextPlain))
  {
    match j
    case JNull => Nullish
    case JBool(v) => Primitive(if v then "true" else "false")
    case JNum(d) => Primitive(Coercion.NumberText(d))
    case JStr(s) => Primitive(s)
    case JArr(items) => JsonArray(items)
    case JObj(fields) => PlainObject(fields)
  }

  /** A route returning 0, -0 or -42.5 answers "0", "0" or "-42.5" as plain text. */
  lemma ZeroAndNegativeBodies()
    ensures Render(JsonBody(JNum(Coercion.Decimal(false, "0", None)))) == Ok(("0", TextPlain))
    ensures Render(JsonBody(JNum(Coercion.Decimal(true, "0", None)))) == Ok(("0", TextPlain))
    ensures Render(JsonBody(JNum(Coercion.Decimal(true, "42", Some("5"))))) == Ok(("-42.5", TextPlain))
  {
    Coercion.NegativeZeroUnsigned();
    assert Coercion.NumberText(Coercion.Decimal(false, "0", None)) == "0";
    assert Coercion.NumberText(Coercion.Decimal(true, "42", Some("5"))) == "-42.5" by {
      assert Coercion.DropTrailingZeros("5") == "5";
    }
  }

  /** `String(error)`: the name, then ": " and the message when there is one. */
  function ErrorText(name: string, message: string): string
  {
    if message == "" then name else name + ": " + message
  }

  /** The body and status of the default `handleError`: `data ?? message` and the status for an HttpError, else the value itself and 500. */
  function ErrorReply(err: Thrown): (r: (Body, int))
    ensures r.1 == StatusOf(err)
    ensures !r.0.Binary?
  {
    match err
    case Http(e) =>
      (if e.data.Some? && !e.data.value.JNull? then JsonBody(e.data.value) else Primitive(e.message), e.status)
    case Syntax(m) => (OtherObject(ErrorText("SyntaxError", m)), HttpTables.INTERNAL_SERVER_ERROR)
    case Failure(m) => (OtherObject(ErrorText("Error", m)), HttpTables.INTERNAL_SERVER_ERROR)
    case NonError(v) => (JsonBody(v), HttpTables.INTERNAL_SERVER_ERROR)
  }

  /**
   * A client reads an HttpError's data back when it has some, else its
   * message as plain text; another Error reads as its `String` form.
   */
  lemma ErrorReplyReadsBack(err: Thrown)
    ensures err.Http? && (err.error.data.None? || err.error.data.value.JNull?) ==>
      Render(ErrorReply(err).0) == Ok((err.error.message, TextPlain))
    ensures err.Http? && err.error.data.Some? && (err.error.data.value.JObj? || err.error.data.value.JArr?) ==>
      Render(ErrorReply(err).0) == Ok((Stringify(err.error.data.value), ApplicationJson))
    ensures err.Syntax? ==> Render(ErrorReply(err).0) == Ok((ErrorText("SyntaxError", err.message), TextPlain))
    ensures err.Failure? ==> Render(ErrorReply(err).0) == Ok((ErrorText("Error", err.message), TextPlain))
  {
  }

  /**
   * The generations part on a bare HttpError: the top-level default answers
   * with a JSON object, the modules default with the message as plain text.
   */
  lemma ErrorBodiesDiffer(e: HttpError)
    requires e.data.None?
    ensures Render(PlainObject(Servers.ErrorFields(Http(e)))).value.1 == ApplicationJson
    ensures Render(ErrorReply(Http(e)).0) == Ok((e.message, TextPlain))
  {
  }

  /** A modules response built from a body and a status only. */
  method TextResponse(body: Body, status: int) returns (res: Responses.ModulesHttpResponse)
    requires !body.Binary?
    ensures fresh(res) && res.headers.Valid() && res.body == Render(body).value.0
    ensures res.status == if status != 0 then status else HttpTables.OK
  {
    res := new Responses.ModulesHttpResponse(body, Responses.ResponseInit(None, None, Some(status), None));
    assert HeaderList.Normalise([]) == [];
  }

  /** The default `handleError`. */
  method DefaultError(err: Thrown) returns (res: Responses.ModulesHttpResponse)
    ensures fresh(res) && res.headers.Valid() && res.body == Render(ErrorReply(err).0).value.0
    ensures res.status == if StatusOf(err) != 0 then StatusOf(err) else HttpTables.OK
  {
    var (body, status) := ErrorReply(err);
    res := TextResponse(body, status);
  }

  /** What a route callback gives back: a response, which passes as it is, any other data, or a throw. */
  datatype RouteResult = Respond(response: Responses.ModulesHttpResponse) | Result(body: Body) | Reject(err: Thrown)

  /** The middleware handlers in the order `findMiddleware` lists them. */
  function Handlers(entries: seq<MiddlewareOrder.Entry>): (r: seq<nat>)
    ensures |r| == |entries|
    ensures forall i :: 0 <= i < |r| ==> r[i] == entries[i].handler
  {
    seq(|entries|, i requires 0 <= i < |entries| => entries[i].handler)
  }

  /** What `findRoute` looks up for a request in the router's tables. */
  function LookupOf(t: ModulesRouters.Tables, req: Requests.ModulesHttpRequest): RouteTable.Lookup
    requires forall k :: k in t.keys ==> k in t.data
  {
    IdRegistry.FindByPathname(t.keys, t.data, req.UrlObject().pathname, Strings.ToUpper(req.httpMethod), IdRegistry.PopParam)
  }

  /** What `findMiddleware` returns: nothing while the registry was never created. */
  function MiddlewareOf(created: bool, t: ModulesRouters.Tables, routeId: string): seq<MiddlewareOrder.Entry>
  {
    if created then MiddlewareOrder.Composed(t.lists, routeId) else []
  }

  /** What `findModel` returns, read as the validators `appendParsedData` applies to each part. */
  function StoredModel(m: Option<map<string, ModelKeys.Stored>>, validators: nat -> Validator): (r: Option<Contexts.Model>)
    ensures r.Some? <==> m.Some?
    ensures r.Some? ==> (r.value.body.Some? <==> "body" in m.value) && (r.value.search.Some? <==> "search" in m.value) &&
                        (r.value.params.Some? <==> "params" in m.value)
  {
    if m.None? then None
    else
      var d := m.value;
      Some(Contexts.Model(
        if "body" in d then Some(validators(d["body"].validate)) else None,
        if "search" in d then Some(validators(d["search"].validate)) else None,
        if "params" in d then Some(validators(d["params"].validate)) else None))
  }

  /** The edited response of a route run: the context's start, then the middleware's and the route code's edits. */
  type Edited = ResponseEdits.Res<CookieHeader.CookieOptions>

  /**
   * The response a callback's result becomes: a response passes, a throw
   * propagates, a binary body throws as the constructor does, and any other
   * data is rendered into a new response with the status, headers and
   * cookies of the context's (edited) response `res`.
   */
  ghost predicate Delivered(result: RouteResult, res: Edited, r: Outcome<Responses.ModulesHttpResponse>)
    reads if r.Ok? then {r.value, r.value.headers, r.value.cookies} else {}
  {
    (result.Respond? ==> r == Ok(result.response)) &&
    (result.Reject? ==> r == Throw(result.err)) &&
    (result.Result? ==>
      (r.Throw? <==> result.body.Binary?) &&
      (r.Throw? ==> r.err == Failure(UnsupportedBody)) &&
      (r.Ok? ==>
        !result.body.Binary? && OrderedMaps.Valid(res.cookies) &&
        r.value.body == Render(result.body).value.0 &&
        r.value.status == Responses.StatusFor(Some(res.status), HeaderList.Normalise(res.headers)) &&
        r.value.cookies.store == CookieHeader.StoreAll(OrderedMaps.EmptyMap(),
          CookieOptionsJar.Plains(CookieOptionsJar.EntriesOf(res.cookies)), CookieOptionsJar.Same) &&
        r.value.headers.list == Responses.Assembled(Some(res.headers),
          CookieOptionsJar.HeadersOf(OrderedMaps.Values(r.value.cookies.store)), Render(result.body).value.1)))
  }

  /**
   * What a route run delivers once the context's parts are settled: a parse
   * error throws before any middleware; otherwise the middleware runs in
   * order and, if none throws, the callback's result is delivered with the
   * context's response `start` after the middleware's and the route code's
   * edits (`fx`).
   */
  ghost predicate ParsedRun(st: Contexts.Stage, o: MiddlewareChain.Outcome, handler: RouteTable.Handler,
                            callback: (RouteTable.Handler, Contexts.Parsed) -> RouteResult, middlewareError: Thrown,
                            start: Edited, fx: ResponseEdits.Effects<RouteTable.Handler, Contexts.Parsed>,
                            ran: seq<nat>, handed: Option<Contexts.Parsed>, r: Outcome<Responses.ModulesHttpResponse>)
    reads if r.Ok? then {r.value, r.value.headers, r.value.cookies} else {}
  {
    (st.thrown.Some? ==> r == Throw(st.thrown.value) && ran == [] && handed.None?) &&
    (st.thrown.None? ==>
      ran == o.ran && (!o.ok ==> handed.None? && r == Throw(middlewareError)) &&
      (o.ok ==> (handed == Some(st.parts) &&
        Delivered(callback(handler, st.parts),
                  ResponseEdits.After(start, ResponseEdits.RouteEdits(fx, o.ran, handler, st.parts), CookieOptionsJar.Same), r))))
  }

  /** A status the route code sets, and does not set again, is the status of the response delivered. */
  lemma DeliveredWithStatus(result: RouteResult, start: Edited, before: seq<ResponseEdits.Edit>, s: int,
                            later: seq<ResponseEdits.Edit>, r: Outcome<Responses.ModulesHttpResponse>)
    requires s != 0 && forall i :: 0 <= i < |later| ==> !ResponseEdits.SetsStatus(later[i])
    requires result.Result? && r.Ok?
    requires Delivered(result, ResponseEdits.After(start, before + [ResponseEdits.Status(s)] + later, CookieOptionsJar.Same), r)
    ensures r.value.status == s
  {
    ResponseEdits.StatusReachesResponse(start, before, s, later, CookieOptionsJar.Same);
  }

  /** The last step of `handleRoute`: a new response with the context response's status, status text, headers and cookies. */
  method WrapResult(result: RouteResult, res: Responses.ModulesHttpResponse) returns (r: Outcome<Responses.ModulesHttpResponse>)
    requires res.cookies.Valid()
    ensures Delivered(result, ResponseEdits.OfModulesResponse(res), r)
    ensures r.Ok? && !result.Respond? ==> fresh(r.value)
  {
    match result
    case Respond(response) =>
      r := Ok(response);
    case Reject(err) =>
      r := Throw(err);
    case Result(body) =>
      if body.Binary? {
        r := Throw(Failure(UnsupportedBody));
      } else {
        var init := Responses.ResponseInit(Some(CookieOptionsJar.FromJar(res.cookies)), Some(res.headers.list), Some(res.status), Some(res.statusText));
        var made := new Responses.ModulesHttpResponse(body, init);
        r := Ok(made);
      }
  }

  /** The edits on the context's response, then the wrapping of the callback's value. */
  method EditAndWrap(res: Responses.ModulesHttpResponse, edits: seq<ResponseEdits.Edit>, result: RouteResult)
    returns (r: Outcome<Responses.ModulesHttpResponse>)
    requires res.cookies.Valid() && res.headers.Valid()
    modifies res, res.headers, res.cookies
    ensures Delivered(result, ResponseEdits.After(old(ResponseEdits.OfModulesResponse(res)), edits, CookieOptionsJar.Same), r)
    ensures r.Ok? && !result.Respond? ==> fresh(r.value)
  {
    ResponseEdits.EditAllModules(res, edits);
    r := WrapResult(result, res);
  }

  /**
   * The middleware and callback steps of `handleRoute`: each middleware is
   * awaited in turn (`throws` names those that throw, `middlewareError` is
   * what they throw); if all finish, the callback is handed the context's
   * parts, what the middleware that ran and the route code do to `ctx.res`
   * (`fx`) is applied to it, and the callback's result is delivered.
   */
  method RunRoute(ctx: Contexts.ModulesContext, route: RouteTable.RouteEntry, middlewares: seq<MiddlewareOrder.Entry>,
                  throws: set<nat>, middlewareError: Thrown, callback: (RouteTable.Handler, Contexts.Parsed) -> RouteResult,
                  fx: ResponseEdits.Effects<RouteTable.Handler, Contexts.Parsed>)
    returns (ran: seq<nat>, handed: Option<Contexts.Parsed>, r: Outcome<Responses.ModulesHttpResponse>)
    requires ctx.res.cookies.Valid() && ctx.res.headers.Valid()
    modifies ctx.res, ctx.res.headers, ctx.res.cookies
    ensures ran == MiddlewareChain.RunFlat(Handlers(middlewares), throws).ran
    ensures !MiddlewareChain.RunFlat(Handlers(middlewares), throws).ok ==> handed.None? && r == Throw(middlewareError)
    ensures MiddlewareChain.RunFlat(Handlers(middlewares), throws).ok ==>
      handed == Some(ctx.Parts()) &&
      Delivered(callback(route.handler, ctx.Parts()),
                ResponseEdits.After(old(ResponseEdits.OfModulesResponse(ctx.res)),
                                    ResponseEdits.RouteEdits(fx, ran, route.handler, ctx.Parts()), CookieOptionsJar.Same), r)
    ensures r.Ok? && handed.Some? && !callback(route.handler, handed.value).Respond? ==> fresh(r.value)
  {
    var outcome := MiddlewareChain.RunFlat(Handlers(middlewares), throws);
    ran := outcome.ran;
    if !outcome.ok {
      return ran, None, Throw(middlewareError);
    }
    handed := Some(ctx.Parts());
    r := EditAndWrap(ctx.res, ResponseEdits.RouteEdits(fx, ran, route.handler, ctx.Parts()), callback(route.handler, ctx.Parts()));
  }

  /**
   * The lookups of `handleRoute`: the route (a failed lookup throws 404 or
   * 405), then its stored model and its middleware; the registries' contents
   * are left as they were.
   */
  method FetchRoute(router: ModulesRouters.Router, req: Requests.ModulesHttpRequest)
    returns (found: Outcome<RouteTable.RouteEntry>, stored: Option<map<string, ModelKeys.Stored>>, middlewares: seq<MiddlewareOrder.Entry>)
    requires router.Valid()
    modifies router`routeRegistryCreated, router.middlewares
    ensures router.Valid() && router.State() == old(router.State())
    ensures var l := LookupOf(old(router.State()), req);
      (!l.Found? ==> found == Throw(ModulesRouters.LookupError(l))) &&
      (l.Found? ==> found == Ok(l.entry) && stored == old(router.FindModel(l.entry.id)) &&
                    middlewares == MiddlewareOf(old(router.middlewareRegistryCreated), old(router.State()), l.entry.id))
  {
    found := router.FindRoute(req);
    if found.Throw? {
      return found, None, [];
    }
    stored := router.FindModel(found.value.id);
    middlewares := router.FindMiddleware(found.value.id);
  }

  /**
   * `handleRoute(req)` as written: the route is looked up (a failed lookup
   * throws 404 or 405), its model and middleware fetched, and the context
   * made with `makeFromRequest`, which takes the request only: the endpoint
   * and model passed beside it are dropped, nothing is parsed, and the
   * callback is handed `{}` for the body, the search and the params.
   */
  method HandleRouteAsWritten(router: ModulesRouters.Router, req: Requests.ModulesHttpRequest, throws: set<nat>,
                              middlewareError: Thrown, callback: (RouteTable.Handler, Contexts.Parsed) -> RouteResult,
                              fx: ResponseEdits.Effects<RouteTable.Handler, Contexts.Parsed>)
    returns (ran: seq<nat>, handed: Option<Contexts.Parsed>, r: Outcome<Responses.ModulesHttpResponse>)
    requires router.Valid()
    modifies router`routeRegistryCreated, router.middlewares
    ensures router.Valid() && router.State() == old(router.State())
    ensures var l := LookupOf(old(router.State()), req);
      !l.Found? ==> r == Throw(ModulesRouters.LookupError(l)) && ran == [] && handed.None?
    ensures var l := LookupOf(old(router.State()), req);
      l.Found? ==>
        ParsedRun(Contexts.Stage(Contexts.Unparsed, None),
                  MiddlewareChain.RunFlat(Handlers(MiddlewareOf(old(router.middlewareRegistryCreated), old(router.State()), l.entry.id)), throws),
                  l.entry.handler, callback, middlewareError, ResponseEdits.ModulesStart(), fx, ran, handed, r)
  {
    var found, stored, middlewares := FetchRoute(router, req);
    if found.Throw? {
      return [], None, Throw(found.err);
    }
    var route := found.value;
    ran, handed, r := RunUnparsed(req, route, middlewares, throws, middlewareError, callback, fx);
  }

  /** The context made from the request alone, then the middleware and the callback. */
  method RunUnparsed(req: Requests.ModulesHttpRequest, route: RouteTable.RouteEntry, middlewares: seq<MiddlewareOrder.Entry>,
                     throws: set<nat>, middlewareError: Thrown, callback: (RouteTable.Handler, Contexts.Parsed) -> RouteResult,
                     fx: ResponseEdits.Effects<RouteTable.Handler, Contexts.Parsed>)
    returns (ran: seq<nat>, handed: Option<Contexts.Parsed>, r: Outcome<Responses.ModulesHttpResponse>)
    ensures ParsedRun(Contexts.Stage(Contexts.Unparsed, None), MiddlewareChain.RunFlat(Handlers(middlewares), throws),
                      route.handler, callback, middlewareError, ResponseEdits.ModulesStart(), fx, ran, handed, r)
  {
    var ctx := Contexts.ModulesContext.MakeFromRequest(req);
    ran, handed, r := RunRoute(ctx, route, middlewares, throws, middlewareError, callback, fx);
  }

  /**
   * The parse and run steps of `handleRoute` as intended, on a context just
   * made from the request: the parsed body, search and params are appended
   * for the route's endpoint and model, and a parse error throws before any
   * middleware runs.
   */
  method ParseAndRun(ctx: Contexts.ModulesContext, req: Requests.ModulesHttpRequest, raw: RawBody, route: RouteTable.RouteEntry,
                     model: Option<Contexts.Model>, middlewares: seq<MiddlewareOrder.Entry>, throws: set<nat>,
                     middlewareError: Thrown, callback: (RouteTable.Handler, Contexts.Parsed) -> RouteResult,
                     fx: ResponseEdits.Effects<RouteTable.Handler, Contexts.Parsed>)
    returns (ran: seq<nat>, handed: Option<Contexts.Parsed>, r: Outcome<Responses.ModulesHttpResponse>)
    requires ctx.url == req.UrlObject() && ctx.Parts() == Contexts.Unparsed
    requires ctx.res.cookies.Valid() && ctx.res.headers.Valid()
    modifies ctx, ctx.res, ctx.res.headers, ctx.res.cookies
    ensures ParsedRun(Contexts.AfterAppend(Modules, Coercion.GetProcessedValue, Contexts.Incoming(req.httpMethod, req.Headers(), raw),
                                           req.UrlObject(), route.endpoint, model, Contexts.Unparsed),
                      MiddlewareChain.RunFlat(Handlers(middlewares), throws), route.handler, callback, middlewareError,
                      old(ResponseEdits.OfModulesResponse(ctx.res)), fx, ran, handed, r)
  {
    var thrown := Contexts.ModulesContext.AppendParsedData(ctx, req, raw, route.endpoint, model);
    if thrown.Some? {
      return [], None, Throw(thrown.value);
    }
    ran, handed, r := RunRoute(ctx, route, middlewares, throws, middlewareError, callback, fx);
  }

  /**
   * `handleRoute(req)` as intended: the context made from the request is
   * given its parsed body, search and params for the route's endpoint and
   * model (`raw` is the request body, `validators` reads a stored validator)
   * before the middleware runs.
   */
  method HandleRoute(router: ModulesRouters.Router, req: Requests.ModulesHttpRequest, raw: RawBody, validators: nat -> Validator,
                     throws: set<nat>, middlewareError: Thrown, callback: (RouteTable.Handler, Contexts.Parsed) -> RouteResult,
                     fx: ResponseEdits.Effects<RouteTable.Handler, Contexts.Parsed>)
    returns (ran: seq<nat>, handed: Option<Contexts.Parsed>, r: Outcome<Responses.ModulesHttpResponse>)
    requires router.Valid()
    modifies router`routeRegistryCreated, router.middlewares
    ensures router.Valid() && router.State() == old(router.State())
    ensures var l := LookupOf(old(router.State()), req);
      !l.Found? ==> r == Throw(ModulesRouters.LookupError(l)) && ran == [] && handed.None?
    ensures var l := LookupOf(old(router.State()), req);
      l.Found? ==>
        ParsedRun(Contexts.AfterAppend(Modules, Coercion.GetProcessedValue, Contexts.Incoming(req.httpMethod, req.Headers(), raw),
                                       req.UrlObject(), l.entry.endpoint, StoredModel(old(router.FindModel(l.entry.id)), validators),
                                       Contexts.Unparsed),
                  MiddlewareChain.RunFlat(Handlers(MiddlewareOf(old(router.middlewareRegistryCreated), old(router.State()), l.entry.id)), throws),
                  l.entry.handler, callback, middlewareError, ResponseEdits.ModulesStart(), fx, ran, handed, r)
  {
    var found, stored, middlewares := FetchRoute(router, req);
    if found.Throw? {
      return [], None, Throw(found.err);
    }
    var route := found.value;
    var model := StoredModel(stored, validators);
    ran, handed, r := RunParsed(req, raw, route, model, middlewares, throws, middlewareError, callback, fx);
  }

  /** The context made from the request, given its parsed parts, then the middleware and the callback. */
  method RunParsed(req: Requests.ModulesHttpRequest, raw: RawBody, route: RouteTable.RouteEntry, model: Option<Contexts.Model>,
                   middlewares: seq<MiddlewareOrder.Entry>, throws: set<nat>, middlewareError: Thrown,
                   callback: (RouteTable.Handler, Contexts.Parsed) -> RouteResult,
                   fx: ResponseEdits.Effects<RouteTable.Handler, Contexts.Parsed>)
    returns (ran: seq<nat>, handed: Option<Contexts.Parsed>, r: Outcome<Responses.ModulesHttpResponse>)
    ensures ParsedRun(Contexts.AfterAppend(Modules, Coercion.GetProcessedValue, Contexts.Incoming(req.httpMethod, req.Headers(), raw),
                                           req.UrlObject(), route.endpoint, model, Contexts.Unparsed),
                      MiddlewareChain.RunFlat(Handlers(middlewares), throws), route.handler, callback, middlewareError,
                      ResponseEdits.ModulesStart(), fx, ran, handed, r)
  {
    var ctx := Contexts.ModulesContext.MakeFromRequest(req);
    ran, handed, r := ParseAndRun(ctx, req, raw, route, model, middlewares, throws, middlewareError, callback, fx);
  }

  /**
   * What the dropped parsing costs: for a request without a body (a GET, say)
   * to a route without path parameters or model, with one search pair, the
   * parsed search holds that key, while as written the callback sees no key.
   */
  lemma AsWrittenDropsSearch(httpMethod: string, headers: HeaderList.HeaderList, raw: RawBody, url: Requests.Url,
                             endpoint: string, key: string, value: string)
    requires !ContentTypes.AllowsBody(httpMethod) && ':' !in endpoint && url.search == [(key, value)]
    ensures var st := Contexts.AfterAppend(Modules, Coercion.GetProcessedValue, Contexts.Incoming(httpMethod, headers, raw),
                                           url, endpoint, None, Contexts.Unparsed);
      st.thrown.None? && st.parts.search.Object? && st.parts.search.fields.keys == [key]
    ensures Contexts.Unparsed.search.Object? && Contexts.Unparsed.search.fields.keys == []
  {
    var incoming := Contexts.Incoming(httpMethod, headers, raw);
    assert Contexts.KindOf(incoming) == ContentTypes.NoBodyAllowed;
    NoBodySkipsValidation(Modules, raw, None, Coercion.GetProcessedValue);
    StaticTemplateParams(endpoint, url.pathname, None, Coercion.GetProcessedValue);
    assert url.search[..0] == [];
    assert LastWins(url.search, Coercion.GetProcessedValue).keys == [key];
  }

  /** `src/modules`'s server: the router it creates, its CORS settings and its hooks. */
  class ModulesServer {
    const router: ModulesRouters.Router
    var cors: Option<CorsHeaders.Cors>
    var onError: Option<nat>
    var onNotFound: Option<nat>
    var onBeforeListen: Option<nat>
    var onBeforeExit: Option<nat>
    var onAfterResponse: Option<nat>

    /** The constructor installs a new router as the router instance. */
    constructor()
      ensures fresh(router) && router.Valid() && router.State() == ModulesRouters.NoTables && router.globalPrefix == ""
      ensures cors.None? && onError.None? && onNotFound.None?
      ensures onBeforeListen.None? && onBeforeExit.None? && onAfterResponse.None?
    {
      router := new ModulesRouters.Router();
      cors := None;
      onError := None;
      onNotFound := None;
      onBeforeListen := None;
      onBeforeExit := None;
      onAfterResponse := None;
    }

    /** `setGlobalPrefix(value)`: handed to the router. */
    method SetGlobalPrefix(value: string)
      modifies router`globalPrefix
      ensures router.globalPrefix == value
    {
      router.SetGlobalPrefix(value);
    }

    method SetCors(opts: CorsHeaders.CorsOptions)
      modifies this`cors
      ensures cors.Some? && fresh(cors.value) && cors.value.opts == opts && cors.value.keys == CorsHeaders.DefaultKeys
    {
      var c := new CorsHeaders.Cors(opts);
      cors := Some(c);
    }

    method SetOnError(handler: nat)
      modifies this`onError
      ensures onError == Some(handler)
    {
      onError := Some(handler);
    }

    method SetOnNotFound(handler: nat)
      modifies this`onNotFound
      ensures onNotFound == Some(handler)
    {
      onNotFound := Some(handler);
    }

    method SetOnBeforeListen(handler: nat)
      modifies this`onBeforeListen
      ensures onBeforeListen == Some(handler)
    {
      onBeforeListen := Some(handler);
    }

    method SetOnBeforeExit(handler: nat)
      modifies this`onBeforeExit
      ensures onBeforeExit == Some(handler)
    {
      onBeforeExit := Some(handler);
    }

    method SetOnAfterResponse(handler: nat)
      modifies this`onAfterResponse
      ensures onAfterResponse == Some(handler)
    {
      onAfterResponse := Some(handler);
    }

    /** `getResponse(req)` given what `handleRoute` produced (`routed`); the defaults answer in plain text. */
    method GetResponse(req: Requests.ModulesHttpRequest, routed: Outcome<Responses.ModulesHttpResponse>,
                       errorCall: (nat, Thrown) -> Responses.ModulesHttpResponse,
                       notFoundCall: (nat, Requests.ModulesHttpRequest) -> Responses.ModulesHttpResponse)
      returns (res: Responses.ModulesHttpResponse)
      ensures var d := Dispatch(req.IsPreflight(), routed);
        d.Departed? ==> fresh(res) && res.body == "Departed" && res.status == HttpTables.OK
      ensures var d := Dispatch(req.IsPreflight(), routed);
        d.Served? ==> res == d.value
      ensures var d := Dispatch(req.IsPreflight(), routed);
        d.ToNotFound? && onNotFound.Some? ==> res == notFoundCall(onNotFound.value, req)
      ensures var d := Dispatch(req.IsPreflight(), routed);
        d.ToNotFound? && onNotFound.None? ==>
          fresh(res) && res.status == HttpTables.NOT_FOUND && res.body == req.httpMethod + " on " + req.UrlObject().href + " does not exist."
      ensures var d := Dispatch(req.IsPreflight(), routed);
        d.ToMethodNotAllowed? ==>
          fresh(res) && res.status == HttpTables.METHOD_NOT_ALLOWED && res.body == req.httpMethod + " does not exist."
      ensures var d := Dispatch(req.IsPreflight(), routed);
        d.ToError? && onError.Some? ==> res == errorCall(onError.value, d.err)
      ensures var d := Dispatch(req.IsPreflight(), routed);
        d.ToError? && onError.None? ==>
          fresh(res) && res.body == Render(ErrorReply(d.err).0).value.0 &&
          res.status == if StatusOf(d.err) != 0 then StatusOf(d.err) else HttpTables.OK
    {
      var d := Dispatch(req.IsPreflight(), routed);
      match d
      case Departed =>
        res := TextResponse(Primitive("Departed"), HttpTables.OK);
      case Served(v) =>
        res := v;
      case ToNotFound =>
        if onNotFound.Some? {
          res := notFoundCall(onNotFound.value, req);
        } else {
          res := TextResponse(Primitive(req.httpMethod + " on " + req.UrlObject().href + " does not exist."), HttpTables.NOT_FOUND);
        }
      case ToMethodNotAllowed =>
        res := TextResponse(Primitive(req.httpMethod + " does not exist."), HttpTables.METHOD_NOT_ALLOWED);
      case ToError(err) =>
        if onError.Some? {
          res := errorCall(onError.value, err);
        } else {
          res := DefaultError(err);
        }
    }

    /** The rest of `handle(request)`: CORS (as corrected), then the after-response hook. */
    method Finish(req: Requests.ModulesHttpRequest, res: Responses.ModulesHttpResponse,
                  afterResponse: (nat, Responses.ModulesHttpResponse) -> Responses.ModulesHttpResponse)
      returns (out: Responses.ModulesHttpResponse)
      requires res.headers.Valid()
      modifies res.headers
      ensures res.headers.Valid()
      ensures cors.None? ==> res.headers.list == old(res.headers.list)
      ensures cors.Some? ==>
        res.headers.list == CorsHeaders.CorsSpec(cors.value.keys, cors.value.opts, CorsHeaders.RequestOrigin(req.Headers()), old(res.headers.list))
      ensures out == if onAfterResponse.Some? then afterResponse(onAfterResponse.value, res) else res
    {
      if cors.Some? {
        var request := new HeaderList.HttpHeaders(req.Headers());
        cors.value.Apply(request, res.headers);
      }
      out := if onAfterResponse.Some? then afterResponse(onAfterResponse.value, res) else res;
    }
  }
}
