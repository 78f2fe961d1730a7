// The per-request context handed to route handlers and middleware, in its
// three generations: src/Context/Context.ts, src/modules/Context/Context.ts
// and src/lib/Context/__Coreum_Context.ts.

module Contexts {
  import opened Wrappers
  import opened HeaderList
  import opened HttpErrors
  import opened Parsing
  import opened Extraction
  import opened BodyParsing
  import opened Records
  import opened OrderedMaps
  import Coercion
  import ContentTypes
  import Requests
  import Responses
  import ResponseBodies
  import CookieJar
  import CookieOptionsJar
  import CookieHeader
  import HttpTables
  import ResponseEdits

  /** A route model: the schema of each request part, each used only for its own part. */
  datatype Model = Model(body: Option<Validator>, search: Option<Validator>, params: Option<Validator>)

  /** `model?.body`, `model?.search`, `model?.params`. */
  function BodySchema(model: Option<Model>): Option<Validator>
  {
    if model.Some? then model.value.body else None
  }

  function SearchSchema(model: Option<Model>): Option<Validator>
  {
    if model.Some? then model.value.search else None
  }

  function ParamsSchema(model: Option<Model>): Option<Validator>
  {
    if model.Some? then model.value.params else None
  }

  /** The three parsed parts a context holds. */
  datatype Parsed = Parsed(body: Data, search: Data, params: Data)

  /** `{}` for each part, as `makeFromRequest` leaves them. */
  const Unparsed: Parsed := Parsed(Empty(), Empty(), Empty())

  /** The parts after `appendParsedData`, and what it threw, if anything. */
  datatype Stage = Stage(parts: Parsed, thrown: Option<Thrown>)

  /** What a request hands the body parser: its method, Content-Type and body stream. */
  datatype Incoming = Incoming(httpMethod: string, headers: HeaderList, raw: RawBody)

  /** `getNormalizedContentType` of the request. */
  function KindOf(req: Incoming): ContentTypes.Kind
  {
    ContentTypes.Normalize(Some(req.httpMethod), GetSpec(req.headers, "Content-Type"))
  }

  /**
   * `appendParsedData`: the body, then the search params, then the path
   * params are parsed and assigned one after the other, so a part that
   * throws leaves itself and every later part as they were.
   */
  function AfterAppend(gen: Generation, coerce: Coerce, req: Incoming, url: Requests.Url, endpoint: string, model: Option<Model>, prior: Parsed): Stage
  {
    var b := GetBodySpec(gen, KindOf(req), req.raw, BodySchema(model), coerce);
    if b.Throw? then Stage(prior, Some(b.err))
    else
      var s := Parse(Object(LastWins(url.search, coerce)), SearchSchema(model));
      if s.Throw? then Stage(prior.(body := b.value), Some(s.err))
      else
        var p := ParamsSpec(endpoint, url.pathname, ParamsSchema(model), coerce);
        if p.Throw? then Stage(Parsed(b.value, s.value, prior.params), Some(p.err))
        else Stage(Parsed(b.value, s.value, p.value), None)
  }

  /**
   * It succeeds exactly when each part's own parser succeeds with that
   * part's own schema, and then holds those three results.
   */
  lemma AppendedParsesEachPart(gen: Generation, coerce: Coerce, req: Incoming, url: Requests.Url, endpoint: string, model: Option<Model>, prior: Parsed)
    ensures var st := AfterAppend(gen, coerce, req, url, endpoint, model, prior);
      var b := GetBodySpec(gen, KindOf(req), req.raw, BodySchema(model), coerce);
      var s := Parse(Object(LastWins(url.search, coerce)), SearchSchema(model));
      var p := ParamsSpec(endpoint, url.pathname, ParamsSchema(model), coerce);
      (st.thrown.None? <==> b.Ok? && s.Ok? && p.Ok?) &&
      (st.thrown.None? ==> st.parts == Parsed(b.value, s.value, p.value))
  {
  }

  /**
   * A part that throws stops the sequence: a body error keeps all three
   * prior parts, a search error keeps the prior search and params, a params
   * error keeps the prior params; the error is the failing part's.
   */
  lemma AppendedStopsAtFirstError(gen: Generation, coerce: Coerce, req: Incoming, url: Requests.Url, endpoint: string, model: Option<Model>, prior: Parsed)
    ensures var st := AfterAppend(gen, coerce, req, url, endpoint, model, prior);
      var b := GetBodySpec(gen, KindOf(req), req.raw, BodySchema(model), coerce);
      b.Throw? ==> st == Stage(prior, Some(b.err))
    ensures var st := AfterAppend(gen, coerce, req, url, endpoint, model, prior);
      var s := Parse(Object(LastWins(url.search, coerce)), SearchSchema(model));
      st.thrown.Some? && s.Throw? ==> st.parts.search == prior.search && st.parts.params == prior.params
    ensures var st := AfterAppend(gen, coerce, req, url, endpoint, model, prior);
      st.thrown.Some? ==> st.parts.params == prior.params
  {
  }

  /** A part's result does not depend on the schemas of the other parts. */
  lemma PartsUseOwnSchema(gen: Generation, coerce: Coerce, req: Incoming, url: Requests.Url, endpoint: string, m1: Model, m2: Model, prior: Parsed)
    requires m1.body == m2.body
    ensures AfterAppend(gen, coerce, req, url, endpoint, Some(m1), prior).parts.body == AfterAppend(gen, coerce, req, url, endpoint, Some(m2), prior).parts.body
            || AfterAppend(gen, coerce, req, url, endpoint, Some(m1), prior).thrown.Some?
            || AfterAppend(gen, coerce, req, url, endpoint, Some(m2), prior).thrown.Some?
    ensures AfterAppend(gen, coerce, req, url, endpoint, Some(m1), prior).thrown.None? && m1.search == m2.search && m1.params == m2.params
            ==> AfterAppend(gen, coerce, req, url, endpoint, Some(m2), prior) == AfterAppend(gen, coerce, req, url, endpoint, Some(m1), prior)
  {
  }

  /**
   * Without a model nothing is validated: the body is whatever the reader
   * gives, the search is the coerced pairs with the last repeat kept.
   */
  lemma AppendedWithoutModel(gen: Generation, coerce: Coerce, req: Incoming, url: Requests.Url, endpoint: string, prior: Parsed)
    ensures var st := AfterAppend(gen, coerce, req, url, endpoint, None, prior);
      st.thrown.None? ==> st.parts.search == Object(LastWins(url.search, coerce))
    ensures var st := AfterAppend(gen, coerce, req, url, endpoint, None, prior);
      st.thrown.Some? ==> st.thrown.value.Failure? || (st.thrown.value.Http? && StatusOf(st.thrown.value) == 422)
  {
    var kind := KindOf(req);
    GetBodyThrowsOnly422(gen, kind, req.raw, None, coerce);
  }

  /** `new HttpResponse()`: no body and no init, so status 200 and text "OK". */
  const NoResponseInit: Responses.ResponseInit<CookieJar.Init> := Responses.ResponseInit(CookieJar.NoInit, None, None, None)

  /** `new HttpResponse()`. */
  method DefaultResponse() returns (r: Responses.HttpResponse)
    ensures fresh(r) && r.status == HttpTables.OK && r.statusText == "OK" && r.body == ""
    ensures fresh(r.cookies) && r.cookies.Valid() && r.cookies.store == EmptyMap()
  {
    r := new Responses.HttpResponse(ResponseBodies.Nullish, NoResponseInit);
    Responses.StatusTextExamples();
  }

  /** The request parts src/Context/Context.ts reads from its HttpRequest. */
  function IncomingOf(req: Requests.HttpRequest, raw: RawBody): Incoming
  {
    Incoming(req.httpMethod, req.headers, raw)
  }

  /** src/Context/Context.ts. */
  class Context {
    const req: Requests.HttpRequest
    const url: Requests.Url
    const headers: HeaderList
    const cookies: CookieJar.CookiesUsingMap
    var body: Data
    var search: Data
    var params: Data
    const res: Responses.HttpResponse
    var data: Data

    /** The url, headers and cookies come from the request; `res` defaults to a new response; `data` is `{}`. */
    constructor(req: Requests.HttpRequest, body: Data, search: Data, params: Data, res: Option<Responses.HttpResponse>)
      requires res.Some? ==> res.value.cookies.Valid()
      ensures this.res.cookies.Valid()
      ensures this.req == req && url == req.urlObject && headers == req.headers && cookies == req.cookies
      ensures this.body == body && this.search == search && this.params == params
      ensures res.Some? ==> this.res == res.value
      ensures res.None? ==> fresh(this.res) && this.res.status == HttpTables.OK && this.res.statusText == "OK" && this.res.body == ""
      ensures res.None? ==> fresh(this.res.cookies) && this.res.cookies.store == EmptyMap()
      ensures data == Empty()
    {
      var r: Responses.HttpResponse;
      if res.Some? {
        r := res.value;
      } else {
        r := DefaultResponse();
      }
      this.req := req;
      url := req.urlObject;
      headers := req.headers;
      cookies := req.cookies;
      this.body := body;
      this.search := search;
      this.params := params;
      this.res := r;
      data := Empty();
    }

    function Parts(): Parsed
      reads this
    {
      Parsed(body, search, params)
    }

    /** `makeFromRequest`: every part is `{}`. */
    static method MakeFromRequest(req: Requests.HttpRequest) returns (ctx: Context)
      ensures fresh(ctx) && ctx.req == req && ctx.Parts() == Unparsed
      ensures fresh(ctx.res) && ctx.res.status == HttpTables.OK && ctx.res.statusText == "OK"
      ensures fresh(ctx.res.cookies) && ctx.res.cookies.Valid() && ctx.res.cookies.store == EmptyMap()
    {
      ctx := new Context(req, Empty(), Empty(), Empty(), None);
    }

    /** `appendParsedData` with the parsers of src/Model/Parser.ts; the body stream is `raw`. */
    static method AppendParsedData(ctx: Context, req: Requests.HttpRequest, raw: RawBody, endpoint: string, model: Option<Model>) returns (thrown: Option<Thrown>)
      modifies ctx
      ensures Stage(ctx.Parts(), thrown) == AfterAppend(TopLevel, Coercion.ProcessString, IncomingOf(req, raw), ctx.url, endpoint, model, old(ctx.Parts()))
      ensures ctx.data == old(ctx.data)
    {
      var incoming := IncomingOf(req, raw);
      var b := GetBody(TopLevel, KindOf(incoming), raw, BodySchema(model), Coercion.ProcessString);
      if b.Throw? {
        return Some(b.err);
      }
      ctx.body := b.value;
      var s := GetSearch(ctx.url.search, SearchSchema(model), Coercion.ProcessString);
      if s.Throw? {
        return Some(s.err);
      }
      ctx.search := s.value;
      var p := GetParams(endpoint, ctx.url.pathname, ParamsSchema(model), Coercion.ProcessString);
      if p.Throw? {
        return Some(p.err);
      }
      ctx.params := p.value;
      thrown := None;
    }
  }

  /** `new HttpResponse()` of the modules generation. */
  const NoModulesInit: Responses.ResponseInit<Option<CookieOptionsJar.Init>> := Responses.ResponseInit(None, None, None, None)

  /** `new HttpResponse()` of the modules generation. */
  method DefaultModulesResponse() returns (r: Responses.ModulesHttpResponse)
    ensures fresh(r) && r.status == HttpTables.OK && r.statusText == "OK" && r.body == ""
    ensures fresh(r.cookies) && r.cookies.Valid() && fresh(r.headers) && r.headers.Valid()
    ensures ResponseEdits.OfModulesResponse(r) == ResponseEdits.ModulesStart()
  {
    r := new Responses.ModulesHttpResponse(ResponseBodies.Nullish, NoModulesInit);
    Responses.StatusTextExamples();
  }

  /** src/modules/Context/Context.ts: the same shape over the modules request and response. */
  class ModulesContext {
    const req: Requests.ModulesHttpRequest
    const url: Requests.Url
    const headers: HeaderList
    const cookies: CookieOptionsJar.CookiesUsingMap
    var body: Data
    var search: Data
    var params: Data
    const res: Responses.ModulesHttpResponse
    var data: Data

    /** The request's getters are read once here; its cookie getter builds a fresh jar. */
    constructor(req: Requests.ModulesHttpRequest, body: Data, search: Data, params: Data, res: Option<Responses.ModulesHttpResponse>)
      ensures this.req == req && url == req.UrlObject() && headers == req.Headers()
      ensures fresh(cookies) && cookies.Valid()
      ensures this.body == body && this.search == search && this.params == params
      ensures res.Some? ==> this.res == res.value
      ensures res.None? ==> fresh(this.res) && this.res.status == HttpTables.OK && this.res.statusText == "OK" && this.res.body == ""
      ensures res.None? ==> fresh(this.res.cookies) && this.res.cookies.Valid() && fresh(this.res.headers) && this.res.headers.Valid()
      ensures res.None? ==> ResponseEdits.OfModulesResponse(this.res) == ResponseEdits.ModulesStart()
      ensures data == Empty()
    {
      var jar := req.Cookies();
      var r: Responses.ModulesHttpResponse;
      if res.Some? {
        r := res.value;
      } else {
        r := DefaultModulesResponse();
      }
      this.req := req;
      url := req.UrlObject();
      headers := req.Headers();
      cookies := jar;
      this.body := body;
      this.search := search;
      this.params := params;
      this.res := r;
      data := Empty();
    }

    function Parts(): Parsed
      reads this
    {
      Parsed(body, search, params)
    }

    static method MakeFromRequest(req: Requests.ModulesHttpRequest) returns (ctx: ModulesContext)
      ensures fresh(ctx) && ctx.req == req && ctx.url == req.UrlObject() && ctx.Parts() == Unparsed
      ensures fresh(ctx.res) && ctx.res.status == HttpTables.OK
      ensures fresh(ctx.res.cookies) && ctx.res.cookies.Valid() && fresh(ctx.res.headers) && ctx.res.headers.Valid()
      ensures ResponseEdits.OfModulesResponse(ctx.res) == ResponseEdits.ModulesStart()
    {
      ctx := new ModulesContext(req, Empty(), Empty(), Empty(), None);
    }

    /** `appendParsedData` with the parsers of src/modules/Parser/Parser.ts. */
    static method AppendParsedData(ctx: ModulesContext, req: Requests.ModulesHttpRequest, raw: RawBody, endpoint: string, model: Option<Model>) returns (thrown: Option<Thrown>)
      modifies ctx
      ensures Stage(ctx.Parts(), thrown) == AfterAppend(Modules, Coercion.GetProcessedValue, Incoming(req.httpMethod, req.Headers(), raw), ctx.url, endpoint, model, old(ctx.Parts()))
      ensures ctx.data == old(ctx.data)
    {
      var incoming := Incoming(req.httpMethod, req.Headers(), raw);
      var b := GetBody(Modules, KindOf(incoming), raw, BodySchema(model), Coercion.GetProcessedValue);
      if b.Throw? {
        return Some(b.err);
      }
      ctx.body := b.value;
      var s := GetSearch(ctx.url.search, SearchSchema(model), Coercion.GetProcessedValue);
      if s.Throw? {
        return Some(s.err);
      }
      ctx.search := s.value;
      var p := GetParams(endpoint, ctx.url.pathname, ParamsSchema(model), Coercion.GetProcessedValue);
      if p.Throw? {
        return Some(p.err);
      }
      ctx.params := p.value;
      thrown := None;
    }
  }

  /** `parseRequestSearch` as the constructor calls it: repeats accumulate, then the search schema. */
  function CoreumSearchSpec(url: Requests.Url, schemas: Option<Model>): Outcome<Data>
  {
    ParseWithSchema("search", Object(AppendAll(EmptyMap(), Coerced(url.search, Coercion.GetProcessedValue))), SearchSchema(schemas))
  }

  /** The eager part of the oldest context's constructor: params first, then search. */
  function CoreumEager(url: Requests.Url, path: string, schemas: Option<Model>): Outcome<(Data, Data)>
  {
    var p := CoreumParamsSpec(url.pathname, path, ParamsSchema(schemas));
    if p.Throw? then Throw(p.err)
    else
      var s := CoreumSearchSpec(url, schemas);
      if s.Throw? then Throw(s.err) else Ok((p.value, s.value))
  }

  /** The plain `Error` the oldest context throws when the schema of `kind` rejects. */
  function SchemaRejected(kind: string): Thrown
  {
    Failure("unprocessable." + kind)
  }

  /**
   * The constructor throws only when the params or search schema rejects,
   * and a params rejection wins over a search one; the message names the part.
   */
  lemma CoreumEagerErrors(url: Requests.Url, path: string, schemas: Option<Model>)
    ensures CoreumEager(url, path, schemas).Throw? ==>
      CoreumEager(url, path, schemas).err in {SchemaRejected("params"), SchemaRejected("search")}
    ensures CoreumParamsSpec(url.pathname, path, ParamsSchema(schemas)).Throw? ==>
      CoreumEager(url, path, schemas) == Throw(SchemaRejected("params"))
    ensures ParamsSchema(schemas).None? && SearchSchema(schemas).None? ==> CoreumEager(url, path, schemas).Ok?
  {
    var p := CoreumParamsSpec(url.pathname, path, ParamsSchema(schemas));
    assert p.Throw? ==> p.err == SchemaRejected("params") by {
      ParamsRejection(url.pathname, path, ParamsSchema(schemas));
    }
  }

  lemma ParamsRejection(requestPath: string, definedPath: string, schema: Option<Validator>)
    ensures var p := CoreumParamsSpec(requestPath, definedPath, schema);
      (p.Throw? ==> p.err == SchemaRejected("params")) && (schema.None? ==> p.Ok?)
  {
  }

  /** src/lib/Context/__Coreum_Context.ts. */
  class CoreumContext {
    const req: Requests.CoreumRequest
    var status: int
    var statusText: string
    var headers: HeaderList
    var cookies: OrderedMap<CookieHeader.CookieOptions>
    const url: Requests.Url
    const path: string
    const schemas: Option<Model>
    const search: Data
    const params: Data
    var data: Option<Data>

    /** The fields once `params` and `search` are parsed; `NewCoreumContext` is the constructor as called. */
    constructor(req: Requests.CoreumRequest, url: Requests.Url, path: string, schemas: Option<Model>, data: Option<Data>, params: Data, search: Data)
      ensures this.req == req && this.url == url && this.path == path && this.schemas == schemas && this.data == data
      ensures status == HttpTables.OK && statusText == "OK"
      ensures headers == req.headers && cookies == EmptyMap()
      ensures this.params == params && this.search == search
    {
      this.req := req;
      status := HttpTables.OK;
      statusText := "OK";
      this.url := url;
      this.path := path;
      this.schemas := schemas;
      this.params := params;
      this.search := search;
      headers := req.headers;
      cookies := EmptyMap();
      this.data := data;
    }

    /** The response fields the route code edits. */
    function Response(): ResponseEdits.Res<CookieHeader.CookieOptions>
      reads this
    {
      ResponseEdits.Res(status, statusText, headers, cookies)
    }

    /** One edit by route code: a field assignment, or `set`/`append` on the headers or cookies. */
    method Edit(e: ResponseEdits.Edit)
      modifies this
      ensures Response() == ResponseEdits.Apply(old(Response()), e, CookieOptionsJar.Same)
      ensures unchanged(this`data)
    {
      match e
      case Status(s) => status := s;
      case StatusText(t) => statusText := t;
      case HeaderSet(n, v) => headers := SetSpec(headers, n, v);
      case HeaderAppend(n, v) => headers := AppendSpec(headers, n, v);
      case CookieSet(opts) => cookies := Put(cookies, opts.name, opts);
    }

    /** The route code's edits, in order. */
    method EditAll(edits: seq<ResponseEdits.Edit>)
      modifies this
      ensures Response() == ResponseEdits.After(old(Response()), edits, CookieOptionsJar.Same)
      ensures unchanged(this`data)
    {
      ghost var start := Response();
      var i := 0;
      while i < |edits|
        invariant i <= |edits| && unchanged(this`data)
        invariant Response() == ResponseEdits.After(start, edits[..i], CookieOptionsJar.Same)
      {
        TakeOneMore(edits, i);
        Edit(edits[i]);
        i := i + 1;
      }
      assert edits[..i] == edits;
    }

    /** The lazy `body()`: each call reads and validates the body again. */
    method Body(raw: RawBody) returns (r: Outcome<Data>)
      ensures r == CoreumBodySpec(req.ContentType(), raw, BodySchema(schemas))
    {
      r := CoreumParseRequestBody(req.ContentType(), raw, BodySchema(schemas));
    }
  }

  /** `new __Coreum_Context(request, path, schemas, data)`, or the error its eager parsing throws. */
  method NewCoreumContext(info: Requests.RequestInfo, init: Requests.RequestInit, path: string, schemas: Option<Model>, data: Option<Data>) returns (r: Outcome<CoreumContext>)
    ensures r.Throw? <==> CoreumEager(Requests.ResolveUrlObject(info), path, schemas).Throw?
    ensures r.Throw? ==> r.err == CoreumEager(Requests.ResolveUrlObject(info), path, schemas).err
    ensures r.Ok? ==> r.value.status == HttpTables.OK && r.value.statusText == "OK"
    ensures r.Ok? ==> (r.value.params, r.value.search) == CoreumEager(Requests.ResolveUrlObject(info), path, schemas).value
    ensures r.Ok? ==> r.value.url == Requests.ResolveUrlObject(info) && r.value.path == path && r.value.data == data
    ensures r.Ok? ==> r.value.schemas == schemas
    ensures r.Ok? ==> fresh(r.value) && r.value.headers == Requests.CoreumHeaders(init) && r.value.cookies == EmptyMap()
  {
    var req := new Requests.CoreumRequest(info, init);
    var url := Requests.ResolveUrlObject(info);
    var p := CoreumParseRequestParams(url.pathname, path, ParamsSchema(schemas));
    if p.Throw? {
      return Throw(p.err);
    }
    var s := CoreumParseRequestSearch(url.search, SearchSchema(schemas));
    if s.Throw? {
      return Throw(s.err);
    }
    var ctx := new CoreumContext(req, url, path, schemas, data, p.value, s.value);
    r := Ok(ctx);
  }
}
