/**
 * What route code does to the response a context carries. A middleware or
 * a route callback may set `ctx.res.status` or `statusText`, set or append
 * a header, and set a cookie before it returns; in src/lib the same fields
 * sit on the context itself. The response a route sends is then built from
 * the context's response as those edits left it.
 */
module ResponseEdits {
  import opened Wrappers
  import opened HeaderList
  import opened Strings
  import OrderedMaps
  import CookieHeader
  import CookieJar
  import CookieOptionsJar
  import Responses
  import ResponseBodies
  import HttpTables

  datatype Edit =
    | Status(status: int)
    | StatusText(text: string)
    | HeaderSet(name: string, value: string)
    | HeaderAppend(name: string, value: string)
    | CookieSet(opts: CookieHeader.CookieOptions)

  /** The parts of a response the edits reach; `V` is what the cookie jar stores under a name. */
  datatype Res<V> = Res(status: int, statusText: string, headers: HeaderList, cookies: OrderedMaps.OrderedMap<V>)

  function Apply<V>(r: Res<V>, e: Edit, stored: CookieHeader.CookieOptions -> V): Res<V>
  {
    match e
    case Status(s) => r.(status := s)
    case StatusText(t) => r.(statusText := t)
    case HeaderSet(n, v) => r.(headers := SetSpec(r.headers, n, v))
    case HeaderAppend(n, v) => r.(headers := AppendSpec(r.headers, n, v))
    case CookieSet(opts) => r.(cookies := OrderedMaps.Put(r.cookies, opts.name, stored(opts)))
  }

  /** The response after the edits, in order. */
  function After<V>(r: Res<V>, edits: seq<Edit>, stored: CookieHeader.CookieOptions -> V): Res<V>
  {
    if edits == [] then r else Apply(After(r, edits[..|edits| - 1], stored), edits[|edits| - 1], stored)
  }

  /** The edits of the middleware that ran, in the order they ran. */
  function EditsOf(ran: seq<nat>, edits: nat -> seq<Edit>): seq<Edit>
  {
    if ran == [] then [] else EditsOf(ran[..|ran| - 1], edits) + edits(ran[|ran| - 1])
  }

  /**
   * What a route's code does to the response: the edits of each middleware
   * (by token) and those of the route callback, given the parts it is handed.
   */
  datatype Effects<-H, -P> = Effects(middleware: nat -> seq<Edit>, route: (H, P) -> seq<Edit>)

  /** The edits a run makes: those of the middleware that ran, in order, then the callback's. */
  function RouteEdits<H, P>(fx: Effects<H, P>, ran: seq<nat>, handler: H, parts: P): seq<Edit>
  {
    EditsOf(ran, fx.middleware) + fx.route(handler, parts)
  }

  /** The response a src/modules context starts with: 200 "OK", the headers of an empty body, no cookies. */
  function ModulesStart(): Res<CookieHeader.CookieOptions>
  {
    Res(HttpTables.OK, "OK", Responses.Assembled(None, [], ResponseBodies.Render(ResponseBodies.Nullish).value.1), OrderedMaps.EmptyMap())
  }

  predicate SetsStatus(e: Edit)
  {
    e.Status?
  }

  /** An edit that touches the header `m` (a lower-case name). */
  predicate TouchesHeader(e: Edit, m: string)
  {
    (e.HeaderSet? || e.HeaderAppend?) && ToLower(e.name) == m
  }

  predicate SetsCookie(e: Edit, name: string)
  {
    e.CookieSet? && e.opts.name == name
  }

  lemma SnocSplit<T>(s: seq<T>)
    requires s != []
    ensures s == s[..|s| - 1] + [s[|s| - 1]]
  {
  }

  lemma ConcatSnoc<T>(a: seq<T>, b: seq<T>)
    requires b != []
    ensures (a + b)[..|a + b| - 1] == a + b[..|b| - 1] && (a + b)[|a + b| - 1] == b[|b| - 1]
  {
  }

  /** Edits applied in two runs end where applying them in one does: the middleware's, then the callback's. */
  lemma {:induction false} AfterConcat<V>(r: Res<V>, a: seq<Edit>, b: seq<Edit>, stored: CookieHeader.CookieOptions -> V)
    ensures After(r, a + b, stored) == After(After(r, a, stored), b, stored)
    decreases |b|
  {
    if b == [] {
      assert a + b == a;
    } else {
      ConcatSnoc(a, b);
      AfterConcat(r, a, b[..|b| - 1], stored);
    }
  }

  /** Edits that do not set the status leave it as it was. */
  lemma {:induction false} StatusKept<V>(r: Res<V>, edits: seq<Edit>, stored: CookieHeader.CookieOptions -> V)
    requires forall i :: 0 <= i < |edits| ==> !SetsStatus(edits[i])
    ensures After(r, edits, stored).status == r.status
  {
    if edits != [] {
      StatusKept(r, edits[..|edits| - 1], stored);
    }
  }

  /** The last status set is the status the response carries. */
  lemma StatusLastWins<V>(r: Res<V>, before: seq<Edit>, s: int, later: seq<Edit>, stored: CookieHeader.CookieOptions -> V)
    requires forall i :: 0 <= i < |later| ==> !SetsStatus(later[i])
    ensures After(r, before + [Status(s)] + later, stored).status == s
  {
    AfterConcat(r, before + [Status(s)], later, stored);
    ConcatSnoc(before, [Status(s)]);
    StatusKept(After(r, before + [Status(s)], stored), later, stored);
  }

  /** Edits that do not touch the header `m` leave its values as they were. */
  lemma {:induction false} HeaderKept<V>(r: Res<V>, edits: seq<Edit>, m: string, stored: CookieHeader.CookieOptions -> V)
    requires forall i :: 0 <= i < |edits| ==> !TouchesHeader(edits[i], m)
    ensures Values(After(r, edits, stored).headers, m) == Values(r.headers, m)
  {
    if edits != [] {
      var last := edits[|edits| - 1];
      var prior := After(r, edits[..|edits| - 1], stored);
      HeaderKept(r, edits[..|edits| - 1], m, stored);
      assert After(r, edits, stored) == Apply(prior, last, stored);
      assert !TouchesHeader(last, m);
      if last.HeaderSet? {
        SetValues(prior.headers, last.name, last.value, m);
      } else if last.HeaderAppend? {
        AppendValues(prior.headers, last.name, last.value, m);
      }
    }
  }

  /** A header set and not touched again reads back as the value set. */
  lemma HeaderSetWins<V>(r: Res<V>, before: seq<Edit>, n: string, v: string, later: seq<Edit>, stored: CookieHeader.CookieOptions -> V)
    requires forall i :: 0 <= i < |later| ==> !TouchesHeader(later[i], ToLower(n))
    ensures GetSpec(After(r, before + [HeaderSet(n, v)] + later, stored).headers, n) == Some(v)
  {
    AfterConcat(r, before + [HeaderSet(n, v)], later, stored);
    ConcatSnoc(before, [HeaderSet(n, v)]);
    var afterSet := After(r, before + [HeaderSet(n, v)], stored);
    SetValues(After(r, before, stored).headers, n, v, ToLower(n));
    HeaderKept(afterSet, later, ToLower(n), stored);
  }

  /** Edits that set no cookie of that name leave its entry as it was. */
  lemma {:induction false} CookieKept<V>(r: Res<V>, edits: seq<Edit>, name: string, stored: CookieHeader.CookieOptions -> V)
    requires forall i :: 0 <= i < |edits| ==> !SetsCookie(edits[i], name)
    ensures (name in After(r, edits, stored).cookies.items) == (name in r.cookies.items)
    ensures name in r.cookies.items ==> After(r, edits, stored).cookies.items[name] == r.cookies.items[name]
  {
    if edits != [] {
      CookieKept(r, edits[..|edits| - 1], name, stored);
    }
  }

  /** A cookie set and not set again is what the jar holds under its name. */
  lemma CookieSetWins<V>(r: Res<V>, before: seq<Edit>, opts: CookieHeader.CookieOptions, later: seq<Edit>, stored: CookieHeader.CookieOptions -> V)
    requires forall i :: 0 <= i < |later| ==> !SetsCookie(later[i], opts.name)
    ensures var jar := After(r, before + [CookieSet(opts)] + later, stored).cookies;
      opts.name in jar.items && jar.items[opts.name] == stored(opts)
  {
    AfterConcat(r, before + [CookieSet(opts)], later, stored);
    ConcatSnoc(before, [CookieSet(opts)]);
    CookieKept(After(r, before + [CookieSet(opts)], stored), later, opts.name, stored);
  }

  /** Edits keep a header list with lower-case names lower-case, as `set` and `append` lower-case the name. */
  lemma {:induction false} AfterNormalised<V>(r: Res<V>, edits: seq<Edit>, stored: CookieHeader.CookieOptions -> V)
    requires Normalised(r.headers)
    ensures Normalised(After(r, edits, stored).headers)
  {
    if edits != [] {
      var prior := After(r, edits[..|edits| - 1], stored);
      AfterNormalised(r, edits[..|edits| - 1], stored);
      match edits[|edits| - 1]
      case HeaderSet(n, v) => UpdatesNormalised(prior.headers, n, v);
      case HeaderAppend(n, v) => UpdatesNormalised(prior.headers, n, v);
      case _ =>
    }
  }

  /**
   * A header set and not touched again reads back, with the value set, from
   * the list a response constructor assembles from the edited headers
   * (unless it is Content-Type or Set-Cookie, which the constructor writes).
   */
  lemma HeaderReachesResponse<V>(r: Res<V>, before: seq<Edit>, n: string, v: string, later: seq<Edit>,
                                 stored: CookieHeader.CookieOptions -> V, cookieHeaders: seq<string>, contentType: string)
    requires Normalised(r.headers)
    requires ToLower(n) != ToLower(Responses.ContentType) && ToLower(n) != SetCookie
    requires forall i :: 0 <= i < |later| ==> !TouchesHeader(later[i], ToLower(n))
    ensures GetSpec(Responses.Assembled(Some(After(r, before + [HeaderSet(n, v)] + later, stored).headers), cookieHeaders, contentType), n) == Some(v)
  {
    var h := After(r, before + [HeaderSet(n, v)] + later, stored).headers;
    AfterNormalised(r, before + [HeaderSet(n, v)] + later, stored);
    Responses.AssembledKeeps(h, cookieHeaders, contentType, n);
    HeaderSetWins(r, before, n, v, later, stored);
  }

  /** A route that sets a non-zero status and no later one answers with that status. */
  lemma StatusReachesResponse<V>(r: Res<V>, before: seq<Edit>, s: int, later: seq<Edit>, stored: CookieHeader.CookieOptions -> V)
    requires s != 0
    requires forall i :: 0 <= i < |later| ==> !SetsStatus(later[i])
    ensures Responses.StatusFor(Some(After(r, before + [Status(s)] + later, stored).status), Normalise(After(r, before + [Status(s)] + later, stored).headers)) == s
  {
    StatusLastWins(r, before, s, later, stored);
  }

  function OfResponse(res: Responses.HttpResponse): Res<string>
    reads res, res.headers, res.cookies
  {
    Res(res.status, res.statusText, res.headers.list, res.cookies.store)
  }

  function OfModulesResponse(res: Responses.ModulesHttpResponse): Res<CookieHeader.CookieOptions>
    reads res, res.headers, res.cookies
  {
    Res(res.status, res.statusText, res.headers.list, res.cookies.store)
  }

  /** One edit on a response of src/Response: the field assignment, or `set`/`append` on its headers or cookies. */
  method EditResponse(res: Responses.HttpResponse, e: Edit)
    requires res.headers.Valid() && res.cookies.Valid()
    modifies res, res.headers, res.cookies
    ensures res.headers.Valid() && res.cookies.Valid()
    ensures OfResponse(res) == Apply(old(OfResponse(res)), e, CookieJar.Header)
  {
    match e
    case Status(s) => res.status := s;
    case StatusText(t) => res.statusText := t;
    case HeaderSet(n, v) => res.headers.Set(n, v);
    case HeaderAppend(n, v) => res.headers.Append(n, v);
    case CookieSet(opts) => res.cookies.Set(opts);
  }

  /** The edits of the route code, in order, on a response of src/Response. */
  method EditAll(res: Responses.HttpResponse, edits: seq<Edit>)
    requires res.headers.Valid() && res.cookies.Valid()
    modifies res, res.headers, res.cookies
    ensures res.headers.Valid() && res.cookies.Valid()
    ensures OfResponse(res) == After(old(OfResponse(res)), edits, CookieJar.Header)
  {
    ghost var start := OfResponse(res);
    var i := 0;
    while i < |edits|
      invariant i <= |edits| && res.headers.Valid() && res.cookies.Valid()
      invariant OfResponse(res) == After(start, edits[..i], CookieJar.Header)
    {
      OrderedMaps.TakeOneMore(edits, i);
      EditResponse(res, edits[i]);
      i := i + 1;
    }
    assert edits[..i] == edits;
  }

  /** One edit on a response of src/modules. */
  method EditModulesResponse(res: Responses.ModulesHttpResponse, e: Edit)
    requires res.headers.Valid() && res.cookies.Valid()
    modifies res, res.headers, res.cookies
    ensures res.headers.Valid() && res.cookies.Valid()
    ensures OfModulesResponse(res) == Apply(old(OfModulesResponse(res)), e, CookieOptionsJar.Same)
  {
    match e
    case Status(s) => res.status := s;
    case StatusText(t) => res.statusText := t;
    case HeaderSet(n, v) => res.headers.Set(n, v);
    case HeaderAppend(n, v) => res.headers.Append(n, v);
    case CookieSet(opts) => res.cookies.Set(opts);
  }

  /** The edits of the route code, in order, on a response of src/modules. */
  method EditAllModules(res: Responses.ModulesHttpResponse, edits: seq<Edit>)
    requires res.headers.Valid() && res.cookies.Valid()
    modifies res, res.headers, res.cookies
    ensures res.headers.Valid() && res.cookies.Valid()
    ensures OfModulesResponse(res) == After(old(OfModulesResponse(res)), edits, CookieOptionsJar.Same)
  {
    ghost var start := OfModulesResponse(res);
    var i := 0;
    while i < |edits|
      invariant i <= |edits| && res.headers.Valid() && res.cookies.Valid()
      invariant OfModulesResponse(res) == After(start, edits[..i], CookieOptionsJar.Same)
    {
      OrderedMaps.TakeOneMore(edits, i);
      EditModulesResponse(res, edits[i]);
      i := i + 1;
    }
    assert edits[..i] == edits;
  }
}
