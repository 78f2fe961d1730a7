// The response builders of the three generations: src/Response/HttpResponse.ts,
// src/modules/HttpResponse/HttpResponse.ts and src/lib/Response/__Coreum_Response.ts.
// A response renders its body by kind, appends one Set-Cookie header per
// cookie, sets Content-Type unless the caller chose one, and derives its
// status and status text. The platform `Response` the `response` getter
// builds from these fields is not part of this model.

/** What a handler can give the response constructor, and the text each kind renders to. */
module ResponseBodies {
  import opened Wrappers
  import opened Json
  import opened HttpErrors

  /**
   * The kinds `getBody` tells apart. A primitive (string, number, boolean,
   * bigint) and an instance of any other class carry the text `String(body)`
   * gives them; a `Date` carries the text `toISOString()` gives it.
   */
  datatype Body =
    | Nullish
    | Primitive(text: string)
    | Binary
    | DateValue(iso: string)
    | JsonArray(items: seq<Json>)
    | PlainObject(fields: seq<(string, Json)>)
    | OtherObject(text: string)

  const TextPlain: string := "text/plain"
  const ApplicationJson: string := "application/json"
  const UnsupportedBody: string := "Unsupported response body: ArrayBuffer | Blob | FormData | URLSearchParams | ReadableStream"

  /** Arrays and plain objects are the bodies serialised as JSON. */
  predicate Serialisable(b: Body)
  {
    b.JsonArray? || b.PlainObject?
  }

  /**
   * `getBody`: the text the body is replaced by and the Content-Type it asks
   * for, or the error thrown for an ArrayBuffer, Blob, FormData,
   * URLSearchParams or ReadableStream body.
   */
  function Render(b: Body): (r: Outcome<(string, string)>)
    ensures r.Throw? <==> b.Binary?
    ensures r.Throw? ==> r.err == Failure(UnsupportedBody)
    ensures r.Ok? ==> (r.value.1 == ApplicationJson <==> Serialisable(b))
    ensures r.Ok? ==> (r.value.1 == ApplicationJson || r.value.1 == TextPlain)
  {
    match b
    case Nullish => Ok(("", TextPlain))
    case Primitive(text) => Ok((text, TextPlain))
    case Binary => Throw(Failure(UnsupportedBody))
    case DateValue(iso) => Ok((iso, TextPlain))
    case JsonArray(items) => Ok((Stringify(JArr(items)), ApplicationJson))
    case PlainObject(fields) => Ok((Stringify(JObj(fields)), ApplicationJson))
    case OtherObject(text) => Ok((text, TextPlain))
  }

  /**
   * A JSON body renders as a bracketed document (`[...]` for an array,
   * `{...}` for an object); every other renderable kind keeps its own text,
   * and no body renders to anything but "" when it is null or undefined.
   */
  lemma RenderedText(b: Body)
    requires !b.Binary?
    ensures var t := Render(b).value.0;
      (b.JsonArray? ==> |t| >= 2 && t[0] == '[' && t[|t| - 1] == ']') &&
      (b.PlainObject? ==> |t| >= 2 && t[0] == '{' && t[|t| - 1] == '}') &&
      (b.Nullish? ==> t == "") &&
      ((b.Primitive? || b.OtherObject?) ==> t == b.text) &&
      (b.DateValue? ==> t == b.iso)
  {
    if b.JsonArray? {
      var inner := Strings.Join(seq(|b.items|, i requires 0 <= i < |b.items| => Stringify(b.items[i])), ",");
      assert Render(b).value.0 == "[" + inner + "]";
    } else if b.PlainObject? {
      var inner := Strings.Join(seq(|b.fields|, i requires 0 <= i < |b.fields| => Quote(b.fields[i].0) + ":" + Stringify(b.fields[i].1)), ",");
      assert Render(b).value.0 == "{" + inner + "}";
    }
  }
}

/** The response objects and the header steps their constructors share. */
module Responses {
  import opened Wrappers
  import opened Strings
  import opened HeaderList
  import opened HttpErrors
  import opened ResponseBodies
  import HttpTables
  import OrderedMaps
  import CookieHeader
  import CookieJar
  import CookieOptionsJar
  import Json

  const ContentType: string := "Content-Type"
  const Location: string := "Location"
  const SetCookieName: string := "Set-Cookie"

  /** `HttpResponseInit`: the jar init (of the generation's own kind), headers, status and status text. */
  datatype ResponseInit<C> = ResponseInit(cookies: C, headers: Option<HeaderList>, status: Option<int>, statusText: Option<string>)

  lemma LowerNames()
    ensures ToLower(ContentType) == "content-type"
    ensures ToLower(Location) == "location"
    ensures ToLower(SetCookieName) == SetCookie
  {
    assert forall i :: 0 <= i < |ContentType| ==> ToLower(ContentType)[i] == "content-type"[i];
    assert forall i :: 0 <= i < |Location| ==> ToLower(Location)[i] == "location"[i];
    assert forall i :: 0 <= i < |SetCookieName| ==> ToLower(SetCookieName)[i] == SetCookie[i];
  }

  /** `setContentType(value)`: only when Content-Type is absent or exactly "text/plain". */
  function ContentTypeSpec(list: HeaderList, value: string): HeaderList
  {
    if !HasSpec(list, ContentType) || GetSpec(list, ContentType) == Some(TextPlain) then SetSpec(list, ContentType, value)
    else list
  }

  /** `getStatus`: the init's status when truthy, else 302 when a Location header is present, else 200. */
  function StatusFor(status: Option<int>, list: HeaderList): int
  {
    if status.Some? && status.value != 0 then status.value
    else if HasSpec(list, Location) then HttpTables.FOUND
    else HttpTables.OK
  }

  /** `getDefaultStatusText`: the table's text for the status, else "Unknown"; the init's text plays no part. */
  function StatusTextFor(status: int): string
  {
    HttpTables.DefaultStatusText(status).GetOr("Unknown")
  }

  /** The header list the constructor leaves: the init's, one Set-Cookie per cookie, then Content-Type. */
  function Assembled(init: Option<HeaderList>, cookieHeaders: seq<string>, contentType: string): HeaderList
  {
    ContentTypeSpec(Normalise(init.GetOr([])) + Tagged(SetCookie, cookieHeaders), contentType)
  }

  lemma TaggedSnoc(n: string, vs: seq<string>, i: nat)
    requires i < |vs|
    ensures Tagged(n, vs[..i + 1]) == Tagged(n, vs[..i]) + [(n, vs[i])]
  {
    assert vs[..i + 1][..i] == vs[..i];
  }

  /** The values of a run of pairs all named `n`: all of them under `n`, none under any other name. */
  lemma {:induction false} ValuesTagged(n: string, vs: seq<string>, m: string)
    ensures Values(Tagged(n, vs), m) == if m == n then vs else []
  {
    if vs != [] {
      var k := |vs| - 1;
      ValuesTagged(n, vs[..k], m);
      ValuesConcat(Tagged(n, vs[..k]), [(n, vs[k])], m);
      assert Values([(n, vs[k])], m) == if m == n then [vs[k]] else [];
      assert vs == vs[..k] + [vs[k]];
    }
  }

  /** After `set`, `get` answers with exactly the value set. */
  lemma GetAfterSet(list: HeaderList, name: string, value: string)
    ensures GetSpec(SetSpec(list, name, value), name) == Some(value)
  {
    SetValues(list, name, value, ToLower(name));
  }

  /**
   * Content-Type is written only when the caller gave none or gave exactly
   * "text/plain": any other value the caller chose is kept. No other header
   * changes.
   */
  lemma ContentTypeRule(list: HeaderList, value: string, m: string)
    ensures var before := GetSpec(list, ContentType);
      GetSpec(ContentTypeSpec(list, value), ContentType) ==
        if before.None? || before == Some(TextPlain) then Some(value) else before
    ensures m != ToLower(ContentType) ==> Values(ContentTypeSpec(list, value), m) == Values(list, m)
  {
    SetValues(list, ContentType, value, m);
    GetAfterSet(list, ContentType, value);
  }

  /**
   * Every Set-Cookie entry of the init survives, followed by one entry per
   * cookie header, in order: none is overwritten, not even by Content-Type.
   */
  lemma SetCookiesKept(init: Option<HeaderList>, cookieHeaders: seq<string>, contentType: string)
    ensures Values(Assembled(init, cookieHeaders, contentType), SetCookie) ==
      Values(Normalise(init.GetOr([])), SetCookie) + cookieHeaders
  {
    var list := Normalise(init.GetOr([])) + Tagged(SetCookie, cookieHeaders);
    LowerNames();
    ContentTypeRule(list, contentType, SetCookie);
    ValuesConcat(Normalise(init.GetOr([])), Tagged(SetCookie, cookieHeaders), SetCookie);
    ValuesTagged(SetCookie, cookieHeaders, SetCookie);
  }

  /**
   * A header other than Content-Type and Set-Cookie reads back from the
   * assembled list as it does from a lower-cased init.
   */
  lemma AssembledKeeps(init: HeaderList, cookieHeaders: seq<string>, contentType: string, n: string)
    requires Normalised(init)
    requires ToLower(n) != ToLower(ContentType) && ToLower(n) != SetCookie
    ensures GetSpec(Assembled(Some(init), cookieHeaders, contentType), n) == GetSpec(init, n)
  {
    var m := ToLower(n);
    var list := init + Tagged(SetCookie, cookieHeaders);
    assert Normalise(Some(init).GetOr([])) == init;
    assert Assembled(Some(init), cookieHeaders, contentType) == ContentTypeSpec(list, contentType);
    LowerNames();
    ContentTypeRule(list, contentType, m);
    ValuesConcat(init, Tagged(SetCookie, cookieHeaders), m);
    ValuesTagged(SetCookie, cookieHeaders, m);
    assert Values(ContentTypeSpec(list, contentType), m) == Values(init, m);
  }

  /**
   * Neither the cookies nor the body's Content-Type bring a Location header,
   * so the status the constructor derives depends only on the init.
   */
  lemma StatusFromInit(init: Option<HeaderList>, cookieHeaders: seq<string>, contentType: string, status: Option<int>)
    ensures StatusFor(status, Assembled(init, cookieHeaders, contentType)) == StatusFor(status, Normalise(init.GetOr([])))
  {
    var m := ToLower(Location);
    var list := Normalise(init.GetOr([])) + Tagged(SetCookie, cookieHeaders);
    LowerNames();
    ContentTypeRule(list, contentType, m);
    ValuesConcat(Normalise(init.GetOr([])), Tagged(SetCookie, cookieHeaders), m);
    ValuesTagged(SetCookie, cookieHeaders, m);
  }

  /** A known status text names exactly one status; every other status reads "Unknown". */
  lemma StatusTextIdentifies(a: int, b: int)
    ensures StatusTextFor(a) == "Unknown" <==> HttpTables.DefaultStatusText(a).None?
    ensures StatusTextFor(a) == StatusTextFor(b) && StatusTextFor(a) != "Unknown" ==> a == b
  {
    if StatusTextFor(a) == StatusTextFor(b) && StatusTextFor(a) != "Unknown" {
      HttpTables.StatusTextInjective(a, b);
    }
  }

  /** The statuses a handler picks most often read as the table says; 422 is not in the table. */
  lemma StatusTextExamples()
    ensures StatusTextFor(HttpTables.OK) == "OK"
    ensures StatusTextFor(HttpTables.FOUND) == "Found"
    ensures StatusTextFor(HttpTables.NOT_FOUND) == "Not Found"
    ensures StatusTextFor(HttpTables.UNPROCESSABLE_ENTITY) == "Unknown"
  {
  }

  /** The constructor's `if (setCookieHeaders.length > 0) for (...) headers.append("Set-Cookie", header)`. */
  method AppendSetCookies(headers: HttpHeaders, values: seq<string>)
    requires headers.Valid()
    modifies headers
    ensures headers.Valid() && headers.list == old(headers.list) + Tagged(SetCookie, values)
  {
    ghost var start := headers.list;
    LowerNames();
    for i := 0 to |values|
      invariant headers.Valid() && headers.list == start + Tagged(SetCookie, values[..i])
    {
      TaggedSnoc(SetCookie, values, i);
      headers.Append(SetCookieName, values[i]);
    }
    assert values[..|values|] == values;
  }

  /** `setContentType(value)` on the response's header object. */
  method SetContentType(headers: HttpHeaders, value: string)
    requires headers.Valid()
    modifies headers
    ensures headers.Valid() && headers.list == ContentTypeSpec(old(headers.list), value)
  {
    if !headers.Has(ContentType) || headers.Get(ContentType) == Some(TextPlain) {
      headers.Set(ContentType, value);
    }
  }

  /** The constructors' `getHeaders` and `getBody` on a fresh header object. */
  method AssembleHeaders(init: Option<HeaderList>, cookieHeaders: seq<string>, contentType: string) returns (headers: HttpHeaders)
    ensures fresh(headers) && headers.Valid()
    ensures headers.list == Assembled(init, cookieHeaders, contentType)
  {
    headers := new HttpHeaders(Normalise(init.GetOr([])));
    AppendSetCookies(headers, cookieHeaders);
    SetContentType(headers, contentType);
  }

  /** `HttpResponse` of src/Response. */
  class HttpResponse {
    const body: string
    const cookies: CookieJar.CookiesUsingMap
    const headers: HttpHeaders
    var status: int
    var statusText: string

    /** The constructor for a body `getBody` accepts; `NewHttpResponse` covers the one it throws for. */
    constructor(body: Body, init: ResponseInit<CookieJar.Init>)
      requires !body.Binary?
      requires init.cookies.FromJar? ==> init.cookies.jar.Valid()
      ensures fresh(cookies) && cookies.Valid() && fresh(headers) && headers.Valid()
      ensures init.cookies.NoInit? ==> cookies.store == OrderedMaps.EmptyMap()
      ensures init.cookies.FromList? ==> cookies.store == CookieHeader.StoreAll(OrderedMaps.EmptyMap(), init.cookies.all, CookieJar.Header)
      ensures init.cookies.FromOne? ==> cookies.store == CookieHeader.StoreAll(OrderedMaps.EmptyMap(), [init.cookies.opts], CookieJar.Header)
      ensures init.cookies.FromJar? ==> cookies.store == CookieHeader.StoreAll(OrderedMaps.EmptyMap(), CookieJar.Copies(init.cookies.jar.store), CookieJar.Header)
      ensures headers.list == Assembled(init.headers, cookies.ToSetCookieHeaders(), Render(body).value.1)
      ensures this.body == Render(body).value.0
      ensures status == StatusFor(init.status, Normalise(init.headers.GetOr([])))
      ensures statusText == StatusTextFor(status)
    {
      var jar, h, text, s := Build(body, init);
      cookies := jar;
      headers := h;
      this.body := text;
      status := s;
      statusText := StatusTextFor(s);
    }

    /** The constructor's work before any field is set: the cookie jar, the headers, the body text and the status. */
    static method Build(body: Body, init: ResponseInit<CookieJar.Init>)
      returns (jar: CookieJar.CookiesUsingMap, h: HttpHeaders, text: string, s: int)
      requires !body.Binary?
      requires init.cookies.FromJar? ==> init.cookies.jar.Valid()
      ensures fresh(jar) && jar.Valid() && fresh(h) && h.Valid()
      ensures init.cookies.NoInit? ==> jar.store == OrderedMaps.EmptyMap()
      ensures init.cookies.FromList? ==> jar.store == CookieHeader.StoreAll(OrderedMaps.EmptyMap(), init.cookies.all, CookieJar.Header)
      ensures init.cookies.FromOne? ==> jar.store == CookieHeader.StoreAll(OrderedMaps.EmptyMap(), [init.cookies.opts], CookieJar.Header)
      ensures init.cookies.FromJar? ==> jar.store == CookieHeader.StoreAll(OrderedMaps.EmptyMap(), CookieJar.Copies(init.cookies.jar.store), CookieJar.Header)
      ensures h.list == Assembled(init.headers, jar.ToSetCookieHeaders(), Render(body).value.1)
      ensures text == Render(body).value.0
      ensures s == StatusFor(init.status, Normalise(init.headers.GetOr([])))
    {
      jar := new CookieJar.CookiesUsingMap(init.cookies);
      var kind;
      text, kind := Render(body).value.0, Render(body).value.1;
      h := AssembleHeaders(init.headers, jar.ToSetCookieHeaders(), kind);
      StatusFromInit(init.headers, jar.ToSetCookieHeaders(), kind, init.status);
      s := if init.status.Some? && init.status.value != 0 then init.status.value
        else if h.Has(Location) then HttpTables.FOUND
        else HttpTables.OK;
    }

    /**
     * `redirect(url, init)`: a bodiless response whose status is the init's,
     * else 302, computed before Location is set; Location is then set to the url.
     */
    static method Redirect(url: string, init: ResponseInit<CookieJar.Init>) returns (res: HttpResponse)
      requires init.cookies.FromJar? ==> init.cookies.jar.Valid()
      ensures fresh(res) && fresh(res.headers) && res.headers.Valid() && res.body == "" && res.cookies.Valid()
      ensures res.status == StatusFor(Some(init.status.GetOr(HttpTables.FOUND)), Normalise(init.headers.GetOr([])))
      ensures res.statusText == StatusTextFor(res.status)
      ensures res.headers.list == SetSpec(Assembled(init.headers, res.cookies.ToSetCookieHeaders(), TextPlain), Location, url)
      ensures GetSpec(res.headers.list, Location) == Some(url)
    {
      var withStatus := init.(status := Some(init.status.GetOr(HttpTables.FOUND)));
      res := new HttpResponse(Nullish, withStatus);
      res.headers.Set(Location, url);
      GetAfterSet(Assembled(init.headers, res.cookies.ToSetCookieHeaders(), TextPlain), Location, url);
    }

    /** `permanentRedirect`: `redirect` with status 301. */
    static method PermanentRedirect(url: string, init: ResponseInit<CookieJar.Init>) returns (res: HttpResponse)
      requires init.cookies.FromJar? ==> init.cookies.jar.Valid()
      ensures fresh(res) && res.status == HttpTables.MOVED_PERMANENTLY && res.statusText == "Moved Permanently"
      ensures GetSpec(res.headers.list, Location) == Some(url)
    {
      res := Redirect(url, init.(status := Some(HttpTables.MOVED_PERMANENTLY)));
    }

    /** `temporaryRedirect`: `redirect` with status 307. */
    static method TemporaryRedirect(url: string, init: ResponseInit<CookieJar.Init>) returns (res: HttpResponse)
      requires init.cookies.FromJar? ==> init.cookies.jar.Valid()
      ensures fresh(res) && res.status == HttpTables.TEMPORARY_REDIRECT && res.statusText == "Temporary Redirect"
      ensures GetSpec(res.headers.list, Location) == Some(url)
    {
      res := Redirect(url, init.(status := Some(HttpTables.TEMPORARY_REDIRECT)));
    }

    /** `seeOther`: `redirect` with status 303. */
    static method SeeOther(url: string, init: ResponseInit<CookieJar.Init>) returns (res: HttpResponse)
      requires init.cookies.FromJar? ==> init.cookies.jar.Valid()
      ensures fresh(res) && res.status == HttpTables.SEE_OTHER && res.statusText == "See Other"
      ensures GetSpec(res.headers.list, Location) == Some(url)
    {
      res := Redirect(url, init.(status := Some(HttpTables.SEE_OTHER)));
    }
  }

  /** `new HttpResponse(body, init)`: the response, or the error the constructor throws for a binary or stream body. */
  method NewHttpResponse(body: Body, init: ResponseInit<CookieJar.Init>) returns (r: Outcome<HttpResponse>)
    requires init.cookies.FromJar? ==> init.cookies.jar.Valid()
    ensures r.Throw? <==> body.Binary?
    ensures r.Throw? ==> r.err == Failure(UnsupportedBody)
    ensures r.Ok? ==> fresh(r.value) && r.value.body == Render(body).value.0
    ensures r.Ok? ==> r.value.status == StatusFor(init.status, Normalise(init.headers.GetOr([])))
    ensures r.Ok? ==> r.value.statusText == StatusTextFor(r.value.status)
    ensures r.Ok? ==> r.value.cookies.Valid() && r.value.headers.Valid() && fresh(r.value.cookies) && fresh(r.value.headers)
    ensures r.Ok? ==> r.value.headers.list == Assembled(init.headers, r.value.cookies.ToSetCookieHeaders(), Render(body).value.1)
    ensures r.Ok? && init.cookies.FromJar? ==>
      r.value.cookies.store == CookieHeader.StoreAll(OrderedMaps.EmptyMap(), CookieJar.Copies(init.cookies.jar.store), CookieJar.Header)
  {
    if body.Binary? {
      r := Throw(Failure(UnsupportedBody));
    } else {
      var res := new HttpResponse(body, init);
      r := Ok(res);
    }
  }

  /** `HttpError.toResponse()`: the error body as a JSON object, with the error's status. */
  method ErrorResponse(e: HttpError) returns (res: HttpResponse)
    ensures fresh(res) && res.body == Json.Stringify(ErrorBody(e))
    ensures res.status == if e.status != 0 then e.status else HttpTables.OK
    ensures GetSpec(res.headers.list, ContentType) == Some(ApplicationJson)
  {
    var (body, status) := ToResponse(e);
    res := new HttpResponse(PlainObject(body.fields), ResponseInit(CookieJar.NoInit, None, Some(status), None));
    ContentTypeRule(Tagged(SetCookie, res.cookies.ToSetCookieHeaders()), ApplicationJson, ToLower(ContentType));
    assert Normalise([]) == [];
    assert [] + Tagged(SetCookie, res.cookies.ToSetCookieHeaders()) == Tagged(SetCookie, res.cookies.ToSetCookieHeaders());
    LowerNames();
    ValuesTagged(SetCookie, res.cookies.ToSetCookieHeaders(), ToLower(ContentType));
  }

  /** The jar a src/modules response starts with: empty, then the init's cookies set into it. */
  method NewModulesJar(init: Option<CookieOptionsJar.Init>) returns (jar: CookieOptionsJar.CookiesUsingMap)
    requires init.Some? && init.value.FromJar? ==> init.value.jar.Valid()
    ensures fresh(jar) && jar.Valid()
    ensures init.None? ==> jar.store == OrderedMaps.EmptyMap()
    ensures init.Some? && init.value.FromJar? ==>
      jar.store == CookieHeader.StoreAll(OrderedMaps.EmptyMap(), CookieOptionsJar.Plains(CookieOptionsJar.EntriesOf(init.value.jar.store)), CookieOptionsJar.Same)
  {
    jar := new CookieOptionsJar.CookiesUsingMap();
    if init.Some? {
      jar.ApplyInit(init.value);
    }
  }

  /** `HttpResponse` of src/modules: the same pipeline over the modules cookie jar. */
  class ModulesHttpResponse {
    const body: string
    const cookies: CookieOptionsJar.CookiesUsingMap
    const headers: HttpHeaders
    var status: int
    var statusText: string

    constructor(body: Body, init: ResponseInit<Option<CookieOptionsJar.Init>>)
      requires !body.Binary?
      requires init.cookies.Some? && init.cookies.value.FromJar? ==> init.cookies.value.jar.Valid()
      ensures fresh(cookies) && cookies.Valid() && fresh(headers) && headers.Valid()
      ensures init.cookies.None? ==> cookies.store == OrderedMaps.EmptyMap()
      ensures init.cookies.Some? && init.cookies.value.FromJar? ==>
        cookies.store == CookieHeader.StoreAll(OrderedMaps.EmptyMap(),
          CookieOptionsJar.Plains(CookieOptionsJar.EntriesOf(init.cookies.value.jar.store)), CookieOptionsJar.Same)
      ensures headers.list == Assembled(init.headers, CookieOptionsJar.HeadersOf(OrderedMaps.Values(cookies.store)), Render(body).value.1)
      ensures this.body == Render(body).value.0
      ensures status == StatusFor(init.status, Normalise(init.headers.GetOr([])))
      ensures statusText == StatusTextFor(status)
    {
      var jar := NewModulesJar(init.cookies);
      var setCookies := jar.ToSetCookieHeaders();
      var (text, kind) := Render(body).value;
      var h := AssembleHeaders(init.headers, setCookies, kind);
      StatusFromInit(init.headers, setCookies, kind, init.status);
      var s := if init.status.Some? && init.status.value != 0 then init.status.value
        else if h.Has(Location) then HttpTables.FOUND
        else HttpTables.OK;
      cookies := jar;
      headers := h;
      this.body := text;
      status := s;
      statusText := StatusTextFor(s);
    }

    /** `redirect(url, init)`: as in src; the init's status text is passed on and, as there, ignored. */
    static method Redirect(url: string, init: ResponseInit<Option<CookieOptionsJar.Init>>) returns (res: ModulesHttpResponse)
      requires init.cookies.Some? && init.cookies.value.FromJar? ==> init.cookies.value.jar.Valid()
      ensures fresh(res) && fresh(res.headers) && res.headers.Valid() && res.body == ""
      ensures res.status == StatusFor(Some(init.status.GetOr(HttpTables.FOUND)), Normalise(init.headers.GetOr([])))
      ensures res.statusText == StatusTextFor(res.status)
      ensures GetSpec(res.headers.list, Location) == Some(url)
    {
      res := new ModulesHttpResponse(Nullish, init.(status := Some(init.status.GetOr(HttpTables.FOUND))));
      ghost var before := res.headers.list;
      res.headers.Set(Location, url);
      GetAfterSet(before, Location, url);
    }

    static method PermanentRedirect(url: string, init: ResponseInit<Option<CookieOptionsJar.Init>>) returns (res: ModulesHttpResponse)
      requires init.cookies.Some? && init.cookies.value.FromJar? ==> init.cookies.value.jar.Valid()
      ensures fresh(res) && res.status == HttpTables.MOVED_PERMANENTLY
      ensures GetSpec(res.headers.list, Location) == Some(url)
    {
      res := Redirect(url, init.(status := Some(HttpTables.MOVED_PERMANENTLY)));
    }

    static method TemporaryRedirect(url: string, init: ResponseInit<Option<CookieOptionsJar.Init>>) returns (res: ModulesHttpResponse)
      requires init.cookies.Some? && init.cookies.value.FromJar? ==> init.cookies.value.jar.Valid()
      ensures fresh(res) && res.status == HttpTables.TEMPORARY_REDIRECT
      ensures GetSpec(res.headers.list, Location) == Some(url)
    {
      res := Redirect(url, init.(status := Some(HttpTables.TEMPORARY_REDIRECT)));
    }

    static method SeeOther(url: string, init: ResponseInit<Option<CookieOptionsJar.Init>>) returns (res: ModulesHttpResponse)
      requires init.cookies.Some? && init.cookies.value.FromJar? ==> init.cookies.value.jar.Valid()
      ensures fresh(res) && res.status == HttpTables.SEE_OTHER
      ensures GetSpec(res.headers.list, Location) == Some(url)
    {
      res := Redirect(url, init.(status := Some(HttpTables.SEE_OTHER)));
    }
  }

  /**
   * The oldest wrapper's body: one `isJSONSerializable` accepts, or one it
   * rejects, which is passed to the platform as it is (its text, if any).
   */
  datatype CoreumBody = Serialisable(value: Json.Json) | Raw(text: Option<string>)

  /** The header list `__Coreum_Response` leaves: Content-Type is forced for a JSON body, whatever the init said. */
  function CoreumAssembled(init: Option<HeaderList>, cookieHeaders: seq<string>, json: bool): HeaderList
  {
    var list := Normalise(init.GetOr([])) + Tagged(SetCookie, cookieHeaders);
    if json then SetSpec(list, ContentType, ApplicationJson) else list
  }

  /**
   * A JSON body always ends up as application/json, overriding the caller's
   * Content-Type (the newer generations keep any value but "text/plain");
   * the Set-Cookie entries are those of the init followed by the cookies'.
   */
  lemma CoreumHeadersRule(init: Option<HeaderList>, cookieHeaders: seq<string>, json: bool)
    ensures json ==> GetSpec(CoreumAssembled(init, cookieHeaders, json), ContentType) == Some(ApplicationJson)
    ensures Values(CoreumAssembled(init, cookieHeaders, json), SetCookie) == Values(Normalise(init.GetOr([])), SetCookie) + cookieHeaders
  {
    var list := Normalise(init.GetOr([])) + Tagged(SetCookie, cookieHeaders);
    LowerNames();
    GetAfterSet(list, ContentType, ApplicationJson);
    SetValues(list, ContentType, ApplicationJson, SetCookie);
    ValuesConcat(Normalise(init.GetOr([])), Tagged(SetCookie, cookieHeaders), SetCookie);
    ValuesTagged(SetCookie, cookieHeaders, SetCookie);
  }

  /** `__Coreum_Response` of src/lib. */
  class CoreumResponse {
    var body: CoreumBody
    const headers: HttpHeaders
    var status: int
    var statusText: string

    /** The cookies arrive as the strings the jar's `toSetCookieHeaders()` gives, when a jar is given. */
    constructor(body: CoreumBody, init: ResponseInit<Option<seq<string>>>)
      ensures fresh(headers) && headers.Valid()
      ensures headers.list == CoreumAssembled(init.headers, init.cookies.GetOr([]), body.Serialisable?)
      ensures this.body == if body.Serialisable? then Raw(Some(Json.Stringify(body.value))) else body
      ensures status == init.status.GetOr(HttpTables.OK)
      ensures statusText == init.statusText.GetOr("OK")
    {
      var h := new HttpHeaders(Normalise(init.headers.GetOr([])));
      if init.cookies.Some? {
        AppendSetCookies(h, init.cookies.value);
      }
      assert Tagged(SetCookie, []) == [];
      assert Normalise(init.headers.GetOr([])) + [] == Normalise(init.headers.GetOr([]));
      var b := body;
      if b.Serialisable? {
        b := Raw(Some(Json.Stringify(b.value)));
        h.Set(ContentType, ApplicationJson);
      }
      headers := h;
      this.body := b;
      status := init.status.GetOr(HttpTables.OK);
      statusText := init.statusText.GetOr("OK");
    }
  }
}
