// The CORS helper of the three generations (src/Cors/Cors.ts,
// src/modules/Cors/Cors.ts, src/lib/Cors/__Coreum_Cors.ts). It writes the
// response headers of the CORS protocol (section 3.2 of the WHATWG Fetch
// Standard): Access-Control-Allow-Origin, -Methods, -Headers and
// -Credentials. src/modules/Cors/Cors.ts is the same code as src/Cors/Cors.ts
// over the module interfaces, so one class models both.

module CorsHeaders {
  import opened Wrappers
  import opened Strings
  import opened HeaderList

  /** The four header names the helper writes, kept as fields of the helper as in the source. */
  datatype CorsKeys = CorsKeys(origin: string, methods: string, headers: string, credentials: string)

  const DefaultKeys: CorsKeys := CorsKeys(
    "Access-Control-Allow-Origin", "Access-Control-Allow-Methods",
    "Access-Control-Allow-Headers", "Access-Control-Allow-Credentials")

  /** The lower-cased names are pairwise distinct, and none of them is Set-Cookie. */
  predicate KeysDistinct(k: CorsKeys)
  {
    ToLower(k.origin) != ToLower(k.methods) && ToLower(k.origin) != ToLower(k.headers) &&
    ToLower(k.origin) != ToLower(k.credentials) && ToLower(k.methods) != ToLower(k.credentials) &&
    ToLower(k.headers) != ToLower(k.credentials) && ToLower(k.methods) != ToLower(k.headers) &&
    SetCookie != ToLower(k.origin) && SetCookie != ToLower(k.methods) &&
    SetCookie != ToLower(k.headers) && SetCookie != ToLower(k.credentials)
  }

  /** The options object; every field may be left undefined. */
  datatype CorsOptions = CorsOptions(
    allowedOrigins: Option<seq<string>>,
    allowedMethods: Option<seq<string>>,
    allowedHeaders: Option<seq<string>>,
    credentials: Option<bool>)

  /** `isSomeArray`: defined and non-empty. */
  predicate IsSomeArray(list: Option<seq<string>>)
  {
    list.Some? && |list.value| > 0
  }

  /** `boolToString` / `toStringBool`: "true" for an enabled flag, "false" for false or undefined. */
  function BoolToString(flag: Option<bool>): (r: string)
    ensures r == "true" || r == "false"
  {
    if flag == Some(true) then "true" else "false"
  }

  lemma BoolToStringTrue(flag: Option<bool>)
    ensures BoolToString(flag) == "true" <==> flag == Some(true)
  {
    if flag != Some(true) {
      assert BoolToString(flag)[0] == 'f';
    }
  }

  /** The origin the request announces; a missing Origin header counts as "". */
  function RequestOrigin(request: HeaderList): string
  {
    GetSpec(request, "origin").GetOr("")
  }

  predicate OriginAllowed(opts: CorsOptions, origin: string)
  {
    IsSomeArray(opts.allowedOrigins) && origin in opts.allowedOrigins.value
  }

  /** The response headers after `getCorsHeaders`: four `set`s in source order. */
  function CorsSpec(k: CorsKeys, opts: CorsOptions, origin: string, list: HeaderList): HeaderList
  {
    var withOrigin := if OriginAllowed(opts, origin) then SetSpec(list, k.origin, origin) else list;
    var withMethods :=
      if IsSomeArray(opts.allowedMethods) then SetSpec(withOrigin, k.methods, Join(opts.allowedMethods.value, ", "))
      else withOrigin;
    var withHeaders :=
      if IsSomeArray(opts.allowedHeaders) then SetSpec(withMethods, k.headers, Join(opts.allowedHeaders.value, ", "))
      else withMethods;
    SetSpec(withHeaders, k.credentials, BoolToString(opts.credentials))
  }

  /** The four `set`s keep every stored name lower-case. */
  lemma CorsNormalised(k: CorsKeys, opts: CorsOptions, origin: string, list: HeaderList)
    requires Normalised(list)
    ensures Normalised(CorsSpec(k, opts, origin, list))
  {
    var withOrigin := if OriginAllowed(opts, origin) then SetSpec(list, k.origin, origin) else list;
    UpdatesNormalised(list, k.origin, origin);
    var withMethods :=
      if IsSomeArray(opts.allowedMethods) then SetSpec(withOrigin, k.methods, Join(opts.allowedMethods.value, ", "))
      else withOrigin;
    if IsSomeArray(opts.allowedMethods) {
      UpdatesNormalised(withOrigin, k.methods, Join(opts.allowedMethods.value, ", "));
    }
    var withHeaders :=
      if IsSomeArray(opts.allowedHeaders) then SetSpec(withMethods, k.headers, Join(opts.allowedHeaders.value, ", "))
      else withMethods;
    if IsSomeArray(opts.allowedHeaders) {
      UpdatesNormalised(withMethods, k.headers, Join(opts.allowedHeaders.value, ", "));
    }
    UpdatesNormalised(withHeaders, k.credentials, BoolToString(opts.credentials));
  }

  /** What each header name holds after `getCorsHeaders`; names it does not write keep their values. */
  lemma CorsValues(k: CorsKeys, opts: CorsOptions, origin: string, list: HeaderList, m: string)
    ensures Values(CorsSpec(k, opts, origin, list), m) ==
      if m == ToLower(k.credentials) then [BoolToString(opts.credentials)]
      else if m == ToLower(k.headers) && IsSomeArray(opts.allowedHeaders) then [Join(opts.allowedHeaders.value, ", ")]
      else if m == ToLower(k.methods) && IsSomeArray(opts.allowedMethods) then [Join(opts.allowedMethods.value, ", ")]
      else if m == ToLower(k.origin) && OriginAllowed(opts, origin) then [origin]
      else Values(list, m)
  {
    var withOrigin := if OriginAllowed(opts, origin) then SetSpec(list, k.origin, origin) else list;
    if OriginAllowed(opts, origin) {
      SetValues(list, k.origin, origin, m);
    }
    var withMethods :=
      if IsSomeArray(opts.allowedMethods) then SetSpec(withOrigin, k.methods, Join(opts.allowedMethods.value, ", "))
      else withOrigin;
    if IsSomeArray(opts.allowedMethods) {
      SetValues(withOrigin, k.methods, Join(opts.allowedMethods.value, ", "), m);
    }
    var withHeaders :=
      if IsSomeArray(opts.allowedHeaders) then SetSpec(withMethods, k.headers, Join(opts.allowedHeaders.value, ", "))
      else withMethods;
    if IsSomeArray(opts.allowedHeaders) {
      SetValues(withMethods, k.headers, Join(opts.allowedHeaders.value, ", "), m);
    }
    SetValues(withHeaders, k.credentials, BoolToString(opts.credentials), m);
  }

  lemma LengthsDiffer(a: string, b: string)
    requires |a| != |b|
    ensures ToLower(a) != ToLower(b)
  {
  }

  lemma LettersDiffer(a: string, b: string, i: nat)
    requires i < |a| && i < |b| && 'A' <= a[i] <= 'Z' && 'A' <= b[i] <= 'Z' && a[i] != b[i]
    ensures ToLower(a) != ToLower(b)
  {
    assert ToLower(a)[i] != ToLower(b)[i];
  }

  lemma MethodsHeadersDiffer(methods: string, headers: string)
    requires methods == "Access-Control-Allow-Methods" && headers == "Access-Control-Allow-Headers"
    ensures ToLower(methods) != ToLower(headers)
  {
    LettersDiffer(methods, headers, 21);
  }

  lemma NamesDistinct(o: string, m: string, h: string, c: string)
    requires o == "Access-Control-Allow-Origin" && m == "Access-Control-Allow-Methods"
    requires h == "Access-Control-Allow-Headers" && c == "Access-Control-Allow-Credentials"
    ensures ToLower(o) != ToLower(m) && ToLower(o) != ToLower(h) && ToLower(o) != ToLower(c)
    ensures ToLower(m) != ToLower(c) && ToLower(h) != ToLower(c) && ToLower(m) != ToLower(h)
  {
    LengthsDiffer(o, m);
    LengthsDiffer(o, h);
    LengthsDiffer(o, c);
    LengthsDiffer(m, c);
    LengthsDiffer(h, c);
    MethodsHeadersDiffer(m, h);
  }

  lemma NotSetCookie(sc: string, o: string, m: string, h: string, c: string)
    requires sc == SetCookie && |o| == 27 && |m| == 28 && |h| == 28 && |c| == 32
    ensures sc != ToLower(o) && sc != ToLower(m) && sc != ToLower(h) && sc != ToLower(c)
  {
  }

  lemma DefaultKeysDistinct(k: CorsKeys)
    requires k == DefaultKeys
    ensures KeysDistinct(k)
  {
    NamesDistinct(k.origin, k.methods, k.headers, k.credentials);
    NotSetCookie(SetCookie, k.origin, k.methods, k.headers, k.credentials);
  }

  /** Allow-Origin echoes the request's origin exactly when a non-empty allowed list contains it. */
  lemma OriginReflected(k: CorsKeys, opts: CorsOptions, origin: string, list: HeaderList)
    requires KeysDistinct(k)
    ensures GetSpec(CorsSpec(k, opts, origin, list), k.origin) ==
      if OriginAllowed(opts, origin) then Some(origin) else GetSpec(list, k.origin)
  {
    CorsValues(k, opts, origin, list, ToLower(k.origin));
  }

  /** Allow-Methods and Allow-Headers carry the ", "-joined list only when the list is non-empty. */
  lemma ListsJoined(k: CorsKeys, opts: CorsOptions, origin: string, list: HeaderList)
    requires KeysDistinct(k)
    ensures GetSpec(CorsSpec(k, opts, origin, list), k.methods) ==
      if IsSomeArray(opts.allowedMethods) then Some(Join(opts.allowedMethods.value, ", ")) else GetSpec(list, k.methods)
    ensures GetSpec(CorsSpec(k, opts, origin, list), k.headers) ==
      if IsSomeArray(opts.allowedHeaders) then Some(Join(opts.allowedHeaders.value, ", ")) else GetSpec(list, k.headers)
  {
    CorsValues(k, opts, origin, list, ToLower(k.methods));
    CorsValues(k, opts, origin, list, ToLower(k.headers));
  }

  /** Allow-Credentials is always written, "true" only when credentials are enabled. */
  lemma CredentialsAlwaysSet(k: CorsKeys, opts: CorsOptions, origin: string, list: HeaderList)
    ensures GetSpec(CorsSpec(k, opts, origin, list), k.credentials) == Some(BoolToString(opts.credentials))
    ensures GetSpec(CorsSpec(k, opts, origin, list), k.credentials) == Some("true") <==> opts.credentials == Some(true)
  {
    CorsValues(k, opts, origin, list, ToLower(k.credentials));
    BoolToStringTrue(opts.credentials);
  }

  /** Headers other than the four CORS headers, Set-Cookie among them, are left as they were. */
  lemma OtherHeadersKept(k: CorsKeys, opts: CorsOptions, origin: string, list: HeaderList, m: string)
    requires m != ToLower(k.origin) && m != ToLower(k.methods) && m != ToLower(k.headers) && m != ToLower(k.credentials)
    ensures Values(CorsSpec(k, opts, origin, list), m) == Values(list, m)
  {
    CorsValues(k, opts, origin, list, m);
  }

  /**
   * As written, `apply` combines the response headers into themselves while
   * walking them live. With a Set-Cookie header on the response, each one
   * walked appends another that the walk reaches later: `apply` never returns.
   */
  lemma ApplyAsWrittenNeverEnds(k: CorsKeys, opts: CorsOptions, origin: string, list: HeaderList, fuel: nat)
    requires KeysDistinct(k) && Normalised(list) && Values(list, SetCookie) != []
    ensures !LiveEnds(CorsSpec(k, opts, origin, list), 0, fuel)
  {
    CorsNormalised(k, opts, origin, list);
    OtherHeadersKept(k, opts, origin, list, SetCookie);
    SelfCombineNeverEnds(CorsSpec(k, opts, origin, list), fuel);
  }

  /** Without a Set-Cookie header the self-combine of `apply` as written ends. */
  lemma ApplyAsWrittenEnds(k: CorsKeys, opts: CorsOptions, origin: string, list: HeaderList)
    requires KeysDistinct(k) && Normalised(list) && Values(list, SetCookie) == []
    ensures LiveEnds(CorsSpec(k, opts, origin, list), 0, |Pairs(CorsSpec(k, opts, origin, list))|)
  {
    CorsNormalised(k, opts, origin, list);
    OtherHeadersKept(k, opts, origin, list, SetCookie);
    SelfCombineEnds(CorsSpec(k, opts, origin, list), 0, |Pairs(CorsSpec(k, opts, origin, list))|);
  }

  /** Once it ends, every header reads as it did before the self-combine. */
  lemma SelfCombineKeepsHeaders(headers: HeaderList, name: string)
    requires Normalised(headers) && Values(headers, SetCookie) == []
    ensures GetSpec(CombineSpec(headers, headers), name) == GetSpec(headers, name)
  {
    CombineGet(headers, headers, name);
    if ToLower(name) == SetCookie {
      SetCookieLower(SetCookie);
      CombineGet(headers, headers, SetCookie);
    }
  }

  /** The corrected `apply` (the CORS headers alone) never changes the response's cookies. */
  lemma CorrectedApplyKeepsCookies(k: CorsKeys, opts: CorsOptions, origin: string, list: HeaderList)
    requires KeysDistinct(k)
    ensures Values(CorsSpec(k, opts, origin, list), SetCookie) == Values(list, SetCookie)
  {
    OtherHeadersKept(k, opts, origin, list, SetCookie);
  }

  /** `Cors` of src/Cors and src/modules/Cors. */
  class Cors {
    const opts: CorsOptions
    const keys: CorsKeys := DefaultKeys

    constructor(opts: CorsOptions)
      ensures this.opts == opts && keys == DefaultKeys
    {
      this.opts := opts;
    }

    /** `getCorsHeaders(req, res)`: sets the CORS headers on the response's own headers and returns that object. */
    method GetCorsHeaders(request: HttpHeaders, response: HttpHeaders) returns (r: HttpHeaders)
      requires response.Valid()
      modifies response
      ensures r == response && response.Valid()
      ensures response.list == CorsSpec(keys, opts, RequestOrigin(old(request.list)), old(response.list))
    {
      var origin := request.Get("origin").GetOr("");
      if IsSomeArray(opts.allowedOrigins) && origin in opts.allowedOrigins.value {
        response.Set(keys.origin, origin);
      }
      if IsSomeArray(opts.allowedMethods) {
        response.Set(keys.methods, Join(opts.allowedMethods.value, ", "));
      }
      if IsSomeArray(opts.allowedHeaders) {
        response.Set(keys.headers, Join(opts.allowedHeaders.value, ", "));
      }
      response.Set(keys.credentials, BoolToString(opts.credentials));
      r := response;
    }

    /** `apply(req, res)` as written: the headers returned are the response's own, combined into themselves. */
    method ApplyAsWritten(request: HttpHeaders, response: HttpHeaders)
      requires response.Valid() && Values(response.list, SetCookie) == []
      modifies response
      ensures response.Valid()
      ensures response.list == CombineSpec(
        CorsSpec(keys, opts, RequestOrigin(old(request.list)), old(response.list)),
        CorsSpec(keys, opts, RequestOrigin(old(request.list)), old(response.list)))
    {
      var headers := GetCorsHeaders(request, response);
      DefaultKeysDistinct(keys);
      CorrectedApplyKeepsCookies(keys, opts, RequestOrigin(old(request.list)), old(response.list));
      headers := response.InnerCombine(headers);
    }

    /** `apply(req, res)` as intended: the CORS headers written once, every other header untouched. */
    method Apply(request: HttpHeaders, response: HttpHeaders)
      requires response.Valid()
      modifies response
      ensures response.Valid()
      ensures response.list == CorsSpec(keys, opts, RequestOrigin(old(request.list)), old(response.list))
    {
      var headers := GetCorsHeaders(request, response);
    }
  }

  /** `__Coreum_Cors` of src/lib: the headers are set on a copy and the response is left alone. */
  class CoreumCors {
    const config: CorsOptions
    const keys: CorsKeys

    constructor(config: CorsOptions)
      ensures this.config == config && keys == DefaultKeys
    {
      this.config := config;
      keys := DefaultKeys;
    }

    method GetCorsHeaders(request: HttpHeaders, response: HttpHeaders) returns (r: HttpHeaders)
      requires response.Valid()
      ensures fresh(r) && r.Valid()
      ensures r.list == CorsSpec(keys, config, RequestOrigin(request.list), response.list)
    {
      var origin := request.Get("origin").GetOr("");
      r := new HttpHeaders(response.list);
      if IsSomeArray(config.allowedOrigins) && origin in config.allowedOrigins.value {
        r.Set(keys.origin, origin);
      }
      if IsSomeArray(config.allowedMethods) {
        r.Set(keys.methods, Join(config.allowedMethods.value, ", "));
      }
      if IsSomeArray(config.allowedHeaders) {
        r.Set(keys.headers, Join(config.allowedHeaders.value, ", "));
      }
      r.Set(keys.credentials, BoolToString(config.credentials));
    }
  }
}
