// Route identity and template matching, shared by the three generations of
// route objects: `Route.makeRouteId` (src/Route/Route.ts), the `getId`,
// `getPattern` and `getParamNames` helpers of src/lib/Route/__Coreum_Route.ts,
// and the `resolve*` helpers of src/Route/RouteAbstract.ts and
// src/modules/Route/RouteAbstract.ts.

module RouteIds {
  import opened Wrappers
  import opened Strings

  /** `Route.makeRouteId(method, endpoint)`: `[${method.toUpperCase()}]:[${endpoint}]`. */
  function MakeRouteId(httpMethod: string, endpoint: string): (id: string)
    ensures StartsWith(id, "[") && EndsWith(id, "]")
  {
    "[" + ToUpper(httpMethod) + "]:[" + endpoint + "]"
  }

  /** `getId(method, path)` of the oldest generation: the method is not upper-cased. */
  function CoreumRouteId(httpMethod: string, path: string): (id: string)
    ensures StartsWith(id, "[") && EndsWith(id, "]")
  {
    "[" + httpMethod + "]:[" + path + "]"
  }

  /** The first index of `c` in `s`. */
  /** Reads a route id back into its method and endpoint parts. */
  function ParseRouteId(id: string): (r: Option<(string, string)>)
  {
    if |id| < 2 || id[0] != '[' then None
    else
      match IndexOf(id, ']')
      case None => None
      case Some(i) =>
        if i + 3 <= |id| - 1 && id[i + 1] == ':' && id[i + 2] == '[' && id[|id| - 1] == ']'
        then Some((id[1..i], id[i + 3..|id| - 1]))
        else None
  }

  lemma UpperKeepsBracket(m: string)
    ensures ']' in ToUpper(m) <==> ']' in m
  {
    if ']' in m {
      var k :| 0 <= k < |m| && m[k] == ']';
      assert ToUpper(m)[k] == ']';
    }
    if ']' in ToUpper(m) {
      var k :| 0 <= k < |ToUpper(m)| && ToUpper(m)[k] == ']';
      assert m[k] == ']';
    }
  }

  /** A route id is read back as the upper-cased method and the endpoint. */
  lemma ParseMakeRouteId(httpMethod: string, endpoint: string)
    requires ']' !in httpMethod
    ensures ParseRouteId(MakeRouteId(httpMethod, endpoint)) == Some((ToUpper(httpMethod), endpoint))
  {
    var m := ToUpper(httpMethod);
    UpperKeepsBracket(httpMethod);
    var a, b := "[" + m, ":[" + endpoint + "]";
    IdShape(m, endpoint);
    assert ']' !in a by {
      assert forall k :: 1 <= k < |a| ==> a[k] == m[k - 1];
    }
    IndexOfFirst(a, ']', b);
    ParseAt(a, b, m, endpoint);
  }

  lemma IdShape(m: string, endpoint: string)
    ensures "[" + m + "]:[" + endpoint + "]" == ("[" + m) + [']'] + (":[" + endpoint + "]")
  {
  }

  lemma ParseAt(a: string, b: string, m: string, endpoint: string)
    requires a == "[" + m && b == ":[" + endpoint + "]"
    requires IndexOf(a + [']'] + b, ']') == Some(|a|)
    ensures ParseRouteId(a + [']'] + b) == Some((m, endpoint))
  {
    var id := a + [']'] + b;
    var i := |a|;
    assert id[i + 1] == b[0] == ':';
    assert id[i + 2] == b[1] == '[';
    assert id[|id| - 1] == b[|b| - 1] == ']';
    assert id[1..i] == a[1..] == m;
    assert id[i + 3..|id| - 1] == b[2..|b| - 1] == endpoint;
  }

  /** Two routes share an id only when their methods agree up to case and their endpoints are equal. */
  lemma RouteIdInjective(m1: string, e1: string, m2: string, e2: string)
    requires ']' !in m1 && ']' !in m2
    requires MakeRouteId(m1, e1) == MakeRouteId(m2, e2)
    ensures ToUpper(m1) == ToUpper(m2) && e1 == e2
  {
    ParseMakeRouteId(m1, e1);
    ParseMakeRouteId(m2, e2);
  }

  /** The newer id is the older one applied to the upper-cased method. */
  lemma MakeRouteIdUpperCases(httpMethod: string, endpoint: string)
    ensures MakeRouteId(httpMethod, endpoint) == CoreumRouteId(ToUpper(httpMethod), endpoint)
    ensures ToUpper(httpMethod) == httpMethod ==> MakeRouteId(httpMethod, endpoint) == CoreumRouteId(httpMethod, endpoint)
  {
  }

  /** route.test.ts, "MAKE ROUTE ID". */
  lemma MakeRouteIdGet()
    ensures MakeRouteId("GET", "/test-route-id") == "[GET]:[/test-route-id]"
  {
    UpperGet();
  }

  lemma MakeRouteIdPost()
    ensures MakeRouteId("post", "/users-route-id") == "[POST]:[/users-route-id]"
  {
    UpperPost();
  }

  lemma UpperGet()
    ensures ToUpper("GET") == "GET"
  {
    assert "GET"[1..] == "ET" && "ET"[1..] == "T" && "T"[1..] == "";
  }

  lemma UpperPost()
    ensures ToUpper("post") == "POST"
  {
    assert "post"[1..] == "ost" && "ost"[1..] == "st" && "st"[1..] == "t" && "t"[1..] == "";
  }
}

module RoutePattern {
  import opened Wrappers
  import opened Strings

  /** A template segment: a literal, or a `:name` parameter. */
  datatype Seg = Lit(text: string) | Param(name: string)

  function ClassifyPart(part: string): Seg
  {
    if StartsWith(part, ":") then Param(part[1..]) else Lit(part)
  }

  function Classify(parts: seq<string>): (r: seq<Seg>)
    ensures |r| == |parts|
    ensures forall k :: 0 <= k < |parts| ==> r[k] == ClassifyPart(parts[k])
  {
    if parts == [] then [] else [ClassifyPart(parts[0])] + Classify(parts[1..])
  }

  /**
   * `resolvePattern(endpoint)` / `getPattern(path)`: the anchored matcher
   * built from the `/`-parts of the template.
   */
  function ResolvePattern(endpoint: string): seq<Seg>
  {
    Classify(Split(endpoint, '/'))
  }

  /** One part of the regular-expression source: a capture group or the literal text. */
  function SourcePart(part: string): string
  {
    if StartsWith(part, ":") then "([^\\/]+)" else part
  }

  function SourceParts(parts: seq<string>): (r: seq<string>)
    ensures |r| == |parts|
    ensures forall k :: 0 <= k < |parts| ==> r[k] == SourcePart(parts[k])
  {
    if parts == [] then [] else [SourcePart(parts[0])] + SourceParts(parts[1..])
  }

  /** The source text handed to `new RegExp`. */
  function PatternSource(endpoint: string): (r: string)
    ensures StartsWith(r, "^") && EndsWith(r, "$")
  {
    "^" + Join(SourceParts(Split(endpoint, '/')), "/") + "$"
  }

  /**
   * What the compiled expression accepts at one position. Literal parts are
   * compared as plain text: the expression embeds them unescaped, so this
   * reading holds for literals without regular-expression metacharacters.
   */
  predicate SegMatches(seg: Seg, part: string)
  {
    match seg
    case Lit(t) => part == t
    case Param(_) => part != ""
  }

  /** `pattern.test(pathname)`: same number of parts, each accepted in place. */
  predicate Matches(pattern: seq<Seg>, pathname: string)
  {
    var parts := Split(pathname, '/');
    |parts| == |pattern| && forall i :: 0 <= i < |parts| ==> SegMatches(pattern[i], parts[i])
  }

  predicate Test(endpoint: string, pathname: string)
  {
    Matches(ResolvePattern(endpoint), pathname)
  }

  predicate HasParam(endpoint: string)
  {
    exists k :: 0 <= k < |Split(endpoint, '/')| && StartsWith(Split(endpoint, '/')[k], ":")
  }

  /**
   * The template reading of the matcher: a pathname is accepted iff it has as
   * many parts as the template, every `:x` position holds a non-empty part
   * and every other position equals the template's part.
   */
  lemma TestIff(endpoint: string, pathname: string)
    ensures Test(endpoint, pathname) <==>
      var e, p := Split(endpoint, '/'), Split(pathname, '/');
      |p| == |e| &&
      forall i :: 0 <= i < |e| ==>
        (StartsWith(e[i], ":") ==> p[i] != "") && (!StartsWith(e[i], ":") ==> p[i] == e[i])
  {
  }

  /** A template without parameters accepts exactly itself. */
  lemma {:induction false} LiteralAcceptsExactlyItself(endpoint: string, pathname: string)
    requires !HasParam(endpoint)
    ensures Test(endpoint, pathname) <==> pathname == endpoint
  {
    var e, p := Split(endpoint, '/'), Split(pathname, '/');
    if Test(endpoint, pathname) {
      assert forall i :: 0 <= i < |e| ==> p[i] == e[i];
      assert p == e;
      JoinSplit(endpoint, '/');
      JoinSplit(pathname, '/');
    }
  }

  /** Substitutes values for the parameter parts of a template. */
  function Fill(parts: seq<string>, values: seq<string>): (r: seq<string>)
    requires |values| == |parts|
    ensures |r| == |parts|
    ensures forall k :: 0 <= k < |parts| ==> r[k] == if StartsWith(parts[k], ":") then values[k] else parts[k]
  {
    if parts == [] then []
    else [if StartsWith(parts[0], ":") then values[0] else parts[0]] + Fill(parts[1..], values[1..])
  }

  /** Every instantiation of a template with non-empty, slash-free values is accepted. */
  lemma {:induction false} AcceptsInstances(endpoint: string, values: seq<string>)
    requires |values| == |Split(endpoint, '/')|
    requires forall k :: 0 <= k < |values| ==> values[k] != "" && '/' !in values[k]
    ensures Test(endpoint, Join(Fill(Split(endpoint, '/'), values), "/"))
  {
    var e := Split(endpoint, '/');
    var f := Fill(e, values);
    SplitJoin(f, '/');
  }

  /** route.test.ts, "PATTERN - DYNAMIC ENDPOINT WITH PARAM". */
  lemma R4AcceptsNumber()
    ensures Test("/r4/:id", "/r4/123")
  {
    R4PathNumber();
    R4Accepts("123");
  }

  lemma R4AcceptsWord()
    ensures Test("/r4/:id", "/r4/abc")
  {
    R4PathWord();
    R4Accepts("abc");
  }

  /** "/r4/:id" accepts any single non-empty segment in the parameter position. */
  lemma R4Accepts(v: string)
    requires v != "" && '/' !in v
    ensures Test("/r4/:id", "/" + "r4" + "/" + v)
  {
    R4Pattern();
    SplitThree("r4", v);
  }

  lemma R4PathWord()
    ensures "/" + "r4" + "/" + "abc" == "/r4/abc"
  {
  }

  lemma R4PathNumber()
    ensures "/" + "r4" + "/" + "123" == "/r4/123"
  {
  }

  lemma R4RejectsMissing()
    ensures !Test("/r4/:id", "/r4")
  {
    R4Pattern();
    assert "/" + "r4" == "/r4";
    SplitTwo("r4");
  }

  lemma R4RejectsExtra()
    ensures !Test("/r4/:id", "/r4/123/extra")
  {
    R4Pattern();
    SplitR4Extra();
  }

  lemma SplitR4Extra()
    ensures Split("/r4/123/extra", '/') == ["", "r4", "123", "extra"]
  {
    assert "/" + "r4" + "/" + "123" + "/" + "extra" == "/r4/123/extra";
    SplitFour("r4", "123", "extra");
  }

  lemma R4Pattern()
    ensures ResolvePattern("/r4/:id") == [Lit(""), Lit("r4"), Param("id")]
  {
    assert "/" + "r4" + "/" + ":id" == "/r4/:id";
    SplitThree("r4", ":id");
    assert !StartsWith("", ":") && !StartsWith("r4", ":") && StartsWith(":id", ":");
  }

  lemma SplitTwo(a: string)
    requires '/' !in a
    ensures Split("/" + a, '/') == ["", a]
  {
    SplitNoSep(a, '/');
    SplitAppend("", a, '/');
    assert "" + ['/'] + a == "/" + a;
  }

  lemma SplitThree(a: string, b: string)
    requires '/' !in a && '/' !in b
    ensures Split("/" + a + "/" + b, '/') == ["", a, b]
  {
    SplitNoSep(b, '/');
    SplitAppend(a, b, '/');
    SplitAppend("", a + "/" + b, '/');
    assert "" + ['/'] + (a + ['/'] + b) == "/" + a + "/" + b;
  }

  lemma SplitFour(a: string, b: string, c: string)
    requires '/' !in a && '/' !in b && '/' !in c
    ensures Split("/" + a + "/" + b + "/" + c, '/') == ["", a, b, c]
  {
    assert "/" + a + "/" + b + "/" + c == "" + ['/'] + (a + ['/'] + (b + ['/'] + c));
    SplitNoSep(c, '/');
    SplitAppend(b, c, '/');
    SplitAppend(a, b + ['/'] + c, '/');
    SplitAppend("", a + ['/'] + (b + ['/'] + c), '/');
  }

  /** The names of the parameter segments of a template, in order, without ":". */
  function ParamNames(parts: seq<string>): (r: seq<string>)
    ensures |r| <= |parts|
  {
    if parts == [] then []
    else (if StartsWith(parts[0], ":") then [parts[0][1..]] else []) + ParamNames(parts[1..])
  }

  lemma {:induction false} ParamNamesSnoc(parts: seq<string>, part: string)
    ensures ParamNames(parts + [part]) == ParamNames(parts) + (if StartsWith(part, ":") then [part[1..]] else [])
  {
    if parts == [] {
      assert [part][1..] == [];
    } else {
      assert (parts + [part])[1..] == parts[1..] + [part];
      ParamNamesSnoc(parts[1..], part);
    }
  }

  /** `getParamNames(path)` (src/lib/Route/__Coreum_Route.ts): the loop over the `/`-parts. */
  method GetParamNames(path: string) returns (names: seq<string>)
    ensures names == ParamNames(Split(path, '/'))
  {
    var parts := Split(path, '/');
    names := [];
    var i := 0;
    while i < |parts|
      invariant 0 <= i <= |parts|
      invariant names == ParamNames(parts[..i])
    {
      ParamNamesSnoc(parts[..i], parts[i]);
      assert parts[..i + 1] == parts[..i] + [parts[i]];
      if StartsWith(parts[i], ":") {
        names := names + [parts[i][1..]];
      }
      i := i + 1;
    }
    assert parts[..i] == parts;
  }

  /** The names of the `Param` segments of a compiled matcher. */
  function SegNames(pattern: seq<Seg>): seq<string>
  {
    if pattern == [] then []
    else (if pattern[0].Param? then [pattern[0].name] else []) + SegNames(pattern[1..])
  }

  /** The parameter names are exactly the capture groups of the pattern, in order. */
  lemma {:induction false} ParamNamesAreCaptures(parts: seq<string>)
    ensures ParamNames(parts) == SegNames(Classify(parts))
  {
    if parts != [] {
      ParamNamesAreCaptures(parts[1..]);
      assert Classify(parts)[1..] == Classify(parts[1..]);
    }
  }

  lemma ParamNamesExample()
    ensures ParamNames(Split("/users/:id/posts", '/')) == ["id"]
  {
    SplitUsers();
    ParamNamesUsers();
  }

  lemma SplitUsers()
    ensures Split("/users/:id/posts", '/') == ["", "users", ":id", "posts"]
  {
    assert "/" + "users" + "/" + ":id" + "/" + "posts" == "/users/:id/posts";
    SplitFour("users", ":id", "posts");
  }

  lemma ParamNamesUsers()
    ensures ParamNames(["", "users", ":id", "posts"]) == ["id"]
  {
    var parts := ["", "users", ":id", "posts"];
    assert "posts"[0] == 'p' && "users"[0] == 'u' && ":id"[0] == ':';
    assert "posts"[..1] != ":" && "users"[..1] != ":";
    assert ":id"[..1] == ":" && ":id"[1..] == "id";
    assert ParamNames(parts[3..]) == [] by {
      assert parts[3..][1..] == [];
    }
    assert parts[2..][1..] == parts[3..];
    assert ParamNames(parts[2..]) == ["id"];
    assert parts[1..][1..] == parts[2..];
    assert ParamNames(parts[1..]) == ["id"];
  }
}

module RouteResolve {
  import opened Wrappers
  import opened Strings
  import opened HttpTables
  import opened PathJoin
  import opened RouteIds
  import opened RoutePattern

  datatype RouteVariant = Dynamic | Static

  /** A plain path string, or a `{ method, path }` record. */
  datatype RouteDefinition = PathDef(path: string) | MethodPathDef(httpMethod: Method, path: string)

  /**
   * `resolveEndpoint(definition, variant)`. The prefix is the configured
   * global prefix (default "") in src/Route/RouteAbstract.ts and the router's
   * `globalPrefix` in src/modules/Route/RouteAbstract.ts.
   */
  function ResolveEndpoint(definition: RouteDefinition, variant: RouteVariant, prefix: string): (r: string)
    ensures variant == Static ==> r == definition.path
    ensures variant == Dynamic ==> r == JoinPathSegments([Some(prefix), Some(definition.path)])
  {
    if variant == Dynamic then JoinPathSegments([Some(prefix), Some(definition.path)]) else definition.path
  }

  /** `resolveMethod(definition)`: GET for a plain string. */
  function ResolveMethod(definition: RouteDefinition): (m: Method)
    ensures definition.PathDef? ==> m == GET
    ensures definition.MethodPathDef? ==> m == definition.httpMethod
  {
    match definition
    case PathDef(_) => GET
    case MethodPathDef(m, _) => m
  }

  /** `resolveId(httpMethod, endpoint)` delegates to `Route.makeRouteId`. */
  function ResolveId(httpMethod: Method, endpoint: string): (id: string)
    ensures id == "[" + MethodName(httpMethod) + "]:[" + endpoint + "]"
  {
    MakeRouteId(MethodName(httpMethod), endpoint)
  }

  /** A dynamic route's endpoint is a normalised path whatever the prefix. */
  lemma DynamicEndpointNormalised(definition: RouteDefinition, prefix: string)
    ensures var e := ResolveEndpoint(definition, Dynamic, prefix);
            e[0] == '/' && (e != "/" ==> e[|e| - 1] != '/') &&
            JoinPathSegments([Some(e)]) == e
  {
    Idempotent([Some(prefix), Some(definition.path)]);
    NoTrailingSlash([Some(prefix), Some(definition.path)]);
  }

  /** With an empty prefix a dynamic endpoint is its path joined alone. */
  lemma EmptyPrefixEndpoint(definition: RouteDefinition)
    ensures ResolveEndpoint(definition, Dynamic, "") == JoinPathSegments([Some(definition.path)])
  {
    EmptyPrefix(Some(definition.path));
  }

  /** A route's id reads back as its method and its (prefixed) endpoint. */
  lemma IdEmbedsEndpoint(definition: RouteDefinition, variant: RouteVariant, prefix: string)
    ensures var e := ResolveEndpoint(definition, variant, prefix);
            var m := ResolveMethod(definition);
            ParseRouteId(ResolveId(m, e)) == Some((MethodName(m), e))
  {
    var name := MethodName(ResolveMethod(definition));
    var e := ResolveEndpoint(definition, variant, prefix);
    assert ResolveId(ResolveMethod(definition), e) == MakeRouteId(name, e);
    MethodNameNoBracket(ResolveMethod(definition));
    ParseMakeRouteId(name, e);
  }

  lemma MethodNameNoBracket(m: Method)
    ensures ']' !in MethodName(m)
  {
  }

  /** route.test.ts, "STRING DEFINITION DEFAULTS TO GET": the endpoint is the path and the method GET. */
  lemma StringDefinitionExample()
    ensures ResolveMethod(PathDef("/r1")) == GET
    ensures ResolveEndpoint(PathDef("/r1"), Dynamic, "") == "/r1"
  {
    EmptyPrefixEndpoint(PathDef("/r1"));
    KeptR1();
    JoinR1();
  }

  lemma JoinR1()
    ensures "/" + Join(["r1"], "/") == "/r1"
  {
  }

  lemma KeptR1()
    ensures Kept([Some("/r1")]) == ["r1"]
  {
    DefinedR1();
    StrippedR1();
    assert NonEmptySegments(["r1"]) == ["r1"] by {
      assert ["r1"][1..] == [];
    }
  }

  lemma DefinedR1()
    ensures DefinedSegments([Some("/r1")]) == ["/r1"]
  {
    DefinedSingle("/r1");
  }

  /** A lone segment with no white space at either end passes the first filter. */
  lemma DefinedSingle(s: string)
    requires |s| > 0 && !IsSpace(s[0]) && !IsSpace(s[|s| - 1])
    ensures DefinedSegments([Some(s)]) == [s]
  {
    TrimNoSpaceEnds(s);
    assert [Some(s)][1..] == [];
  }

  lemma StrippedR1()
    ensures StrippedSegments(["/r1"]) == ["r1"]
  {
    assert StripLeadingSlashes("/r1") == "r1" by {
      assert "/r1"[1..] == "r1";
    }
    assert StripSlashes("/r1") == "r1";
  }
}
