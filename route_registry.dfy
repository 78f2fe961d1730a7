// The route tables: the id-keyed registry of src/modules/Registry/RouteRegistry.ts
// (repeated, with public members, in src/modules/Router/registries/RouterRouteRegistry.ts),
// its variant src/modules/Router/RouterRouteRegistry.ts, and the endpoint-keyed
// registry of src/Route/RouteRegistry.ts.
//
// A table is an insertion-ordered key sequence beside a map, which is how a
// JavaScript object with non-numeric keys, or a `Map`, enumerates its entries.

module RouteTable {
  import opened Wrappers
  import opened OrderedMaps
  import RoutePattern

  /**
   * A route's handler: a user callback (an opaque token), the wrapper a
   * controller builds around one (awaiting its `beforeEach` hook, if set,
   * first), or the handler of a static-file route (the file's content, then
   * the optional callback).
   */
  datatype Handler =
    | Callback(token: nat)
    | Guarded(beforeEach: Option<nat>, callback: nat)
    | StaticFile(filePath: string, defaultHandler: Option<nat>)

  /** The record a registry stores for a route. The compiled pattern is kept as the route computed it. */
  datatype RouteEntry = RouteEntry(id: string, endpoint: string, httpMethod: string, pattern: seq<RoutePattern.Seg>, handler: Handler)

  /** The outcome of a lookup: the route, or the error the caller throws (404 or 405). */
  datatype Lookup = Found(entry: RouteEntry) | NotFound | MethodNotAllowed

  /** The position of the first hit, if any: `Array.prototype.find` and a `for ... break` scan. */
  function FirstTrue(hits: seq<bool>): (r: Option<nat>)
    ensures r.Some? ==> r.value < |hits| && hits[r.value]
    ensures r.Some? ==> forall j :: 0 <= j < r.value ==> !hits[j]
    ensures r.None? ==> forall j :: 0 <= j < |hits| ==> !hits[j]
  {
    if hits == [] then None
    else if hits[0] then Some(0)
    else
      match FirstTrue(hits[1..])
      case None => None
      case Some(i) => Some(i + 1)
  }

  /**
   * `Array.prototype.find` over positions `0 .. n - 1` with the callback
   * `test`: the first position it accepts, or none.
   */
  method FindFirst(n: nat, test: int -> bool) returns (found: Option<nat>)
    ensures found == FirstTrue(seq(n, test))
  {
    ghost var hits := seq(n, test);
    var i := 0;
    while i < n
      invariant 0 <= i <= n
      invariant forall j :: 0 <= j < i ==> !hits[j]
    {
      assert hits[i] == test(i);
      if test(i) {
        FirstTrueAt(hits, i);
        return Some(i);
      }
      i := i + 1;
    }
    NoneTrue(hits);
    return None;
  }

  lemma FirstTrueAt(hits: seq<bool>, i: nat)
    requires i < |hits| && hits[i]
    requires forall j :: 0 <= j < i ==> !hits[j]
    ensures FirstTrue(hits) == Some(i)
  {
  }

  lemma NoneTrue(hits: seq<bool>)
    requires forall j :: 0 <= j < |hits| ==> !hits[j]
    ensures FirstTrue(hits) == None
  {
  }
}

module RouteRegistry {
  import opened Wrappers
  import opened Strings
  import opened PathJoin
  import opened TextEqual
  import opened RouteIds
  import opened RoutePattern
  import opened RouteTable
  import opened OrderedMaps

  /**
   * How the fallback shortens a parameterised template before comparing it
   * with the pathname: the registry drops the last part only when it is a `:`
   * parameter; its variant on `path` drops it whenever it is non-empty.
   */
  datatype TrailingRule = PopParam | PopNonEmpty

  function Fallback(parts: seq<string>, rule: TrailingRule): (r: seq<string>)
    requires |parts| >= 1
    ensures r == parts || r == parts[..|parts| - 1]
  {
    var last := parts[|parts| - 1];
    var pop := match rule
      case PopParam => StartsWith(last, ":")
      case PopNonEmpty => last != "";
    if pop then parts[..|parts| - 1] else parts
  }

  /** The two rules shorten differently exactly when the last part is a non-empty literal. */
  lemma RulesDifferOnLiteralLast(parts: seq<string>)
    requires |parts| >= 1
    ensures var last := parts[|parts| - 1];
      Fallback(parts, PopParam) != Fallback(parts, PopNonEmpty) <==> last != "" && !StartsWith(last, ":")
  {
    var last := parts[|parts| - 1];
    if last != "" && !StartsWith(last, ":") {
      assert |Fallback(parts, PopParam)| != |Fallback(parts, PopNonEmpty)|;
    }
  }

  /**
   * The callback of the insertion-order scan. A template with a `:` matches
   * when its pattern does, or when the shortened template, re-joined, equals
   * the pathname up to case; any other template must equal it up to case.
   */
  predicate PathMatches(e: RouteEntry, pathname: string, rule: TrailingRule)
  {
    if ':' in e.endpoint then
      Matches(e.pattern, pathname)
      || TextIsEqual(JoinPathSegments(AllDefined(Fallback(Split(e.endpoint, '/'), rule))), pathname, Lower)
    else
      TextIsEqual(e.endpoint, pathname, Lower)
  }

  /** The key tried before any scan: `[${method}]:[${pathname}]`, the method as given. */
  function ExactId(httpMethod: string, pathname: string): string
  {
    CoreumRouteId(httpMethod, pathname)
  }

  /** The callback of the scan: does the record at position `j` match the pathname? */
  function PathTest(keys: seq<string>, data: map<string, RouteEntry>, pathname: string, rule: TrailingRule): int -> bool
    requires forall k :: k in keys ==> k in data
  {
    (j: int) => 0 <= j < |keys| && PathMatches(data[keys[j]], pathname, rule)
  }

  /** For each stored record, in insertion order, whether its path matches. */
  function Hits(keys: seq<string>, data: map<string, RouteEntry>, pathname: string, rule: TrailingRule): (r: seq<bool>)
    requires forall k :: k in keys ==> k in data
    ensures |r| == |keys|
  {
    seq(|keys|, PathTest(keys, data, pathname, rule))
  }

  /** Position `j` of the scan holds the callback's verdict on the `j`-th stored record. */
  lemma HitsAt(keys: seq<string>, data: map<string, RouteEntry>, pathname: string, rule: TrailingRule, j: nat)
    requires forall k :: k in keys ==> k in data
    requires j < |keys|
    ensures Hits(keys, data, pathname, rule)[j] == PathMatches(data[keys[j]], pathname, rule)
  {
  }

  /** The position, in insertion order, of the first stored record whose path matches. */
  function FirstMatch(keys: seq<string>, data: map<string, RouteEntry>, pathname: string, rule: TrailingRule): Option<nat>
    requires forall k :: k in keys ==> k in data
  {
    FirstTrue(Hits(keys, data, pathname, rule))
  }

  /** The route a lookup settles on before its method is checked. */
  function Candidate(keys: seq<string>, data: map<string, RouteEntry>, pathname: string, httpMethod: string, rule: TrailingRule): Option<RouteEntry>
    requires forall k :: k in keys ==> k in data
  {
    var id := ExactId(httpMethod, pathname);
    if id in data then Some(data[id])
    else
      match FirstMatch(keys, data, pathname, rule)
      case None => None
      case Some(i) => Some(data[keys[i]])
  }

  /** `findRouteByPathname(pathname, method)`. */
  function FindByPathname(keys: seq<string>, data: map<string, RouteEntry>, pathname: string, httpMethod: string, rule: TrailingRule): Lookup
    requires forall k :: k in keys ==> k in data
  {
    match Candidate(keys, data, pathname, httpMethod, rule)
    case None => NotFound
    case Some(e) => if TextIsEqual(e.httpMethod, httpMethod, Upper) then Found(e) else MethodNotAllowed
  }

  /** An exactly registered path wins over every other record, earlier parameterised ones included. */
  lemma ExactIdWins(keys: seq<string>, data: map<string, RouteEntry>, pathname: string, httpMethod: string, rule: TrailingRule)
    requires forall k :: k in keys ==> k in data
    requires ExactId(httpMethod, pathname) in data
    requires data[ExactId(httpMethod, pathname)].httpMethod == httpMethod
    ensures FindByPathname(keys, data, pathname, httpMethod, rule) == Found(data[ExactId(httpMethod, pathname)])
  {
    Equivalence(httpMethod, httpMethod, httpMethod, Upper);
  }

  /** Without an exact key, the first record in insertion order whose path matches decides. */
  lemma ScanFirstMatchDecides(keys: seq<string>, data: map<string, RouteEntry>, pathname: string, httpMethod: string, rule: TrailingRule, i: nat)
    requires forall k :: k in keys ==> k in data
    requires ExactId(httpMethod, pathname) !in data
    requires i < |keys| && PathMatches(data[keys[i]], pathname, rule)
    requires forall j :: 0 <= j < i ==> !PathMatches(data[keys[j]], pathname, rule)
    ensures Candidate(keys, data, pathname, httpMethod, rule) == Some(data[keys[i]])
  {
    var hits := Hits(keys, data, pathname, rule);
    HitsAt(keys, data, pathname, rule, i);
    forall j | 0 <= j < i
      ensures !hits[j]
    {
      HitsAt(keys, data, pathname, rule, j);
    }
    FirstTrueAt(hits, i);
  }

  /** 404 exactly when there is no exact key and no record's path matches. */
  lemma NotFoundIffNoPathMatch(keys: seq<string>, data: map<string, RouteEntry>, pathname: string, httpMethod: string, rule: TrailingRule)
    requires forall k :: k in keys ==> k in data
    ensures FindByPathname(keys, data, pathname, httpMethod, rule) == NotFound <==>
      ExactId(httpMethod, pathname) !in data && forall j :: 0 <= j < |keys| ==> !PathMatches(data[keys[j]], pathname, rule)
  {
    var hits := Hits(keys, data, pathname, rule);
    if ExactId(httpMethod, pathname) !in data {
      if FirstTrue(hits).Some? {
        HitsAt(keys, data, pathname, rule, FirstTrue(hits).value);
      } else {
        forall j | 0 <= j < |keys|
          ensures !PathMatches(data[keys[j]], pathname, rule)
        {
          HitsAt(keys, data, pathname, rule, j);
        }
      }
    }
  }

  /**
   * The method is checked only after the path decided: a first path match with
   * another method is a 405 even when a later record matches path and method.
   */
  lemma EarlierPathMatchGives405(keys: seq<string>, data: map<string, RouteEntry>, pathname: string, httpMethod: string, rule: TrailingRule, i: nat, j: nat)
    requires forall k :: k in keys ==> k in data
    requires ExactId(httpMethod, pathname) !in data
    requires i < j < |keys|
    requires PathMatches(data[keys[i]], pathname, rule) && !TextIsEqual(data[keys[i]].httpMethod, httpMethod, Upper)
    requires forall k :: 0 <= k < i ==> !PathMatches(data[keys[k]], pathname, rule)
    requires PathMatches(data[keys[j]], pathname, rule) && TextIsEqual(data[keys[j]].httpMethod, httpMethod, Upper)
    ensures FindByPathname(keys, data, pathname, httpMethod, rule) == MethodNotAllowed
  {
    ScanFirstMatchDecides(keys, data, pathname, httpMethod, rule, i);
  }

  /** The collision test of two templates, position by position. */
  predicate PartsAgree(a: string, b: string)
  {
    !TextIsDefined(a) || !TextIsDefined(b) || StartsWith(a, ":") || StartsWith(b, ":") || a == b
  }

  predicate Collide(path1: string, path2: string)
  {
    var parts1, parts2 := Split(path1, '/'), Split(path2, '/');
    |parts1| == |parts2| && forall i :: 0 <= i < |parts1| ==> PartsAgree(parts1[i], parts2[i])
  }

  lemma CollideSymmetric(path1: string, path2: string)
    ensures Collide(path1, path2) == Collide(path2, path1)
  {
  }

  lemma CollideReflexive(path: string)
    ensures Collide(path, path)
  {
  }

  /** `variation[i] = part.startsWith(":") ? part : ":" + part`. */
  function Variation(parts: seq<string>, i: nat): (r: seq<string>)
    requires i < |parts|
    ensures |r| == |parts| && StartsWith(r[i], ":")
    ensures forall k :: 0 <= k < |parts| && k != i ==> r[k] == parts[k]
  {
    parts[i := if StartsWith(parts[i], ":") then parts[i] else ":" + parts[i]]
  }

  /** `if (!possibles.includes(p)) possibles.push(p)`. */
  function AddOnce(possibles: seq<string>, path: string): (r: seq<string>)
  {
    if path in possibles then possibles else possibles + [path]
  }

  /** The path each part contributes to the side index, if the part is defined. */
  function VariationPaths(parts: seq<string>): (r: seq<Option<string>>)
    ensures |r| == |parts|
  {
    seq(|parts|, i requires 0 <= i < |parts| =>
      if TextIsDefined(parts[i]) then Some(JoinPathSegments(AllDefined(Variation(parts, i)))) else None)
  }

  /** The side index after `if (!includes(p)) push(p)` for each candidate in turn. */
  function AddAll(possibles: seq<string>, candidates: seq<Option<string>>): seq<string>
  {
    if candidates == [] then possibles
    else
      var prev := AddAll(possibles, candidates[..|candidates| - 1]);
      match candidates[|candidates| - 1]
      case None => prev
      case Some(p) => AddOnce(prev, p)
  }

  /** `addPossibleCollision(routePath)` as a whole. */
  function PossiblesAfter(possibles: seq<string>, routePath: string): seq<string>
  {
    AddAll(AddOnce(possibles, routePath), VariationPaths(Split(routePath, '/')))
  }

  lemma AddOnceKeeps(possibles: seq<string>, path: string)
    ensures var r := AddOnce(possibles, path);
      path in r && |possibles| <= |r| && r[..|possibles|] == possibles && (Distinct(possibles) ==> Distinct(r))
  {
  }

  lemma {:induction false} AddAllKeeps(possibles: seq<string>, candidates: seq<Option<string>>)
    ensures var r := AddAll(possibles, candidates);
      |possibles| <= |r| && r[..|possibles|] == possibles && (Distinct(possibles) ==> Distinct(r))
  {
    if candidates != [] {
      var init := candidates[..|candidates| - 1];
      AddAllKeeps(possibles, init);
      var prev := AddAll(possibles, init);
      match candidates[|candidates| - 1]
      case None =>
      case Some(p) =>
        AddOnceKeeps(prev, p);
        var r := AddOnce(prev, p);
        assert r[..|possibles|] == r[..|prev|][..|possibles|];
    }
  }

  /**
   * Recording a template keeps the side index free of duplicates, keeps every
   * earlier entry in place and adds the template itself.
   */
  lemma PossiblesStayDistinct(possibles: seq<string>, routePath: string)
    requires Distinct(possibles)
    ensures var r := PossiblesAfter(possibles, routePath);
      Distinct(r) && routePath in r && |possibles| <= |r| && r[..|possibles|] == possibles
  {
    var first := AddOnce(possibles, routePath);
    AddOnceKeeps(possibles, routePath);
    AddAllKeeps(first, VariationPaths(Split(routePath, '/')));
    var r := PossiblesAfter(possibles, routePath);
    assert r[..|first|] == first;
    assert routePath in r by {
      var k :| 0 <= k < |first| && first[k] == routePath;
      assert r[k] == first[k];
    }
    assert r[..|possibles|] == first[..|possibles|];
  }

  /**
   * Records are stored as object literals, so the `instanceof Route` guards
   * of the collision check never hold for them.
   */
  predicate IsRouteInstance(e: RouteEntry)
  {
    false
  }

  /** The id-keyed route table with its side index of possible collisions. */
  class Registry {
    const rule: TrailingRule
    var keys: seq<string>
    var data: map<string, RouteEntry>
    var possibles: seq<string>

    ghost predicate Valid()
      reads this
    {
      TableValid(keys, data) && Distinct(possibles)
    }

    constructor(rule: TrailingRule)
      ensures Valid()
      ensures this.rule == rule && keys == [] && data == map[] && possibles == []
    {
      this.rule := rule;
      keys := [];
      data := map[];
      possibles := [];
    }

    /** `add(route)` / `addRoute(r)`: check, index, then store under the id, overwriting. */
    method Add(route: RouteEntry)
      requires Valid()
      modifies this
      ensures Valid()
      ensures data == old(data)[route.id := route]
      ensures keys == InsertKey(old(keys), route.id)
      ensures possibles == PossiblesAfter(old(possibles), route.endpoint)
    {
      var _ := CheckPossibleCollision(route.endpoint, route.httpMethod);
      AddPossibleCollision(route.endpoint);
      keys := InsertKey(keys, route.id);
      data := data[route.id := route];
    }

    /** `find(req)`: the pathname of the URL and the upper-cased request method. */
    method Find(pathname: string, requestMethod: string) returns (r: Lookup)
      requires Valid()
      ensures r == FindByPathname(keys, data, pathname, ToUpper(requestMethod), rule)
    {
      r := FindRouteByPathname(pathname, ToUpper(requestMethod));
    }

    method AddPossibleCollision(routePath: string)
      requires Valid()
      modifies this`possibles
      ensures Valid()
      ensures possibles == PossiblesAfter(old(possibles), routePath)
    {
      var parts := Split(routePath, '/');
      if routePath !in possibles {
        possibles := possibles + [routePath];
      }
      ghost var start := possibles;
      ghost var candidates := VariationPaths(parts);
      AddOnceKeeps(old(possibles), routePath);
      for i := 0 to |parts|
        invariant possibles == AddAll(start, candidates[..i])
        invariant Distinct(possibles)
      {
        assert candidates[..i + 1][..i] == candidates[..i];
        AddAllKeeps(start, candidates[..i + 1]);
        var part := parts[i];
        if !TextIsDefined(part) {
          continue;
        }
        var variation := parts[i := if StartsWith(part, ":") then part else ":" + part];
        var possiblePath := JoinPathSegments(AllDefined(variation));
        if possiblePath in possibles {
          continue;
        }
        possibles := possibles + [possiblePath];
      }
      assert candidates[..|parts|] == candidates;
    }

    /**
     * `checkPossibleCollision(routePath, method)`: the warnings it would log.
     * It reads the table and changes nothing.
     */
    method CheckPossibleCollision(routePath: string, httpMethod: string) returns (warnings: seq<string>)
      requires Valid()
      ensures warnings == []
    {
      warnings := [];
      for i := 0 to |possibles|
        invariant warnings == []
      {
        var possible := possibles[i];
        if possible == routePath {
          continue;
        }
        var similar := FindRouteByPathname(possible, httpMethod);
        var other := if similar.Found? then similar.entry.endpoint else "";
        if similar.Found? && other != routePath && Collide(routePath, other) && IsRouteInstance(similar.entry) {
          warnings := warnings + [other + " has params that clash with " + routePath];
        }
      }
      var existing := FindRouteByPathname(routePath, httpMethod);
      var clash := if existing.Found? then existing.entry.endpoint else "";
      if existing.Found? && clash != routePath && IsRouteInstance(existing.entry) {
        warnings := warnings + [routePath + " clashes with existing route " + clash];
      }
    }

    /** `pathsCollide(path1, path2)`. */
    method PathsCollide(path1: string, path2: string) returns (r: bool)
      ensures r == Collide(path1, path2)
    {
      var parts1 := Split(path1, '/');
      var parts2 := Split(path2, '/');
      if |parts1| != |parts2| {
        return false;
      }
      for i := 0 to |parts1|
        invariant forall k :: 0 <= k < i ==> PartsAgree(parts1[k], parts2[k])
      {
        var part1 := parts1[i];
        var part2 := parts2[i];
        if !TextIsDefined(part1) || !TextIsDefined(part2) {
          continue;
        }
        if !StartsWith(part1, ":") && !StartsWith(part2, ":") && part1 != part2 {
          return false;
        }
      }
      return true;
    }

    /** `findRouteByPathname(pathname, method)`: exact id, else the first path match; then the method. */
    method FindRouteByPathname(pathname: string, httpMethod: string) returns (r: Lookup)
      requires Valid()
      ensures r == FindByPathname(keys, data, pathname, httpMethod, rule)
    {
      var possibleId := ExactId(httpMethod, pathname);
      var route: Option<RouteEntry> := None;
      if possibleId in data {
        route := Some(data[possibleId]);
      } else {
        var found := FindFirst(|keys|, PathTest(keys, data, pathname, rule));
        if found.Some? {
          route := Some(data[keys[found.value]]);
        }
      }
      if route == None {
        return NotFound;
      }
      if !TextIsEqual(route.value.httpMethod, httpMethod, Upper) {
        return MethodNotAllowed;
      }
      return Found(route.value);
    }
  }

  lemma SplitLast()
    ensures Split("/x/:id", '/') == ["", "x", ":id"]
  {
    assert "/" + "x" + "/" + ":id" == "/x/:id";
    SplitThree("x", ":id");
  }

  lemma SplitNotLast()
    ensures Split("/x/:id/y", '/') == ["", "x", ":id", "y"]
  {
    assert "/" + "x" + "/" + ":id" + "/" + "y" == "/x/:id/y";
    SplitFour("x", ":id", "y");
  }

  lemma JoinLast(parts: seq<string>)
    requires parts == ["", "x"]
    ensures JoinPathSegments(AllDefined(parts)) == "/x"
  {
    JoinAfterRoot(parts);
    assert parts[1..] == ["x"];
  }

  /**
   * A missing trailing parameter still routes, so that the params schema
   * reports 422 rather than routing a 404: "/x/:id" serves "/x".
   */
  lemma TrailingParamMayBeMissing(e: RouteEntry, pathname: string)
    requires e.endpoint == "/x/:id" && pathname == "/x"
    ensures PathMatches(e, pathname, PopParam)
  {
    assert e.endpoint[3] == ':';
    SplitLast();
    var parts := ["", "x", ":id"];
    assert StartsWith(parts[2], ":") by {
      assert parts[2][..1] == ":";
    }
    assert Fallback(parts, PopParam) == ["", "x"];
    JoinLast(["", "x"]);
    Equivalence(pathname, pathname, pathname, Lower);
  }

  lemma NotLastPartsClean(rest: seq<string>)
    requires rest == ["x", ":id", "y"]
    ensures forall k :: 0 <= k < |rest| ==> Clean(rest[k]) && !IsSpace(rest[k][0])
  {
    assert Clean(rest[0]) && Clean(rest[1]) && Clean(rest[2]);
  }

  lemma NotLastLiteral(a: string, b: string, c: string)
    requires a == "x" && b == ":id" && c == "y"
    ensures "/" + (a + "/" + b + "/" + c) == "/x/:id/y"
  {
  }

  lemma JoinNotLast(parts: seq<string>)
    requires parts == ["", "x", ":id", "y"]
    ensures JoinPathSegments(AllDefined(parts)) == "/x/:id/y"
  {
    NotLastPartsClean(parts[1..]);
    JoinAfterRoot(parts);
    JoinThree(parts[1], parts[2], parts[3]);
    assert parts[1..] == [parts[1], parts[2], parts[3]];
    NotLastLiteral(parts[1], parts[2], parts[3]);
  }

  /** The joined template and the pathname differ in length, so no case mapping makes them equal. */
  lemma LongerTemplateDiffers(template: string, pathname: string)
    requires template == "/x/:id/y" && pathname == "/x"
    ensures !TextIsEqual(template, pathname, Lower)
  {
    TrimNoSpaceEnds(template);
    TrimNoSpaceEnds(pathname);
    LengthMismatch(template, pathname, Lower);
  }

  /**
   * Leniency stops at the last part: "/x/:id/y" does not serve "/x", which
   * therefore is a 404.
   */
  lemma InnerParamMayNotBeMissing(e: RouteEntry, pathname: string)
    requires e.endpoint == "/x/:id/y" && pathname == "/x"
    requires e.pattern == ResolvePattern(e.endpoint)
    ensures !PathMatches(e, pathname, PopParam)
  {
    SplitNotLast();
    SplitTwo("x");
    var parts := ["", "x", ":id", "y"];
    assert !Matches(e.pattern, pathname);
    assert !StartsWith(parts[3], ":") by {
      assert parts[3][0] == 'y';
    }
    assert Fallback(parts, PopParam) == parts;
    JoinNotLast(parts);
    LongerTemplateDiffers("/x/:id/y", pathname);
  }
}

module EndpointRouteRegistry {
  import opened Wrappers
  import opened Strings
  import opened TextEqual
  import opened RoutePattern
  import opened RouteTable
  import opened OrderedMaps

  predicate HasAnyParam(endpoint: string)
  {
    ':' in endpoint
  }

  /** `endpoint.split("/").slice(0, -1).join("/")`. */
  function RemoveLastParam(endpoint: string): string
  {
    var parts := Split(endpoint, '/');
    Join(parts[..|parts| - 1], "/")
  }

  predicate HasLastPartParam(endpoint: string)
  {
    var parts := Split(endpoint, '/');
    HasAnyParam(endpoint) && StartsWith(parts[|parts| - 1], ":")
  }

  /** Dropping the last part leaves exactly the earlier parts. */
  lemma RemoveLastParamParts(endpoint: string)
    requires |Split(endpoint, '/')| >= 2
    ensures var parts := Split(endpoint, '/');
      Split(RemoveLastParam(endpoint), '/') == parts[..|parts| - 1]
  {
    var parts := Split(endpoint, '/');
    var init := parts[..|parts| - 1];
    assert forall k :: 0 <= k < |init| ==> '/' !in init[k] by {
      forall k | 0 <= k < |init| ensures '/' !in init[k] {
        assert init[k] == parts[k];
      }
    }
    SplitJoin(init, '/');
  }

  /** Only a template with a `:` can end in a parameter. */
  lemma LastParamNeedsColon(endpoint: string)
    ensures HasLastPartParam(endpoint) ==> HasAnyParam(endpoint)
  {
  }

  /** The loop body of `find`, for the record stored under `endpoint`. */
  predicate EndpointMatches(endpoint: string, e: RouteEntry, reqPath: string)
  {
    if HasAnyParam(endpoint) then
      Matches(e.pattern, reqPath)
      || (HasLastPartParam(endpoint) && TextIsEqual(RemoveLastParam(endpoint), reqPath, Lower))
    else
      TextIsEqual(endpoint, reqPath, Exact)
  }

  /** The loop test of `find` on the endpoint at position `j`. */
  function EndpointTest(keys: seq<string>, store: map<string, RouteEntry>, reqPath: string): int -> bool
    requires forall k :: k in keys ==> k in store
  {
    (j: int) => 0 <= j < |keys| && EndpointMatches(keys[j], store[keys[j]], reqPath)
  }

  /** For each stored endpoint, in insertion order, whether the request path matches it. */
  function Hits(keys: seq<string>, store: map<string, RouteEntry>, reqPath: string): (r: seq<bool>)
    requires forall k :: k in keys ==> k in store
    ensures |r| == |keys|
  {
    seq(|keys|, EndpointTest(keys, store, reqPath))
  }

  /** Position `j` of the scan holds the loop test on the `j`-th stored endpoint. */
  lemma HitsAt(keys: seq<string>, store: map<string, RouteEntry>, reqPath: string, j: nat)
    requires forall k :: k in keys ==> k in store
    requires j < |keys|
    ensures Hits(keys, store, reqPath)[j] == EndpointMatches(keys[j], store[keys[j]], reqPath)
  {
  }

  /** `find(req)`: no id shortcut, the first match in insertion order, then the method. */
  function FindEndpoint(keys: seq<string>, store: map<string, RouteEntry>, reqPath: string, reqMethod: string): Lookup
    requires forall k :: k in keys ==> k in store
  {
    match FirstTrue(Hits(keys, store, reqPath))
    case None => NotFound
    case Some(i) =>
      if TextIsEqual(reqMethod, store[keys[i]].httpMethod, Upper) then Found(store[keys[i]]) else MethodNotAllowed
  }

  /** The first stored endpoint that matches decides, whatever follows it. */
  lemma FirstEndpointDecides(keys: seq<string>, store: map<string, RouteEntry>, reqPath: string, reqMethod: string, i: nat)
    requires forall k :: k in keys ==> k in store
    requires i < |keys| && EndpointMatches(keys[i], store[keys[i]], reqPath)
    requires forall j :: 0 <= j < i ==> !EndpointMatches(keys[j], store[keys[j]], reqPath)
    ensures FindEndpoint(keys, store, reqPath, reqMethod) ==
      if TextIsEqual(reqMethod, store[keys[i]].httpMethod, Upper) then Found(store[keys[i]]) else MethodNotAllowed
  {
    var hits := Hits(keys, store, reqPath);
    HitsAt(keys, store, reqPath, i);
    forall j | 0 <= j < i
      ensures !hits[j]
    {
      HitsAt(keys, store, reqPath, j);
    }
    FirstTrueAt(hits, i);
  }

  /**
   * The store is keyed by endpoint: after a second method is registered on a
   * static endpoint, a request with the first method gets 405.
   */
  lemma SecondMethodReplacesFirst(first: RouteEntry, second: RouteEntry)
    requires first.endpoint == second.endpoint && !HasAnyParam(second.endpoint)
    requires !TextIsEqual(first.httpMethod, second.httpMethod, Upper)
    ensures var e := second.endpoint;
      FindEndpoint(InsertKey(InsertKey([], first.endpoint), e), map[first.endpoint := first][e := second], e, first.httpMethod)
        == MethodNotAllowed
  {
    var e := second.endpoint;
    var keys := InsertKey(InsertKey([], first.endpoint), e);
    var store := map[first.endpoint := first][e := second];
    assert keys == [e];
    Equivalence(e, e, e, Exact);
    assert EndpointMatches(keys[0], store[keys[0]], e);
    FirstEndpointDecides(keys, store, e, first.httpMethod, 0);
  }

  /** `list()`: the (method, endpoint) pairs in insertion order. */
  function Pairs(keys: seq<string>, store: map<string, RouteEntry>): (r: seq<(string, string)>)
    requires forall k :: k in keys ==> k in store
    ensures |r| == |keys|
    ensures forall i :: 0 <= i < |keys| ==> r[i] == (store[keys[i]].httpMethod, store[keys[i]].endpoint)
  {
    if keys == [] then [] else [(store[keys[0]].httpMethod, store[keys[0]].endpoint)] + Pairs(keys[1..], store)
  }

  /** What the collision check of `add` reports about one stored record. */
  datatype Diagnostic =
    | SameId(other: RouteEntry)
    | PatternClash(other: RouteEntry)
    | ParamOverStatic(other: RouteEntry)
    | AlreadyExists(other: RouteEntry)
    | ShadowedByParam(other: RouteEntry)

  /** The reports about one stored record, in the order they are logged. */
  function DiagnoseAgainst(r: RouteEntry, existing: RouteEntry): seq<Diagnostic>
  {
    if existing.httpMethod != r.httpMethod then []
    else if HasAnyParam(r.endpoint) then
      (if Matches(existing.pattern, r.endpoint) then [PatternClash(existing)] else [])
      + (if !HasAnyParam(existing.endpoint) && TextIsEqual(RemoveLastParam(r.endpoint), existing.endpoint, Lower)
         then [ParamOverStatic(existing)] else [])
    else
      (if TextIsEqual(r.endpoint, existing.endpoint, Lower) then [AlreadyExists(existing)] else [])
      + (if HasLastPartParam(existing.endpoint)
            && TextIsEqual(RemoveLastParam(r.endpoint), RemoveLastParam(existing.endpoint), Lower)
         then [ShadowedByParam(existing)] else [])
  }

  function DiagnoseAll(r: RouteEntry, keys: seq<string>, store: map<string, RouteEntry>): seq<Diagnostic>
    requires forall k :: k in keys ==> k in store
  {
    if keys == [] then [] else DiagnoseAgainst(r, store[keys[0]]) + DiagnoseAll(r, keys[1..], store)
  }

  function Diagnostics(r: RouteEntry, keys: seq<string>, store: map<string, RouteEntry>): seq<Diagnostic>
    requires forall k :: k in keys ==> k in store
  {
    (if r.id in store then [SameId(store[r.id])] else []) + DiagnoseAll(r, keys, store)
  }

  /**
   * The id probe looks up a route id in a store keyed by endpoints; when every
   * stored endpoint starts with "/" it never hits.
   */
  lemma IdProbeNeverHits(r: RouteEntry, keys: seq<string>, store: map<string, RouteEntry>)
    requires TableValid(keys, store)
    requires forall k :: k in keys ==> StartsWith(k, "/")
    requires StartsWith(r.id, "[")
    ensures Diagnostics(r, keys, store) == DiagnoseAll(r, keys, store)
  {
    assert r.id[..1] != "/";
    assert r.id !in keys;
  }

  lemma {:induction false} DiagnoseAllSnoc(r: RouteEntry, keys: seq<string>, key: string, store: map<string, RouteEntry>)
    requires forall k :: k in keys ==> k in store
    requires key in store
    ensures DiagnoseAll(r, keys + [key], store) == DiagnoseAll(r, keys, store) + DiagnoseAgainst(r, store[key])
  {
    if keys == [] {
      assert DiagnoseAll(r, [key], store) == DiagnoseAgainst(r, store[key]) + DiagnoseAll(r, [], store);
    } else {
      assert (keys + [key])[1..] == keys[1..] + [key];
      DiagnoseAllSnoc(r, keys[1..], key, store);
    }
  }

  /** The loop of `checkPossibleCollision`: the reports about each stored record in insertion order. */
  method ScanDiagnostics(r: RouteEntry, keys: seq<string>, store: map<string, RouteEntry>) returns (reports: seq<Diagnostic>)
    requires forall k :: k in keys ==> k in store
    ensures reports == DiagnoseAll(r, keys, store)
  {
    reports := [];
    for i := 0 to |keys|
      invariant reports == DiagnoseAll(r, keys[..i], store)
    {
      DiagnoseAllSnoc(r, keys[..i], keys[i], store);
      TakeOneMore(keys, i);
      reports := reports + DiagnoseAgainst(r, store[keys[i]]);
    }
    assert keys[..|keys|] == keys;
  }

  /** The endpoint-keyed table. */
  class Registry {
    var keys: seq<string>
    var store: map<string, RouteEntry>

    ghost predicate Valid()
      reads this
    {
      TableValid(keys, store) && forall k :: k in store ==> store[k].endpoint == k
    }

    constructor()
      ensures Valid() && keys == [] && store == map[]
    {
      keys := [];
      store := map[];
    }

    function List(): (r: seq<(string, string)>)
      requires Valid()
      reads this
      ensures |r| == |keys|
      ensures forall i :: 0 <= i < |keys| ==> r[i] == (store[keys[i]].httpMethod, keys[i])
    {
      Pairs(keys, store)
    }

    /** `add(r)`: report, then store under the endpoint, replacing any route there. */
    method Add(r: RouteEntry)
      requires Valid()
      modifies this
      ensures Valid()
      ensures store == old(store)[r.endpoint := r]
      ensures keys == InsertKey(old(keys), r.endpoint)
    {
      var _ := CheckPossibleCollision(r);
      keys := InsertKey(keys, r.endpoint);
      store := store[r.endpoint := r];
    }

    /** `find(req)`. */
    method Find(reqPath: string, reqMethod: string) returns (result: Lookup)
      requires Valid()
      ensures result == FindEndpoint(keys, store, reqPath, reqMethod)
    {
      var found := FindFirst(|keys|, EndpointTest(keys, store, reqPath));
      if found == None {
        return NotFound;
      }
      var route := store[keys[found.value]];
      if !TextIsEqual(reqMethod, route.httpMethod, Upper) {
        return MethodNotAllowed;
      }
      return Found(route);
    }

    /** `checkPossibleCollision(r)`: the reports it would log; the store is only read. */
    method CheckPossibleCollision(r: RouteEntry) returns (reports: seq<Diagnostic>)
      requires Valid()
      ensures reports == Diagnostics(r, keys, store)
    {
      var head := if r.id in store then [SameId(store[r.id])] else [];
      var rest := ScanDiagnostics(r, keys, store);
      reports := head + rest;
    }
  }
}
