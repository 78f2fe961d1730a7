// The request wrappers of the three generations: src/Request/HttpRequest.ts,
// src/modules/HttpRequest/HttpRequest.ts and src/lib/Request/__Coreum_Request.ts.
// Each reads the request's Cookie header into a jar, decides whether the
// request is a CORS preflight and exposes its headers; the oldest one also
// classifies the body's content type and checks the method against the
// method table.

/** Reading a request's Cookie header (the cookie-string of section 4.2 of RFC 6265). */
module CookieRequestHeader {
  import opened Wrappers
  import opened Strings
  import opened SplitParts
  import opened OrderedMaps
  import opened CookieHeader
  import CookieJar
  import CookieOptionsJar
  import Extraction

  /**
   * The two splitting helpers: `strSplit` (src, modules) is read as a split
   * whose parts are trimmed and whose empty parts are dropped; `textSplit`
   * (lib) as a plain split. Neither helper is part of this model.
   */
  datatype Splitter = StrSplit | TextSplit

  function SplitBy(sp: Splitter, mark: char, s: string): seq<string>
  {
    match sp
    case StrSplit => TrimmedParts(Split(s, mark))
    case TextSplit => Split(s, mark)
  }

  /** `const [name, value] = split("=", pair)`, then `if (!name || !value) continue`. */
  function PairOf(sp: Splitter, pair: string): (r: Option<(string, string)>)
    ensures r.Some? ==> r.value.0 != "" && r.value.1 != ""
  {
    var parts := SplitBy(sp, '=', pair);
    if |parts| < 2 || parts[0] == "" || parts[1] == "" then None else Some((parts[0], parts[1]))
  }

  /** `PairOf` for one splitter, as a function value. */
  function PairParser(sp: Splitter): string -> Option<(string, string)>
  {
    pair => PairOf(sp, pair)
  }

  /** The name-value pairs the loop sets, in the order of the parts. */
  function PairsOf(parse: string -> Option<(string, string)>, parts: seq<string>): (r: seq<(string, string)>)
  {
    if parts == [] then []
    else
      var p := parse(parts[|parts| - 1]);
      PairsOf(parse, parts[..|parts| - 1]) + (if p.Some? then [p.value] else [])
  }

  /** `if (cookieHeader) for (const pair of split(";", cookieHeader)) ...`. */
  function CookiePairs(sp: Splitter, header: Option<string>): (r: seq<(string, string)>)
  {
    if header.None? || header.value == "" then [] else PairsOf(PairParser(sp), SplitBy(sp, ';', header.value))
  }

  lemma PairsOfStep(parse: string -> Option<(string, string)>, parts: seq<string>, i: nat)
    requires i < |parts|
    ensures PairsOf(parse, parts[..i + 1]) ==
      PairsOf(parse, parts[..i]) + (if parse(parts[i]).Some? then [parse(parts[i]).value] else [])
  {
    assert parts[..i + 1][..i] == parts[..i];
  }

  /** Every pair set has a non-empty name and a non-empty value. */
  lemma {:induction false} PairsNonEmpty(sp: Splitter, parts: seq<string>)
    ensures forall p :: p in PairsOf(PairParser(sp), parts) ==> p.0 != "" && p.1 != ""
  {
    if parts != [] {
      PairsNonEmpty(sp, parts[..|parts| - 1]);
    }
  }

  /** With `strSplit` every value set is also trimmed, so it counts as defined. */
  lemma {:induction false} StrSplitValuesDefined(parts: seq<string>)
    ensures forall p :: p in PairsOf(PairParser(StrSplit), parts) ==> TextIsDefined(p.1)
  {
    if parts != [] {
      var n := |parts| - 1;
      StrSplitValuesDefined(parts[..n]);
      var q := PairOf(StrSplit, parts[n]);
      if q.Some? {
        TrimmedClean(Split(parts[n], '='));
        DefinedByChar(q.value.1, 0);
      }
    }
  }

  lemma PlainsSnoc(pairs: seq<(string, string)>, p: (string, string))
    ensures CookieOptionsJar.Plains(pairs + [p]) == CookieOptionsJar.Plains(pairs) + [Plain(p.0, p.1)]
  {
    assert (pairs + [p])[..|pairs|] == pairs;
  }

  /** A cookie-pair `name=value` as a client writes it. */
  function PairText(p: (string, string)): string
  {
    p.0 + "=" + p.1
  }

  function PairTexts(pairs: seq<(string, string)>): (r: seq<string>)
    ensures |r| == |pairs| && forall i :: 0 <= i < |r| ==> r[i] == PairText(pairs[i])
  {
    seq(|pairs|, i requires 0 <= i < |pairs| => PairText(pairs[i]))
  }

  lemma SplitPair(name: string, value: string)
    requires Token(name) && Token(value)
    ensures Split(PairText((name, value)), '=') == [name, value]
    ensures Split(" " + PairText((name, value)), '=') == [" " + name, value]
  {
    SplitNoSep(value, '=');
    SplitAppend(name, value, '=');
    SplitAppend(" " + name, value, '=');
    assert " " + PairText((name, value)) == (" " + name) + "=" + value;
  }

  /** A pair of tokens, written `name=value`, is read back as itself. */
  lemma TokenPairParsed(sp: Splitter, name: string, value: string)
    requires Token(name) && Token(value)
    ensures PairOf(sp, PairText((name, value))) == Some((name, value))
  {
    assert SplitBy(sp, '=', PairText((name, value))) == [name, value] by {
      SplitPair(name, value);
      if sp.StrSplit? {
        TrimToken(name);
        TrimToken(value);
        TrimmedTwo(name, value);
      }
    }
  }

  /** The text of a pair of tokens is non-empty and trims to itself, with or without one leading space. */
  lemma PairTextTrims(name: string, value: string)
    requires Token(name) && Token(value)
    ensures var t := PairText((name, value));
      t != "" && Trim(t) == t && Trim(" " + t) == t
  {
    var t := PairText((name, value));
    assert t[0] == name[0] && t[|t| - 1] == value[|value| - 1];
    TrimNoSpaceEnds(t);
    assert (" " + t)[1..] == t;
    assert TrimStart(" " + t) == TrimStart(t);
  }

  lemma {:induction false} PairsOfAll(parse: string -> Option<(string, string)>, parts: seq<string>, pairs: seq<(string, string)>)
    requires |parts| == |pairs|
    requires forall i :: 0 <= i < |parts| ==> parse(parts[i]) == Some(pairs[i])
    ensures PairsOf(parse, parts) == pairs
  {
    if parts != [] {
      var n := |parts| - 1;
      PairsOfAll(parse, parts[..n], pairs[..n]);
      assert pairs == pairs[..n] + [pairs[n]];
    }
  }

  /** A "; "-joined list of non-empty texts is a non-empty header. */
  lemma JoinedNonEmpty(texts: seq<string>)
    requires |texts| >= 1 && texts[0] != ""
    ensures Join(texts, "; ") != ""
  {
    if |texts| > 1 {
      assert Join(texts, "; ") == texts[0] + "; " + Join(texts[1..], "; ");
    }
  }

  /** Splitting a "; "-joined list of pair texts at ";" gives the texts, the later ones with one leading space. */
  lemma SplitJoinedTexts(pairs: seq<(string, string)>)
    requires |pairs| >= 1
    requires forall i :: 0 <= i < |pairs| ==> Token(pairs[i].0) && Token(pairs[i].1)
    ensures Split(Join(PairTexts(pairs), "; "), ';') == Spaced(PairTexts(pairs))
  {
    var texts := PairTexts(pairs);
    JoinSpaced(texts);
    var spaced := Spaced(texts);
    forall i | 0 <= i < |spaced| ensures ';' !in spaced[i] {
      assert ';' !in texts[i];
    }
    SplitJoin(spaced, ';');
  }

  /**
   * Round trip against the cookie-string of section 4.2.1 of RFC 6265: pairs
   * of tokens written as `name=value` joined by "; " are read back exactly by
   * the src and modules wrappers.
   */
  lemma CookieHeaderRoundTrip(pairs: seq<(string, string)>)
    requires forall i :: 0 <= i < |pairs| ==> Token(pairs[i].0) && Token(pairs[i].1)
    ensures CookiePairs(StrSplit, Some(Join(PairTexts(pairs), "; "))) == pairs
  {
    var texts := PairTexts(pairs);
    if pairs != [] {
      assert Join(texts, "; ") != "" by {
        PairTextTrims(pairs[0].0, pairs[0].1);
        JoinedNonEmpty(texts);
      }
      assert SplitBy(StrSplit, ';', Join(texts, "; ")) == texts by {
        SplitJoinedTexts(pairs);
        TrimmedSpaced(pairs);
      }
      TokenPairsParsed(StrSplit, pairs);
    }
  }

  lemma TrimmedSpaced(pairs: seq<(string, string)>)
    requires |pairs| >= 1
    requires forall i :: 0 <= i < |pairs| ==> Token(pairs[i].0) && Token(pairs[i].1)
    ensures TrimmedParts(Spaced(PairTexts(pairs))) == PairTexts(pairs)
  {
    var texts := PairTexts(pairs);
    var spaced := Spaced(texts);
    forall i | 0 <= i < |spaced| ensures texts[i] != "" && Trim(spaced[i]) == texts[i] {
      PairTextTrims(pairs[i].0, pairs[i].1);
    }
    TrimmedAll(spaced, texts);
  }

  lemma TokenPairsParsed(sp: Splitter, pairs: seq<(string, string)>)
    requires forall i :: 0 <= i < |pairs| ==> Token(pairs[i].0) && Token(pairs[i].1)
    ensures PairsOf(PairParser(sp), PairTexts(pairs)) == pairs
  {
    var texts := PairTexts(pairs);
    forall i | 0 <= i < |texts| ensures PairParser(sp)(texts[i]) == Some(pairs[i]) {
      TokenPairParsed(sp, pairs[i].0, pairs[i].1);
    }
    PairsOfAll(PairParser(sp), texts, pairs);
  }

  /** The pair a spaced part is read as by the oldest wrapper: the name keeps the space. */
  lemma SpacedPairParsed(name: string, value: string)
    requires Token(name) && Token(value)
    ensures PairOf(TextSplit, " " + PairText((name, value))) == Some((" " + name, value))
  {
    assert SplitBy(TextSplit, '=', " " + PairText((name, value))) == [" " + name, value] by {
      SplitPair(name, value);
    }
  }

  /**
   * The oldest wrapper splits without trimming, so from a "; "-joined header
   * every name after the first keeps the leading space.
   */
  lemma CoreumNamesKeepLeadingSpace(pairs: seq<(string, string)>)
    requires |pairs| >= 1
    requires forall i :: 0 <= i < |pairs| ==> Token(pairs[i].0) && Token(pairs[i].1)
    ensures var r := CookiePairs(TextSplit, Some(Join(PairTexts(pairs), "; ")));
      |r| == |pairs| && r[0] == pairs[0] &&
      forall i :: 1 <= i < |r| ==> r[i] == (" " + pairs[i].0, pairs[i].1)
  {
    var texts := PairTexts(pairs);
    var spaced := Spaced(texts);
    assert Join(texts, "; ") != "" by {
      PairTextTrims(pairs[0].0, pairs[0].1);
      JoinedNonEmpty(texts);
    }
    assert SplitBy(TextSplit, ';', Join(texts, "; ")) == spaced by {
      SplitJoinedTexts(pairs);
    }
    SpacedPairsParsed(pairs);
  }

  /** The pairs with a space before every name but the first. */
  function SpacedNames(pairs: seq<(string, string)>): (r: seq<(string, string)>)
    requires |pairs| >= 1
    ensures |r| == |pairs| && r[0] == pairs[0]
    ensures forall i :: 1 <= i < |r| ==> r[i] == (" " + pairs[i].0, pairs[i].1)
  {
    [pairs[0]] + seq(|pairs| - 1, i requires 0 <= i < |pairs| - 1 => (" " + pairs[i + 1].0, pairs[i + 1].1))
  }

  lemma SpacedPartParsed(pairs: seq<(string, string)>, i: nat)
    requires i < |pairs|
    requires Token(pairs[i].0) && Token(pairs[i].1)
    ensures PairParser(TextSplit)(Spaced(PairTexts(pairs))[i]) == Some(SpacedNames(pairs)[i])
  {
    if i == 0 {
      TokenPairParsed(TextSplit, pairs[0].0, pairs[0].1);
    } else {
      SpacedPairParsed(pairs[i].0, pairs[i].1);
    }
  }

  /** Each spaced pair text parses to its pair, the names after the first with their leading space. */
  lemma SpacedPairsParsed(pairs: seq<(string, string)>)
    requires |pairs| >= 1
    requires forall i :: 0 <= i < |pairs| ==> Token(pairs[i].0) && Token(pairs[i].1)
    ensures var r := PairsOf(PairParser(TextSplit), Spaced(PairTexts(pairs)));
      |r| == |pairs| && r[0] == pairs[0] &&
      forall i :: 1 <= i < |r| ==> r[i] == (" " + pairs[i].0, pairs[i].1)
  {
    var spaced := Spaced(PairTexts(pairs));
    forall i | 0 <= i < |spaced|
      ensures PairParser(TextSplit)(spaced[i]) == Some(SpacedNames(pairs)[i])
    {
      SpacedPartParsed(pairs, i);
    }
    PairsOfAll(PairParser(TextSplit), spaced, SpacedNames(pairs));
  }

  /** Parts that are all tokens are kept as they are. */
  lemma TrimmedTokens(parts: seq<string>)
    requires forall i :: 0 <= i < |parts| ==> Token(parts[i])
    ensures TrimmedParts(parts) == parts
  {
    forall i | 0 <= i < |parts| ensures parts[i] != "" && Trim(parts[i]) == parts[i] {
      TrimNoSpaceEnds(parts[i]);
    }
    TrimmedAll(parts, parts);
  }

  /** A value holding "=" (base64 padding, say) is cut at its first "=": only the second part is kept. */
  lemma ValueCutAtEquals(sp: Splitter, name: string, v1: string, v2: string)
    requires Token(name) && Token(v1) && Token(v2)
    ensures PairOf(sp, name + "=" + v1 + "=" + v2) == Some((name, v1))
  {
    assert Split(name + "=" + v1 + "=" + v2, '=') == [name, v1, v2] by {
      SplitThree(name, v1, v2);
    }
    if sp.StrSplit? {
      assert TrimmedParts([name, v1, v2]) == [name, v1, v2] by {
        TrimmedTokens([name, v1, v2]);
      }
    }
  }

  lemma SplitThree(name: string, v1: string, v2: string)
    requires Token(name) && Token(v1) && Token(v2)
    ensures Split(name + "=" + v1 + "=" + v2, '=') == [name, v1, v2]
  {
    SplitNoSep(v2, '=');
    SplitAppend(v1, v2, '=');
    SplitAppend(name, v1 + "=" + v2, '=');
    assert name + "=" + v1 + "=" + v2 == name + "=" + (v1 + "=" + v2);
  }

  /** A pair with an empty name is skipped. */
  lemma EmptyNameSkipped(sp: Splitter, value: string)
    requires Token(value)
    ensures PairOf(sp, "=" + value) == None
  {
    SplitEmptyName(value);
    if sp.StrSplit? {
      TrimmedEmptyName(value);
      assert SplitBy(sp, '=', "=" + value) == [value];
    } else {
      assert SplitBy(sp, '=', "=" + value) == ["", value];
    }
  }

  lemma SplitEmptyName(value: string)
    requires Token(value)
    ensures Split("=" + value, '=') == ["", value]
  {
    SplitNoSep(value, '=');
    SplitAppend("", value, '=');
    assert "" + "=" + value == "=" + value;
  }

  lemma TrimmedEmptyName(value: string)
    requires Token(value)
    ensures TrimmedParts(["", value]) == [value]
  {
    TrimNoSpaceEnds(value);
    var none: seq<string> := [];
    TrimmedSnoc(none, "");
    assert none + [""] == [""];
    TrimmedSnoc([""], value);
    assert [""] + [value] == ["", value];
  }

  /** A pair with an empty value is skipped. */
  lemma EmptyValueSkipped(sp: Splitter, name: string)
    requires Token(name)
    ensures PairOf(sp, name + "=") == None
  {
    SplitEmptyValue(name);
    if sp.StrSplit? {
      TrimmedEmptyValue(name);
      assert SplitBy(sp, '=', name + "=") == [name];
    } else {
      assert SplitBy(sp, '=', name + "=") == [name, ""];
    }
  }

  lemma SplitEmptyValue(name: string)
    requires Token(name)
    ensures Split(name + "=", '=') == [name, ""]
  {
    SplitNoSep(name, '=');
    SplitAppend(name, "", '=');
    assert name + "=" + "" == name + "=";
  }

  lemma TrimmedEmptyValue(name: string)
    requires Token(name)
    ensures TrimmedParts([name, ""]) == [name]
  {
    TrimNoSpaceEnds(name);
    assert Trim("") == "";
    assert [name, ""][..1] == [name] && [name][..0] == [];
    assert TrimmedParts([name]) == [name];
  }

  /** The cookie record a pair is set as, `{ name, value }`, reduced to its value. */
  function ValueField(o: CookieOptions): string
  {
    o.value
  }

  /** Setting the pairs one by one leaves, under each name, the cookie of the last pair so named. */
  lemma {:induction false} LastNamedPlain(pairs: seq<(string, string)>, name: string)
    ensures LastNamed(CookieOptionsJar.Plains(pairs), name) ==
      match Extraction.LastValue(pairs, name)
      case None => None
      case Some(v) => Some(Plain(name, v))
  {
    if pairs != [] {
      var n := |pairs| - 1;
      LastNamedPlain(pairs[..n], name);
      assert CookieOptionsJar.Plains(pairs)[..n] == CookieOptionsJar.Plains(pairs[..n]);
    }
  }

  /**
   * The src jar filled with the pairs, all values non-blank, answers every
   * name with the value of the last pair so named, and has no other names.
   */
  lemma SrcJarAnswersLast(pairs: seq<(string, string)>, name: string)
    requires forall p :: p in pairs ==> TextIsDefined(p.1)
    ensures var s := StoreAll(EmptyMap(), CookieOptionsJar.Plains(pairs), CookieJar.Header);
      CookieJar.Sound(s) &&
      (name in s.items <==> Extraction.LastValue(pairs, name).Some?) &&
      CookieJar.ValueOf(s, name) == Extraction.LastValue(pairs, name)
  {
    var all := CookieOptionsJar.Plains(pairs);
    CookieJar.StoreAllSound(EmptyMap(), all);
    StoreAllEntries(EmptyMap(), all, CookieJar.Header, name);
    LastNamedPlain(pairs, name);
    LastValueIn(pairs, name);
    match Extraction.LastValue(pairs, name)
    case None =>
    case Some(v) =>
      CookieJar.HeaderReads(Plain(name, v));
  }

  lemma {:induction false} LastValueIn(pairs: seq<(string, string)>, name: string)
    ensures Extraction.LastValue(pairs, name).Some? ==> (name, Extraction.LastValue(pairs, name).value) in pairs
  {
    if pairs != [] {
      LastValueIn(pairs[..|pairs| - 1], name);
    }
  }

  /** The modules jar answers every name with the value of its last pair. */
  lemma OptionsJarAnswersLast(pairs: seq<(string, string)>, name: string)
    ensures CookieOptionsJar.ValueOf(StoreAll(EmptyMap(), CookieOptionsJar.Plains(pairs), CookieOptionsJar.Same), name) ==
      Extraction.LastValue(pairs, name)
  {
    StoreAllEntries(EmptyMap(), CookieOptionsJar.Plains(pairs), CookieOptionsJar.Same, name);
    LastNamedPlain(pairs, name);
  }

  /** The oldest wrapper's map answers every name with the value of its last pair. */
  lemma ValueMapAnswersLast(pairs: seq<(string, string)>, name: string)
    ensures var m := StoreAll(EmptyMap(), CookieOptionsJar.Plains(pairs), ValueField);
      (name in m.items <==> Extraction.LastValue(pairs, name).Some?) &&
      (name in m.items ==> m.items[name] == Extraction.LastValue(pairs, name).value)
  {
    StoreAllEntries(EmptyMap(), CookieOptionsJar.Plains(pairs), ValueField, name);
    LastNamedPlain(pairs, name);
  }

  /** One `set({ name, value })` on the src jar, as one more pair of the header. */
  method SetPlain(jar: CookieJar.CookiesUsingMap, ghost kept: seq<(string, string)>, p: (string, string))
    requires jar.store == StoreAll(EmptyMap(), CookieOptionsJar.Plains(kept), CookieJar.Header)
    modifies jar
    ensures jar.store == StoreAll(EmptyMap(), CookieOptionsJar.Plains(kept + [p]), CookieJar.Header)
  {
    CookieJar.StoreAllSound(EmptyMap(), CookieOptionsJar.Plains(kept));
    PlainsSnoc(kept, p);
    StoreOneMore(EmptyMap(), CookieOptionsJar.Plains(kept), Plain(p.0, p.1), CookieJar.Header);
    jar.Set(Plain(p.0, p.1));
  }

  /** `resolveCookies` / the `cookies` getter: a fresh src jar filled from the header. */
  method FillSrcJar(header: Option<string>) returns (jar: CookieJar.CookiesUsingMap)
    ensures fresh(jar) && jar.Valid()
    ensures jar.store == StoreAll(EmptyMap(), CookieOptionsJar.Plains(CookiePairs(StrSplit, header)), CookieJar.Header)
  {
    jar := new CookieJar.CookiesUsingMap(CookieJar.NoInit);
    if header.Some? && header.value != "" {
      SetEachPair(jar, SplitBy(StrSplit, ';', header.value));
    }
    CookieJar.StoreAllSound(EmptyMap(), CookieOptionsJar.Plains(CookiePairs(StrSplit, header)));
  }

  /** The loop of `resolveCookies`: every part read as a pair is set on the (empty) jar in turn. */
  method SetEachPair(jar: CookieJar.CookiesUsingMap, parts: seq<string>)
    requires jar.store == EmptyMap()
    modifies jar
    ensures jar.store == StoreAll(EmptyMap(), CookieOptionsJar.Plains(PairsOf(PairParser(StrSplit), parts)), CookieJar.Header)
  {
    ghost var kept: seq<(string, string)> := [];
    for i := 0 to |parts|
      invariant kept == PairsOf(PairParser(StrSplit), parts[..i])
      invariant jar.store == StoreAll(EmptyMap(), CookieOptionsJar.Plains(kept), CookieJar.Header)
    {
      PairsOfStep(PairParser(StrSplit), parts, i);
      var p := PairOf(StrSplit, parts[i]);
      assert p == PairParser(StrSplit)(parts[i]);
      if p.Some? {
        SetPlain(jar, kept, p.value);
        kept := kept + [p.value];
      }
    }
    assert parts[..|parts|] == parts;
  }

  /** The `cookies` getter of the modules wrapper: a fresh options jar filled from the header. */
  method FillOptionsJar(header: Option<string>) returns (jar: CookieOptionsJar.CookiesUsingMap)
    ensures fresh(jar) && jar.Valid()
    ensures jar.store == StoreAll(EmptyMap(), CookieOptionsJar.Plains(CookiePairs(StrSplit, header)), CookieOptionsJar.Same)
  {
    jar := new CookieOptionsJar.CookiesUsingMap();
    if header.Some? && header.value != "" {
      var parts := SplitBy(StrSplit, ';', header.value);
      ghost var kept: seq<(string, string)> := [];
      for i := 0 to |parts|
        invariant jar.Valid()
        invariant kept == PairsOf(PairParser(StrSplit), parts[..i])
        invariant jar.store == StoreAll(EmptyMap(), CookieOptionsJar.Plains(kept), CookieOptionsJar.Same)
      {
        PairsOfStep(PairParser(StrSplit), parts, i);
        var p := PairOf(StrSplit, parts[i]);
        assert p == PairParser(StrSplit)(parts[i]);
        if p.Some? {
          var (name, value) := p.value;
          PlainsSnoc(kept, p.value);
          StoreOneMore(EmptyMap(), CookieOptionsJar.Plains(kept), Plain(name, value), CookieOptionsJar.Same);
          jar.Set(Plain(name, value));
          kept := kept + [p.value];
        }
      }
      assert parts[..|parts|] == parts;
    }
  }
}

/** The request wrappers. */
module Requests {
  import opened Wrappers
  import opened Strings
  import OrderedMaps
  import opened HeaderList
  import opened CookieHeader
  import opened CookieRequestHeader
  import CookieJar
  import CookieOptionsJar
  import HttpTables
  import ContentTypes

  /**
   * A parsed URL: the platform `URL` object reduced to what the core reads.
   * URL parsing itself is a platform API and is not part of this model.
   */
  datatype Url = Url(href: string, pathname: string, search: seq<(string, string)>)

  /** What a wrapper is constructed from: an address (a `URL` or a string, already parsed) or another request. */
  datatype RequestInfo =
    | Address(url: Url)
    | Wrapped(url: Url, httpMethod: string, headers: HeaderList)

  datatype RequestInit = RequestInit(httpMethod: Option<string>, headers: Option<HeaderList>)

  const NoInit := RequestInit(None, None)

  /**
   * The method the platform `Request` ends up with: the init's, else the
   * wrapped request's, else GET; DELETE, GET, HEAD, OPTIONS, POST and PUT are
   * upper-cased whatever their case (section 5.4 of the WHATWG Fetch Standard,
   * "normalize a method"), any other method is kept as written.
   */
  function RequestMethod(info: RequestInfo, init: RequestInit): (m: string)
    ensures init.httpMethod.None? && info.Address? ==> m == "GET"
    ensures init.httpMethod.Some? && ToUpper(init.httpMethod.value) == "OPTIONS" ==> m == "OPTIONS"
  {
    var given := if init.httpMethod.Some? then init.httpMethod.value
      else if info.Wrapped? then info.httpMethod else "GET";
    if ToUpper(given) in ["DELETE", "GET", "HEAD", "OPTIONS", "POST", "PUT"] then ToUpper(given) else given
  }

  const AccessControlRequestMethod := "Access-Control-Request-Method"

  /** `resolveUrlObject`: the URL, with an empty pathname replaced by "/". */
  function ResolveUrlObject(info: RequestInfo): (u: Url)
    ensures u.pathname != ""
    ensures info.url.pathname != "" ==> u == info.url
    ensures u.href == info.url.href && u.search == info.url.search
  {
    if info.url.pathname == "" then info.url.(pathname := "/") else info.url
  }

  /** `resolveHeaders` of src: the init's headers win over the wrapped request's. */
  function SrcHeaders(info: RequestInfo, init: RequestInit): HeaderList
  {
    if init.headers.Some? then Normalise(init.headers.value)
    else if info.Wrapped? then Normalise(info.headers)
    else []
  }

  /** The `headers` getter of modules: the wrapped request's headers win over the init's. */
  function ModulesHeaders(info: RequestInfo, init: RequestInit): HeaderList
  {
    if info.Wrapped? then Normalise(info.headers)
    else if init.headers.Some? then Normalise(init.headers.value)
    else []
  }

  /** The oldest wrapper always passes its own header object to `Request`, so only the init's headers count. */
  function CoreumHeaders(init: RequestInit): HeaderList
  {
    Normalise(init.headers.GetOr([]))
  }

  /** The two later generations give opposite precedence when both a wrapped request and init headers are present. */
  lemma HeaderPrecedence(url: Url, m: string, inner: HeaderList, outer: HeaderList)
    ensures SrcHeaders(Wrapped(url, m, inner), RequestInit(None, Some(outer))) == Normalise(outer)
    ensures ModulesHeaders(Wrapped(url, m, inner), RequestInit(None, Some(outer))) == Normalise(inner)
    ensures SrcHeaders(Wrapped(url, m, inner), NoInit) == ModulesHeaders(Wrapped(url, m, inner), NoInit) == Normalise(inner)
    ensures CoreumHeaders(NoInit) == []
  {
  }

  /** `resolveIsPreflight` and the modules getter: OPTIONS with the header present, whatever its value. */
  predicate IsPreflightRequest(httpMethod: string, headers: HeaderList)
  {
    httpMethod == "OPTIONS" && HasSpec(headers, AccessControlRequestMethod)
  }

  /** The oldest wrapper: OPTIONS with the header (either spelling) set to a non-empty value. */
  predicate CoreumIsPreflight(httpMethod: string, headers: HeaderList)
  {
    var direct := GetSpec(headers, AccessControlRequestMethod);
    var lower := GetSpec(headers, ToLower(AccessControlRequestMethod));
    httpMethod == "OPTIONS" &&
    ((direct.Some? && direct.value != "") || (lower.Some? && lower.value != ""))
  }

  /**
   * The oldest wrapper's test implies the later one; they differ only on an
   * ACRM header whose value is empty, which the later generations still treat
   * as a preflight.
   */
  lemma PreflightGenerations(httpMethod: string, headers: HeaderList)
    ensures CoreumIsPreflight(httpMethod, headers) ==> IsPreflightRequest(httpMethod, headers)
    ensures IsPreflightRequest(httpMethod, headers) && !CoreumIsPreflight(httpMethod, headers) ==>
      GetSpec(headers, AccessControlRequestMethod) == Some("")
  {
    LowerIdempotent(AccessControlRequestMethod);
    var vs := Values(headers, ToLower(AccessControlRequestMethod));
    if vs != [] && |vs| > 1 {
      assert Join(vs, ", ") == vs[0] + ", " + Join(vs[1..], ", ");
    }
  }

  /** A request made from an address alone is a GET and never a preflight. */
  lemma BareRequestDefaults(url: Url)
    ensures RequestMethod(Address(url), NoInit) == "GET"
    ensures !IsPreflightRequest(RequestMethod(Address(url), NoInit), SrcHeaders(Address(url), NoInit))
    ensures !IsPreflightRequest(RequestMethod(Address(url), NoInit), ModulesHeaders(Address(url), NoInit))
  {
  }

  /** A lower-case "options" with the header set is a preflight, since the platform upper-cases the method. */
  lemma LowerCaseOptionsPreflight(url: Url, m: string, v: string)
    requires m == "options"
    ensures var init := RequestInit(Some(m), Some([(AccessControlRequestMethod, v)]));
      IsPreflightRequest(RequestMethod(Address(url), init), SrcHeaders(Address(url), init))
  {
    assert ToUpper(m) == "OPTIONS";
    var list := Normalise([(AccessControlRequestMethod, v)]);
    assert list[0].0 == ToLower(AccessControlRequestMethod);
    assert list[1..] == [];
  }

  /** `isMethodNotAllowed`: the upper-cased method is not a value of the method table. */
  predicate CoreumIsMethodNotAllowed(httpMethod: string)
  {
    HttpTables.MethodFromString(ToUpper(httpMethod)).None?
  }

  /** Both directions: a method is refused exactly when no table entry spells its upper-cased form. */
  lemma MethodNotAllowedIff(httpMethod: string)
    ensures CoreumIsMethodNotAllowed(httpMethod) <==>
      forall k: HttpTables.Method :: HttpTables.MethodName(k) != ToUpper(httpMethod)
  {
    if !CoreumIsMethodNotAllowed(httpMethod) {
      var k := HttpTables.MethodFromString(ToUpper(httpMethod)).value;
      assert HttpTables.MethodName(k) == ToUpper(httpMethod);
    } else {
      forall k: HttpTables.Method ensures HttpTables.MethodName(k) != ToUpper(httpMethod) {
        HttpTables.MethodRoundTrip(k);
      }
    }
  }

  lemma MethodCaseIgnored(m: string, n: string)
    requires m == "patch" && n == "FETCH"
    ensures !CoreumIsMethodNotAllowed(m)
    ensures CoreumIsMethodNotAllowed(n)
  {
    assert ToUpper(m) == "PATCH";
    assert ToUpper(n) == "FETCH";
  }

  /**
   * The `contentType` getter, written as the oldest wrapper writes it: the
   * method test first, then the substrings of the Content-Type header
   * (either spelling, else "").
   */
  function CoreumContentType(httpMethod: string, header: string): (k: ContentTypes.Kind)
    ensures k == ContentTypes.Normalize(Some(httpMethod), Some(header))
  {
    if !(ToUpper(httpMethod) in ["POST", "PUT", "PATCH", "DELETE"]) then ContentTypes.NoBodyAllowed
    else if Contains(header, "application/json") then ContentTypes.JsonBody
    else if Contains(header, "application/x-www-form-urlencoded") then ContentTypes.FormUrlEncoded
    else if Contains(header, "multipart/form-data") then ContentTypes.FormData
    else if Contains(header, "text/plain") then ContentTypes.PlainText
    else if Contains(header, "application/xml") then ContentTypes.Xml
    else if Contains(header, "text/xml") then ContentTypes.Xml
    else if Contains(header, "application/octet-stream") then ContentTypes.Binary
    else if Contains(header, "application/pdf") then ContentTypes.Pdf
    else if Contains(header, "image/") then ContentTypes.Image
    else if Contains(header, "audio/") then ContentTypes.Audio
    else if Contains(header, "video/") then ContentTypes.Video
    else ContentTypes.Unknown
  }

  /** The Content-Type header as the getter reads it: the header's value, or "" when it is missing. */
  function ContentTypeHeader(headers: HeaderList): string
  {
    var direct := GetSpec(headers, "Content-Type");
    var lower := GetSpec(headers, "content-type");
    if direct.Some? && direct.value != "" then direct.value
    else if lower.Some? && lower.value != "" then lower.value
    else ""
  }

  /** src/Request/HttpRequest.ts: every field is resolved once, in the constructor. */
  class HttpRequest {
    const httpMethod: string
    const urlObject: Url
    const headers: HeaderList
    const cookies: CookieJar.CookiesUsingMap
    const isPreflight: bool

    constructor(info: RequestInfo, init: RequestInit)
      ensures httpMethod == RequestMethod(info, init)
      ensures urlObject == ResolveUrlObject(info)
      ensures headers == SrcHeaders(info, init)
      ensures fresh(cookies) && cookies.Valid()
      ensures cookies.store == StoreAll(OrderedMaps.EmptyMap(), CookieOptionsJar.Plains(CookiePairs(StrSplit, GetSpec(headers, "Cookie"))), CookieJar.Header)
      ensures isPreflight <==> httpMethod == "OPTIONS" && HasSpec(headers, AccessControlRequestMethod)
    {
      var list := SrcHeaders(info, init);
      var jar := FillSrcJar(GetSpec(list, "Cookie"));
      httpMethod := RequestMethod(info, init);
      urlObject := ResolveUrlObject(info);
      headers := list;
      cookies := jar;
      isPreflight := IsPreflightRequest(RequestMethod(info, init), list);
    }
  }

  /** src/modules/HttpRequest/HttpRequest.ts: the URL, headers, cookies and preflight test are recomputed on every access. */
  class ModulesHttpRequest {
    const input: RequestInfo
    const init: RequestInit
    const httpMethod: string

    constructor(input: RequestInfo, init: RequestInit)
      ensures this.input == input && this.init == init
      ensures httpMethod == RequestMethod(input, init)
    {
      this.input := input;
      this.init := init;
      httpMethod := RequestMethod(input, init);
    }

    /** `new URL(this.url)`: no "/" is put in for an empty pathname here. */
    function UrlObject(): Url
    {
      input.url
    }

    function Headers(): HeaderList
    {
      ModulesHeaders(input, init)
    }

    method Cookies() returns (jar: CookieOptionsJar.CookiesUsingMap)
      ensures fresh(jar) && jar.Valid()
      ensures jar.store == StoreAll(OrderedMaps.EmptyMap(), CookieOptionsJar.Plains(CookiePairs(StrSplit, GetSpec(Headers(), "Cookie"))), CookieOptionsJar.Same)
    {
      jar := FillOptionsJar(GetSpec(Headers(), "Cookie"));
    }

    predicate IsPreflight()
    {
      IsPreflightRequest(httpMethod, Headers())
    }
  }

  /** src/lib/Request/__Coreum_Request.ts: the cookies are parsed once, into a name-value map. */
  class CoreumRequest {
    const httpMethod: string
    const headers: HeaderList
    var cookies: OrderedMaps.OrderedMap<string>

    constructor(url: RequestInfo, init: RequestInit)
      ensures httpMethod == RequestMethod(url, init)
      ensures headers == CoreumHeaders(init)
      ensures cookies == StoreAll(OrderedMaps.EmptyMap(), CookieOptionsJar.Plains(CookiePairs(TextSplit, GetSpec(headers, "cookie"))), ValueField)
    {
      httpMethod := RequestMethod(url, init);
      headers := CoreumHeaders(init);
      cookies := OrderedMaps.EmptyMap();
      new;
      ParseCookies();
    }

    /** `parseCookies`: each `name=value` part with both sides non-empty is set in turn. */
    method ParseCookies()
      modifies this
      ensures cookies == StoreAll(old(cookies), CookieOptionsJar.Plains(CookiePairs(TextSplit, GetSpec(headers, "cookie"))), ValueField)
    {
      var header := GetSpec(headers, "cookie");
      if header.Some? && header.value != "" {
        var parts := SplitBy(TextSplit, ';', header.value);
        ghost var start := cookies;
        ghost var kept: seq<(string, string)> := [];
        for i := 0 to |parts|
          invariant kept == PairsOf(PairParser(TextSplit), parts[..i])
          invariant cookies == StoreAll(start, CookieOptionsJar.Plains(kept), ValueField)
        {
          PairsOfStep(PairParser(TextSplit), parts, i);
          var p := PairOf(TextSplit, parts[i]);
          assert p == PairParser(TextSplit)(parts[i]);
          if p.Some? {
            var (name, value) := p.value;
            PlainsSnoc(kept, p.value);
            StoreOneMore(start, CookieOptionsJar.Plains(kept), Plain(name, value), ValueField);
            cookies := OrderedMaps.Put(cookies, name, value);
            kept := kept + [p.value];
          }
        }
        assert parts[..|parts|] == parts;
      }
    }

    predicate IsMethodNotAllowed()
    {
      CoreumIsMethodNotAllowed(httpMethod)
    }

    predicate IsPreflight()
    {
      CoreumIsPreflight(httpMethod, headers)
    }

    function ContentType(): ContentTypes.Kind
    {
      CoreumContentType(httpMethod, ContentTypeHeader(headers))
    }
  }
}
