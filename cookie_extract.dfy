// `extractOptions` of src/Cookies/CookiesUsingMap.ts: the options the src jar
// reads back from a stored Set-Cookie header, which its `delete` spreads into
// the expired cookie it re-sets.

module CookieExtract {
  import opened Wrappers
  import opened Strings
  import opened SplitParts
  import opened UriComponent
  import opened StrCapitalize
  import opened CookieHeader
  import Coercion

  /** What one attribute part assigns: `true` for a bare key, the coerced value, or `undefined` for an empty value. */
  datatype Read = Flag | Coerced(item: Coercion.Item) | Undefined

  /** `keyMap[key]`: the attribute a key names; keys match exactly, case included. */
  function KeyOf(key: string): (r: Option<AttrKind>)
    ensures r.Some? ==> KeyText(r.value) == key
  {
    if key == "Domain" then Some(DomainAttr)
    else if key == "Path" then Some(PathAttr)
    else if key == "Expires" then Some(ExpiresAttr)
    else if key == "Secure" then Some(SecureFlag)
    else if key == "SameSite" then Some(SameSiteAttr)
    else if key == "HttpOnly" then Some(HttpOnlyFlag)
    else if key == "Partitioned" then Some(PartitionedFlag)
    else if key == "Max-Age" then Some(MaxAgeAttr)
    else None
  }

  /** Every key the serialiser writes is one `keyMap` knows, and it has no separator or surrounding space. */
  lemma KeyRoundTrip(k: AttrKind)
    ensures KeyOf(KeyText(k)) == Some(k) && Token(KeyText(k))
  {
    match k
    case DomainAttr =>
    case PathAttr =>
    case ExpiresAttr =>
    case MaxAgeAttr =>
    case SecureFlag =>
    case HttpOnlyFlag =>
    case PartitionedFlag =>
    case SameSiteAttr =>
  }

  /**
   * One part of the attribute list. With a `=`, the first two trimmed
   * non-empty `=`-separated pieces are key and value; a missing or unknown
   * key skips the part, and a missing value assigns `undefined`. Without a
   * `=`, a known key assigns `true`.
   */
  function PartRead(part: string): Option<(AttrKind, Read)>
  {
    if '=' in part then
      var kv := TrimmedParts(Split(part, '='));
      var key := if |kv| > 0 then kv[0] else "";
      var val := if |kv| > 1 then kv[1] else "";
      match KeyOf(key)
      case None => None
      case Some(k) => Some((k, if val == "" then Undefined else Coerced(Coercion.ProcessString(val))))
    else
      match KeyOf(part)
      case None => None
      case Some(k) => Some((k, Flag))
  }

  /** What one part assigns: its key to its read, or nothing for a skipped part. */
  function Assignment(part: string): map<AttrKind, Read>
  {
    match PartRead(part)
    case None => map[]
    case Some(p) => map[p.0 := p.1]
  }

  /** The loop over the parts, each part's assignment overwriting those of the parts before it. */
  function ReadsWith(parts: seq<string>, assign: string -> map<AttrKind, Read>): map<AttrKind, Read>
  {
    if parts == [] then map[] else assign(parts[0]) + ReadsWith(parts[1..], assign)
  }

  function Reads(parts: seq<string>): map<AttrKind, Read>
  {
    ReadsWith(parts, Assignment)
  }

  /** `strSplit(";", rest)`, where `rest` is the text after the first `;`, trimmed. */
  function AttributeParts(cookieString: string): seq<string>
  {
    TrimmedParts(Split(Trim(AfterMark(';', cookieString)), ';'))
  }

  function Lookup(m: map<AttrKind, Read>, k: AttrKind): Option<Read>
  {
    if k in m then Some(m[k]) else None
  }

  /** A string option as `createHeader` uses it: only a value `processString` left as text counts. */
  function TextOf(r: Option<Read>): Option<string>
  {
    if r.Some? && r.value.Coerced? && r.value.item.Text? then Some(r.value.item.text) else None
  }

  /** A flag as `createHeader` uses it: `true` from a bare key or the text "true". */
  function FlagOf(r: Option<Read>): Option<bool>
  {
    if r == Some(Flag) then Some(true)
    else if r.Some? && r.value.Coerced? && r.value.item.Bool? then Some(r.value.item.b)
    else None
  }

  predicate AllZero(s: string)
  {
    forall i :: 0 <= i < |s| ==> s[i] == '0'
  }

  /** The integer a decimal denotes, when `Number.isInteger` holds of it: no fraction, or only zeros. */
  function WholeValue(d: Coercion.Decimal): Option<int>
  {
    if Coercion.WellFormed(d) && (d.fraction.None? || AllZero(d.fraction.value)) then
      var v: int := DigitsValue(d.whole);
      Some(if d.negative then -v else v)
    else None
  }

  /** `maxAge` as `createHeader` uses it: a number, whole or not; anything else is never emitted. */
  function MaxAgeOf(r: Option<Read>): Option<MaxAge>
  {
    if r.Some? && r.value.Coerced? && r.value.item.Number? then
      match WholeValue(r.value.item.n)
      case Some(n) => Some(Whole(n))
      case None => Some(Fractional)
    else None
  }

  /**
   * `{ ...extractOptions(cookieString), value: "", expires: new Date(0) }`,
   * the options `delete` re-sets.
   */
  function ResetOptions(cookieString: string): CookieOptions
  {
    FromReads(ParsedName(cookieString), Reads(AttributeParts(cookieString)))
  }

  /** The options record the loop leaves, spread under an empty value and the epoch expiry. */
  function FromReads(name: string, m: map<AttrKind, Read>): CookieOptions
  {
    CookieOptions(
      name, "",
      TextOf(Lookup(m, DomainAttr)), TextOf(Lookup(m, PathAttr)),
      Some(ExpiresDate(EpochUtc)), MaxAgeOf(Lookup(m, MaxAgeAttr)),
      FlagOf(Lookup(m, SecureFlag)), FlagOf(Lookup(m, HttpOnlyFlag)), FlagOf(Lookup(m, PartitionedFlag)),
      TextOf(Lookup(m, SameSiteAttr)))
  }

  /** The corrected re-set: the cookie's own options under its key, emptied, expired, and without Max-Age. */
  function Cleared(cookieString: string, name: string): CookieOptions
  {
    ResetOptions(cookieString).(name := name, maxAge := None)
  }

  /** Two option sets from which `createHeader` emits the same attributes. */
  predicate SameAttributes(a: CookieOptions, b: CookieOptions)
  {
    Defined(a.domain) == Defined(b.domain) && (Defined(a.domain) ==> a.domain == b.domain) &&
    PathText(a.path) == PathText(b.path) &&
    ExpiresSet(a.expires) == ExpiresSet(b.expires) && (ExpiresSet(a.expires) ==> ExpiresText(a.expires) == ExpiresText(b.expires)) &&
    MaxAgeSet(a.maxAge) == MaxAgeSet(b.maxAge) && (MaxAgeSet(a.maxAge) ==> MaxAgeText(a.maxAge) == MaxAgeText(b.maxAge)) &&
    (a.secure == Some(true)) == (b.secure == Some(true)) &&
    (a.httpOnly == Some(true)) == (b.httpOnly == Some(true)) &&
    (a.partitioned == Some(true)) == (b.partitioned == Some(true)) &&
    SameSiteText(a.sameSite, EachWord) == SameSiteText(b.sameSite, EachWord)
  }

  lemma {:induction false} EmittedSame(x: seq<Slot>, y: seq<Slot>)
    requires |x| == |y|
    requires forall i :: 0 <= i < |x| ==> x[i].on == y[i].on && (x[i].on ==> x[i].attr == y[i].attr)
    ensures Emitted(x) == Emitted(y)
  {
    if x != [] {
      EmittedSame(x[1..], y[1..]);
    }
  }

  /** Options that agree on what is emitted give the same attribute list. */
  lemma SameAttributesRender(a: CookieOptions, b: CookieOptions)
    requires SameAttributes(a, b)
    ensures Attributes(a, EachWord) == Attributes(b, EachWord)
  {
    EmittedSame(Slots(a, EachWord), Slots(b, EachWord));
  }

  /** An attribute's text between the separators: its key, then `=` and its value. */
  function AttrText(a: Attr): string
  {
    KeyText(a.kind) + (match a.value case None => "" case Some(v) => "=" + v)
  }

  function Texts(attrs: seq<Attr>): (r: seq<string>)
    ensures |r| == |attrs| && forall i :: 0 <= i < |r| ==> r[i] == AttrText(attrs[i])
  {
    seq(|attrs|, i requires 0 <= i < |attrs| => AttrText(attrs[i]))
  }

  /** An attribute whose value, if any, reads back unchanged: non-empty, trimmed, without `;` or `=`. */
  predicate Plainly(a: Attr)
  {
    a.value.Some? ==> Token(a.value.value)
  }

  /** What reading an attribute's text assigns. */
  function ReadOf(a: Attr): Read
  {
    match a.value
    case None => Flag
    case Some(v) => Coerced(Coercion.ProcessString(v))
  }

  lemma RenderAttrText(a: Attr)
    ensures RenderAttr(a) == "; " + AttrText(a)
  {
  }

  lemma Regroup(a: string, b: string, c: string, d: string)
    ensures (a + b) + (c + d) == a + (b + c + d)
  {
  }

  lemma {:induction false} RenderJoined(attrs: seq<Attr>)
    requires attrs != []
    ensures Render(attrs) == "; " + Join(Texts(attrs), "; ")
  {
    var t := Texts(attrs);
    var r0 := RenderAttr(attrs[0]);
    var rr := Render(attrs[1..]);
    assert Render(attrs) == r0 + rr;
    RenderAttrText(attrs[0]);
    if |attrs| > 1 {
      RenderJoined(attrs[1..]);
      assert t[1..] == Texts(attrs[1..]);
      var j := Join(t[1..], "; ");
      assert Join(t, "; ") == t[0] + "; " + j;
      Regroup("; ", t[0], "; ", j);
    } else {
      assert rr == "";
      assert Join(t, "; ") == t[0];
    }
  }

  /** An attribute's text has no `;` and no space at either end. */
  lemma TextEnds(a: Attr)
    requires Plainly(a)
    ensures AttrText(a) != "" && !IsSpace(AttrText(a)[0]) && !IsSpace(AttrText(a)[|AttrText(a)| - 1]) && ';' !in AttrText(a)
  {
    KeyRoundTrip(a.kind);
    var k := KeyText(a.kind);
    match a.value
    case None =>
      assert AttrText(a) == k;
    case Some(v) =>
      assert AttrText(a) == k + ['='] + v;
  }

  /** `strSplit("=", part, 2)` of a key and a plain value gives the two back. */
  lemma PairPieces(k: string, v: string)
    requires Token(k) && Token(v)
    ensures TrimmedParts(Split(k + ['='] + v, '=')) == [k, v]
  {
    SplitAppend(k, v, '=');
    SplitNoSep(v, '=');
    TrimNoSpaceEnds(k);
    TrimNoSpaceEnds(v);
    TrimmedTwo(k, v);
  }

  /** Reading an attribute's text back assigns its key what the attribute carries. */
  lemma PartReadText(a: Attr)
    requires Plainly(a)
    ensures PartRead(AttrText(a)) == Some((a.kind, ReadOf(a)))
  {
    KeyRoundTrip(a.kind);
    var k := KeyText(a.kind);
    match a.value
    case None =>
      assert AttrText(a) == k;
    case Some(v) =>
      var t := k + ['='] + v;
      assert AttrText(a) == t;
      assert '=' in t by {
        assert t[|k|] == '=';
      }
      PairPieces(k, v);
  }

  lemma ReadsOne(a: Attr)
    requires Plainly(a)
    ensures Reads([AttrText(a)]) == map[a.kind := ReadOf(a)]
  {
    PartReadText(a);
    var m := Assignment(AttrText(a));
    assert m == map[a.kind := ReadOf(a)];
    assert ReadsWith([AttrText(a)][1..], Assignment) == map[];
    assert m + map[] == m;
  }

  lemma {:induction false} ReadsConcat(x: seq<string>, y: seq<string>, assign: string -> map<AttrKind, Read>)
    ensures ReadsWith(x + y, assign) == ReadsWith(x, assign) + ReadsWith(y, assign)
  {
    if x == [] {
      assert x + y == y;
    } else {
      ReadsConcat(x[1..], y, assign);
      assert (x + y)[1..] == x[1..] + y;
      assert (x + y)[0] == x[0];
    }
  }

  /** The assignments the emitted attributes of `slots` make, a later slot overwriting an earlier one. */
  function SlotReads(slots: seq<Slot>): map<AttrKind, Read>
  {
    if slots == [] then map[] else SlotAssign(slots[0]) + SlotReads(slots[1..])
  }

  function SlotAssign(slot: Slot): map<AttrKind, Read>
  {
    if slot.on then map[slot.attr.kind := ReadOf(slot.attr)] else map[]
  }

  lemma TextsConcat(x: seq<Attr>, y: seq<Attr>)
    ensures Texts(x + y) == Texts(x) + Texts(y)
  {
  }

  lemma SlotHeadRead(slot: Slot)
    requires slot.on ==> Plainly(slot.attr)
    ensures Reads(Texts(if slot.on then [slot.attr] else [])) == SlotAssign(slot)
  {
    if slot.on {
      assert Texts([slot.attr]) == [AttrText(slot.attr)];
      ReadsOne(slot.attr);
    } else {
      assert Texts([]) == [];
    }
  }

  lemma {:induction false} ReadsEmitted(slots: seq<Slot>)
    requires forall i :: 0 <= i < |slots| && slots[i].on ==> Plainly(slots[i].attr)
    ensures Reads(Texts(Emitted(slots))) == SlotReads(slots)
  {
    if slots != [] {
      var head := if slots[0].on then [slots[0].attr] else [];
      var rest := Emitted(slots[1..]);
      ReadsEmitted(slots[1..]);
      assert Emitted(slots) == head + rest;
      TextsConcat(head, rest);
      ReadsConcat(Texts(head), Texts(rest), Assignment);
      SlotHeadRead(slots[0]);
    }
  }

  lemma {:induction false} SlotReadsMissing(slots: seq<Slot>, k: AttrKind)
    requires forall i :: 0 <= i < |slots| ==> slots[i].attr.kind != k
    ensures k !in SlotReads(slots)
  {
    if slots != [] {
      assert forall i :: 0 <= i < |slots[1..]| ==> slots[1..][i] == slots[i + 1];
      SlotReadsMissing(slots[1..], k);
    }
  }

  /** With distinct kinds, a slot's key is assigned exactly when the slot is on, and then to what it carries. */
  lemma {:induction false} SlotReadsAt(slots: seq<Slot>, i: nat)
    requires i < |slots|
    requires forall j, l :: 0 <= j < l < |slots| ==> slots[j].attr.kind != slots[l].attr.kind
    ensures slots[i].attr.kind in SlotReads(slots) <==> slots[i].on
    ensures slots[i].on ==> SlotReads(slots)[slots[i].attr.kind] == ReadOf(slots[i].attr)
  {
    var k := slots[i].attr.kind;
    if i == 0 {
      assert forall j :: 0 <= j < |slots[1..]| ==> slots[1..][j] == slots[j + 1];
      SlotReadsMissing(slots[1..], k);
    } else {
      assert slots[1..][i - 1] == slots[i];
      SlotReadsAt(slots[1..], i - 1);
      assert slots[0].attr.kind != k;
    }
  }

  /** A slot's kind reads back as what the slot carries when it is on, and as absent when it is off. */
  lemma LookupAt(slots: seq<Slot>, i: nat)
    requires i < |slots|
    requires forall j, l :: 0 <= j < l < |slots| ==> slots[j].attr.kind != slots[l].attr.kind
    ensures Lookup(SlotReads(slots), slots[i].attr.kind) == if slots[i].on then Some(ReadOf(slots[i].attr)) else None
  {
    SlotReadsAt(slots, i);
  }

  /** The serialiser's slots hold distinct kinds. */
  lemma SlotsDistinct(opts: CookieOptions)
    ensures forall j, l :: 0 <= j < l < |Slots(opts, EachWord)| ==> Slots(opts, EachWord)[j].attr.kind != Slots(opts, EachWord)[l].attr.kind
  {
  }

  lemma {:induction false} JoinEnds(parts: seq<string>, sep: string)
    requires |parts| >= 1 && forall i :: 0 <= i < |parts| ==> parts[i] != ""
    ensures var j := Join(parts, sep);
      j != "" && j[0] == parts[0][0] && j[|j| - 1] == parts[|parts| - 1][|parts[|parts| - 1]| - 1]
  {
    if |parts| > 1 {
      JoinEnds(parts[1..], sep);
    }
  }

  lemma TrimSpaced(t: string)
    requires t != "" && !IsSpace(t[0]) && !IsSpace(t[|t| - 1])
    ensures Trim(t) == t && Trim(" " + t) == t
  {
    TrimNoSpaceEnds(t);
    assert (" " + t)[1..] == t;
    assert TrimStart(" " + t) == TrimStart(t);
  }

  /** Splitting "; "-joined texts at `;` and trimming the pieces gives the texts back. */
  lemma SplitSpaced(texts: seq<string>)
    requires |texts| >= 1
    requires forall i :: 0 <= i < |texts| ==> texts[i] != "" && !IsSpace(texts[i][0]) && !IsSpace(texts[i][|texts[i]| - 1]) && ';' !in texts[i]
    ensures var j := Join(Spaced(texts), ";");
      Trim(" " + j) == j && TrimmedParts(Split(j, ';')) == texts
  {
    var spaced := Spaced(texts);
    var j := Join(spaced, ";");
    SpacedParts(texts);
    assert Trim(" " + j) == j by {
      JoinEnds(spaced, ";");
      TrimSpaced(j);
    }
    assert Split(j, ';') == spaced by {
      SplitJoin(spaced, ';');
      assert [';'] == ";";
    }
    TrimmedAll(spaced, texts);
  }

  lemma SpacedParts(texts: seq<string>)
    requires |texts| >= 1
    requires forall i :: 0 <= i < |texts| ==> texts[i] != "" && !IsSpace(texts[i][0]) && !IsSpace(texts[i][|texts[i]| - 1]) && ';' !in texts[i]
    ensures forall i :: 0 <= i < |texts| ==> TrimsTo(Spaced(texts)[i], texts[i]) && ';' !in Spaced(texts)[i] && Spaced(texts)[i] != ""
    ensures forall i :: 0 <= i < |texts| ==> Spaced(texts)[i][|Spaced(texts)[i]| - 1] == texts[i][|texts[i]| - 1]
  {
    var spaced := Spaced(texts);
    forall i | 0 <= i < |texts|
      ensures TrimsTo(spaced[i], texts[i]) && ';' !in spaced[i] && spaced[i] != ""
      ensures spaced[i][|spaced[i]| - 1] == texts[i][|texts[i]| - 1]
    {
      TrimSpaced(texts[i]);
      if i > 0 {
        SpacedLast(texts[i]);
      }
    }
  }

  lemma SpacedLast(t: string)
    requires t != ""
    ensures (" " + t)[|" " + t| - 1] == t[|t| - 1]
    ensures (';' in " " + t) == (';' in t)
  {
  }

  /** The attribute parts `extractOptions` loops over are the texts of the attributes `createHeader` appended. */
  lemma PartsOfHeader(opts: CookieOptions)
    requires forall a :: a in Attributes(opts, EachWord) ==> Plainly(a)
    ensures AttributeParts(CreateHeader(opts, EachWord)) == Texts(Attributes(opts, EachWord))
  {
    var attrs := Attributes(opts, EachWord);
    var texts := Texts(attrs);
    PathAlwaysEmitted(opts, EachWord);
    TextsPlain(attrs);
    HeaderRest(opts);
    SplitSpaced(texts);
  }

  lemma TextsPlain(attrs: seq<Attr>)
    requires forall a :: a in attrs ==> Plainly(a)
    ensures forall i :: 0 <= i < |attrs| ==> var t := Texts(attrs)[i];
      t != "" && !IsSpace(t[0]) && !IsSpace(t[|t| - 1]) && ';' !in t
  {
    forall i | 0 <= i < |attrs|
      ensures var t := Texts(attrs)[i]; t != "" && !IsSpace(t[0]) && !IsSpace(t[|t| - 1]) && ';' !in t
    {
      assert attrs[i] in attrs;
      TextEnds(attrs[i]);
    }
  }

  /** After the first `;` of a header come a space and the attribute texts joined by "; ". */
  lemma HeaderRest(opts: CookieOptions)
    requires Attributes(opts, EachWord) != []
    ensures AfterMark(';', CreateHeader(opts, EachWord)) == " " + Join(Spaced(Texts(Attributes(opts, EachWord))), ";")
  {
    var pair := Encode(opts.name) + "=" + Encode(opts.value);
    assert ';' !in pair by {
      NoSeparators(opts.name);
      NoSeparators(opts.value);
    }
    RestAfterPair(pair, Attributes(opts, EachWord));
  }

  /** After a pair without ";", the rendered attributes read as their spaced texts joined by ";". */
  lemma RestAfterPair(pair: string, attrs: seq<Attr>)
    requires attrs != [] && ';' !in pair
    ensures AfterMark(';', pair + Render(attrs)) == " " + Join(Spaced(Texts(attrs)), ";")
  {
    var texts := Texts(attrs);
    var j := Join(Spaced(texts), ";");
    assert Render(attrs) == [';'] + (" " + j) by {
      RenderJoined(attrs);
      JoinSpaced(texts);
    }
    assert pair + Render(attrs) == pair + [';'] + (" " + j);
    MarkSides(pair, ';', " " + j);
  }

  /** A value `extractOptions` gives back as the same string: plain, and neither a number nor a boolean. */
  predicate Kept(t: string)
  {
    Token(t) && Coercion.ProcessString(t) == Coercion.Text(t)
  }

  /**
   * The options whose header reads back faithfully: every emitted value is
   * plain, Domain, Path and SameSite stay text, and SameSite is already
   * capitalised.
   */
  predicate ReadsBack(opts: CookieOptions)
  {
    (Defined(opts.domain) ==> Kept(opts.domain.value)) &&
    Kept(PathText(opts.path)) &&
    (ExpiresSet(opts.expires) ==> Token(ExpiresText(opts.expires))) &&
    Kept(SameSiteText(opts.sameSite, EachWord)) &&
    Capitalise(SameSiteText(opts.sameSite, EachWord), EachWord) == SameSiteText(opts.sameSite, EachWord)
  }

  /** A non-zero integer is written as a plain number that `processString` reads back as that integer. */
  lemma IntTextReads(n: int)
    ensures Token(IntToString(n))
    ensures var d := IntDecimal(n);
      Coercion.ProcessString(IntToString(n)) == Coercion.Number(d) && WholeValue(d) == Some(n)
  {
    var d := IntDecimal(n);
    var s := IntToString(n);
    IntTextToken(n);
    assert Coercion.ParseDecimal(s) == Some(d) by {
      IntDecimalText(n);
      Coercion.ParseDecimalComplete(d);
    }
    DefinedByChar(s, 0);
    assert WholeValue(d) == Some(n) by {
      NatToStringValue(if n < 0 then -n else n);
    }
  }

  /** The decimal an integer's text is parsed as. */
  function IntDecimal(n: int): (d: Coercion.Decimal)
    ensures Coercion.WellFormed(d)
  {
    Coercion.Decimal(n < 0, NatToString(if n < 0 then -n else n), None)
  }

  lemma IntDecimalText(n: int)
    ensures Coercion.DecimalText(IntDecimal(n)) == IntToString(n)
  {
  }

  lemma IntTextToken(n: int)
    ensures Token(IntToString(n))
  {
    var m: nat := if n < 0 then -n else n;
    DigitsToken(NatToString(m));
  }

  lemma DigitsToken(d: string)
    requires |d| >= 1 && forall i :: 0 <= i < |d| ==> '0' <= d[i] <= '9'
    ensures Token(d) && Token("-" + d)
  {
    var s := "-" + d;
    assert s[|s| - 1] == d[|d| - 1];
    assert forall i :: 1 <= i < |s| ==> s[i] == d[i - 1];
  }

  lemma KeptText(t: string)
    requires Kept(t)
    ensures TextIsDefined(t) && TextOf(Some(ReadOf(Attr(DomainAttr, Some(t))))) == Some(t)
  {
    DefinedByChar(t, 0);
  }

  /** Every attribute a faithful header carries is plain. */
  lemma ReadsBackPlain(opts: CookieOptions)
    requires ReadsBack(opts)
    ensures forall i :: 0 <= i < 8 && Slots(opts, EachWord)[i].on ==> Plainly(Slots(opts, EachWord)[i].attr)
    ensures forall a :: a in Attributes(opts, EachWord) ==> Plainly(a)
  {
    var slots := Slots(opts, EachWord);
    if MaxAgeSet(opts.maxAge) {
      IntTextReads(opts.maxAge.value.seconds);
    }
    assert forall i :: 0 <= i < 8 && slots[i].on ==> Plainly(slots[i].attr);
    forall a | a in Attributes(opts, EachWord)
      ensures Plainly(a)
    {
      EmittedFrom(slots, a);
    }
  }

  /** A header `createHeader` made from faithful options is read back as the assignments of its switched-on slots. */
  lemma ResetReads(opts: CookieOptions)
    requires ReadsBack(opts)
    ensures Reads(AttributeParts(CreateHeader(opts, EachWord))) == SlotReads(Slots(opts, EachWord))
  {
    ReadsBackPlain(opts);
    PartsOfHeader(opts);
    ReadsEmitted(Slots(opts, EachWord));
  }

  lemma DomainRead(opts: CookieOptions)
    requires ReadsBack(opts)
    ensures var d := TextOf(Lookup(SlotReads(Slots(opts, EachWord)), DomainAttr));
      Defined(d) == Defined(opts.domain) && (Defined(d) ==> d == opts.domain)
  {
    var slots := Slots(opts, EachWord);
    SlotsDistinct(opts);
    LookupAt(slots, 0);
    if Defined(opts.domain) {
      KeptText(opts.domain.value);
    }
  }

  lemma PathRead(opts: CookieOptions)
    requires ReadsBack(opts)
    ensures PathText(TextOf(Lookup(SlotReads(Slots(opts, EachWord)), PathAttr))) == PathText(opts.path)
  {
    var slots := Slots(opts, EachWord);
    SlotsDistinct(opts);
    LookupAt(slots, 1);
    KeptText(PathText(opts.path));
  }

  lemma MaxAgeRead(opts: CookieOptions)
    ensures var x := MaxAgeOf(Lookup(SlotReads(Slots(opts, EachWord)), MaxAgeAttr));
      MaxAgeSet(x) == MaxAgeSet(opts.maxAge) && (MaxAgeSet(x) ==> x == opts.maxAge)
  {
    var slots := Slots(opts, EachWord);
    assert Lookup(SlotReads(slots), MaxAgeAttr) == MaxAgeSlotRead(opts.maxAge) by {
      SlotsDistinct(opts);
      LookupAt(slots, 3);
    }
    MaxAgeReadBack(opts.maxAge);
  }

  /** What the reading of the Max-Age slot holds for a given Max-Age. */
  function MaxAgeSlotRead(m: Option<MaxAge>): Option<Read>
  {
    if MaxAgeSet(m) then Some(ReadOf(Attr(MaxAgeAttr, Some(MaxAgeText(m))))) else None
  }

  lemma MaxAgeReadBack(m: Option<MaxAge>)
    ensures var x := MaxAgeOf(MaxAgeSlotRead(m));
      MaxAgeSet(x) == MaxAgeSet(m) && (MaxAgeSet(x) ==> x == m)
  {
    if MaxAgeSet(m) {
      IntTextReads(m.value.seconds);
    }
  }

  lemma FlagsRead(opts: CookieOptions)
    ensures (FlagOf(Lookup(SlotReads(Slots(opts, EachWord)), SecureFlag)) == Some(true)) == (opts.secure == Some(true))
    ensures (FlagOf(Lookup(SlotReads(Slots(opts, EachWord)), HttpOnlyFlag)) == Some(true)) == (opts.httpOnly == Some(true))
    ensures (FlagOf(Lookup(SlotReads(Slots(opts, EachWord)), PartitionedFlag)) == Some(true)) == (opts.partitioned == Some(true))
  {
    var slots := Slots(opts, EachWord);
    assert slots[4].on == (opts.secure == Some(true)) && slots[5].on == (opts.httpOnly == Some(true)) &&
      slots[6].on == (opts.partitioned == Some(true));
    assert (FlagOf(Lookup(SlotReads(slots), SecureFlag)) == Some(true)) == slots[4].on by {
      FlagRead(opts, SecureFlag);
    }
    assert (FlagOf(Lookup(SlotReads(slots), HttpOnlyFlag)) == Some(true)) == slots[5].on by {
      FlagRead(opts, HttpOnlyFlag);
    }
    assert (FlagOf(Lookup(SlotReads(slots), PartitionedFlag)) == Some(true)) == slots[6].on by {
      FlagRead(opts, PartitionedFlag);
    }
  }

  lemma FlagRead(opts: CookieOptions, k: AttrKind)
    requires k == SecureFlag || k == HttpOnlyFlag || k == PartitionedFlag
    ensures (FlagOf(Lookup(SlotReads(Slots(opts, EachWord)), k)) == Some(true)) == Slots(opts, EachWord)[Rank(k)].on
  {
    var slots := Slots(opts, EachWord);
    SlotsDistinct(opts);
    FlagAt(slots, Rank(k));
  }

  lemma FlagAt(slots: seq<Slot>, i: nat)
    requires i < |slots| && slots[i].attr.value == None
    requires forall j, l :: 0 <= j < l < |slots| ==> slots[j].attr.kind != slots[l].attr.kind
    ensures (FlagOf(Lookup(SlotReads(slots), slots[i].attr.kind)) == Some(true)) == slots[i].on
  {
    LookupAt(slots, i);
  }

  lemma SameSiteRead(opts: CookieOptions)
    requires ReadsBack(opts)
    ensures SameSiteText(TextOf(Lookup(SlotReads(Slots(opts, EachWord)), SameSiteAttr)), EachWord) == SameSiteText(opts.sameSite, EachWord)
  {
    var ss := SameSiteText(opts.sameSite, EachWord);
    var t := TextOf(Lookup(SlotReads(Slots(opts, EachWord)), SameSiteAttr));
    assert t == Some(ss) && Defined(t) by {
      SlotsDistinct(opts);
      LookupAt(Slots(opts, EachWord), 7);
      KeptText(ss);
    }
    assert SameSiteText(t, EachWord) == Capitalise(ss, EachWord);
  }

  /**
   * What `extractOptions` reads back from a header `createHeader` made, once
   * `delete` has spread it: the same Domain, Path, Max-Age, flags and
   * SameSite, with the epoch expiry, the encoded name and an empty value.
   */
  lemma ResetKeepsAttributes(opts: CookieOptions)
    requires ReadsBack(opts)
    ensures SameAttributes(ResetOptions(CreateHeader(opts, EachWord)), opts.(expires := Some(ExpiresDate(EpochUtc))))
    ensures ResetOptions(CreateHeader(opts, EachWord)).name == Encode(opts.name)
    ensures ResetOptions(CreateHeader(opts, EachWord)).value == ""
  {
    var r := FromReads(Encode(opts.name), SlotReads(Slots(opts, EachWord)));
    assert ResetOptions(CreateHeader(opts, EachWord)) == r by {
      ResetReads(opts);
      ParsedCreatedName(opts, EachWord);
    }
    DomainRead(opts);
    PathRead(opts);
    MaxAgeRead(opts);
    FlagsRead(opts);
    SameSiteRead(opts);
  }

  /** A switched-on slot's attribute is among the attributes. */
  lemma SlotEmitted(opts: CookieOptions, i: nat)
    requires i < 8 && Slots(opts, EachWord)[i].on
    ensures Slots(opts, EachWord)[i].attr in Attributes(opts, EachWord)
  {
    EmittedFrom(Slots(opts, EachWord), Slots(opts, EachWord)[i].attr);
  }

  /** Options emitting the same attributes as ones with a Max-Age and an expiry emit both too. */
  lemma KeepsMaxAgeOf(r: CookieOptions, o: CookieOptions)
    requires SameAttributes(r, o) && MaxAgeSet(o.maxAge) && ExpiresSet(o.expires)
    ensures Attr(MaxAgeAttr, Some(IntToString(o.maxAge.value.seconds))) in Attributes(r, EachWord)
    ensures Attr(ExpiresAttr, Some(ExpiresText(o.expires))) in Attributes(r, EachWord)
  {
    SameAttributesRender(r, o);
    SlotEmitted(o, 3);
    SlotEmitted(o, 2);
  }

  /**
   * `delete` as written re-sets a cookie that had a Max-Age with that Max-Age
   * beside the epoch expiry. Max-Age takes precedence over Expires (section
   * 5.3 of RFC 6265), so the client keeps the cookie.
   */
  lemma ResetKeepsMaxAge(opts: CookieOptions)
    requires ReadsBack(opts) && MaxAgeSet(opts.maxAge)
    ensures Attr(MaxAgeAttr, Some(IntToString(opts.maxAge.value.seconds))) in Attributes(ResetOptions(CreateHeader(opts, EachWord)), EachWord)
    ensures Attr(ExpiresAttr, Some(EpochUtc)) in Attributes(ResetOptions(CreateHeader(opts, EachWord)), EachWord)
  {
    ResetKeepsAttributes(opts);
    KeepsMaxAgeOf(ResetOptions(CreateHeader(opts, EachWord)), opts.(expires := Some(ExpiresDate(EpochUtc))));
  }

  /** Options emitting the same attributes as ones without Max-Age but with an expiry emit the same, without Max-Age. */
  lemma ClearedOf(c: CookieOptions, o: CookieOptions)
    requires SameAttributes(c, o) && o.maxAge == None && ExpiresSet(o.expires)
    ensures Attributes(c, EachWord) == Attributes(o, EachWord)
    ensures MaxAgeAttr !in Kinds(Attributes(c, EachWord))
    ensures Attr(ExpiresAttr, Some(ExpiresText(o.expires))) in Attributes(c, EachWord)
  {
    SameAttributesRender(c, o);
    AttributesPresent(o, EachWord);
    SlotEmitted(o, 2);
  }

  /**
   * The corrected re-set emits exactly the attributes of the stored cookie
   * with the epoch expiry and no Max-Age: Domain, Path, the flags and
   * SameSite are kept, so the client matches and removes the cookie.
   */
  lemma ClearedAttributes(opts: CookieOptions, name: string)
    requires ReadsBack(opts)
    ensures Attributes(Cleared(CreateHeader(opts, EachWord), name), EachWord) ==
      Attributes(opts.(expires := Some(ExpiresDate(EpochUtc)), maxAge := None), EachWord)
    ensures MaxAgeAttr !in Kinds(Attributes(Cleared(CreateHeader(opts, EachWord), name), EachWord))
    ensures Attr(ExpiresAttr, Some(EpochUtc)) in Attributes(Cleared(CreateHeader(opts, EachWord), name), EachWord)
  {
    var c := Cleared(CreateHeader(opts, EachWord), name);
    ResetKeepsAttributes(opts);
    ClearedOf(c, opts.(expires := Some(ExpiresDate(EpochUtc)), maxAge := None));
  }

  /** A text that is neither a number nor a boolean stays text. */
  lemma PlainTextKept(t: string)
    requires Token(t) && Coercion.ParseDecimal(t).None? && !Coercion.BooleanText(t)
    ensures Kept(t)
  {
    DefinedByChar(t, 0);
  }

  lemma SlashKept()
    ensures Kept("/")
  {
    assert Coercion.ParseDecimal("/").None? by {
      assert !Coercion.IsDigit('/');
    }
    assert ToLower("/") == "/";
    PlainTextKept("/");
  }

  lemma LaxKept()
    ensures Kept("Lax") && StrCapitalizeWords("Lax") == "Lax"
  {
    assert Coercion.ParseDecimal("Lax").None? by {
      assert !Coercion.IsDigit('L');
    }
    assert ToLower("Lax") == "lax";
    PlainTextKept("Lax");
    var r := StrCapitalizeWords("Lax");
    assert r[0] == 'L' && r[1] == 'a' && r[2] == 'x';
    assert r == "Lax";
  }

  /** A cookie with default Domain, Path, Expires and SameSite reads back faithfully, whatever its Max-Age and flags. */
  lemma DefaultsReadBack(name: string, value: string, maxAge: Option<MaxAge>, secure: Option<bool>, httpOnly: Option<bool>, partitioned: Option<bool>)
    ensures ReadsBack(CookieOptions(name, value, None, None, None, maxAge, secure, httpOnly, partitioned, None))
  {
    SlashKept();
    LaxKept();
  }
}
