// The Set-Cookie serialiser shared by the Map-based cookie jars:
// `createHeader` of src/Cookies/CookiesUsingMap.ts and of
// src/modules/Cookies/CookiesAbstract.ts, the static `createHeader` of
// src/lib/Cookies/__Coreum_Cookies.ts, and the two ways a stored header is read
// back (`extractValue` of the src jar and `decodeValue` of the other two).
// The layout is the `set-cookie-string` of section 4.1.1 of RFC 6265.

module CookieHeader {
  import opened Wrappers
  import opened Strings
  import opened UriComponent
  import opened StrCapitalize
  import opened OrderedMaps

  /**
   * `expires`: a millisecond count or a `Date`. Each carries the text its
   * `toUTCString()` gives; calendar formatting is not modelled.
   */
  datatype Expiry = ExpiresAt(millis: int, utc: string) | ExpiresDate(utc: string)

  /** `maxAge`: an integral number, or a number with a fractional part. */
  datatype MaxAge = Whole(seconds: int) | Fractional

  /** A cookie's options; an absent property is `None`. */
  datatype CookieOptions = CookieOptions(
    name: string,
    value: string,
    domain: Option<string>,
    path: Option<string>,
    expires: Option<Expiry>,
    maxAge: Option<MaxAge>,
    secure: Option<bool>,
    httpOnly: Option<bool>,
    partitioned: Option<bool>,
    sameSite: Option<string>)

  /** The record literal `{ name, value }`. */
  function Plain(name: string, value: string): CookieOptions
  {
    CookieOptions(name, value, None, None, None, None, None, None, None, None)
  }

  /** `toUTCString()` of `new Date(0)`, the expiry a deleted cookie gets. */
  const EpochUtc := "Thu, 01 Jan 1970 00:00:00 GMT"

  /**
   * How SameSite is capitalised: src and src/modules call `strCapitalize`,
   * modelled by its per-word correction, which agrees with the function as
   * written on the one-word values "strict", "lax" and "none"
   * (StrCapitalize.AgreeOnSingleWord); the lib generation calls
   * `capitalize`, taken to upper-case the first letter.
   */
  datatype Capitalisation = EachWord | FirstLetter

  /** `strIsDefined` / `textIsDefined` of an optional string. */
  predicate Defined(o: Option<string>)
  {
    o.Some? && TextIsDefined(o.value)
  }

  /** `if (opts.expires)`: a `Date` is always truthy, the number 0 is not. */
  predicate ExpiresSet(e: Option<Expiry>)
  {
    e.Some? && !(e.value.ExpiresAt? && e.value.millis == 0)
  }

  /** `opts.maxAge && Number.isInteger(opts.maxAge)`. */
  predicate MaxAgeSet(m: Option<MaxAge>)
  {
    m.Some? && m.value.Whole? && m.value.seconds != 0
  }

  datatype AttrKind = DomainAttr | PathAttr | ExpiresAttr | MaxAgeAttr | SecureFlag | HttpOnlyFlag | PartitionedFlag | SameSiteAttr

  /** An attribute after the name-value pair; a flag has no value. */
  datatype Attr = Attr(kind: AttrKind, value: Option<string>)

  function KeyText(k: AttrKind): string
  {
    match k
    case DomainAttr => "Domain"
    case PathAttr => "Path"
    case ExpiresAttr => "Expires"
    case MaxAgeAttr => "Max-Age"
    case SecureFlag => "Secure"
    case HttpOnlyFlag => "HttpOnly"
    case PartitionedFlag => "Partitioned"
    case SameSiteAttr => "SameSite"
  }

  /** The position of each attribute in the serialiser's sequence of `if`s. */
  function Rank(k: AttrKind): nat
  {
    match k
    case DomainAttr => 0
    case PathAttr => 1
    case ExpiresAttr => 2
    case MaxAgeAttr => 3
    case SecureFlag => 4
    case HttpOnlyFlag => 5
    case PartitionedFlag => 6
    case SameSiteAttr => 7
  }

  function Capitalise(s: string, style: Capitalisation): string
  {
    match style
    case EachWord => StrCapitalizeWords(s)
    case FirstLetter => CapitalizeWord(s)
  }

  function PathText(path: Option<string>): string
  {
    if Defined(path) then path.value else "/"
  }

  function SameSiteText(sameSite: Option<string>, style: Capitalisation): string
  {
    if Defined(sameSite) then Capitalise(sameSite.value, style) else "Lax"
  }

  function ExpiresText(e: Option<Expiry>): string
  {
    if e.Some? then e.value.utc else ""
  }

  function MaxAgeText(m: Option<MaxAge>): string
  {
    if m.Some? && m.value.Whole? then IntToString(m.value.seconds) else ""
  }

  /** One `if` of the serialiser: the attribute, and whether it is appended. */
  datatype Slot = Slot(on: bool, attr: Attr)

  /** The serialiser's guarded appends, in source order. */
  function Slots(opts: CookieOptions, style: Capitalisation): (r: seq<Slot>)
    ensures |r| == 8 && forall i :: 0 <= i < 8 ==> Rank(r[i].attr.kind) == i
  {
    [ Slot(Defined(opts.domain), Attr(DomainAttr, opts.domain)),
      Slot(true, Attr(PathAttr, Some(PathText(opts.path)))),
      Slot(ExpiresSet(opts.expires), Attr(ExpiresAttr, Some(ExpiresText(opts.expires)))),
      Slot(MaxAgeSet(opts.maxAge), Attr(MaxAgeAttr, Some(MaxAgeText(opts.maxAge)))),
      Slot(opts.secure == Some(true), Attr(SecureFlag, None)),
      Slot(opts.httpOnly == Some(true), Attr(HttpOnlyFlag, None)),
      Slot(opts.partitioned == Some(true), Attr(PartitionedFlag, None)),
      Slot(true, Attr(SameSiteAttr, Some(SameSiteText(opts.sameSite, style)))) ]
  }

  function Emitted(slots: seq<Slot>): seq<Attr>
  {
    if slots == [] then [] else (if slots[0].on then [slots[0].attr] else []) + Emitted(slots[1..])
  }

  /** The attributes `createHeader` appends, in the order it appends them. */
  function Attributes(opts: CookieOptions, style: Capitalisation): seq<Attr>
  {
    Emitted(Slots(opts, style))
  }

  function RenderAttr(a: Attr): (r: string)
    ensures |r| >= 2 && r[0] == ';'
  {
    "; " + KeyText(a.kind) + (match a.value case None => "" case Some(v) => "=" + v)
  }

  function Render(attrs: seq<Attr>): (r: string)
    ensures attrs != [] ==> |r| > 0 && r[0] == ';'
  {
    if attrs == [] then "" else RenderAttr(attrs[0]) + Render(attrs[1..])
  }

  /** `createHeader(opts)`: the encoded pair, then the attributes. */
  function CreateHeader(opts: CookieOptions, style: Capitalisation): string
  {
    Encode(opts.name) + "=" + Encode(opts.value) + Render(Attributes(opts, style))
  }

  function Kinds(attrs: seq<Attr>): (r: seq<AttrKind>)
    ensures |r| == |attrs| && forall i :: 0 <= i < |r| ==> r[i] == attrs[i].kind
  {
    seq(|attrs|, i requires 0 <= i < |attrs| => attrs[i].kind)
  }

  /** An attribute is appended exactly when one of the slots holding it is switched on. */
  lemma {:induction false} EmittedFrom(slots: seq<Slot>, a: Attr)
    ensures a in Emitted(slots) <==> exists i :: 0 <= i < |slots| && slots[i].on && slots[i].attr == a
  {
    if slots != [] {
      EmittedFrom(slots[1..], a);
      if a in Emitted(slots[1..]) {
        var i :| 0 <= i < |slots[1..]| && slots[1..][i].on && slots[1..][i].attr == a;
        assert slots[i + 1].on && slots[i + 1].attr == a;
      }
      if exists i :: 0 <= i < |slots| && slots[i].on && slots[i].attr == a {
        var i :| 0 <= i < |slots| && slots[i].on && slots[i].attr == a;
        if i > 0 {
          assert slots[1..][i - 1] == slots[i];
        }
      }
    }
  }

  lemma {:induction false} EmittedKinds(slots: seq<Slot>, k: AttrKind)
    ensures k in Kinds(Emitted(slots)) <==> exists i :: 0 <= i < |slots| && slots[i].on && slots[i].attr.kind == k
  {
    if k in Kinds(Emitted(slots)) {
      var j :| 0 <= j < |Emitted(slots)| && Kinds(Emitted(slots))[j] == k;
      EmittedFrom(slots, Emitted(slots)[j]);
    }
    if exists i :: 0 <= i < |slots| && slots[i].on && slots[i].attr.kind == k {
      var i :| 0 <= i < |slots| && slots[i].on && slots[i].attr.kind == k;
      EmittedFrom(slots, slots[i].attr);
      var j :| 0 <= j < |Emitted(slots)| && Emitted(slots)[j] == slots[i].attr;
      assert Kinds(Emitted(slots))[j] == k;
    }
  }

  /** Slots whose ranks increase give attributes whose ranks increase. */
  lemma {:induction false} EmittedOrdered(slots: seq<Slot>)
    requires forall i, j :: 0 <= i < j < |slots| ==> Rank(slots[i].attr.kind) < Rank(slots[j].attr.kind)
    ensures forall i, j :: 0 <= i < j < |Emitted(slots)| ==> Rank(Emitted(slots)[i].kind) < Rank(Emitted(slots)[j].kind)
  {
    if slots != [] {
      var rest := Emitted(slots[1..]);
      EmittedOrdered(slots[1..]);
      forall a | a in rest
        ensures Rank(slots[0].attr.kind) < Rank(a.kind)
      {
        EmittedFrom(slots[1..], a);
      }
    }
  }

  /**
   * Which attributes appear: Domain only when defined, Path and SameSite
   * always, Expires only when truthy, Max-Age only for a non-zero whole
   * number, each flag only when it is exactly `true`.
   */
  lemma AttributesPresent(opts: CookieOptions, style: Capitalisation)
    ensures DomainAttr in Kinds(Attributes(opts, style)) <==> Defined(opts.domain)
    ensures PathAttr in Kinds(Attributes(opts, style)) && SameSiteAttr in Kinds(Attributes(opts, style))
    ensures ExpiresAttr in Kinds(Attributes(opts, style)) <==> ExpiresSet(opts.expires)
    ensures MaxAgeAttr in Kinds(Attributes(opts, style)) <==> MaxAgeSet(opts.maxAge)
    ensures SecureFlag in Kinds(Attributes(opts, style)) <==> opts.secure == Some(true)
    ensures HttpOnlyFlag in Kinds(Attributes(opts, style)) <==> opts.httpOnly == Some(true)
    ensures PartitionedFlag in Kinds(Attributes(opts, style)) <==> opts.partitioned == Some(true)
  {
    var slots := Slots(opts, style);
    forall k: AttrKind
      ensures k in Kinds(Emitted(slots)) <==> slots[Rank(k)].on
    {
      EmittedKinds(slots, k);
      if exists i :: 0 <= i < |slots| && slots[i].on && slots[i].attr.kind == k {
        var i :| 0 <= i < |slots| && slots[i].on && slots[i].attr.kind == k;
        assert i == Rank(k);
      }
      assert slots[Rank(k)].attr.kind == k;
    }
  }

  /** Each attribute appears at most once, in the fixed order Domain, Path, Expires, Max-Age, Secure, HttpOnly, Partitioned, SameSite. */
  lemma AttributesOrdered(opts: CookieOptions, style: Capitalisation)
    ensures forall i, j :: 0 <= i < j < |Attributes(opts, style)| ==>
      Rank(Attributes(opts, style)[i].kind) < Rank(Attributes(opts, style)[j].kind)
  {
    EmittedOrdered(Slots(opts, style));
  }

  /**
   * The value each attribute carries: the given domain, the path or "/", the
   * expiry's UTC text, Max-Age in decimal, no value for a flag, and SameSite
   * capitalised or "Lax".
   */
  lemma AttributeValues(opts: CookieOptions, style: Capitalisation)
    ensures forall a :: a in Attributes(opts, style) ==>
      (a.kind == DomainAttr ==> a.value == opts.domain) &&
      (a.kind == PathAttr ==> a.value == Some(if Defined(opts.path) then opts.path.value else "/")) &&
      (a.kind == ExpiresAttr ==> opts.expires.Some? && a.value == Some(opts.expires.value.utc)) &&
      (a.kind == MaxAgeAttr ==> opts.maxAge.Some? && opts.maxAge.value.Whole? && a.value == Some(IntToString(opts.maxAge.value.seconds))) &&
      (a.kind == SecureFlag || a.kind == HttpOnlyFlag || a.kind == PartitionedFlag ==> a.value == None) &&
      (a.kind == SameSiteAttr ==> a.value == Some(if Defined(opts.sameSite) then Capitalise(opts.sameSite.value, style) else "Lax"))
  {
    var slots := Slots(opts, style);
    forall a | a in Attributes(opts, style)
      ensures exists i :: 0 <= i < 8 && slots[i].on && slots[i].attr == a
    {
      EmittedFrom(slots, a);
    }
  }

  /** The header opens with the encoded `name=value` pair and its first attribute separator. */
  lemma HeaderOpens(opts: CookieOptions, style: Capitalisation)
    ensures StartsWith(CreateHeader(opts, style), Encode(opts.name) + "=" + Encode(opts.value) + ";")
  {
    var pair := Encode(opts.name) + "=" + Encode(opts.value);
    var rest := Render(Attributes(opts, style));
    PathAlwaysEmitted(opts, style);
    assert CreateHeader(opts, style) == pair + rest;
    assert (pair + rest)[..|pair| + 1] == pair + ";";
  }

  /** `extractValue` of the src jar; `None` is the `URIError` decoding throws. */
  function ExtractValue(cookieString: string): Option<string>
  {
    var encodedRest := AfterMark('=', cookieString);
    if !TextIsDefined(encodedRest) then Some("")
    else Decode(BeforeMark(';', encodedRest))
  }

  /** `decodeValue`: `NoValue` is the `null` for an empty remainder, `Malformed` the `URIError`. */
  datatype Decoded = NoValue | Value(text: string) | Malformed

  function DecodeValue(cookieString: string): Decoded
  {
    var encodedValue := AfterMark('=', cookieString);
    if encodedValue == "" then NoValue
    else match Decode(encodedValue)
      case None => Malformed
      case Some(v) => Value(v)
  }

  /**
   * The name `extractOptions` reads back from a stored header: the first
   * `=`-separated part, trimmed, of the text before the first `;`, trimmed.
   */
  function ParsedName(cookieString: string): string
  {
    Trim(BeforeMark('=', Trim(BeforeMark(';', cookieString))))
  }

  lemma DefinedByChar(s: string, i: nat)
    requires i < |s| && !IsSpace(s[i])
    ensures TextIsDefined(s)
  {
    TrimEmptyIffBlank(s);
  }

  lemma TrimEncoded(s: string)
    requires forall i :: 0 <= i < |s| ==> EncodedChar(s[i]) || s[i] == '='
    ensures Trim(s) == s
  {
    if s != "" {
      SeparatorNotSpace(s[0]);
      SeparatorNotSpace(s[|s| - 1]);
      TrimNoSpaceEnds(s);
    }
  }

  /** Percent-encoding leaves no `=` or `;`, the separators of a cookie string. */
  lemma NoSeparators(s: string)
    ensures '=' !in Encode(s) && ';' !in Encode(s)
  {
    EncodeChars(s);
  }

  lemma PathAlwaysEmitted(opts: CookieOptions, style: Capitalisation)
    ensures Attributes(opts, style) != []
  {
    EmittedFrom(Slots(opts, style), Slots(opts, style)[1].attr);
  }

  lemma NameSegment(name: string, rest: string)
    ensures AfterMark('=', Encode(name) + ['='] + rest) == rest
    ensures BeforeMark('=', Encode(name) + ['='] + rest) == Encode(name)
  {
    NoSeparators(name);
    MarkSides(Encode(name), '=', rest);
  }

  lemma ValueSegment(value: string, t: string)
    ensures TextIsDefined(Encode(value) + [';'] + t)
    ensures BeforeMark(';', Encode(value) + [';'] + t) == Encode(value)
  {
    NoSeparators(value);
    MarkSides(Encode(value), ';', t);
    var rest := Encode(value) + [';'] + t;
    assert rest[|Encode(value)|] == ';';
    DefinedByChar(rest, |Encode(value)|);
  }

  /** An encoded pair followed by any `;`-led tail reads back as the value it encodes. */
  lemma ExtractPair(name: string, value: string, tail: string)
    requires |tail| > 0 && tail[0] == ';'
    ensures ExtractValue(Encode(name) + "=" + Encode(value) + tail) == Some(value)
  {
    var rest := Encode(value) + [';'] + tail[1..];
    assert tail == [';'] + tail[1..];
    assert Encode(name) + "=" + Encode(value) + tail == Encode(name) + ['='] + rest;
    NameSegment(name, rest);
    ValueSegment(value, tail[1..]);
    DecodeEncode(value);
  }

  /** `extractValue` inverts `createHeader`: the stored header gives back the value it was made from. */
  lemma ExtractCreated(opts: CookieOptions, style: Capitalisation)
    ensures ExtractValue(CreateHeader(opts, style)) == Some(opts.value)
  {
    PathAlwaysEmitted(opts, style);
    ExtractPair(opts.name, opts.value, Render(Attributes(opts, style)));
  }

  /** The name read back from an encoded pair followed by any `;`-led tail is the encoded name. */
  lemma ParsedPairName(name: string, value: string, tail: string)
    requires |tail| > 0 && tail[0] == ';'
    ensures ParsedName(Encode(name) + "=" + Encode(value) + tail) == Encode(name)
  {
    PairFirst(name, value, tail);
    TrimPair(name, value);
    NameSegment(name, Encode(value));
    TrimName(name);
  }

  lemma PairFirst(name: string, value: string, tail: string)
    requires |tail| > 0 && tail[0] == ';'
    ensures BeforeMark(';', Encode(name) + "=" + Encode(value) + tail) == Encode(name) + ['='] + Encode(value)
  {
    NoSeparators(name);
    NoSeparators(value);
    PairBeforeTail(Encode(name), Encode(value), tail);
  }

  /** A pair holding no ";" ends at the ";" that opens the tail. */
  lemma PairBeforeTail(a: string, b: string, tail: string)
    requires ';' !in a && ';' !in b
    requires |tail| > 0 && tail[0] == ';'
    ensures BeforeMark(';', a + "=" + b + tail) == a + ['='] + b
  {
    var pair := a + ['='] + b;
    assert ';' !in pair;
    assert tail == [';'] + tail[1..];
    assert a + "=" + b + tail == pair + [';'] + tail[1..];
    MarkSides(pair, ';', tail[1..]);
  }

  lemma TrimPair(name: string, value: string)
    ensures Trim(Encode(name) + ['='] + Encode(value)) == Encode(name) + ['='] + Encode(value)
  {
    EncodeChars(name);
    EncodeChars(value);
    TrimEncodedPair(Encode(name), Encode(value));
  }

  lemma TrimEncodedPair(a: string, b: string)
    requires forall i :: 0 <= i < |a| ==> EncodedChar(a[i])
    requires forall i :: 0 <= i < |b| ==> EncodedChar(b[i])
    ensures Trim(a + ['='] + b) == a + ['='] + b
  {
    var p := a + ['='] + b;
    forall i | 0 <= i < |p|
      ensures EncodedChar(p[i]) || p[i] == '='
    {
      if i < |a| {
        assert p[i] == a[i];
      } else if i > |a| {
        assert p[i] == b[i - |a| - 1];
      }
    }
    TrimEncoded(p);
  }

  lemma SeparatorNotSpace(c: char)
    requires EncodedChar(c) || c == '='
    ensures !IsSpace(c)
  {
  }

  lemma TrimName(name: string)
    ensures Trim(Encode(name)) == Encode(name)
  {
    EncodeChars(name);
    TrimEncoded(Encode(name));
  }


  /** The name read back from a stored header is the encoded name it was made with. */
  lemma ParsedCreatedName(opts: CookieOptions, style: Capitalisation)
    ensures ParsedName(CreateHeader(opts, style)) == Encode(opts.name)
  {
    PathAlwaysEmitted(opts, style);
    ParsedPairName(opts.name, opts.value, Render(Attributes(opts, style)));
  }

  /**
   * `decodeValue` inverts the encoding of a `name=value` pair whose name needs
   * no `=`: an empty value reads back as `null`, any other as itself.
   */
  lemma DecodeEncodedPair(name: string, value: string)
    ensures DecodeValue(Encode(name) + "=" + Encode(value)) == if value == "" then NoValue else Value(value)
  {
    NoSeparators(name);
    MarkSides(Encode(name), '=', Encode(value));
    assert Encode(name) + "=" + Encode(value) == Encode(name) + ['='] + Encode(value);
    EncodeLength(value);
    if value == "" {
      assert Encode(value) == "";
    }
    DecodeEncode(value);
  }

  /** `decodeValue` gives `null` exactly when nothing follows the first `=` (or there is none). */
  lemma DecodeValueNull(cookieString: string)
    ensures DecodeValue(cookieString) == NoValue <==> AfterMark('=', cookieString) == ""
  {
  }

  /** `Map.set` of one cookie per element, in order: `setMany`, and `applyInit` over a list. */
  function StoreAll<V>(m: OrderedMap<V>, all: seq<CookieOptions>, entry: CookieOptions -> V): (r: OrderedMap<V>)
    ensures Valid(m) ==> Valid(r)
  {
    if all == [] then m else Put(StoreAll(m, all[..|all| - 1], entry), all[|all| - 1].name, entry(all[|all| - 1]))
  }

  lemma StoreOneMore<V>(m: OrderedMap<V>, all: seq<CookieOptions>, opts: CookieOptions, entry: CookieOptions -> V)
    ensures StoreAll(m, all + [opts], entry) == Put(StoreAll(m, all, entry), opts.name, entry(opts))
  {
    assert (all + [opts])[..|all|] == all;
  }

  /** The last element of `all` with the given name: the one a sequence of `set`s leaves in place. */
  function LastNamed(all: seq<CookieOptions>, name: string): (r: Option<CookieOptions>)
    ensures r.Some? ==> r.value in all && r.value.name == name
    ensures r.None? ==> forall i :: 0 <= i < |all| ==> all[i].name != name
  {
    if all == [] then None
    else if all[|all| - 1].name == name then Some(all[|all| - 1])
    else LastNamed(all[..|all| - 1], name)
  }

  /**
   * After storing a list of cookies, each name holds the entry of the last
   * cookie so named; names the list does not mention keep their entries, and
   * no key is lost or moved.
   */
  lemma {:induction false} StoreAllEntries<V>(m: OrderedMap<V>, all: seq<CookieOptions>, entry: CookieOptions -> V, name: string)
    ensures LastNamed(all, name).Some? ==> name in StoreAll(m, all, entry).items && StoreAll(m, all, entry).items[name] == entry(LastNamed(all, name).value)
    ensures LastNamed(all, name).None? ==> (name in StoreAll(m, all, entry).items <==> name in m.items)
    ensures LastNamed(all, name).None? && name in m.items ==> StoreAll(m, all, entry).items[name] == m.items[name]
    ensures |m.keys| <= |StoreAll(m, all, entry).keys| && StoreAll(m, all, entry).keys[..|m.keys|] == m.keys
  {
    if all != [] {
      var init := all[..|all| - 1];
      var last := all[|all| - 1];
      var prev := StoreAll(m, init, entry);
      StoreAllEntries(m, init, entry, name);
      assert StoreAll(m, all, entry) == Put(prev, last.name, entry(last));
      assert LastNamed(all, name) == if last.name == name then Some(last) else LastNamed(init, name);
      KeysPrefix(m.keys, prev.keys, StoreAll(m, all, entry).keys);
    }
  }

  lemma KeysPrefix(a: seq<string>, b: seq<string>, c: seq<string>)
    requires |a| <= |b| && b[..|a|] == a
    requires |b| <= |c| && c[..|b|] == b
    ensures |a| <= |c| && c[..|a|] == a
  {
    assert c[..|a|] == c[..|b|][..|a|];
  }
}
