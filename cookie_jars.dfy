// The Map-based cookie jars: src/Cookies/CookiesUsingMap.ts, which keeps each
// cookie's Set-Cookie header, with `applyInit` of src/Cookies/CookiesAbstract.ts;
// and src/modules/Cookies/variants/CookiesUsingMap.ts, which keeps each
// cookie's options, with `applyInit` of src/modules/Cookies/CookiesAbstract.ts.

/** The src jar: a `Map` from cookie name to its Set-Cookie header. */
module CookieJar {
  import opened Wrappers
  import opened Strings
  import opened UriComponent
  import opened OrderedMaps
  import opened CookieHeader
  import CookieExtract

  type Store = OrderedMap<string>

  /** The header `set` stores: src's `createHeader`. */
  function Header(opts: CookieOptions): string
  {
    CreateHeader(opts, EachWord)
  }

  /** Every stored header reads back without a decoding error. */
  ghost predicate Readable(s: Store)
  {
    forall k {:trigger ExtractValue(s.items[k])} :: k in s.items ==> ExtractValue(s.items[k]).Some?
  }

  /**
   * What `set` keeps true of every entry: the keys enumerate the map, each
   * header reads back, and the name read back is the encoded key.
   */
  ghost predicate Sound(s: Store)
  {
    Valid(s) && Readable(s) && Named(s)
  }

  ghost predicate Named(s: Store)
  {
    forall k {:trigger ParsedName(s.items[k])} :: k in s.items ==> ParsedName(s.items[k]) == Encode(k)
  }

  /** `get(name)`: the stored value when it is defined, else `null`. */
  function ValueOf(s: Store, name: string): (r: Option<string>)
    requires Readable(s)
    ensures r.Some? ==> name in s.items && TextIsDefined(r.value)
  {
    if name !in s.items || s.items[name] == "" then None
    else
      var value := ExtractValue(s.items[name]).value;
      if TextIsDefined(value) then Some(value) else None
  }

  /** `has(name)`: the key is present and `get` gives a non-empty string. */
  function HasIn(s: Store, name: string): (r: bool)
    requires Readable(s)
    ensures r <==> ValueOf(s, name).Some?
  {
    if name !in s.items then false
    else match ValueOf(s, name)
      case None => false
      case Some(v) => v != ""
  }

  /** `values()`: each stored header's extracted value, in key order. */
  function ValuesIn(s: Store): (r: seq<string>)
    requires Readable(s) && forall k :: k in s.keys ==> k in s.items
    ensures |r| == |s.keys|
    ensures forall i :: 0 <= i < |r| ==> Some(r[i]) == ExtractValue(s.items[s.keys[i]])
  {
    seq(|s.keys|, i requires 0 <= i < |s.keys| => ExtractValue(s.items[s.keys[i]]).value)
  }

  function Ind(b: bool): nat
  {
    if b then 1 else 0
  }

  /** `values.filter(strIsDefined).length`. */
  function CountDefined(values: seq<string>): nat
  {
    if values == [] then 0 else CountDefined(values[..|values| - 1]) + Ind(TextIsDefined(values[|values| - 1]))
  }

  /** `count`. */
  function CountIn(s: Store): nat
    requires Readable(s) && forall k :: k in s.keys ==> k in s.items
  {
    CountDefined(ValuesIn(s))
  }

  /** How many of `names` `get` answers with a value. */
  function Answering(s: Store, names: seq<string>): nat
    requires Readable(s)
  {
    if names == [] then 0 else Answering(s, names[..|names| - 1]) + Ind(ValueOf(s, names[|names| - 1]).Some?)
  }

  /**
   * `delete(name)` as written: the options read back from the stored header,
   * with an empty value and the epoch expiry, are re-set under the name read
   * back, which is the name percent-encoded; a Max-Age read back is kept.
   */
  function DeleteAsWritten(s: Store, name: string): Store
    requires Readable(s)
  {
    if name !in s.items || s.items[name] == "" then s
    else
      var reset := CookieExtract.ResetOptions(s.items[name]);
      Put(s, reset.name, Header(reset))
  }

  /** `delete(name)`, corrected: the read-back options re-set under `name` itself, without Max-Age. */
  function Deleted(s: Store, name: string): Store
    requires Readable(s)
  {
    if name !in s.items || s.items[name] == "" then s
    else Put(s, name, Header(CookieExtract.Cleared(s.items[name], name)))
  }

  /** `get` reports a value exactly when the value read back is defined, and `""` never counts. */
  lemma ValueOfDefined(s: Store, name: string)
    requires Readable(s) && name in s.items
    ensures ValueOf(s, name).Some? <==> TextIsDefined(ExtractValue(s.items[name]).value)
  {
    if s.items[name] == "" {
      assert AfterMark('=', "") == "";
      assert !TextIsDefined("");
    }
  }

  /** Storing a header made by `set` keeps every entry sound. */
  lemma PutSound(s: Store, opts: CookieOptions)
    requires Sound(s)
    ensures Sound(Put(s, opts.name, Header(opts)))
  {
    PutReadable(s, opts);
    PutNamed(s, opts);
  }

  lemma PutReadable(s: Store, opts: CookieOptions)
    requires Readable(s)
    ensures Readable(Put(s, opts.name, Header(opts)))
  {
    ExtractCreated(opts, EachWord);
  }

  lemma PutNamed(s: Store, opts: CookieOptions)
    requires Named(s)
    ensures Named(Put(s, opts.name, Header(opts)))
  {
    ParsedCreatedName(opts, EachWord);
  }

  /**
   * After `set(opts)`, `get(opts.name)` gives back the value when it is
   * defined and `null` otherwise; every other name answers as before.
   */
  lemma GetAfterSet(s: Store, opts: CookieOptions, name: string)
    requires Readable(s)
    ensures Readable(Put(s, opts.name, Header(opts)))
    ensures ValueOf(Put(s, opts.name, Header(opts)), name) ==
      if name == opts.name then (if TextIsDefined(opts.value) then Some(opts.value) else None)
      else ValueOf(s, name)
  {
    var t := Put(s, opts.name, Header(opts));
    PutReadable(s, opts);
    if name == opts.name {
      HeaderReads(opts);
      assert t.items[name] == Header(opts);
    } else {
      assert (name in t.items) == (name in s.items);
      assert name in s.items ==> t.items[name] == s.items[name];
    }
  }

  /** A header made by `set` is never empty and reads back as its value. */
  lemma HeaderReads(opts: CookieOptions)
    ensures Header(opts) != "" && ExtractValue(Header(opts)) == Some(opts.value)
  {
    ExtractCreated(opts, EachWord);
    PathAlwaysEmitted(opts, EachWord);
  }

  lemma {:induction false} CountDefinedUpdate(values: seq<string>, i: nat, x: string)
    requires i < |values|
    ensures CountDefined(values[i := x]) + Ind(TextIsDefined(values[i])) == CountDefined(values) + Ind(TextIsDefined(x))
  {
    var n := |values| - 1;
    if i < n {
      assert values[i := x][..n] == values[..n][i := x];
      CountDefinedUpdate(values[..n], i, x);
    } else {
      assert values[i := x][..n] == values[..n];
    }
  }

  lemma PutReadableHeader(s: Store, name: string, header: string)
    requires Readable(s) && ExtractValue(header).Some?
    ensures Readable(Put(s, name, header))
  {
  }

  lemma ValuesAfterReplace(s: Store, name: string, header: string, i: nat)
    requires Valid(s) && Readable(s) && i < |s.keys| && s.keys[i] == name && ExtractValue(header).Some?
    requires Readable(Put(s, name, header))
    ensures ValuesIn(Put(s, name, header)) == ValuesIn(s)[i := ExtractValue(header).value]
  {
    var t := Put(s, name, header);
    assert t.keys == s.keys;
    var before := ValuesIn(s);
    var after := ValuesIn(t);
    assert after[i] == ExtractValue(header).value by {
      assert Some(after[i]) == ExtractValue(t.items[name]);
    }
    forall j | 0 <= j < |s.keys| && j != i
      ensures after[j] == before[j]
    {
      var k := s.keys[j];
      assert k != name;
      assert Some(after[j]) == ExtractValue(t.items[k]) == ExtractValue(s.items[k]) == Some(before[j]);
    }
    UpdatedAt(before, after, i, ExtractValue(header).value);
  }

  lemma UpdatedAt<T>(a: seq<T>, b: seq<T>, i: nat, v: T)
    requires |a| == |b| && i < |a| && b[i] == v
    requires forall j :: 0 <= j < |a| && j != i ==> b[j] == a[j]
    ensures b == a[i := v]
  {
  }

  /**
   * Replacing one stored header changes `count` by the difference its value
   * makes: one less when the old value was defined, one more when the new one is.
   */
  lemma CountAfterReplace(s: Store, name: string, header: string)
    requires Valid(s) && Readable(s) && name in s.keys && ExtractValue(header).Some?
    ensures Readable(Put(s, name, header))
    ensures CountIn(Put(s, name, header)) + Ind(TextIsDefined(ExtractValue(s.items[name]).value)) ==
      CountIn(s) + Ind(TextIsDefined(ExtractValue(header).value))
  {
    PutReadableHeader(s, name, header);
    var i :| 0 <= i < |s.keys| && s.keys[i] == name;
    ValuesAfterReplace(s, name, header, i);
    CountDefinedUpdate(ValuesIn(s), i, ExtractValue(header).value);
  }

  lemma {:induction false} CountIsAnswering(s: Store, n: nat)
    requires Valid(s) && Readable(s) && n <= |s.keys|
    ensures CountDefined(ValuesIn(s)[..n]) == Answering(s, s.keys[..n])
  {
    if n > 0 {
      CountIsAnswering(s, n - 1);
      CountStep(ValuesIn(s), n);
      AnsweringStep(s, s.keys, n);
      ValueOfDefined(s, s.keys[n - 1]);
    }
  }

  lemma CountStep(values: seq<string>, n: nat)
    requires 0 < n <= |values|
    ensures CountDefined(values[..n]) == CountDefined(values[..n - 1]) + Ind(TextIsDefined(values[n - 1]))
  {
    assert values[..n][..n - 1] == values[..n - 1];
  }

  lemma AnsweringStep(s: Store, names: seq<string>, n: nat)
    requires Readable(s) && 0 < n <= |names|
    ensures Answering(s, names[..n]) == Answering(s, names[..n - 1]) + Ind(ValueOf(s, names[n - 1]).Some?)
  {
    assert names[..n][..n - 1] == names[..n - 1];
  }

  /** `count` is the number of stored names whose `get` is not `null`. */
  lemma CountAnswers(s: Store)
    requires Valid(s) && Readable(s)
    ensures CountIn(s) == Answering(s, s.keys)
  {
    var values := ValuesIn(s);
    CountIsAnswering(s, |s.keys|);
    TakeAll(values);
    TakeAll(s.keys);
  }

  lemma TakeAll<T>(x: seq<T>)
    ensures x[..|x|] == x
  {
  }

  /**
   * `delete(name)`, corrected: afterwards `get(name)` is `null` and `has(name)`
   * false, the number of headers is unchanged, `count` drops by one exactly when
   * the cookie had a value, and every other name answers as before.
   */
  lemma DeleteClears(s: Store, name: string)
    requires Sound(s)
    ensures Sound(Deleted(s, name))
    ensures ValueOf(Deleted(s, name), name) == None && !HasIn(Deleted(s, name), name)
    ensures Deleted(s, name).keys == s.keys
    ensures CountIn(Deleted(s, name)) == CountIn(s) - Ind(ValueOf(s, name).Some?)
    ensures forall k :: k != name ==> ValueOf(Deleted(s, name), k) == ValueOf(s, k)
  {
    if name in s.items && s.items[name] != "" {
      var expired := CookieExtract.Cleared(s.items[name], name);
      PutSound(s, expired);
      GetAfterSet(s, expired, name);
      assert !TextIsDefined("");
      ExtractCreated(expired, EachWord);
      CountAfterReplace(s, name, Header(expired));
      ValueOfDefined(s, name);
      forall k | k != name
        ensures ValueOf(Deleted(s, name), k) == ValueOf(s, k)
      {
        GetAfterSet(s, expired, k);
      }
    } else if name in s.items {
      ValueOfDefined(s, name);
    }
  }

  /**
   * For a name that percent-encoding leaves alone, `delete` as written re-sets
   * the cookie under its own key: `get(name)` is `null` afterwards and the
   * keys are unchanged.
   */
  lemma DeleteAsWrittenPlainName(s: Store, name: string)
    requires Sound(s) && Encode(name) == name
    ensures Readable(DeleteAsWritten(s, name))
    ensures ValueOf(DeleteAsWritten(s, name), name) == None
    ensures DeleteAsWritten(s, name).keys == s.keys
  {
    if name in s.items && s.items[name] != "" {
      var reset := CookieExtract.ResetOptions(s.items[name]);
      assert reset.name == name;
      GetAfterSet(s, reset, name);
      assert !TextIsDefined("");
    }
  }

  /**
   * `delete` as written, on a cookie set with a Max-Age: the header it stores
   * carries that Max-Age beside the epoch expiry, and by section 5.3 of
   * RFC 6265 the Max-Age wins, so the client keeps the cookie.
   */
  lemma DeleteAsWrittenKeepsMaxAge(s: Store, name: string, opts: CookieOptions)
    requires Readable(s) && name in s.items && s.items[name] == Header(opts)
    requires CookieExtract.ReadsBack(opts) && MaxAgeSet(opts.maxAge)
    ensures Encode(opts.name) in DeleteAsWritten(s, name).items
    ensures var stored := CookieExtract.ResetOptions(Header(opts));
      DeleteAsWritten(s, name).items[Encode(opts.name)] == Header(stored) &&
      Attr(MaxAgeAttr, Some(IntToString(opts.maxAge.value.seconds))) in Attributes(stored, EachWord) &&
      Attr(ExpiresAttr, Some(EpochUtc)) in Attributes(stored, EachWord)
  {
    HeaderOpens(opts, EachWord);
    CookieExtract.ResetKeepsAttributes(opts);
    CookieExtract.ResetKeepsMaxAge(opts);
  }

  /**
   * The corrected `delete`, on a cookie set from `opts`: the header it stores
   * is that of `opts` with an empty value, the epoch expiry and no Max-Age, so
   * Domain, Path, the flags and SameSite match the cookie being removed.
   */
  lemma DeletedHeader(s: Store, name: string, opts: CookieOptions)
    requires Readable(s) && name in s.items && s.items[name] == Header(opts)
    requires CookieExtract.ReadsBack(opts)
    ensures Deleted(s, name).items[name] ==
      Header(opts.(name := name, value := "", expires := Some(ExpiresDate(EpochUtc)), maxAge := None))
  {
    HeaderOpens(opts, EachWord);
    CookieExtract.ClearedAttributes(opts, name);
  }

  /**
   * `delete` as written misses a cookie whose name percent-encoding changes
   * (one with a space, say): `get` still answers with its value afterwards, and
   * the expired header lands under the encoded name instead.
   */
  lemma DeleteAsWrittenMisses(s: Store, name: string, i: nat)
    requires Sound(s) && name in s.items && s.items[name] != ""
    requires i < |name| && !Unreserved(name[i])
    ensures Readable(DeleteAsWritten(s, name))
    ensures Encode(name) in DeleteAsWritten(s, name).items
    ensures ValueOf(DeleteAsWritten(s, name), name) == ValueOf(s, name)
  {
    var reset := CookieExtract.ResetOptions(s.items[name]);
    EncodeChangesReserved(name, i);
    assert reset.name == Encode(name);
    PutReadable(s, reset);
    GetAfterSet(s, reset, name);
  }

  /** `applyInit` from another jar: each of its names with `get(name) ?? ""`, in its key order. */
  function Copies(s: Store): (r: seq<CookieOptions>)
    requires Readable(s) && forall k :: k in s.keys ==> k in s.items
    ensures |r| == |s.keys| && forall i :: 0 <= i < |r| ==> r[i].name == s.keys[i]
  {
    seq(|s.keys|, i requires 0 <= i < |s.keys| => Plain(s.keys[i], ValueOf(s, s.keys[i]).GetOr("")))
  }

  lemma {:induction false} LastNamedUnique(all: seq<CookieOptions>, i: nat)
    requires i < |all| && forall j :: 0 <= j < |all| && j != i ==> all[j].name != all[i].name
    ensures LastNamed(all, all[i].name) == Some(all[i])
  {
    var n := |all| - 1;
    if i < n {
      LastNamedUnique(all[..n], i);
    }
  }

  /** The entry a copied name gets: the header of `{ name, value: get(name) ?? "" }`. */
  lemma CopiedEntry(j: Store, i: nat)
    requires Sound(j) && i < |j.keys|
    ensures j.keys[i] in StoreAll(EmptyMap(), Copies(j), Header).items
    ensures StoreAll(EmptyMap(), Copies(j), Header).items[j.keys[i]] == Header(Plain(j.keys[i], ValueOf(j, j.keys[i]).GetOr("")))
  {
    LastNamedUnique(Copies(j), i);
    StoreAllEntries(EmptyMap(), Copies(j), Header, j.keys[i]);
  }

  lemma CopiedAbsent(j: Store, name: string)
    requires Sound(j) && name !in j.keys
    ensures name !in StoreAll(EmptyMap(), Copies(j), Header).items
  {
    StoreAllEntries(EmptyMap(), Copies(j), Header, name);
  }

  /**
   * A jar built from a jar answers `get` like it for every name: a defined
   * value is copied, a missing one becomes `""`, which reads back as `null`.
   */
  lemma CopyAnswersAlike(j: Store, name: string)
    requires Sound(j)
    ensures Readable(StoreAll(EmptyMap(), Copies(j), Header))
    ensures ValueOf(StoreAll(EmptyMap(), Copies(j), Header), name) == ValueOf(j, name)
  {
    StoreAllSound(EmptyMap(), Copies(j));
    if name in j.keys {
      var i :| 0 <= i < |j.keys| && j.keys[i] == name;
      CopiedEntry(j, i);
      HeaderReads(Plain(name, ValueOf(j, name).GetOr("")));
      assert !TextIsDefined("");
    } else {
      CopiedAbsent(j, name);
    }
  }

  /** Storing any list of cookies keeps every entry sound. */
  lemma {:induction false} StoreAllSound(s: Store, all: seq<CookieOptions>)
    requires Sound(s)
    ensures Sound(StoreAll(s, all, Header))
  {
    if all != [] {
      StoreAllSound(s, all[..|all| - 1]);
      PutSound(StoreAll(s, all[..|all| - 1], Header), all[|all| - 1]);
    }
  }

  /** What `new CookiesUsingMap(init)` is given. */
  datatype Init = NoInit | FromJar(jar: CookiesUsingMap) | FromList(all: seq<CookieOptions>) | FromOne(opts: CookieOptions)

  class CookiesUsingMap {
    var store: Store

    ghost predicate Valid()
      reads this
    {
      Sound(store)
    }

    constructor (init: Init)
      requires init.FromJar? ==> init.jar.Valid()
      ensures Valid()
      ensures init.NoInit? ==> store == EmptyMap()
      ensures init.FromJar? ==> store == StoreAll(EmptyMap(), Copies(init.jar.store), Header)
      ensures init.FromList? ==> store == StoreAll(EmptyMap(), init.all, Header)
      ensures init.FromOne? ==> store == StoreAll(EmptyMap(), [init.opts], Header)
    {
      store := EmptyMap();
      new;
      if !init.NoInit? {
        ApplyInit(init);
      }
    }

    /**
     * `applyInit`: a jar's names are copied with `get(name) ?? ""` (its keys are
     * read once, before any is set), a list is set in order, a single record is set.
     */
    method ApplyInit(init: Init)
      requires Valid() && !init.NoInit?
      requires init.FromJar? ==> init.jar.Valid()
      modifies this
      ensures Valid()
      ensures init.FromJar? ==> store == StoreAll(old(store), Copies(old(init.jar.store)), Header)
      ensures init.FromList? ==> store == StoreAll(old(store), init.all, Header)
      ensures init.FromOne? ==> store == StoreAll(old(store), [init.opts], Header)
    {
      var all := match init
        case FromJar(jar) => Copies(jar.store)
        case FromList(list) => list
        case FromOne(opts) => [opts];
      SetMany(all);
    }

    function Get(name: string): Option<string>
      reads this
      requires Valid()
    {
      ValueOf(store, name)
    }

    function Has(name: string): bool
      reads this
      requires Valid()
    {
      HasIn(store, name)
    }

    function Count(): nat
      reads this
      requires Valid()
    {
      CountIn(store)
    }

    function Keys(): seq<string>
      reads this
    {
      store.keys
    }

    function Values(): seq<string>
      reads this
      requires Valid()
    {
      ValuesIn(store)
    }

    /** `entries()`: each name with its stored header. */
    function Entries(): seq<(string, string)>
      reads this
      requires Valid()
    {
      var s := store;
      seq(|s.keys|, i requires 0 <= i < |s.keys| => (s.keys[i], s.items[s.keys[i]]))
    }

    /** `toSetCookieHeaders()`: the stored headers in key order. */
    function ToSetCookieHeaders(): seq<string>
      reads this
      requires Valid()
    {
      OrderedMaps.Values(store)
    }

    method Set(opts: CookieOptions)
      requires Valid()
      modifies this
      ensures Valid()
      ensures store == Put(old(store), opts.name, Header(opts))
      ensures Get(opts.name) == if TextIsDefined(opts.value) then Some(opts.value) else None
    {
      PutSound(store, opts);
      GetAfterSet(store, opts, opts.name);
      store := Put(store, opts.name, Header(opts));
    }

    method SetMany(all: seq<CookieOptions>)
      requires Valid()
      modifies this
      ensures Valid()
      ensures store == StoreAll(old(store), all, Header)
    {
      for i := 0 to |all|
        invariant Valid()
        invariant store == StoreAll(old(store), all[..i], Header)
      {
        StoreOneMore(old(store), all[..i], all[i], Header);
        TakeOneMore(all, i);
        Set(all[i]);
      }
      assert all[..|all|] == all;
    }

    method Delete(name: string)
      requires Valid()
      modifies this
      ensures Valid()
      ensures store == Deleted(old(store), name)
      ensures Get(name) == None && !Has(name)
      ensures |ToSetCookieHeaders()| == old(|ToSetCookieHeaders()|)
      ensures Count() == old(Count()) - Ind(old(Get(name)).Some?)
    {
      DeleteClears(store, name);
      if name in store.items && store.items[name] != "" {
        store := Put(store, name, Header(CookieExtract.Cleared(store.items[name], name)));
      }
    }
  }
}

/** The src/modules jar: a `Map` from cookie name to its options. */
module CookieOptionsJar {
  import opened Wrappers
  import opened Strings
  import opened OrderedMaps
  import opened CookieHeader

  type Store = OrderedMap<CookieOptions>

  function Same(opts: CookieOptions): CookieOptions
  {
    opts
  }

  /** `get(name)`: the stored value, `""` included, or `null`. */
  function ValueOf(s: Store, name: string): (r: Option<string>)
    ensures r.Some? <==> name in s.items
  {
    if name in s.items then Some(s.items[name].value) else None
  }

  /** `delete(opts)`: an empty value, the epoch expiry, the given path or "/", and the given domain. */
  function Expired(name: string, path: Option<string>, domain: Option<string>): CookieOptions
  {
    var p := if path.Some? && path.value != "" then path.value else "/";
    CookieOptions(name, "", domain, Some(p), Some(ExpiresDate(EpochUtc)), None, None, None, None, None)
  }

  /**
   * After `delete`, `get` gives `""` and `has` stays true; the header written
   * for the cookie carries the path (or "/"), the epoch expiry and the domain.
   */
  lemma DeleteLeavesEmpty(s: Store, name: string, path: Option<string>, domain: Option<string>)
    ensures ValueOf(Put(s, name, Expired(name, path, domain)), name) == Some("")
    ensures name in s.keys ==> Put(s, name, Expired(name, path, domain)).keys == s.keys
    ensures Attr(PathAttr, Some(if Defined(path) then path.value else "/")) in Attributes(Expired(name, path, domain), EachWord)
    ensures Attr(ExpiresAttr, Some(EpochUtc)) in Attributes(Expired(name, path, domain), EachWord)
    ensures Defined(domain) ==> Attr(DomainAttr, domain) in Attributes(Expired(name, path, domain), EachWord)
  {
    var slots := Slots(Expired(name, path, domain), EachWord);
    EmittedFrom(slots, slots[0].attr);
    EmittedFrom(slots, slots[1].attr);
    EmittedFrom(slots, slots[2].attr);
  }

  /** The Set-Cookie strings of a list of cookies, one each, in order. */
  function HeadersOf(all: seq<CookieOptions>): (r: seq<string>)
    ensures |r| == |all|
  {
    seq(|all|, i requires 0 <= i < |all| => CreateHeader(all[i], EachWord))
  }

  /**
   * `toSetCookieHeaders()` gives one string per stored cookie, in key order,
   * each reading back as that cookie's value.
   */
  lemma HeadersReadBack(all: seq<CookieOptions>, i: nat)
    requires i < |all|
    ensures ExtractValue(HeadersOf(all)[i]) == Some(all[i].value)
  {
    ExtractCreated(all[i], EachWord);
  }

  /** `Object.entries`-style pairs of a jar: each name with its stored value, in key order. */
  function EntriesOf(s: Store): (r: seq<(string, string)>)
    requires forall k :: k in s.keys ==> k in s.items
    ensures |r| == |s.keys| && forall i :: 0 <= i < |r| ==> r[i] == (s.keys[i], s.items[s.keys[i]].value)
  {
    seq(|s.keys|, i requires 0 <= i < |s.keys| => (s.keys[i], s.items[s.keys[i]].value))
  }

  function Plains(pairs: seq<(string, string)>): (r: seq<CookieOptions>)
    ensures |r| == |pairs| && forall i :: 0 <= i < |r| ==> r[i] == Plain(pairs[i].0, pairs[i].1)
  {
    if pairs == [] then [] else Plains(pairs[..|pairs| - 1]) + [Plain(pairs[|pairs| - 1].0, pairs[|pairs| - 1].1)]
  }

  function Chosen(pairs: seq<(string, string)>, skipEmpty: bool): seq<(string, string)>
  {
    if skipEmpty then Kept(pairs) else pairs
  }

  /** One more pair of `applyInit`: stored as `{ name, value }`, or skipped. */
  lemma StoredStep(start: OrderedMap<CookieOptions>, pairs: seq<(string, string)>, i: nat, skipEmpty: bool)
    requires i < |pairs|
    ensures StoreAll(start, Plains(Chosen(pairs[..i + 1], skipEmpty)), Same) ==
      if skipEmpty && (pairs[i].0 == "" || pairs[i].1 == "") then StoreAll(start, Plains(Chosen(pairs[..i], skipEmpty)), Same)
      else Put(StoreAll(start, Plains(Chosen(pairs[..i], skipEmpty)), Same), pairs[i].0, Plain(pairs[i].0, pairs[i].1))
  {
    ChosenStep(pairs, i, skipEmpty);
    var opts := Plain(pairs[i].0, pairs[i].1);
    StoreOneMore(start, Plains(Chosen(pairs[..i], skipEmpty)), opts, Same);
    assert Same(opts) == opts;
  }

  lemma ChosenStep(pairs: seq<(string, string)>, i: nat, skipEmpty: bool)
    requires i < |pairs|
    ensures Plains(Chosen(pairs[..i + 1], skipEmpty)) ==
      if skipEmpty && (pairs[i].0 == "" || pairs[i].1 == "") then Plains(Chosen(pairs[..i], skipEmpty))
      else Plains(Chosen(pairs[..i], skipEmpty)) + [Plain(pairs[i].0, pairs[i].1)]
  {
    assert pairs[..i + 1][..i] == pairs[..i];
    var c := Chosen(pairs[..i], skipEmpty);
    if !(skipEmpty && (pairs[i].0 == "" || pairs[i].1 == "")) {
      assert Chosen(pairs[..i + 1], skipEmpty) == c + [pairs[i]];
      assert (c + [pairs[i]])[..|c|] == c;
    }
  }

  /** `applyInit` over tuples: `if (!name || !value) continue`. */
  function Kept(pairs: seq<(string, string)>): seq<(string, string)>
  {
    if pairs == [] then []
    else
      var last := pairs[|pairs| - 1];
      Kept(pairs[..|pairs| - 1]) + (if last.0 == "" || last.1 == "" then [] else [last])
  }

  /** Only tuples with a non-empty name and a non-empty value are set, in their order. */
  lemma {:induction false} KeptTuples(pairs: seq<(string, string)>)
    ensures forall p :: p in Kept(pairs) ==> p in pairs && p.0 != "" && p.1 != ""
    ensures forall p :: p in pairs && p.0 != "" && p.1 != "" ==> p in Kept(pairs)
  {
    if pairs != [] {
      var n := |pairs| - 1;
      KeptTuples(pairs[..n]);
      assert pairs == pairs[..n] + [pairs[n]];
    }
  }

  /** What `applyInit` is given: another jar, an array of tuples, or a record's entries. */
  datatype Init = FromJar(jar: CookiesUsingMap) | FromTuples(tuples: seq<(string, string)>) | FromRecord(entries: seq<(string, string)>)

  class CookiesUsingMap {
    var store: Store

    ghost predicate Valid()
      reads this
    {
      OrderedMaps.Valid(store)
    }

    constructor ()
      ensures Valid() && store == EmptyMap()
    {
      store := EmptyMap();
    }

    method Set(opts: CookieOptions)
      requires Valid()
      modifies this
      ensures Valid()
      ensures store == Put(old(store), opts.name, opts)
    {
      store := Put(store, opts.name, opts);
    }

    function Get(name: string): Option<string>
      reads this
    {
      ValueOf(store, name)
    }

    function Has(name: string): bool
      reads this
    {
      name in store.items
    }

    method Delete(name: string, path: Option<string>, domain: Option<string>)
      requires Valid()
      modifies this
      ensures Valid()
      ensures store == Put(old(store), name, Expired(name, path, domain))
      ensures Get(name) == Some("") && Has(name)
    {
      DeleteLeavesEmpty(store, name, path, domain);
      Set(Expired(name, path, domain));
    }

    /**
     * `toSetCookieHeaders()`: one `createHeader` string per stored cookie, in
     * key order, each reading back as the cookie's value.
     */
    method ToSetCookieHeaders() returns (headers: seq<string>)
      requires Valid()
      ensures headers == HeadersOf(OrderedMaps.Values(store))
    {
      headers := [];
      var all := OrderedMaps.Values(store);
      for i := 0 to |all|
        invariant |headers| == i
        invariant forall j :: 0 <= j < i ==> headers[j] == HeadersOf(all)[j]
      {
        headers := headers + [HeadersOf(all)[i]];
      }
    }

    function Entries(): seq<(string, string)>
      reads this
      requires Valid()
    {
      EntriesOf(store)
    }

    function Values(): seq<string>
      reads this
      requires Valid()
    {
      var s := store;
      seq(|s.keys|, i requires 0 <= i < |s.keys| => s.items[s.keys[i]].value)
    }

    function Keys(): seq<string>
      reads this
    {
      store.keys
    }

    /**
     * `applyInit`: a jar's entries are set as `{ name, value }` (its entries
     * are read once, before any is set), tuples with an empty side are
     * skipped, and a record's entries are all set.
     */
    method ApplyInit(init: Init)
      requires Valid()
      requires init.FromJar? ==> init.jar.Valid()
      modifies this
      ensures Valid()
      ensures init.FromJar? ==> store == StoreAll(old(store), Plains(EntriesOf(old(init.jar.store))), Same)
      ensures init.FromTuples? ==> store == StoreAll(old(store), Plains(Kept(init.tuples)), Same)
      ensures init.FromRecord? ==> store == StoreAll(old(store), Plains(init.entries), Same)
    {
      var pairs := match init
        case FromJar(jar) => EntriesOf(jar.store)
        case FromTuples(tuples) => tuples
        case FromRecord(entries) => entries;
      SetPairs(pairs, init.FromTuples?);
    }

    /** The loop of `applyInit`: each pair set as `{ name, value }`, skipping an empty side when asked. */
    method SetPairs(pairs: seq<(string, string)>, skipEmpty: bool)
      requires Valid()
      modifies this
      ensures Valid()
      ensures store == StoreAll(old(store), Plains(Chosen(pairs, skipEmpty)), Same)
    {
      ghost var start := store;
      for i := 0 to |pairs|
        invariant Valid()
        invariant store == StoreAll(start, Plains(Chosen(pairs[..i], skipEmpty)), Same)
      {
        StoredStep(start, pairs, i, skipEmpty);
        SetPair(pairs[i].0, pairs[i].1, skipEmpty);
      }
      assert pairs[..|pairs|] == pairs;
    }

    /** One pair of `applyInit`: set as `{ name, value }` unless an empty side is skipped. */
    method SetPair(name: string, value: string, skipEmpty: bool)
      requires Valid()
      modifies this
      ensures Valid()
      ensures store == if skipEmpty && (name == "" || value == "") then old(store) else Put(old(store), name, Plain(name, value))
    {
      if !(skipEmpty && (name == "" || value == "")) {
        Set(Plain(name, value));
      }
    }
  }
}
