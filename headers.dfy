// The header map and its helpers, shared by the three generations
// (src/Headers/HttpHeaders.ts, src/modules/HttpHeaders/HttpHeaders.ts,
// src/lib/Headers/__Coreum_Headers.ts). The platform `Headers` object is
// modelled by its header list as the WHATWG Fetch Standard describes it
// (section 5.2, "Headers class"): names are stored lower-cased, `append` adds an
// entry, `set` replaces the first entry of that name and drops the others,
// `get` joins all values of a name with ", ", and iteration yields one pair per
// name except for Set-Cookie, whose values are yielded one by one.

module HeaderList {
  import opened Wrappers
  import opened Strings

  type HeaderList = seq<(string, string)>

  const SetCookie: string := "set-cookie"

  /** Every stored name is already lower-case, as the platform stores them. */
  predicate Normalised(list: HeaderList)
  {
    forall i :: 0 <= i < |list| ==> ToLower(list[i].0) == list[i].0
  }

  lemma LowerIdempotent(s: string)
    ensures ToLower(ToLower(s)) == ToLower(s)
  {
    var t := ToLower(ToLower(s));
    assert forall i :: 0 <= i < |s| ==> t[i] == ToLower(s)[i];
  }

  /** The values stored under the (lower-case) name `n`, in list order. */
  function Values(list: HeaderList, n: string): seq<string>
  {
    if list == [] then []
    else (if list[0].0 == n then [list[0].1] else []) + Values(list[1..], n)
  }

  lemma {:induction false} ValuesConcat(a: HeaderList, b: HeaderList, n: string)
    ensures Values(a + b, n) == Values(a, n) + Values(b, n)
  {
    if a != [] {
      assert (a + b)[1..] == a[1..] + b;
      ValuesConcat(a[1..], b, n);
    } else {
      assert a + b == b;
    }
  }

  lemma {:induction false} ValuesEmpty(list: HeaderList, n: string)
    ensures Values(list, n) == [] <==> forall i :: 0 <= i < |list| ==> list[i].0 != n
  {
    if list != [] {
      ValuesEmpty(list[1..], n);
      assert forall i :: 1 <= i < |list| ==> list[i] == list[1..][i - 1];
    }
  }

  /** `headers.get(name)`: the joined values, or null. */
  function GetSpec(list: HeaderList, name: string): Option<string>
  {
    var vs := Values(list, ToLower(name));
    if vs == [] then None else Some(Join(vs, ", "))
  }

  predicate HasSpec(list: HeaderList, name: string)
  {
    Values(list, ToLower(name)) != []
  }

  /** `headers.append(name, value)`. */
  function AppendSpec(list: HeaderList, name: string, value: string): HeaderList
  {
    list + [(ToLower(name), value)]
  }

  /** Replace the first entry named `n` by `(n, v)` and drop the later ones; append when there is none. */
  function Replace(list: HeaderList, n: string, v: string, seen: bool): HeaderList
  {
    if list == [] then (if seen then [] else [(n, v)])
    else if list[0].0 == n then
      (if seen then Replace(list[1..], n, v, true) else [(n, v)] + Replace(list[1..], n, v, true))
    else [list[0]] + Replace(list[1..], n, v, seen)
  }

  /** `headers.set(name, value)`. */
  function SetSpec(list: HeaderList, name: string, value: string): HeaderList
  {
    Replace(list, ToLower(name), value, false)
  }

  lemma {:induction false} ValuesReplace(list: HeaderList, n: string, v: string, seen: bool, m: string)
    ensures Values(Replace(list, n, v, seen), m) == if m == n then (if seen then [] else [v]) else Values(list, m)
  {
    if list != [] {
      ValuesReplace(list[1..], n, v, seen || list[0].0 == n, m);
      if list[0].0 == n {
        ValuesReplace(list[1..], n, v, true, m);
      }
    }
  }

  lemma {:induction false} ReplaceNormalised(list: HeaderList, n: string, v: string, seen: bool)
    requires Normalised(list) && ToLower(n) == n
    ensures Normalised(Replace(list, n, v, seen))
  {
    if list != [] {
      ReplaceNormalised(list[1..], n, v, seen || list[0].0 == n);
      if list[0].0 == n {
        ReplaceNormalised(list[1..], n, v, true);
      }
    }
  }

  /** After `append`, the name has one more value at the end; every other name is untouched. */
  lemma AppendValues(list: HeaderList, name: string, value: string, m: string)
    ensures Values(AppendSpec(list, name, value), m) == Values(list, m) + (if m == ToLower(name) then [value] else [])
  {
    ValuesConcat(list, [(ToLower(name), value)], m);
  }

  /** After `set`, the name has exactly the new value; every other name is untouched. */
  lemma SetValues(list: HeaderList, name: string, value: string, m: string)
    ensures Values(SetSpec(list, name, value), m) == if m == ToLower(name) then [value] else Values(list, m)
  {
    ValuesReplace(list, ToLower(name), value, false, m);
  }

  lemma UpdatesNormalised(list: HeaderList, name: string, value: string)
    requires Normalised(list)
    ensures Normalised(AppendSpec(list, name, value)) && Normalised(SetSpec(list, name, value))
  {
    LowerIdempotent(name);
    ReplaceNormalised(list, ToLower(name), value, false);
  }

  /** The distinct names of the list, in order of first appearance. */
  function Names(list: HeaderList): (r: seq<string>)
    ensures forall i, j :: 0 <= i < j < |r| ==> r[i] != r[j]
    ensures forall n :: n in r <==> exists i :: 0 <= i < |list| && list[i].0 == n
  {
    if list == [] then []
    else
      var init := list[..|list| - 1];
      var ns := Names(init);
      assert forall i :: 0 <= i < |init| ==> init[i] == list[i];
      if list[|list| - 1].0 in ns then ns else ns + [list[|list| - 1].0]
  }

  /** What iteration yields for one name: each Set-Cookie value on its own, any other name once with its joined values. */
  function Group(list: HeaderList, n: string): seq<(string, string)>
  {
    var vs := Values(list, n);
    if n == SetCookie then Tagged(n, vs) else [(n, Join(vs, ", "))]
  }

  /** Each value paired with the name `n`, in order. */
  function Tagged(n: string, vs: seq<string>): (r: seq<(string, string)>)
    ensures |r| == |vs|
  {
    if vs == [] then [] else Tagged(n, vs[..|vs| - 1]) + [(n, vs[|vs| - 1])]
  }

  function GroupsOf(list: HeaderList, names: seq<string>): seq<(string, string)>
  {
    if names == [] then [] else GroupsOf(list, names[..|names| - 1]) + Group(list, names[|names| - 1])
  }

  /**
   * The pairs `forEach` visits, as they stand. Names come in order of first
   * appearance rather than sorted; `get` on the result of a combine does not
   * depend on that order.
   */
  function Pairs(list: HeaderList): seq<(string, string)>
  {
    GroupsOf(list, Names(list))
  }

  /** The values of the pairs whose lower-cased name is `m`, in order. */
  function Matching(pairs: seq<(string, string)>, m: string): seq<string>
  {
    if pairs == [] then []
    else Matching(pairs[..|pairs| - 1], m) + (if ToLower(pairs[|pairs| - 1].0) == m then [pairs[|pairs| - 1].1] else [])
  }

  lemma {:induction false} MatchingConcat(a: seq<(string, string)>, b: seq<(string, string)>, m: string)
    ensures Matching(a + b, m) == Matching(a, m) + Matching(b, m)
  {
    if b == [] {
      assert a + b == a;
    } else {
      assert (a + b)[..|a + b| - 1] == a + b[..|b| - 1];
      MatchingConcat(a, b[..|b| - 1], m);
    }
  }

  lemma NoUpperLower(s: string)
    requires forall i :: 0 <= i < |s| ==> !('A' <= s[i] <= 'Z')
    ensures ToLower(s) == s
  {
  }

  lemma SetCookieLower(s: string)
    requires s == SetCookie
    ensures ToLower(s) == s
  {
    NoUpperLower(s);
  }

  lemma {:induction false} MatchingTagged(n: string, vs: seq<string>, m: string)
    requires ToLower(n) == n
    ensures Matching(Tagged(n, vs), m) == if m == n then vs else []
  {
    if vs != [] {
      var t := Tagged(n, vs);
      assert t[..|t| - 1] == Tagged(n, vs[..|vs| - 1]);
      MatchingTagged(n, vs[..|vs| - 1], m);
      assert vs == vs[..|vs| - 1] + [vs[|vs| - 1]];
    }
  }

  lemma MatchingGroup(list: HeaderList, n: string, m: string)
    requires ToLower(n) == n
    ensures Matching(Group(list, n), m) ==
      if m != n then []
      else if n == SetCookie then Values(list, n)
      else [Join(Values(list, n), ", ")]
  {
    if n == SetCookie {
      MatchingTagged(n, Values(list, n), m);
    } else {
      var g := Group(list, n);
      assert g[..0] == [];
    }
  }

  lemma {:induction false} MatchingGroupsOf(list: HeaderList, names: seq<string>, m: string)
    requires forall i :: 0 <= i < |names| ==> ToLower(names[i]) == names[i]
    requires forall i, j :: 0 <= i < j < |names| ==> names[i] != names[j]
    ensures m !in names ==> Matching(GroupsOf(list, names), m) == []
    ensures m in names ==> Matching(GroupsOf(list, names), m) == Matching(Group(list, m), m)
  {
    if names != [] {
      var init := names[..|names| - 1];
      var last := names[|names| - 1];
      MatchingGroupsOf(list, init, m);
      MatchingConcat(GroupsOf(list, init), Group(list, last), m);
      MatchingGroup(list, last, m);
      if m in names && m != last {
        var k :| 0 <= k < |names| && names[k] == m;
        assert init[k] == m;
      }
      if m == last {
        assert m !in init;
        MatchingGroup(list, m, m);
      }
    }
  }

  /** Walking the pairs of a list sees each Set-Cookie value once and any other name once, joined. */
  lemma MatchingPairs(list: HeaderList, m: string)
    requires Normalised(list)
    ensures m == SetCookie ==> Matching(Pairs(list), m) == Values(list, m)
    ensures m != SetCookie ==> Matching(Pairs(list), m) == if Values(list, m) == [] then [] else [Join(Values(list, m), ", ")]
  {
    var names := Names(list);
    forall i | 0 <= i < |names|
      ensures ToLower(names[i]) == names[i]
    {
      assert names[i] in names;
      var k :| 0 <= k < |list| && list[k].0 == names[i];
    }
    MatchingGroupsOf(list, names, m);
    ValuesEmpty(list, m);
    if m in names {
      MatchingGroup(list, m, m);
    }
  }

  /** The names of `list` not in `seen`, in order of first appearance, read from the front. */
  function NamesAfter(list: HeaderList, seen: seq<string>): seq<string>
  {
    if list == [] then []
    else if list[0].0 in seen then NamesAfter(list[1..], seen)
    else [list[0].0] + NamesAfter(list[1..], seen + [list[0].0])
  }

  lemma {:induction false} NamesSplit(p: HeaderList, rest: HeaderList)
    ensures Names(p + rest) == Names(p) + NamesAfter(rest, Names(p))
    decreases |rest|
  {
    if rest == [] {
      assert p + rest == p;
    } else {
      var x := rest[0];
      assert p + rest == (p + [x]) + rest[1..];
      assert (p + [x])[..|p + [x]| - 1] == p;
      NamesSplit(p + [x], rest[1..]);
    }
  }

  lemma NamesFront(list: HeaderList)
    ensures Names(list) == NamesAfter(list, [])
  {
    NamesSplit([], list);
    assert [] + list == list;
  }

  /** Dropping entries of a name already seen changes no name read after it. */
  lemma {:induction false} NamesAfterDropped(list: HeaderList, n: string, v: string, seen: seq<string>)
    requires n in seen
    ensures NamesAfter(Replace(list, n, v, true), seen) == NamesAfter(list, seen)
    decreases |list|
  {
    if list != [] {
      var x := list[0];
      if x.0 == n {
        NamesAfterDropped(list[1..], n, v, seen);
      } else {
        var tail := Replace(list[1..], n, v, true);
        assert Replace(list, n, v, true) == [x] + tail;
        assert ([x] + tail)[0] == x && ([x] + tail)[1..] == tail;
        if x.0 in seen {
          NamesAfterDropped(list[1..], n, v, seen);
        } else {
          NamesAfterDropped(list[1..], n, v, seen + [x.0]);
        }
      }
    }
  }

  lemma {:induction false} NamesAfterReplaced(list: HeaderList, n: string, v: string, seen: seq<string>)
    requires exists i :: 0 <= i < |list| && list[i].0 == n
    ensures NamesAfter(Replace(list, n, v, false), seen) == NamesAfter(list, seen)
    decreases |list|
  {
    var x := list[0];
    if x.0 == n {
      var tail := Replace(list[1..], n, v, true);
      assert Replace(list, n, v, false) == [(n, v)] + tail;
      assert ([(n, v)] + tail)[0] == (n, v) && ([(n, v)] + tail)[1..] == tail;
      if n in seen {
        NamesAfterDropped(list[1..], n, v, seen);
      } else {
        NamesAfterDropped(list[1..], n, v, seen + [n]);
      }
    } else {
      var i :| 0 <= i < |list| && list[i].0 == n;
      assert list[1..][i - 1].0 == n;
      var tail := Replace(list[1..], n, v, false);
      assert Replace(list, n, v, false) == [x] + tail;
      assert ([x] + tail)[0] == x && ([x] + tail)[1..] == tail;
      if x.0 in seen {
        NamesAfterReplaced(list[1..], n, v, seen);
      } else {
        NamesAfterReplaced(list[1..], n, v, seen + [x.0]);
      }
    }
  }

  /** Setting a name the list already holds keeps every name where it was. */
  lemma SetKeepsNames(list: HeaderList, n: string, v: string)
    requires ToLower(n) == n && n in Names(list)
    ensures Names(SetSpec(list, n, v)) == Names(list)
  {
    NamesFront(list);
    NamesFront(SetSpec(list, n, v));
    NamesAfterReplaced(list, n, v, []);
  }

  /** Appending to a name the list already holds adds no name. */
  lemma AppendKeepsNames(list: HeaderList, n: string, v: string)
    requires ToLower(n) == n && n in Names(list)
    ensures Names(AppendSpec(list, n, v)) == Names(list)
  {
    var l := AppendSpec(list, n, v);
    assert l[..|l| - 1] == list;
  }

  lemma NamesLower(list: HeaderList)
    requires Normalised(list)
    ensures forall i :: 0 <= i < |Names(list)| ==> ToLower(Names(list)[i]) == Names(list)[i]
  {
    var names := Names(list);
    forall i | 0 <= i < |names|
      ensures ToLower(names[i]) == names[i]
    {
      assert names[i] in names;
      var k :| 0 <= k < |list| && list[k].0 == names[i];
    }
  }

  lemma {:induction false} GroupsOfConcat(list: HeaderList, a: seq<string>, b: seq<string>)
    ensures GroupsOf(list, a + b) == GroupsOf(list, a) + GroupsOf(list, b)
    decreases |b|
  {
    if b == [] {
      SplitEmpty(a);
    } else {
      var init := b[..|b| - 1];
      var last := b[|b| - 1];
      SplitLast(a, b);
      GroupsOfConcat(list, a, init);
      GroupsOfSnoc(list, a + init, last);
      GroupsOfSnoc(list, init, last);
      ConcatAssoc(GroupsOf(list, a), GroupsOf(list, init), Group(list, last));
    }
  }

  lemma ConcatAssoc<T>(x: seq<T>, y: seq<T>, z: seq<T>)
    ensures (x + y) + z == x + (y + z)
  {
  }

  lemma SplitEmpty<T>(a: seq<T>)
    ensures a + [] == a
  {
  }

  lemma SplitLast<T>(a: seq<T>, b: seq<T>)
    requires b != []
    ensures b == b[..|b| - 1] + [b[|b| - 1]]
    ensures a + b == (a + b[..|b| - 1]) + [b[|b| - 1]]
  {
  }

  lemma GroupsOfSnoc(list: HeaderList, names: seq<string>, n: string)
    ensures GroupsOf(list, names + [n]) == GroupsOf(list, names) + Group(list, n)
  {
    assert (names + [n])[..|names|] == names;
  }

  /** Without Set-Cookie, each name gives one pair holding its joined values. */
  lemma {:induction false} GroupsOfPlain(list: HeaderList, names: seq<string>)
    requires SetCookie !in names
    ensures |GroupsOf(list, names)| == |names|
    ensures forall i :: 0 <= i < |names| ==> GroupsOf(list, names)[i] == (names[i], Join(Values(list, names[i]), ", "))
  {
    if names != [] {
      var init := names[..|names| - 1];
      var last := names[|names| - 1];
      GroupsOfPlain(list, init);
      assert last != SetCookie by {
        assert last in names;
      }
      var pair := (last, Join(Values(list, last), ", "));
      assert GroupsOf(list, names) == GroupsOf(list, init) + [pair];
      forall i | 0 <= i < |names|
        ensures GroupsOf(list, names)[i] == (names[i], Join(Values(list, names[i]), ", "))
      {
        if i < |init| {
          assert init[i] == names[i];
          assert GroupsOf(list, names)[i] == GroupsOf(list, init)[i];
        }
      }
    }
  }

  lemma {:induction false} TaggedAt(n: string, vs: seq<string>)
    ensures forall i :: 0 <= i < |vs| ==> Tagged(n, vs)[i] == (n, vs[i])
  {
    if vs != [] {
      TaggedAt(n, vs[..|vs| - 1]);
    }
  }

  /**
   * Where the pairs of a list sit: one pair per name before Set-Cookie, then
   * one pair per Set-Cookie value.
   */
  lemma PairsLayout(list: HeaderList, g: nat)
    requires g < |Names(list)| && Names(list)[g] == SetCookie
    ensures |Pairs(list)| >= g + |Values(list, SetCookie)|
    ensures forall i :: 0 <= i < g ==> Pairs(list)[i].0 == Names(list)[i] != SetCookie
    ensures forall i :: g <= i < g + |Values(list, SetCookie)| ==> Pairs(list)[i].0 == SetCookie
  {
    var names := Names(list);
    var before := names[..g];
    var cookies := Tagged(SetCookie, Values(list, SetCookie));
    var a := GroupsOf(list, before);
    var c := GroupsOf(list, names[g + 1..]);
    PairsAround(list, g);
    assert SetCookie !in before;
    GroupsOfPlain(list, before);
    TaggedAt(SetCookie, Values(list, SetCookie));
    ConcatAt(a, cookies, c);
  }

  /** The pairs split at the position of Set-Cookie among the names. */
  lemma PairsAround(list: HeaderList, g: nat)
    requires g < |Names(list)| && Names(list)[g] == SetCookie
    ensures Pairs(list) ==
      GroupsOf(list, Names(list)[..g]) + Tagged(SetCookie, Values(list, SetCookie)) + GroupsOf(list, Names(list)[g + 1..])
  {
    var names := Names(list);
    var before := names[..g];
    assert names == before + [SetCookie] + names[g + 1..];
    GroupsOfConcat(list, before + [SetCookie], names[g + 1..]);
    GroupsOfConcat(list, before, [SetCookie]);
    assert [SetCookie][..0] == [];
  }

  lemma ConcatAt(a: seq<(string, string)>, b: seq<(string, string)>, c: seq<(string, string)>)
    ensures |a + b + c| == |a| + |b| + |c|
    ensures forall i :: 0 <= i < |a| ==> (a + b + c)[i] == a[i]
    ensures forall i :: |a| <= i < |a| + |b| ==> (a + b + c)[i] == b[i - |a|]
  {
  }

  lemma {:induction false} GroupsOfCongruent(l1: HeaderList, l2: HeaderList, names: seq<string>)
    requires forall m :: m in names ==> Group(l1, m) == Group(l2, m)
    ensures GroupsOf(l1, names) == GroupsOf(l2, names)
  {
    if names != [] {
      GroupsOfCongruent(l1, l2, names[..|names| - 1]);
      assert names[|names| - 1] in names;
    }
  }

  /**
   * Without Set-Cookie, merging a pair of the list into the list itself sets
   * a name to its own joined value: the pairs are the same afterwards.
   */
  lemma StepKeepsPairs(list: HeaderList, i: nat)
    requires Normalised(list) && Values(list, SetCookie) == [] && i < |Pairs(list)|
    ensures Normalised(Step(list, Pairs(list)[i]))
    ensures Values(Step(list, Pairs(list)[i]), SetCookie) == []
    ensures Pairs(Step(list, Pairs(list)[i])) == Pairs(list)
  {
    var names := Names(list);
    ValuesEmpty(list, SetCookie);
    assert SetCookie !in names;
    GroupsOfPlain(list, names);
    NamesLower(list);
    var n := names[i];
    var joined := Join(Values(list, n), ", ");
    assert Pairs(list)[i] == (n, joined);
    var next := SetSpec(list, n, joined);
    assert Step(list, (n, joined)) == next;
    UpdatesNormalised(list, n, joined);
    SetValues(list, n, joined, SetCookie);
    SetKeepsNames(list, n, joined);
    forall m | m in names
      ensures Group(next, m) == Group(list, m)
    {
      SetValues(list, n, joined, m);
    }
    GroupsOfCongruent(next, list, names);
  }

  /**
   * The walk of the platform's pair iterator over the very list it is
   * combining into (section 5.2 of the WHATWG Fetch Standard: the pairs to
   * iterate over are recomputed from the current list at every step, at the
   * iterator's current index). True when it ends within `fuel` steps from
   * index `cursor`.
   */
  ghost predicate LiveEnds(list: HeaderList, cursor: nat, fuel: nat)
    decreases fuel
  {
    cursor >= |Pairs(list)| || (fuel > 0 && LiveEnds(Step(list, Pairs(list)[cursor]), cursor + 1, fuel - 1))
  }

  lemma {:induction false} LiveNeverEnds(list: HeaderList, cursor: nat, fuel: nat, g: nat)
    requires Normalised(list)
    requires g < |Names(list)| && Names(list)[g] == SetCookie
    requires Values(list, SetCookie) != [] && cursor < g + |Values(list, SetCookie)|
    ensures !LiveEnds(list, cursor, fuel)
    decreases fuel
  {
    PairsLayout(list, g);
    if fuel > 0 {
      if cursor < g {
        StepBeforeCookies(list, g, cursor);
      } else {
        StepOnCookie(list, g, cursor);
      }
      LiveNeverEnds(Step(list, Pairs(list)[cursor]), cursor + 1, fuel - 1, g);
    }
  }

  /** A pair before the Set-Cookie ones sets a name the list holds: names and cookies stay. */
  lemma StepBeforeCookies(list: HeaderList, g: nat, cursor: nat)
    requires Normalised(list)
    requires g < |Names(list)| && Names(list)[g] == SetCookie && cursor < g
    ensures cursor < |Pairs(list)|
    ensures var next := Step(list, Pairs(list)[cursor]);
      Normalised(next) && Names(next) == Names(list) && Values(next, SetCookie) == Values(list, SetCookie)
  {
    PairsLayout(list, g);
    NamesLower(list);
    var pair := Pairs(list)[cursor];
    var n := Names(list)[cursor];
    assert n in Names(list) && pair.0 == n && ToLower(n) == n;
    assert Step(list, pair) == SetSpec(list, n, pair.1);
    UpdatesNormalised(list, n, pair.1);
    SetValues(list, n, pair.1, SetCookie);
    SetKeepsNames(list, n, pair.1);
  }

  /** A Set-Cookie pair appends one more Set-Cookie value and no name. */
  lemma StepOnCookie(list: HeaderList, g: nat, cursor: nat)
    requires Normalised(list)
    requires g < |Names(list)| && Names(list)[g] == SetCookie
    requires g <= cursor < g + |Values(list, SetCookie)|
    ensures cursor < |Pairs(list)|
    ensures var next := Step(list, Pairs(list)[cursor]);
      Normalised(next) && Names(next) == Names(list) && |Values(next, SetCookie)| == |Values(list, SetCookie)| + 1
  {
    PairsLayout(list, g);
    var pair := Pairs(list)[cursor];
    assert SetCookie in Names(list);
    SetCookieLower(SetCookie);
    assert Step(list, pair) == AppendSpec(list, SetCookie, pair.1);
    UpdatesNormalised(list, SetCookie, pair.1);
    AppendValues(list, SetCookie, pair.1, SetCookie);
    AppendKeepsNames(list, SetCookie, pair.1);
  }

  /**
   * Combining a list holding a Set-Cookie into itself never ends: each
   * Set-Cookie pair visited appends one more, which the walk then reaches.
   */
  lemma SelfCombineNeverEnds(list: HeaderList, fuel: nat)
    requires Normalised(list) && Values(list, SetCookie) != []
    ensures !LiveEnds(list, 0, fuel)
  {
    ValuesEmpty(list, SetCookie);
    var k :| 0 <= k < |list| && list[k].0 == SetCookie;
    assert SetCookie in Names(list);
    var g :| 0 <= g < |Names(list)| && Names(list)[g] == SetCookie;
    LiveNeverEnds(list, 0, fuel, g);
  }

  /**
   * Without a Set-Cookie header the self-combine does end: every step leaves the
   * pairs as they were, so the walk stops after one step per pair.
   */
  lemma {:induction false} SelfCombineEnds(list: HeaderList, cursor: nat, fuel: nat)
    requires Normalised(list) && Values(list, SetCookie) == [] && |Pairs(list)| <= cursor + fuel
    ensures LiveEnds(list, cursor, fuel)
    decreases fuel
  {
    if cursor < |Pairs(list)| {
      var next := Step(list, Pairs(list)[cursor]);
      assert Normalised(next) && Values(next, SetCookie) == [] && Pairs(next) == Pairs(list) by {
        StepKeepsPairs(list, cursor);
      }
      SelfCombineEnds(next, cursor + 1, fuel - 1);
      LiveEndsStep(list, cursor, next, fuel - 1);
    }
  }

  lemma LiveEndsStep(list: HeaderList, cursor: nat, next: HeaderList, rest: nat)
    requires cursor < |Pairs(list)| && next == Step(list, Pairs(list)[cursor])
    requires LiveEnds(next, cursor + 1, rest)
    ensures LiveEnds(list, cursor, rest + 1)
  {
  }

  /** One step of `combine`: a Set-Cookie pair is appended, any other pair overwrites. */
  function Step(target: HeaderList, pair: (string, string)): HeaderList
  {
    if ToLower(pair.0) == SetCookie then AppendSpec(target, pair.0, pair.1) else SetSpec(target, pair.0, pair.1)
  }

  function CombineFold(pairs: seq<(string, string)>, target: HeaderList): HeaderList
  {
    if pairs == [] then target else Step(CombineFold(pairs[..|pairs| - 1], target), pairs[|pairs| - 1])
  }

  lemma {:induction false} CombineFoldValues(pairs: seq<(string, string)>, target: HeaderList, m: string)
    ensures m == SetCookie ==> Values(CombineFold(pairs, target), m) == Values(target, m) + Matching(pairs, m)
    ensures m != SetCookie && Matching(pairs, m) == [] ==> Values(CombineFold(pairs, target), m) == Values(target, m)
    ensures m != SetCookie && Matching(pairs, m) != [] ==>
      Values(CombineFold(pairs, target), m) == [Matching(pairs, m)[|Matching(pairs, m)| - 1]]
  {
    if pairs != [] {
      var init := pairs[..|pairs| - 1];
      var last := pairs[|pairs| - 1];
      var t := CombineFold(init, target);
      CombineFoldValues(init, target, m);
      if ToLower(last.0) == SetCookie {
        AppendValues(t, last.0, last.1, m);
      } else {
        SetValues(t, last.0, last.1, m);
      }
    }
  }

  lemma CombineFoldSnoc(pairs: seq<(string, string)>, i: nat, target: HeaderList)
    requires i < |pairs|
    ensures CombineFold(pairs[..i + 1], target) == Step(CombineFold(pairs[..i], target), pairs[i])
  {
    assert pairs[..i + 1][..i] == pairs[..i];
  }

  lemma {:induction false} CombineFoldNormalised(pairs: seq<(string, string)>, target: HeaderList)
    requires Normalised(target)
    ensures Normalised(CombineFold(pairs, target))
  {
    if pairs != [] {
      CombineFoldNormalised(pairs[..|pairs| - 1], target);
      UpdatesNormalised(CombineFold(pairs[..|pairs| - 1], target), pairs[|pairs| - 1].0, pairs[|pairs| - 1].1);
    }
  }

  /** `combine(source, target)`: the target after the walk over the source's pairs. */
  function CombineSpec(source: HeaderList, target: HeaderList): HeaderList
  {
    CombineFold(Pairs(source), target)
  }

  /**
   * Combining appends the source's Set-Cookie values after the target's, and
   * for every other name the source's value wins when it has one; otherwise
   * the target's value stays.
   */
  lemma CombineGet(source: HeaderList, target: HeaderList, name: string)
    requires Normalised(source)
    ensures ToLower(name) == SetCookie ==>
      Values(CombineSpec(source, target), SetCookie) == Values(target, SetCookie) + Values(source, SetCookie)
    ensures ToLower(name) != SetCookie ==>
      GetSpec(CombineSpec(source, target), name) == if HasSpec(source, name) then GetSpec(source, name) else GetSpec(target, name)
  {
    var m := ToLower(name);
    MatchingPairs(source, m);
    CombineFoldValues(Pairs(source), target, m);
  }

  lemma CombineNormalised(source: HeaderList, target: HeaderList)
    requires Normalised(target)
    ensures Normalised(CombineSpec(source, target))
  {
    CombineFoldNormalised(Pairs(source), target);
  }

  /** Which values `setMany` keeps: `strIsDefined` (src, modules) or plain truthiness (lib). */
  datatype SkipRule = SkipUndefined | SkipFalsy

  predicate Keeps(rule: SkipRule, value: string)
  {
    match rule
    case SkipUndefined => TextIsDefined(value)
    case SkipFalsy => value != ""
  }

  /** `setMany(init)`: `set` for each entry in order, skipping values the rule rejects. */
  function SetManySpec(list: HeaderList, entries: seq<(string, string)>, rule: SkipRule): HeaderList
  {
    if entries == [] then list
    else
      var prev := SetManySpec(list, entries[..|entries| - 1], rule);
      var e := entries[|entries| - 1];
      if Keeps(rule, e.1) then SetSpec(prev, e.0, e.1) else prev
  }

  /** The kept values among the entries named `m`, in order. */
  function KeptFor(entries: seq<(string, string)>, m: string, rule: SkipRule): seq<string>
  {
    if entries == [] then []
    else
      var e := entries[|entries| - 1];
      KeptFor(entries[..|entries| - 1], m, rule) + (if ToLower(e.0) == m && Keeps(rule, e.1) then [e.1] else [])
  }

  /** After `setMany`, a name holds the last kept value given for it, or what it held before. */
  lemma {:induction false} SetManyValues(list: HeaderList, entries: seq<(string, string)>, rule: SkipRule, m: string)
    ensures var kept := KeptFor(entries, m, rule);
      Values(SetManySpec(list, entries, rule), m) == if kept == [] then Values(list, m) else [kept[|kept| - 1]]
  {
    if entries != [] {
      var e := entries[|entries| - 1];
      SetManyValues(list, entries[..|entries| - 1], rule, m);
      if Keeps(rule, e.1) {
        SetValues(SetManySpec(list, entries[..|entries| - 1], rule), e.0, e.1, m);
      }
    }
  }

  /** A value the rule rejects never reaches the map. */
  lemma SkippedEntryChangesNothing(list: HeaderList, entries: seq<(string, string)>, rule: SkipRule, name: string, value: string)
    requires !Keeps(rule, value)
    ensures SetManySpec(list, entries + [(name, value)], rule) == SetManySpec(list, entries, rule)
  {
    assert (entries + [(name, value)])[..|entries|] == entries;
  }

  /** Header names as the platform stores them: lower-cased. */
  function Normalise(list: HeaderList): (r: HeaderList)
    ensures Normalised(r) && |r| == |list|
    ensures forall i :: 0 <= i < |r| ==> r[i] == (ToLower(list[i].0), list[i].1)
  {
    forall i | 0 <= i < |list| ensures ToLower(ToLower(list[i].0)) == ToLower(list[i].0) {
      LowerIdempotent(list[i].0);
    }
    seq(|list|, i requires 0 <= i < |list| => (ToLower(list[i].0), list[i].1))
  }

  /** The three shapes of a headers init. */
  datatype HeadersInit = HeadersObject(list: HeaderList) | Tuples(tuples: seq<(string, string)>) | Record(record: map<string, string>)

  /** Index of the first tuple named exactly `name`, or |tuples|. */
  function FirstNamed(tuples: seq<(string, string)>, name: string): (k: nat)
    ensures k <= |tuples|
    ensures k < |tuples| ==> tuples[k].0 == name
    ensures forall j :: 0 <= j < k ==> tuples[j].0 != name
  {
    if tuples == [] then 0
    else if tuples[0].0 == name then 0
    else 1 + FirstNamed(tuples[1..], name)
  }

  /**
   * `findHeaderInInit(init, name)`: a headers object answers with `get`; a
   * tuple list gives the value of the first tuple with exactly that name; a
   * record gives its own property of that name; otherwise null.
   */
  function FindHeaderInInit(init: HeadersInit, name: string): (r: Option<string>)
    ensures init.HeadersObject? ==> r == GetSpec(init.list, name)
    ensures init.Tuples? ==> (r.None? <==> forall j :: 0 <= j < |init.tuples| ==> init.tuples[j].0 != name)
    ensures init.Tuples? && r.Some? ==>
      (exists k :: 0 <= k < |init.tuples| && init.tuples[k] == (name, r.value) &&
        (forall j :: 0 <= j < k ==> init.tuples[j].0 != name))
    ensures init.Record? ==> (r.Some? <==> name in init.record) && (r.Some? ==> r.value == init.record[name])
  {
    match init
    case HeadersObject(list) => GetSpec(list, name)
    case Tuples(tuples) =>
      var k := FirstNamed(tuples, name);
      if k < |tuples| then Some(tuples[k].1) else None
    case Record(record) => if name in record then Some(record[name]) else None
  }

  /** The response and request header object, a platform `Headers` with the framework's helpers. */
  class HttpHeaders {
    var list: HeaderList

    ghost predicate Valid()
      reads this
    {
      Normalised(list)
    }

    constructor(init: HeaderList)
      requires Normalised(init)
      ensures Valid() && list == init
    {
      list := init;
    }

    method Append(name: string, value: string)
      requires Valid()
      modifies this
      ensures Valid() && list == AppendSpec(old(list), name, value)
    {
      UpdatesNormalised(list, name, value);
      list := list + [(ToLower(name), value)];
    }

    method Set(name: string, value: string)
      requires Valid()
      modifies this
      ensures Valid() && list == SetSpec(old(list), name, value)
    {
      UpdatesNormalised(list, name, value);
      list := Replace(list, ToLower(name), value, false);
    }

    /** `get(name)`: retries with the lower-cased name; the platform lookup already ignores case, so the answer is the same. */
    function Get(name: string): (r: Option<string>)
      reads this
      ensures r == GetSpec(list, name)
    {
      LowerIdempotent(name);
      var first := GetSpec(list, name);
      if first.Some? && first.value != "" then first else GetSpec(list, ToLower(name))
    }

    function Has(name: string): (r: bool)
      reads this
      ensures r == HasSpec(list, name)
    {
      LowerIdempotent(name);
      HasSpec(list, name) || HasSpec(list, ToLower(name))
    }

    /**
     * `combine(source, target)`: walk the source's pairs, appending Set-Cookie
     * and setting everything else on the target, and return the target. The
     * pairs are read again at every step, as the platform's iterator does;
     * combining a map holding a Set-Cookie into itself never returns
     * (SelfCombineNeverEnds), so that call is excluded.
     */
    static method Combine(source: HttpHeaders, target: HttpHeaders) returns (r: HttpHeaders)
      requires target.Valid()
      requires source == target ==> Values(source.list, SetCookie) == []
      modifies target
      ensures r == target && target.Valid()
      ensures target.list == CombineSpec(old(source.list), old(target.list))
    {
      ghost var pairs := Pairs(source.list);
      ghost var start := target.list;
      var cursor := 0;
      while cursor < |Pairs(source.list)|
        invariant target.Valid()
        invariant source != target ==> source.list == old(source.list)
        invariant source == target ==> Values(target.list, SetCookie) == []
        invariant Pairs(source.list) == pairs && cursor <= |pairs|
        invariant target.list == CombineFold(pairs[..cursor], start)
        decreases |pairs| - cursor
      {
        var pair := Pairs(source.list)[cursor];
        if source == target {
          StepKeepsPairs(target.list, cursor);
        }
        CombineFoldSnoc(pairs, cursor, start);
        target.Merge(pair);
        cursor := cursor + 1;
      }
      assert pairs[..cursor] == pairs;
      r := target;
    }

    /** One visited pair: Set-Cookie is appended, any other name is set. */
    method Merge(pair: (string, string))
      requires Valid()
      modifies this
      ensures Valid() && list == Step(old(list), pair)
    {
      var (key, value) := pair;
      if ToLower(key) == SetCookie {
        Append(key, value);
      } else {
        Set(key, value);
      }
    }

    /** `innerCombine(source)`: combine the source into this map. */
    method InnerCombine(source: HttpHeaders) returns (r: HttpHeaders)
      requires Valid()
      requires source == this ==> Values(list, SetCookie) == []
      modifies this
      ensures r == this && Valid()
      ensures list == CombineSpec(old(source.list), old(list))
    {
      r := Combine(source, this);
    }

    /** `setMany(init)`: the entries in order, skipping values the rule rejects. */
    method SetMany(entries: seq<(string, string)>, rule: SkipRule)
      requires Valid()
      modifies this
      ensures Valid() && list == SetManySpec(old(list), entries, rule)
    {
      ghost var start := list;
      for i := 0 to |entries|
        invariant Valid()
        invariant list == SetManySpec(start, entries[..i], rule)
      {
        assert entries[..i + 1][..i] == entries[..i];
        var (key, value) := entries[i];
        if Keeps(rule, value) {
          Set(key, value);
        }
      }
      assert entries[..|entries|] == entries;
    }
  }
}
