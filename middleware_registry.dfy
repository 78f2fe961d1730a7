// The middleware registries. Three of them keep ordered lists of
// (order, handler) entries: src/modules/Registry/MiddlewareRegistry.ts and the
// two copies of its code in src/modules/Router/RouterMiddlewareRegistry.ts and
// src/modules/Router/registries/RouterMiddlewareRegistry.ts. Then there is the
// closure-composing registry of src/Middleware/MiddlewareRegistry.ts, and the
// route-handler wrapping of src/lib/Middleware/__Coreum_Middleware.ts.
//
// Handlers and middleware callbacks are opaque tokens: what the framework does
// with them is order, composition and abortion, which is what is modelled.

module MiddlewareScopes {
  /** A value `useOn` can hold besides "*": a route, a controller, or anything else. */
  datatype Target = RouteTarget(id: string) | ControllerTarget(routeIds: seq<string>) | OtherTarget

  /**
   * `useOn`: the string "*", or targets. A single target is the one-element
   * list the source makes of it with `Array.isArray(useOn) ? useOn : [useOn]`.
   */
  datatype UseOn = Everywhere | On(targets: seq<Target>)

  const Global := "*"

  /**
   * The ids a target expands to: the route's id, a snapshot of the controller's
   * `routeIds` set in insertion order, or nothing.
   */
  function TargetIds(t: Target): seq<string>
  {
    match t
    case RouteTarget(id) => [id]
    case ControllerTarget(ids) => ids
    case OtherTarget => []
  }

  /** Every id the targets expand to, in the order the nested loops visit them. */
  function AllIds(targets: seq<Target>): seq<string>
  {
    if targets == [] then [] else AllIds(targets[..|targets| - 1]) + TargetIds(targets[|targets| - 1])
  }

  function Repeat<T>(x: T, n: nat): (r: seq<T>)
    ensures |r| == n
    ensures forall i :: 0 <= i < n ==> r[i] == x
  {
    if n == 0 then [] else Repeat(x, n - 1) + [x]
  }

  lemma RepeatAdd<T>(x: T, m: nat, n: nat)
    ensures Repeat(x, m) + Repeat(x, n) == Repeat(x, m + n)
  {
  }
}

/** The order-keyed lists of src/modules/Registry/MiddlewareRegistry.ts. */
module MiddlewareOrder {
  import opened RouteTable
  import opened OrderedMaps
  import opened MiddlewareScopes

  datatype Entry = Entry(order: nat, handler: nat)

  /** The registry's record: its keys in insertion order and the list under each. */
  datatype Lists = Lists(keys: seq<string>, data: map<string, seq<Entry>>)

  /** `this.data[key] || []`. */
  function Get(data: map<string, seq<Entry>>, key: string): seq<Entry>
  {
    if key in data then data[key] else []
  }

  /** Each entry's order is at least its predecessor's. */
  predicate Ascending(s: seq<Entry>)
  {
    forall i :: 0 < i < |s| ==> s[i - 1].order <= s[i].order
  }

  predicate AtMost(s: seq<Entry>, bound: nat)
  {
    forall i :: 0 <= i < |s| ==> s[i].order <= bound
  }

  /**
   * What every reachable record satisfies: keys and lists agree, "*" is always
   * there, every list is in ascending order, and no order exceeds the next
   * order `add` would hand out.
   */
  ghost predicate ListsValid(t: Lists)
  {
    TableValid(t.keys, t.data) && Global in t.data &&
    forall k :: k in t.data ==> Ascending(t.data[k]) && AtMost(t.data[k], |t.keys| + 1)
  }

  const Initial := Lists([Global], map[Global := []])

  /** `this.data[id] ??= []; this.data[id].push(e)`. */
  function Push(t: Lists, id: string, e: Entry): Lists
  {
    Lists(InsertKey(t.keys, id), t.data[id := Get(t.data, id) + [e]])
  }

  function PushIds(t: Lists, ids: seq<string>, e: Entry): Lists
  {
    if ids == [] then t else Push(PushIds(t, ids[..|ids| - 1], e), ids[|ids| - 1], e)
  }

  function PushTargets(t: Lists, targets: seq<Target>, e: Entry): Lists
  {
    if targets == [] then t
    else PushIds(PushTargets(t, targets[..|targets| - 1], e), TargetIds(targets[|targets| - 1]), e)
  }

  /** `add(item)`: order is the key count plus one, taken before any list is created. */
  function AddSpec(t: Lists, useOn: UseOn, handler: nat): Lists
  {
    var e := Entry(|t.keys| + 1, handler);
    match useOn
    case Everywhere => Lists(t.keys, t.data[Global := Get(t.data, Global) + [e]])
    case On(targets) => PushTargets(t, targets, e)
  }

  /** Insert `x` after every element whose order is not larger: the stable step. */
  function InsertByOrder(s: seq<Entry>, x: Entry): (r: seq<Entry>)
    ensures |r| == |s| + 1
    ensures multiset(r) == multiset(s) + multiset{x}
    ensures r[|r| - 1] == x || (|s| > 0 && r[|r| - 1] == s[|s| - 1])
  {
    if s == [] || s[|s| - 1].order <= x.order then s + [x]
    else
      var init := s[..|s| - 1];
      assert s == init + [s[|s| - 1]];
      InsertByOrder(init, x) + [s[|s| - 1]]
  }

  lemma {:induction false} InsertKeepsAscending(s: seq<Entry>, x: Entry)
    requires Ascending(s)
    ensures Ascending(InsertByOrder(s, x))
  {
    if !(s == [] || s[|s| - 1].order <= x.order) {
      var init := s[..|s| - 1];
      InsertKeepsAscending(init, x);
      AscendingSnoc(InsertByOrder(init, x), s[|s| - 1]);
    }
  }

  lemma AscendingSnoc(a: seq<Entry>, last: Entry)
    requires Ascending(a) && (|a| > 0 ==> a[|a| - 1].order <= last.order)
    ensures Ascending(a + [last])
  {
  }

  /** `sort((a, b) => a.order - b.order)`: a stable sort by order. */
  function SortByOrder(s: seq<Entry>): (r: seq<Entry>)
    ensures Ascending(r)
    ensures multiset(r) == multiset(s)
  {
    if s == [] then []
    else
      var init := s[..|s| - 1];
      assert s == init + [s[|s| - 1]];
      InsertKeepsAscending(SortByOrder(init), s[|s| - 1]);
      InsertByOrder(SortByOrder(init), s[|s| - 1])
  }

  /** `find(routeId)` / `findMiddleware(routeId)`: the sorted global list, then the sorted route list. */
  function Composed(t: Lists, routeId: string): seq<Entry>
  {
    SortByOrder(Get(t.data, Global)) + SortByOrder(Get(t.data, routeId))
  }

  lemma {:induction false} SortedIsFixed(s: seq<Entry>)
    requires Ascending(s)
    ensures SortByOrder(s) == s
  {
    if s != [] {
      var init := s[..|s| - 1];
      var last := s[|s| - 1];
      assert s == init + [last];
      AscendingInit(s);
      SortedIsFixed(init);
      SortSnoc(init, last);
      InsertAtEnd(init, last);
    }
  }

  lemma AscendingInit(s: seq<Entry>)
    requires s != [] && Ascending(s)
    ensures Ascending(s[..|s| - 1])
  {
  }

  lemma SortSnoc(init: seq<Entry>, last: Entry)
    ensures SortByOrder(init + [last]) == InsertByOrder(SortByOrder(init), last)
  {
    assert (init + [last])[..|init|] == init;
  }

  lemma InsertAtEnd(s: seq<Entry>, x: Entry)
    requires s == [] || s[|s| - 1].order <= x.order
    ensures InsertByOrder(s, x) == s + [x]
  {
  }

  /** The entries of one order value, in sequence order. */
  function WithOrder(s: seq<Entry>, order: nat): (r: seq<Entry>)
    ensures forall i :: 0 <= i < |r| ==> r[i].order == order
  {
    if s == [] then []
    else WithOrder(s[..|s| - 1], order) + (if s[|s| - 1].order == order then [s[|s| - 1]] else [])
  }

  lemma {:induction false} WithOrderAppend(a: seq<Entry>, b: seq<Entry>, order: nat)
    ensures WithOrder(a + b, order) == WithOrder(a, order) + WithOrder(b, order)
  {
    if b == [] {
      assert a + b == a;
    } else {
      WithOrderAppend(a, b[..|b| - 1], order);
      assert (a + b)[..|a + b| - 1] == a + b[..|b| - 1];
    }
  }

  lemma {:induction false} InsertStable(s: seq<Entry>, x: Entry, order: nat)
    ensures WithOrder(InsertByOrder(s, x), order) == WithOrder(s, order) + WithOrder([x], order)
  {
    if s == [] || s[|s| - 1].order <= x.order {
      assert InsertByOrder(s, x) == s + [x];
      WithOrderAppend(s, [x], order);
    } else {
      var init := s[..|s| - 1];
      var last := s[|s| - 1];
      assert s == init + [last];
      assert InsertByOrder(s, x) == InsertByOrder(init, x) + [last];
      InsertStable(init, x, order);
      WithOrderAppend(InsertByOrder(init, x), [last], order);
      WithOrderAppend(init, [last], order);
      assert last.order != order || x.order != order;
    }
  }

  /** The sort is stable: entries of equal order keep their relative order. */
  lemma {:induction false} SortStable(s: seq<Entry>, order: nat)
    ensures WithOrder(SortByOrder(s), order) == WithOrder(s, order)
  {
    if s != [] {
      var init := s[..|s| - 1];
      var last := s[|s| - 1];
      assert s == init + [last];
      SortStable(init, order);
      InsertStable(SortByOrder(init), last, order);
      WithOrderAppend(init, [last], order);
    }
  }

  /** Every stored list is ascending, so the in-place sorts of `find` leave the record as it was. */
  lemma FindChangesNothing(t: Lists, routeId: string)
    requires ListsValid(t)
    ensures SortByOrder(Get(t.data, Global)) == Get(t.data, Global)
    ensures SortByOrder(Get(t.data, routeId)) == Get(t.data, routeId)
  {
    SortedIsFixed(Get(t.data, Global));
    SortedIsFixed(Get(t.data, routeId));
  }

  /** Globals come first, then the route's own, each exactly as registered. */
  lemma FindIsRegistrationOrder(t: Lists, routeId: string)
    requires ListsValid(t)
    ensures Composed(t, routeId) == t.data[Global] + Get(t.data, routeId)
  {
    FindChangesNothing(t, routeId);
  }

  /** An id nobody registered for gets the global list alone. */
  lemma UnknownIdGetsGlobals(t: Lists, routeId: string)
    requires ListsValid(t) && routeId !in t.data
    ensures Composed(t, routeId) == t.data[Global]
  {
    FindChangesNothing(t, routeId);
  }

  lemma InitialValid()
    ensures ListsValid(Initial)
  {
  }

  lemma PushChanges(t: Lists, id: string, e: Entry, k: string)
    ensures Get(Push(t, id, e).data, k) == Get(t.data, k) + (if k == id then [e] else [])
  {
  }

  lemma CountSnoc(ids: seq<string>, k: string)
    requires ids != []
    ensures multiset(ids)[k] == multiset(ids[..|ids| - 1])[k] + (if ids[|ids| - 1] == k then 1 else 0)
  {
    assert ids == ids[..|ids| - 1] + [ids[|ids| - 1]];
  }

  /** Pushing for a list of ids appends one entry per occurrence of `k` and touches no other list. */
  lemma {:induction false} PushIdsChanges(t: Lists, ids: seq<string>, e: Entry, k: string)
    ensures Get(PushIds(t, ids, e).data, k) == Get(t.data, k) + Repeat(e, multiset(ids)[k])
  {
    if ids != [] {
      var init := ids[..|ids| - 1];
      PushIdsChanges(t, init, e, k);
      PushChanges(PushIds(t, init, e), ids[|ids| - 1], e, k);
      CountSnoc(ids, k);
    }
  }

  lemma {:induction false} PushTargetsChanges(t: Lists, targets: seq<Target>, e: Entry, k: string)
    ensures Get(PushTargets(t, targets, e).data, k) == Get(t.data, k) + Repeat(e, multiset(AllIds(targets))[k])
  {
    if targets != [] {
      var init := targets[..|targets| - 1];
      var ids := TargetIds(targets[|targets| - 1]);
      PushTargetsChanges(t, init, e, k);
      PushIdsChanges(PushTargets(t, init, e), ids, e, k);
      RepeatAdd(e, multiset(AllIds(init))[k], multiset(ids)[k]);
    }
  }

  /**
   * A registration with targets gives every list one entry for each time its
   * id comes up among the targets, and no other list changes. The entry's
   * order is the key count before the call plus one.
   */
  lemma AddOnTargets(t: Lists, targets: seq<Target>, handler: nat, k: string)
    ensures Get(AddSpec(t, On(targets), handler).data, k)
         == Get(t.data, k) + Repeat(Entry(|t.keys| + 1, handler), multiset(AllIds(targets))[k])
  {
    PushTargetsChanges(t, targets, Entry(|t.keys| + 1, handler), k);
  }

  /** "*" appends to the global list and to nothing else, and creates no key. */
  lemma AddEverywhere(t: Lists, handler: nat, k: string)
    ensures AddSpec(t, Everywhere, handler).keys == t.keys
    ensures Get(AddSpec(t, Everywhere, handler).data, k)
         == Get(t.data, k) + (if k == Global then [Entry(|t.keys| + 1, handler)] else [])
  {
  }

  ghost predicate Bounded(t: Lists, e: Entry)
  {
    TableValid(t.keys, t.data) && Global in t.data && e.order <= |t.keys| + 1 &&
    forall k :: k in t.data ==> Ascending(t.data[k]) && AtMost(t.data[k], e.order)
  }

  lemma PushBounded(t: Lists, id: string, e: Entry)
    requires Bounded(t, e)
    ensures Bounded(Push(t, id, e), e)
  {
    var r := Push(t, id, e);
    forall k | k in r.data
      ensures Ascending(r.data[k]) && AtMost(r.data[k], e.order)
    {
      if k == id {
        assert r.data[k] == Get(t.data, id) + [e];
      } else {
        assert r.data[k] == t.data[k];
      }
    }
  }

  lemma {:induction false} PushIdsBounded(t: Lists, ids: seq<string>, e: Entry)
    requires Bounded(t, e)
    ensures Bounded(PushIds(t, ids, e), e)
    ensures |t.keys| <= |PushIds(t, ids, e).keys|
  {
    if ids != [] {
      PushIdsBounded(t, ids[..|ids| - 1], e);
      PushBounded(PushIds(t, ids[..|ids| - 1], e), ids[|ids| - 1], e);
    }
  }

  lemma {:induction false} PushTargetsBounded(t: Lists, targets: seq<Target>, e: Entry)
    requires Bounded(t, e)
    ensures Bounded(PushTargets(t, targets, e), e)
    ensures |t.keys| <= |PushTargets(t, targets, e).keys|
  {
    if targets != [] {
      var init := targets[..|targets| - 1];
      PushTargetsBounded(t, init, e);
      PushIdsBounded(PushTargets(t, init, e), TargetIds(targets[|targets| - 1]), e);
    }
  }

  lemma BoundedValid(t: Lists, e: Entry)
    requires Bounded(t, e)
    ensures ListsValid(t)
  {
    forall k | k in t.data
      ensures AtMost(t.data[k], |t.keys| + 1)
    {
    }
  }

  lemma ValidBounded(t: Lists, e: Entry)
    requires ListsValid(t) && e.order == |t.keys| + 1
    ensures Bounded(t, e)
  {
  }

  /** "*" is always a key, so pushing onto it creates none. */
  lemma PushGlobal(t: Lists, e: Entry)
    requires Bounded(t, e)
    ensures Push(t, Global, e) == Lists(t.keys, t.data[Global := Get(t.data, Global) + [e]])
  {
    assert Global in t.keys;
  }

  /** Orders never go down, so every list stays ascending: `add` keeps the record valid. */
  lemma AddKeepsValid(t: Lists, useOn: UseOn, handler: nat)
    requires ListsValid(t)
    ensures ListsValid(AddSpec(t, useOn, handler))
  {
    var e := Entry(|t.keys| + 1, handler);
    assert ListsValid(AddSpec(t, useOn, handler)) by {
      AddBounded(t, useOn, handler);
      BoundedValid(AddSpec(t, useOn, handler), e);
    }
  }

  /** The new entry's order bounds every list after `add`. */
  lemma AddBounded(t: Lists, useOn: UseOn, handler: nat)
    requires ListsValid(t)
    ensures Bounded(AddSpec(t, useOn, handler), Entry(|t.keys| + 1, handler))
  {
    match useOn
    case Everywhere => AddEverywhereBounded(t, handler);
    case On(targets) => AddOnBounded(t, targets, handler);
  }

  lemma AddEverywhereBounded(t: Lists, handler: nat)
    requires ListsValid(t)
    ensures Bounded(AddSpec(t, Everywhere, handler), Entry(|t.keys| + 1, handler))
  {
    var e := Entry(|t.keys| + 1, handler);
    var r := Lists(t.keys, t.data[Global := Get(t.data, Global) + [e]]);
    assert AddSpec(t, Everywhere, handler) == r;
    assert Bounded(r, e) by {
      ValidBounded(t, e);
      EverywhereBounded(t, e);
    }
  }

  lemma AddOnBounded(t: Lists, targets: seq<Target>, handler: nat)
    requires ListsValid(t)
    ensures Bounded(AddSpec(t, On(targets), handler), Entry(|t.keys| + 1, handler))
  {
    var e := Entry(|t.keys| + 1, handler);
    assert AddSpec(t, On(targets), handler) == PushTargets(t, targets, e);
    assert Bounded(PushTargets(t, targets, e), e) by {
      ValidBounded(t, e);
      PushTargetsBounded(t, targets, e);
    }
  }

  lemma EverywhereBounded(t: Lists, e: Entry)
    requires Bounded(t, e)
    ensures Bounded(Lists(t.keys, t.data[Global := Get(t.data, Global) + [e]]), e)
  {
    PushBounded(t, Global, e);
    PushGlobal(t, e);
  }

  /** A middleware on one route appends to that route's list and leaves the global list alone. */
  lemma AddOnRoute(t: Lists, id: string, handler: nat)
    requires id != Global
    ensures Get(AddSpec(t, On([RouteTarget(id)]), handler).data, id) == Get(t.data, id) + [Entry(|t.keys| + 1, handler)]
    ensures Get(AddSpec(t, On([RouteTarget(id)]), handler).data, Global) == Get(t.data, Global)
  {
    OneRoute(id);
    AddOnTargets(t, [RouteTarget(id)], handler, id);
    AddOnTargets(t, [RouteTarget(id)], handler, Global);
  }

  lemma OneRoute(id: string)
    requires id != Global
    ensures multiset(AllIds([RouteTarget(id)]))[id] == 1
    ensures multiset(AllIds([RouteTarget(id)]))[Global] == 0
  {
    assert [RouteTarget(id)][..0] == [];
    assert AllIds([RouteTarget(id)]) == [id];
  }

  /** Two middlewares on the same route run in registration order, after the globals. */
  lemma RouteMiddlewaresInRegistrationOrder(t: Lists, t1: Lists, t2: Lists, id: string, first: nat, second: nat)
    requires ListsValid(t) && id != Global
    requires t1 == AddSpec(t, On([RouteTarget(id)]), first)
    requires t2 == AddSpec(t1, On([RouteTarget(id)]), second)
    ensures Composed(t2, id) == t.data[Global] + (Get(t.data, id) + [Entry(|t.keys| + 1, first), Entry(|t1.keys| + 1, second)])
  {
    TwoAddsAscending(t, On([RouteTarget(id)]), first, On([RouteTarget(id)]), second, Global);
    TwoAddsAscending(t, On([RouteTarget(id)]), first, On([RouteTarget(id)]), second, id);
    TwoRouteAdds(t, t1, t2, id, first, second);
    ComposedOfAscending(t2, id);
  }

  lemma TwoRouteAdds(t: Lists, t1: Lists, t2: Lists, id: string, first: nat, second: nat)
    requires id != Global
    requires t1 == AddSpec(t, On([RouteTarget(id)]), first)
    requires t2 == AddSpec(t1, On([RouteTarget(id)]), second)
    ensures Get(t2.data, Global) == Get(t.data, Global)
    ensures Get(t2.data, id) == Get(t.data, id) + [Entry(|t.keys| + 1, first), Entry(|t1.keys| + 1, second)]
  {
    AddOnRoute(t, id, first);
    AddOnRoute(t1, id, second);
  }

  /** A global registered after a route middleware still runs before it. */
  lemma GlobalsRunFirst(t: Lists, t1: Lists, t2: Lists, id: string, routeLevel: nat, global: nat)
    requires ListsValid(t) && id != Global
    requires t1 == AddSpec(t, On([RouteTarget(id)]), routeLevel)
    requires t2 == AddSpec(t1, Everywhere, global)
    ensures Composed(t2, id) == (t.data[Global] + [Entry(|t1.keys| + 1, global)]) + (Get(t.data, id) + [Entry(|t.keys| + 1, routeLevel)])
  {
    TwoAddsAscending(t, On([RouteTarget(id)]), routeLevel, Everywhere, global, Global);
    TwoAddsAscending(t, On([RouteTarget(id)]), routeLevel, Everywhere, global, id);
    RouteThenGlobalAdds(t, t1, t2, id, routeLevel, global);
    ComposedOfAscending(t2, id);
  }

  lemma RouteThenGlobalAdds(t: Lists, t1: Lists, t2: Lists, id: string, routeLevel: nat, global: nat)
    requires id != Global
    requires t1 == AddSpec(t, On([RouteTarget(id)]), routeLevel)
    requires t2 == AddSpec(t1, Everywhere, global)
    ensures Get(t2.data, Global) == Get(t.data, Global) + [Entry(|t1.keys| + 1, global)]
    ensures Get(t2.data, id) == Get(t.data, id) + [Entry(|t.keys| + 1, routeLevel)]
  {
    AddOnRoute(t, id, routeLevel);
    AddEverywhere(t1, global, id);
    AddEverywhere(t1, global, Global);
  }

  lemma TwoAddsAscending(t: Lists, u1: UseOn, h1: nat, u2: UseOn, h2: nat, k: string)
    requires ListsValid(t)
    ensures Ascending(Get(AddSpec(AddSpec(t, u1, h1), u2, h2).data, k))
  {
    AddKeepsValid(t, u1, h1);
    AddKeepsValid(AddSpec(t, u1, h1), u2, h2);
  }

  lemma ComposedOfAscending(t: Lists, routeId: string)
    requires Ascending(Get(t.data, Global)) && Ascending(Get(t.data, routeId))
    ensures Composed(t, routeId) == Get(t.data, Global) + Get(t.data, routeId)
  {
    SortedIsFixed(Get(t.data, Global));
    SortedIsFixed(Get(t.data, routeId));
  }

  /** The body of `add`: the order is taken first, then "*" or each target's ids get the entry. */
  method AddLists(t: Lists, useOn: UseOn, handler: nat) returns (r: Lists)
    requires Global in t.data
    ensures r == AddSpec(t, useOn, handler)
  {
    var order := |t.keys| + 1;
    var e := Entry(order, handler);
    if useOn.Everywhere? {
      return Lists(t.keys, t.data[Global := t.data[Global] + [e]]);
    }
    r := PushAllTargets(t, useOn.targets, e);
  }

  /** The nested loops of `add`: each target, then each id it expands to. */
  method PushAllTargets(t: Lists, targets: seq<Target>, e: Entry) returns (r: Lists)
    ensures r == PushTargets(t, targets, e)
  {
    r := t;
    for i := 0 to |targets|
      invariant r == PushTargets(t, targets[..i], e)
    {
      assert targets[..i + 1][..i] == targets[..i];
      var ids := TargetIds(targets[i]);
      ghost var before := r;
      for j := 0 to |ids|
        invariant r == PushIds(before, ids[..j], e)
      {
        assert ids[..j + 1][..j] == ids[..j];
        var id := ids[j];
        var list := if id in r.data then r.data[id] else [];
        r := Lists(InsertKey(r.keys, id), r.data[id := list + [e]]);
      }
      assert ids[..|ids|] == ids;
    }
    assert targets[..|targets|] == targets;
  }

  /**
   * The registry object. The two Router registries hold the same code under
   * `middlewares`, `addMiddleware` and `findMiddleware`.
   */
  class Registry {
    var keys: seq<string>
    var data: map<string, seq<Entry>>

    ghost predicate Valid()
      reads this
    {
      ListsValid(Lists(keys, data))
    }

    constructor()
      ensures Valid()
      ensures Lists(keys, data) == Initial
    {
      keys := [Global];
      data := map[Global := []];
    }

    method Add(useOn: UseOn, handler: nat)
      requires Valid()
      modifies this
      ensures Valid()
      ensures Lists(keys, data) == AddSpec(old(Lists(keys, data)), useOn, handler)
    {
      AddKeepsValid(Lists(keys, data), useOn, handler);
      var t := AddLists(Lists(keys, data), useOn, handler);
      keys := t.keys;
      data := t.data;
    }

    /** Sorts both lists where they are stored, then concatenates them. */
    method Find(routeId: string) returns (r: seq<Entry>)
      requires Valid()
      modifies this
      ensures Valid()
      ensures keys == old(keys) && data == old(data)
      ensures r == Composed(Lists(keys, data), routeId)
    {
      FindChangesNothing(Lists(keys, data), routeId);
      var globals := SortByOrder(data[Global]);
      assert data[Global := globals] == data;
      data := data[Global := globals];
      var locals: seq<Entry> := [];
      if routeId in data {
        locals := SortByOrder(data[routeId]);
        assert data[routeId := locals] == data;
        data := data[routeId := locals];
      }
      r := globals + locals;
    }
  }
}

/** The composing registry of src/Middleware/MiddlewareRegistry.ts. */
module MiddlewareChain {
  import opened MiddlewareScopes

  /** A middleware handler: one registered by the user, or one `compile` built from a list. */
  datatype Handler = Leaf(token: nat) | Compiled(parts: seq<Handler>)

  /** What running a handler did: the user handlers entered, in order, and whether it finished. */
  datatype Outcome = Outcome(ran: seq<nat>, ok: bool)

  /** Sequencing of awaits: the second step runs only when the first did not throw. */
  function Then(first: Outcome, second: Outcome): Outcome
  {
    if !first.ok then first else Outcome(first.ran + second.ran, second.ok)
  }

  /** Running a handler: a compiled one awaits its parts in order and stops at the first throw. */
  function Run(h: Handler, throws: set<nat>): Outcome
    decreases h, 1
  {
    match h
    case Leaf(token) => Outcome([token], token !in throws)
    case Compiled(parts) => RunAll(parts, throws)
  }

  function RunAll(parts: seq<Handler>, throws: set<nat>): Outcome
    decreases parts, 0
  {
    if parts == [] then Outcome([], true)
    else Then(RunAll(parts[..|parts| - 1], throws), Run(parts[|parts| - 1], throws))
  }

  /** The user handlers a handler is made of, in the order it calls them. */
  function Flatten(h: Handler): seq<nat>
    decreases h, 1
  {
    match h
    case Leaf(token) => [token]
    case Compiled(parts) => FlattenAll(parts)
  }

  function FlattenAll(parts: seq<Handler>): seq<nat>
    decreases parts, 0
  {
    if parts == [] then [] else FlattenAll(parts[..|parts| - 1]) + Flatten(parts[|parts| - 1])
  }

  /** A flat list of handlers run one after another. */
  function RunFlat(tokens: seq<nat>, throws: set<nat>): (o: Outcome)
    ensures |o.ran| <= |tokens|
  {
    if tokens == [] then Outcome([], true)
    else Then(RunFlat(tokens[..|tokens| - 1], throws), Outcome([tokens[|tokens| - 1]], tokens[|tokens| - 1] !in throws))
  }

  /** A flat run finishes exactly when none of its handlers throws. */
  lemma {:induction false} RunFlatOk(tokens: seq<nat>, throws: set<nat>)
    ensures RunFlat(tokens, throws).ok <==> forall i :: 0 <= i < |tokens| ==> tokens[i] !in throws
  {
    if tokens != [] {
      var init := tokens[..|tokens| - 1];
      RunFlatOk(init, throws);
      assert forall i :: 0 <= i < |init| ==> init[i] == tokens[i];
    }
  }

  /** A flat run enters a prefix of its handlers, all of them when it finishes. */
  lemma {:induction false} RunFlatPrefix(tokens: seq<nat>, throws: set<nat>)
    ensures var o := RunFlat(tokens, throws);
      o.ran == tokens[..|o.ran|] && (o.ok ==> o.ran == tokens)
  {
    if tokens != [] {
      var init := tokens[..|tokens| - 1];
      RunFlatPrefix(init, throws);
      var r := RunFlat(init, throws).ran;
      assert tokens[..|r|] == init[..|r|];
      assert tokens == init + [tokens[|tokens| - 1]];
    }
  }

  /** A flat run that does not finish stops at a handler that throws, after handlers that did not. */
  lemma {:induction false} RunFlatStopsAtThrow(tokens: seq<nat>, throws: set<nat>)
    ensures var o := RunFlat(tokens, throws);
      !o.ok ==> 1 <= |o.ran| && o.ran[|o.ran| - 1] in throws &&
                forall i :: 0 <= i < |o.ran| - 1 ==> o.ran[i] !in throws
  {
    if tokens != [] {
      var init := tokens[..|tokens| - 1];
      var last := tokens[|tokens| - 1];
      RunFlatStopsAtThrow(init, throws);
      if RunFlat(init, throws).ok {
        RunFlatOk(init, throws);
        RunFlatPrefix(init, throws);
        assert RunFlat(tokens, throws).ran == init + [last];
      }
    }
  }

  /** A flat run performs everything up to and including the first handler that throws, and nothing after it. */
  lemma RunFlatStopsAtFirstThrow(tokens: seq<nat>, throws: set<nat>)
    ensures var o := RunFlat(tokens, throws);
      (o.ok <==> forall i :: 0 <= i < |tokens| ==> tokens[i] !in throws) &&
      (o.ok ==> o.ran == tokens) &&
      (!o.ok ==> 1 <= |o.ran| && o.ran == tokens[..|o.ran|]) &&
      (!o.ok ==> o.ran[|o.ran| - 1] in throws && forall i :: 0 <= i < |o.ran| - 1 ==> o.ran[i] !in throws)
  {
    RunFlatOk(tokens, throws);
    RunFlatPrefix(tokens, throws);
    RunFlatStopsAtThrow(tokens, throws);
  }

  lemma {:induction false} RunFlatAppend(a: seq<nat>, b: seq<nat>, throws: set<nat>)
    ensures RunFlat(a + b, throws) == Then(RunFlat(a, throws), RunFlat(b, throws))
  {
    if b != [] {
      var init := b[..|b| - 1];
      var last := b[|b| - 1];
      assert (a + b)[..|a + b| - 1] == a + init;
      RunFlatAppend(a, init, throws);
    } else {
      assert a + b == a;
    }
  }

  /**
   * However deep the composition, running a handler is running its user
   * handlers strictly in sequence, stopping at the first throw.
   */
  lemma {:induction false} RunIsSequential(h: Handler, throws: set<nat>)
    ensures Run(h, throws) == RunFlat(Flatten(h), throws)
    decreases h, 1
  {
    match h
    case Leaf(token) =>
    case Compiled(parts) => RunAllIsSequential(parts, throws);
  }

  lemma {:induction false} RunAllIsSequential(parts: seq<Handler>, throws: set<nat>)
    ensures RunAll(parts, throws) == RunFlat(FlattenAll(parts), throws)
    decreases parts, 0
  {
    if parts != [] {
      var init := parts[..|parts| - 1];
      var last := parts[|parts| - 1];
      RunAllIsSequential(init, throws);
      RunIsSequential(last, throws);
      RunFlatAppend(FlattenAll(init), Flatten(last), throws);
    }
  }

  /** `compile(handlers)`: one handler awaiting each given handler in turn. */
  function Compile(handlers: seq<Handler>): Handler
  {
    Compiled(handlers)
  }

  /** The body of the closure `compile` returns: a loop awaiting each handler. */
  method RunCompiled(handlers: seq<Handler>, throws: set<nat>) returns (o: Outcome)
    ensures o == Run(Compile(handlers), throws)
  {
    o := Outcome([], true);
    for i := 0 to |handlers|
      invariant o.ok && o == RunAll(handlers[..i], throws)
    {
      assert handlers[..i + 1][..i] == handlers[..i];
      var step := Run(handlers[i], throws);
      o := Then(o, step);
      assert RunAll(handlers[..i + 1], throws) == Then(RunAll(handlers[..i], throws), step);
      if !o.ok {
        StopsAfterThrow(handlers, i + 1, throws);
        return;
      }
    }
    assert handlers[..|handlers|] == handlers;
  }

  lemma {:induction false} StopsAfterThrow(handlers: seq<Handler>, i: nat, throws: set<nat>)
    requires i <= |handlers| && !RunAll(handlers[..i], throws).ok
    ensures RunAll(handlers, throws) == RunAll(handlers[..i], throws)
    decreases |handlers| - i
  {
    if i < |handlers| {
      assert handlers[..i + 1][..i] == handlers[..i];
      StopsAfterThrow(handlers, i + 1, throws);
    } else {
      assert handlers[..i] == handlers;
    }
  }

  /** `map.get(key)` made into a list: the composed handler when there is one. */
  function Existing(handlers: map<string, Handler>, key: string): seq<Handler>
  {
    if key in handlers then [handlers[key]] else []
  }

  /** The handlers stored under a key, flattened. */
  function FlatAt(handlers: map<string, Handler>, key: string): seq<nat>
  {
    if key in handlers then Flatten(handlers[key]) else []
  }

  /** One registration for one key: `compile([old?, handler])`. */
  function Extend(handlers: map<string, Handler>, key: string, handler: nat): map<string, Handler>
  {
    handlers[key := Compile(Existing(handlers, key) + [Leaf(handler)])]
  }

  function ExtendIds(handlers: map<string, Handler>, ids: seq<string>, handler: nat): map<string, Handler>
  {
    if ids == [] then handlers else Extend(ExtendIds(handlers, ids[..|ids| - 1], handler), ids[|ids| - 1], handler)
  }

  function ExtendTargets(handlers: map<string, Handler>, targets: seq<Target>, handler: nat): map<string, Handler>
  {
    if targets == [] then handlers
    else ExtendIds(ExtendTargets(handlers, targets[..|targets| - 1], handler), TargetIds(targets[|targets| - 1]), handler)
  }

  function AddSpec(handlers: map<string, Handler>, useOn: UseOn, handler: nat): map<string, Handler>
  {
    match useOn
    case Everywhere => Extend(handlers, Global, handler)
    case On(targets) => ExtendTargets(handlers, targets, handler)
  }

  /** `find(routeId)`: the global chain, then the route's, whichever exist. */
  function FindSpec(handlers: map<string, Handler>, routeId: string): Handler
  {
    Compile(Existing(handlers, Global) + Existing(handlers, routeId))
  }

  lemma FlattenTwo(a: seq<Handler>, b: seq<Handler>)
    requires |a| <= 1 && |b| <= 1
    ensures FlattenAll(a + b) == FlattenAll(a) + FlattenAll(b)
  {
    if b == [] {
      assert a + b == a;
    } else {
      assert (a + b)[..|a + b| - 1] == a;
    }
  }

  lemma ExtendAppends(handlers: map<string, Handler>, key: string, handler: nat, k: string)
    ensures FlatAt(Extend(handlers, key, handler), k) == FlatAt(handlers, k) + (if k == key then [handler] else [])
  {
    if k == key {
      FlattenTwo(Existing(handlers, key), [Leaf(handler)]);
    }
  }

  lemma {:induction false} ExtendIdsAppends(handlers: map<string, Handler>, ids: seq<string>, handler: nat, k: string)
    ensures FlatAt(ExtendIds(handlers, ids, handler), k) == FlatAt(handlers, k) + Repeat(handler, multiset(ids)[k])
  {
    if ids != [] {
      var init := ids[..|ids| - 1];
      assert ids == init + [ids[|ids| - 1]];
      ExtendIdsAppends(handlers, init, handler, k);
      ExtendAppends(ExtendIds(handlers, init, handler), ids[|ids| - 1], handler, k);
    }
  }

  lemma {:induction false} ExtendTargetsAppends(handlers: map<string, Handler>, targets: seq<Target>, handler: nat, k: string)
    ensures FlatAt(ExtendTargets(handlers, targets, handler), k) == FlatAt(handlers, k) + Repeat(handler, multiset(AllIds(targets))[k])
  {
    if targets != [] {
      var init := targets[..|targets| - 1];
      var ids := TargetIds(targets[|targets| - 1]);
      ExtendTargetsAppends(handlers, init, handler, k);
      ExtendIdsAppends(ExtendTargets(handlers, init, handler), ids, handler, k);
      RepeatAdd(handler, multiset(AllIds(init))[k], multiset(ids)[k]);
    }
  }

  /**
   * Each stored chain is its registrations in order: "*" extends only the
   * global chain, a target extends every id it expands to, once per mention.
   */
  lemma AddAppends(handlers: map<string, Handler>, useOn: UseOn, handler: nat, k: string)
    ensures useOn.Everywhere? ==>
      FlatAt(AddSpec(handlers, useOn, handler), k) == FlatAt(handlers, k) + (if k == Global then [handler] else [])
    ensures useOn.On? ==>
      FlatAt(AddSpec(handlers, useOn, handler), k) == FlatAt(handlers, k) + Repeat(handler, multiset(AllIds(useOn.targets))[k])
  {
    match useOn
    case Everywhere => ExtendAppends(handlers, Global, handler, k);
    case On(targets) => ExtendTargetsAppends(handlers, targets, handler, k);
  }

  /**
   * What `find` returns runs the global chain and then the route's chain, each
   * in registration order, and the first throw aborts the rest.
   */
  lemma FindRunsGlobalsThenRoute(handlers: map<string, Handler>, routeId: string, throws: set<nat>)
    ensures Flatten(FindSpec(handlers, routeId)) == FlatAt(handlers, Global) + FlatAt(handlers, routeId)
    ensures Run(FindSpec(handlers, routeId), throws) == RunFlat(FlatAt(handlers, Global) + FlatAt(handlers, routeId), throws)
  {
    var a := Existing(handlers, Global);
    var b := Existing(handlers, routeId);
    FlattenTwo(a, b);
    if a != [] {
      assert FlattenAll(a) == Flatten(a[0]) by { assert a[..0] == []; }
    }
    if b != [] {
      assert FlattenAll(b) == Flatten(b[0]) by { assert b[..0] == []; }
    }
    RunIsSequential(FindSpec(handlers, routeId), throws);
  }

  /** With neither chain registered, `find` gives a handler that does nothing. */
  lemma FindWithNothingIsNoOp(handlers: map<string, Handler>, routeId: string, throws: set<nat>)
    requires Global !in handlers && routeId !in handlers
    ensures Run(FindSpec(handlers, routeId), throws) == Outcome([], true)
  {
  }

  /** A global registration followed by one on a route leave one handler under each key. */
  lemma GlobalThenRouteAdds(handlers: map<string, Handler>, h1: map<string, Handler>, h2: map<string, Handler>,
                            routeId: string, global: nat, routeLevel: nat)
    requires Global !in handlers && routeId !in handlers && routeId != Global
    requires h1 == AddSpec(handlers, Everywhere, global)
    requires h2 == AddSpec(h1, On([RouteTarget(routeId)]), routeLevel)
    ensures FlatAt(h2, Global) == [global] && FlatAt(h2, routeId) == [routeLevel]
  {
    assert AllIds([RouteTarget(routeId)]) == [routeId];
    AddAppends(handlers, Everywhere, global, Global);
    AddAppends(handlers, Everywhere, global, routeId);
    AddAppends(h1, On([RouteTarget(routeId)]), routeLevel, Global);
    AddAppends(h1, On([RouteTarget(routeId)]), routeLevel, routeId);
  }

  /** A global handler that throws stops the request before any route handler. */
  lemma ThrowingGlobalGuardsRoute(handlers: map<string, Handler>, h1: map<string, Handler>, h2: map<string, Handler>,
                                  routeId: string, guard: nat, routeLevel: nat, throws: set<nat>)
    requires guard in throws && Global !in handlers && routeId !in handlers && routeId != Global
    requires h1 == AddSpec(handlers, Everywhere, guard)
    requires h2 == AddSpec(h1, On([RouteTarget(routeId)]), routeLevel)
    ensures Run(FindSpec(h2, routeId), throws) == Outcome([guard], false)
  {
    GlobalThenRouteAdds(handlers, h1, h2, routeId, guard, routeLevel);
    FindRunsGlobalsThenRoute(h2, routeId, throws);
    RunFlatAppend([guard], [routeLevel], throws);
    assert [guard] + [routeLevel] == [guard, routeLevel];
  }

  class Registry {
    var handlers: map<string, Handler>

    constructor()
      ensures handlers == map[]
    {
      handlers := map[];
    }

    method Add(useOn: UseOn, handler: nat)
      modifies this
      ensures handlers == AddSpec(old(handlers), useOn, handler)
    {
      if useOn.Everywhere? {
        var arr: seq<Handler> := [];
        if Global in handlers {
          arr := arr + [handlers[Global]];
        }
        arr := arr + [Leaf(handler)];
        assert arr == Existing(handlers, Global) + [Leaf(handler)];
        handlers := handlers[Global := Compile(arr)];
        return;
      }
      var targets := useOn.targets;
      for i := 0 to |targets|
        invariant handlers == ExtendTargets(old(handlers), targets[..i], handler)
      {
        assert targets[..i + 1][..i] == targets[..i];
        AddToEach(TargetIds(targets[i]), handler);
      }
      assert targets[..|targets|] == targets;
    }

    /** The inner loop of `add`: extend the chain of each id in turn. */
    method AddToEach(routeIds: seq<string>, handler: nat)
      modifies this
      ensures handlers == ExtendIds(old(handlers), routeIds, handler)
    {
      for j := 0 to |routeIds|
        invariant handlers == ExtendIds(old(handlers), routeIds[..j], handler)
      {
        assert routeIds[..j + 1][..j] == routeIds[..j];
        var routeId := routeIds[j];
        var arr: seq<Handler> := [];
        if routeId in handlers {
          arr := arr + [handlers[routeId]];
        }
        arr := arr + [Leaf(handler)];
        assert arr == Existing(handlers, routeId) + [Leaf(handler)];
        handlers := handlers[routeId := Compile(arr)];
      }
      assert routeIds[..|routeIds|] == routeIds;
    }

    method Find(routeId: string) returns (h: Handler)
      ensures h == FindSpec(handlers, routeId)
    {
      var arr: seq<Handler> := [];
      if Global in handlers {
        arr := arr + [handlers[Global]];
      }
      if routeId in handlers {
        arr := arr + [handlers[routeId]];
      }
      h := Compile(arr);
    }
  }
}

/** Route-handler wrapping in src/lib/Middleware/__Coreum_Middleware.ts. */
module CoreumMiddleware {
  import opened Wrappers
  import opened MiddlewareScopes
  import Strings
  import PathJoin
  import HttpTables
  import RouteIds
  import RoutePattern
  import RouteResolve
  import Contexts

  /** The constructor argument: the callback itself, or an object with a `middleware` callback. */
  datatype Argument = Callback(callback: nat) | Provider(middleware: nat)

  /** What a middleware callback can resolve to, as far as `?? undefined` can tell. */
  datatype Data = Undefined | Null | Value(v: nat)

  /**
   * A route's handler: the one the route was built with, or a wrapper that
   * runs a middleware callback for the route at `path` before the inner handler.
   */
  datatype RouteHandler = Own(route: nat) | Wrapped(callback: nat, path: string, inner: RouteHandler)

  function CallbackOf(argument: Argument): (cb: nat)
    ensures argument.Provider? ==> cb == argument.middleware
    ensures argument.Callback? ==> cb == argument.callback
  {
    match argument
    case Callback(cb) => cb
    case Provider(m) => m
  }

  /** `data ?? undefined`. */
  function Coalesce(d: Data): (r: Data)
    ensures r != Null
    ensures d != Null ==> r == d
  {
    if d == Null then Undefined else d
  }

  function WrapN(h: RouteHandler, callback: nat, path: string, n: nat): RouteHandler
  {
    if n == 0 then h else Wrapped(callback, path, WrapN(h, callback, path, n - 1))
  }

  /** The callbacks a call runs before the route's own code, outermost first. */
  function Calls(h: RouteHandler): seq<nat>
  {
    match h
    case Own(_) => []
    case Wrapped(cb, _, inner) => [cb] + Calls(inner)
  }

  /** The route's own handler at the bottom of the wrappers. */
  function Bottom(h: RouteHandler): nat
  {
    match h
    case Own(r) => r
    case Wrapped(_, _, inner) => Bottom(inner)
  }

  /**
   * How many contexts a call builds: every layer does `ctx ?? new Context(...)`
   * and hands its context down.
   */
  function ContextsBuilt(h: RouteHandler, given: bool): nat
  {
    match h
    case Own(_) => if given then 0 else 1
    case Wrapped(_, _, inner) => (if given then 0 else 1) + ContextsBuilt(inner, true)
  }

  /** The `context.data` the route's own handler sees, given the callbacks' results. */
  function DataSeen(h: RouteHandler, current: Data, results: nat -> Data): Data
  {
    match h
    case Own(_) => current
    case Wrapped(cb, _, inner) => DataSeen(inner, Coalesce(results(cb)), results)
  }

  /** One context per call: built when the caller passed none, shared by every layer. */
  lemma {:induction false} OneContextPerCall(h: RouteHandler, given: bool)
    ensures ContextsBuilt(h, given) == if given then 0 else 1
  {
    match h
    case Own(_) =>
    case Wrapped(_, _, inner) => OneContextPerCall(inner, true);
  }

  /** The data the route sees comes from the innermost (first applied) middleware and is never null. */
  lemma {:induction false} DataFromInnermost(h: RouteHandler, current: Data, results: nat -> Data)
    requires h.Wrapped?
    ensures DataSeen(h, current, results) == Coalesce(results(Calls(h)[|Calls(h)| - 1]))
    ensures DataSeen(h, current, results) != Null
  {
    match h
    case Wrapped(cb, _, inner) =>
      if inner.Wrapped? {
        DataFromInnermost(inner, Coalesce(results(cb)), results);
        assert Calls(h)[|Calls(h)| - 1] == Calls(inner)[|Calls(inner)| - 1];
      }
  }

  /** Wrapping n times puts n calls of the callback in front and keeps the route's own handler. */
  lemma {:induction false} WrapNCalls(h: RouteHandler, callback: nat, path: string, n: nat)
    ensures Calls(WrapN(h, callback, path, n)) == Repeat(callback, n) + Calls(h)
    ensures Bottom(WrapN(h, callback, path, n)) == Bottom(h)
  {
    if n > 0 {
      WrapNCalls(h, callback, path, n - 1);
      assert Repeat(callback, n) == [callback] + Repeat(callback, n - 1);
    }
  }

  /** Of two middlewares used on a route, the later one's callback runs first. */
  lemma LaterUseRunsFirst(h: RouteHandler, first: nat, second: nat, path: string)
    ensures Calls(Wrapped(second, path, Wrapped(first, path, h))) == [second, first] + Calls(h)
  {
  }

  /** `new __Coreum_Route(method, path, callback, schemas)` of src/lib/Route/__Coreum_Route.ts. */
  class CoreumRoute {
    const httpMethod: HttpTables.Method
    const path: string
    const id: string
    const pattern: seq<RoutePattern.Seg>
    const paramNames: seq<string>
    const callback: nat
    const schemas: Option<Contexts.Model>
    var handler: RouteHandler

    /** The id, pattern and parameter names are derived from the method and path; the handler is the route's own. */
    constructor(httpMethod: HttpTables.Method, path: string, callback: nat, schemas: Option<Contexts.Model>)
      ensures this.httpMethod == httpMethod && this.path == path && this.callback == callback && this.schemas == schemas
      ensures id == RouteIds.CoreumRouteId(HttpTables.MethodName(httpMethod), path)
      ensures pattern == RoutePattern.ResolvePattern(path)
      ensures paramNames == RoutePattern.ParamNames(Strings.Split(path, '/'))
      ensures handler == Own(callback)
    {
      var names := RoutePattern.GetParamNames(path);
      this.httpMethod := httpMethod;
      this.path := path;
      id := RouteIds.CoreumRouteId(HttpTables.MethodName(httpMethod), path);
      pattern := RoutePattern.ResolvePattern(path);
      paramNames := names;
      this.callback := callback;
      this.schemas := schemas;
      handler := Own(callback);
    }
  }

  /**
   * The path of `route(definition, ...)` of src/lib/Controller/__Coreum_Controller.ts:
   * the global prefix, the controller's prefix and the raw path joined when
   * the global prefix is defined, else the prefix and the raw path.
   */
  function CoreumRoutePath(globalPrefix: Option<string>, prefix: Option<string>, rawPath: string): string
  {
    if globalPrefix.Some? && Strings.TextIsDefined(globalPrefix.value)
    then PathJoin.JoinPathSegments([globalPrefix, prefix, Some(rawPath)])
    else PathJoin.JoinPathSegments([prefix, Some(rawPath)])
  }

  /** The two branches agree: an undefined or blank global prefix is dropped by the join anyway. */
  lemma CoreumRoutePathIsOneJoin(globalPrefix: Option<string>, prefix: Option<string>, rawPath: string)
    ensures CoreumRoutePath(globalPrefix, prefix, rawPath) == PathJoin.JoinPathSegments([globalPrefix, prefix, Some(rawPath)])
  {
    if !(globalPrefix.Some? && Strings.TextIsDefined(globalPrefix.value)) {
      PathJoin.DroppedSegmentIgnored([], globalPrefix, [prefix, Some(rawPath)]);
      assert [] + [globalPrefix] + [prefix, Some(rawPath)] == [globalPrefix, prefix, Some(rawPath)];
      assert [] + [prefix, Some(rawPath)] == [prefix, Some(rawPath)];
    }
  }

  /** `__Coreum_Controller`: an optional prefix and the routes built through it, in creation order. */
  class CoreumController {
    const prefix: Option<string>
    var routes: seq<CoreumRoute>

    constructor(prefix: Option<string>)
      ensures this.prefix == prefix && routes == []
    {
      this.prefix := prefix;
      routes := [];
    }

    /**
     * `route(definition, callback, schemas)`: GET for a plain path, the path
     * under the prefixes, and the new route appended to `routes` and returned.
     */
    method Route(globalPrefix: Option<string>, definition: RouteResolve.RouteDefinition, callback: nat, schemas: Option<Contexts.Model>)
      returns (route: CoreumRoute)
      modifies this`routes
      ensures fresh(route) && routes == old(routes) + [route]
      ensures route.httpMethod == RouteResolve.ResolveMethod(definition)
      ensures route.path == CoreumRoutePath(globalPrefix, prefix, definition.path)
      ensures route.id == RouteIds.CoreumRouteId(HttpTables.MethodName(route.httpMethod), route.path)
      ensures route.handler == Own(callback) && route.schemas == schemas
    {
      var m := RouteResolve.ResolveMethod(definition);
      var path := CoreumRoutePath(globalPrefix, prefix, definition.path);
      route := new CoreumRoute(m, path, callback, schemas);
      routes := routes + [route];
    }
  }

  /** The routes of the controllers, in the order `use` visits them. */
  function AllRoutes(controllers: seq<CoreumController>): seq<CoreumRoute>
    reads controllers
  {
    if controllers == [] then []
    else AllRoutes(controllers[..|controllers| - 1]) + controllers[|controllers| - 1].routes
  }

  /** Each controller's route list, in order. */
  function RouteLists(controllers: seq<CoreumController>): (r: seq<seq<CoreumRoute>>)
    reads controllers
    ensures |r| == |controllers|
    ensures forall k :: 0 <= k < |r| ==> r[k] == controllers[k].routes
    ensures Concat(r) == AllRoutes(controllers)
  {
    if controllers == [] then []
    else RouteLists(controllers[..|controllers| - 1]) + [controllers[|controllers| - 1].routes]
  }

  function Concat(lists: seq<seq<CoreumRoute>>): seq<CoreumRoute>
  {
    if lists == [] then [] else Concat(lists[..|lists| - 1]) + lists[|lists| - 1]
  }

  lemma ConcatSnoc(lists: seq<seq<CoreumRoute>>, i: nat)
    requires i < |lists|
    ensures Concat(lists[..i + 1]) == Concat(lists[..i]) + lists[i]
    ensures forall rt :: rt in lists[i] ==> rt in Concat(lists)
  {
    assert lists[..i + 1][..i] == lists[..i];
    ConcatIncludes(lists, i);
  }

  lemma {:induction false} ConcatIncludes(lists: seq<seq<CoreumRoute>>, i: nat)
    requires i < |lists|
    ensures forall rt :: rt in lists[i] ==> rt in Concat(lists)
  {
    if i < |lists| - 1 {
      ConcatIncludes(lists[..|lists| - 1], i);
    }
  }

  lemma {:induction false} WrapNAdd(h: RouteHandler, callback: nat, path: string, n: nat, m: nat)
    ensures WrapN(WrapN(h, callback, path, n), callback, path, m) == WrapN(h, callback, path, n + m)
  {
    if m > 0 {
      WrapNAdd(h, callback, path, n, m - 1);
    }
  }

  class Middleware {
    const callback: nat

    constructor(argument: Argument)
      ensures callback == CallbackOf(argument)
    {
      callback := CallbackOf(argument);
    }

    /**
     * `use(controllers)`: every route of every controller gets a wrapper around
     * its current handler, once per time it is listed, and the same list comes back.
     */
    method Use(controllers: seq<CoreumController>) returns (r: seq<CoreumController>)
      modifies set rt | rt in AllRoutes(controllers)
      ensures r == controllers
      ensures forall rt: CoreumRoute :: old(allocated(rt)) && rt in old(AllRoutes(controllers)) ==>
        rt.handler == WrapN(old(rt.handler), callback, rt.path, multiset(old(AllRoutes(controllers)))[rt])
    {
      ghost var lists := RouteLists(controllers);
      ghost var allSet: set<CoreumRoute> := set rt | rt in Concat(lists);
      ghost var start: map<CoreumRoute, RouteHandler> := map rt | rt in allSet :: rt.handler;
      WrapEach(controllers, lists, allSet, start);
      return controllers;
    }

    /** The outer loop of `use`: wrap the routes of each controller in turn. */
    method WrapEach(controllers: seq<CoreumController>, ghost lists: seq<seq<CoreumRoute>>,
                    ghost allSet: set<CoreumRoute>, ghost start: map<CoreumRoute, RouteHandler>)
      requires |lists| == |controllers|
      requires forall k :: 0 <= k < |controllers| ==> controllers[k].routes == lists[k]
      requires forall rt :: rt in Concat(lists) ==> rt in allSet
      requires forall rt :: rt in allSet ==> rt in start && rt.handler == start[rt]
      modifies allSet
      ensures forall rt: CoreumRoute :: rt in allSet ==>
        rt.handler == WrapN(start[rt], callback, rt.path, multiset(Concat(lists))[rt])
    {
      for i := 0 to |controllers|
        invariant forall k :: 0 <= k < |controllers| ==> controllers[k].routes == lists[k]
        invariant forall rt: CoreumRoute :: rt in allSet ==>
          rt.handler == WrapN(start[rt], callback, rt.path, multiset(Concat(lists[..i]))[rt])
      {
        var routes: seq<CoreumRoute> := controllers[i].routes;
        ConcatSnoc(lists, i);
        WrapRoutes(routes, allSet, start, Concat(lists[..i]));
      }
      assert lists[..|controllers|] == lists;
    }

    /**
     * The inner loop of `use`: wrap each route's current handler. A route of
     * `others` that had been wrapped once per occurrence in `visited` over `start` has been
     * wrapped once more per occurrence in `routes`.
     */
    method WrapRoutes(routes: seq<CoreumRoute>, ghost others: set<CoreumRoute>,
                      ghost start: map<CoreumRoute, RouteHandler>, ghost visited: seq<CoreumRoute>)
      requires forall rt :: rt in others ==> rt in start
      requires forall rt: CoreumRoute :: rt in others ==>
        rt.handler == WrapN(start[rt], callback, rt.path, multiset(visited)[rt])
      modifies set rt | rt in routes
      ensures forall rt: CoreumRoute :: rt in others ==>
        rt.handler == WrapN(start[rt], callback, rt.path, multiset(visited + routes)[rt])
    {
      for j := 0 to |routes|
        invariant forall rt: CoreumRoute :: rt in others ==>
          rt.handler == WrapN(start[rt], callback, rt.path, multiset(visited + routes[..j])[rt])
      {
        var route := routes[j];
        assert routes[..j + 1] == routes[..j] + [route];
        route.handler := Wrapped(callback, route.path, route.handler);
      }
      assert routes[..|routes|] == routes;
    }
  }
}
