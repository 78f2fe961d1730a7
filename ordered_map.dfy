// Insertion-ordered tables. A JavaScript `Map`, and an object with
// non-numeric keys, enumerates its entries in the order their keys were first
// set; a table is therefore its key sequence beside the key-value map.

module OrderedMaps {
  predicate Distinct(keys: seq<string>)
  {
    forall i, j :: 0 <= i < j < |keys| ==> keys[i] != keys[j]
  }

  /** The key order after `table[key] = value`: a new key goes last, an existing one keeps its place. */
  function InsertKey(keys: seq<string>, key: string): (r: seq<string>)
    ensures key in r
    ensures forall k :: k in r <==> k in keys || k == key
    ensures Distinct(keys) ==> Distinct(r)
    ensures |keys| <= |r| && r[..|keys|] == keys
  {
    if key in keys then keys else keys + [key]
  }

  lemma TakeOneMore<T>(s: seq<T>, i: nat)
    requires i < |s|
    ensures s[..i + 1] == s[..i] + [s[i]]
  {
  }

  /** The keys enumerate the map exactly once each. */
  ghost predicate TableValid<V>(keys: seq<string>, data: map<string, V>)
  {
    Distinct(keys) && forall k :: k in data <==> k in keys
  }

  /** A `Map<string, V>`: its keys in insertion order and its entries. */
  datatype OrderedMap<V> = OrderedMap(keys: seq<string>, items: map<string, V>)

  ghost predicate Valid<V>(m: OrderedMap<V>)
  {
    TableValid(m.keys, m.items)
  }

  function EmptyMap<V>(): (r: OrderedMap<V>)
    ensures Valid(r) && r.keys == []
  {
    OrderedMap([], map[])
  }

  /** `m.set(key, value)`. */
  function Put<V>(m: OrderedMap<V>, key: string, value: V): (r: OrderedMap<V>)
    ensures Valid(m) ==> Valid(r)
    ensures key in r.items && r.items[key] == value
    ensures forall k :: k != key ==> (k in r.items <==> k in m.items)
    ensures forall k :: k != key && k in m.items ==> r.items[k] == m.items[k]
    ensures r.keys == InsertKey(m.keys, key)
  {
    OrderedMap(InsertKey(m.keys, key), m.items[key := value])
  }

  /** `Array.from(m.values())`: the entries in key order. */
  function Values<V>(m: OrderedMap<V>): (r: seq<V>)
    requires forall k :: k in m.keys ==> k in m.items
    ensures |r| == |m.keys|
    ensures forall i :: 0 <= i < |r| ==> r[i] == m.items[m.keys[i]]
  {
    seq(|m.keys|, i requires 0 <= i < |m.keys| => m.items[m.keys[i]])
  }

  /**
   * Setting a key again keeps the number of entries and every other entry in
   * place; a new key adds one entry at the end.
   */
  lemma ValuesAfterPut<V>(m: OrderedMap<V>, key: string, value: V)
    requires Valid(m)
    ensures key in m.keys ==> |Values(Put(m, key, value))| == |Values(m)|
    ensures key in m.keys ==> forall i :: 0 <= i < |m.keys| && m.keys[i] != key ==> Values(Put(m, key, value))[i] == Values(m)[i]
    ensures key !in m.keys ==> Values(Put(m, key, value)) == Values(m) + [value]
  {
  }
}
