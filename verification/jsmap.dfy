/**
 * A JavaScript `Map`: a finite map that also remembers the order in which
 * its keys were first inserted, since iteration (`keys()`, `entries()`)
 * follows that order.
 */
module JsMaps {
  import opened Collections

  datatype JsMap<K(==), V> = JsMap(keys: seq<K>, entries: map<K, V>)
  {
    /** The key order lists every key exactly once. */
    ghost predicate Valid() {
      Distinct(keys) && entries.Keys == set k | k in keys
    }

    /** `map.size`. */
    function Size(): nat {
      |keys|
    }

    /** `map.has(k)`. */
    predicate Has(k: K) {
      k in entries
    }

    /** `map.set(k, v)`: an existing key keeps its place, a new key goes last. */
    function Set(k: K, v: V): (r: JsMap<K, V>)
      requires Valid()
      ensures r.Valid()
      ensures r.entries == entries[k := v]
      ensures k in entries ==> r.keys == keys
      ensures k !in entries ==> r.keys == keys + [k]
    {
      if k in entries then JsMap(keys, entries[k := v])
      else JsMap(keys + [k], entries[k := v])
    }

    /** `map.delete(k)`: the other keys keep their order. */
    function Delete(k: K): (r: JsMap<K, V>)
      requires Valid()
      ensures r.Valid()
      ensures r.entries == entries - {k}
      ensures r.keys == Remove(keys, k)
      ensures k !in entries ==> r == this
    {
      JsMap(Remove(keys, k), entries - {k})
    }
  }

  /** `new Map()`, or a map after `clear()`. */
  function Empty<K(==), V>(): (r: JsMap<K, V>)
    ensures r.Valid() && r.Size() == 0 && r.entries == map[]
  {
    JsMap([], map[])
  }

  /** `size` counts the entries. */
  lemma SizeIsEntryCount<K, V>(m: JsMap<K, V>)
    requires m.Valid()
    ensures m.Size() == |m.entries|
  {
    DistinctCardinality(m.keys);
  }

  /** Setting a key grows the map by one exactly when the key was absent. */
  lemma SetSize<K, V>(m: JsMap<K, V>, k: K, v: V)
    requires m.Valid()
    ensures m.Set(k, v).Size() == if m.Has(k) then m.Size() else m.Size() + 1
  {
  }

  /** Deleting a key shrinks the map by one exactly when the key was present. */
  lemma DeleteSize<K, V>(m: JsMap<K, V>, k: K)
    requires m.Valid()
    ensures m.Delete(k).Size() == if m.Has(k) then m.Size() - 1 else m.Size()
  {
    if m.Has(k) {
      RemovePresentShrinks(m.keys, k);
    }
  }
}
