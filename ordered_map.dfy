/**
 * A string-keyed map that also remembers the order in which keys were first
 * inserted. It stands for the `HashMap`s of the system wherever their values
 * are iterated: the iteration order is taken to be first-insertion order.
 */
module OrderedMaps {
  import opened Wrappers

  /** Keys in first-insertion order beside the key-to-value map. */
  datatype Entries<V> = Entries(keys: seq<string>, entries: map<string, V>)
  {
    /** Every key is listed exactly once and the listed keys are the map's domain. */
    predicate Valid()
    {
      (forall i, j :: 0 <= i < j < |keys| ==> keys[i] != keys[j]) &&
      entries.Keys == set k | k in keys
    }

    /** The value stored under a key, or nothing (`get` returning null). */
    function Get(k: string): (r: Option<V>)
      ensures r.Some? <==> k in entries
      ensures r.Some? ==> r.value == entries[k]
    {
      if k in entries then Some(entries[k]) else None
    }

    /** `put`: a new key goes last; an existing key keeps its position and gets the new value. */
    function Put(k: string, v: V): (r: OrderedMap<V>)
      requires Valid()
      ensures r.entries == entries[k := v]
      ensures k in entries ==> r.keys == keys
      ensures k !in entries ==> r.keys == keys + [k]
    {
      if k in entries then Entries(keys, entries[k := v])
      else Entries(keys + [k], entries[k := v])
    }

    /** The values in key order (`values()`). */
    function Values(): (r: seq<V>)
      requires Valid()
      ensures |r| == |keys|
      ensures forall i :: 0 <= i < |keys| ==> r[i] == entries[keys[i]]
    {
      seq(|keys|, i requires 0 <= i < |keys| => entries[keys[i]])
    }
  }

  /** An insertion-ordered map: the entries kept consistent with their key list. */
  type OrderedMap<V> = m: Entries<V> | m.Valid() witness Entries([], map[])

  function Empty<V>(): (r: OrderedMap<V>)
    ensures r.keys == [] && r.entries == map[]
  {
    Entries([], map[])
  }

  /** A `put` followed by a `get` of the same key yields the value put; other keys are unaffected. */
  lemma GetAfterPut<V>(m: OrderedMap<V>, k: string, v: V, other: string)
    ensures m.Put(k, v).Get(k) == Some(v)
    ensures other != k ==> m.Put(k, v).Get(other) == m.Get(other)
  {
  }
}
