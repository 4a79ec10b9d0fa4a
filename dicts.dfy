/** Python dictionaries keyed by strings whose iteration order is observable:
    the keys in insertion order beside the key-to-value map. */
module Dicts {

  datatype Dict<V> = Dict(keys: seq<string>, entries: map<string, V>) {

    /** Every key occurs once in the order, and the order lists exactly the keys. */
    ghost predicate Valid() {
      && (forall i, j :: 0 <= i < j < |keys| ==> keys[i] != keys[j])
      && (forall k :: k in entries <==> k in keys)
    }

    /** `d[k] = v`: an existing key keeps its position, a new key goes last. */
    function Put(k: string, v: V): (r: Dict<V>)
      requires Valid()
      ensures r.Valid()
      ensures r.entries == entries[k := v]
      ensures k in entries ==> r.keys == keys
      ensures k !in entries ==> r.keys == keys + [k]
    {
      if k in entries then Dict(keys, entries[k := v]) else Dict(keys + [k], entries[k := v])
    }
  }

  function Empty<V>(): (r: Dict<V>)
    ensures r.Valid() && r.keys == [] && r.entries == map[]
  {
    Dict([], map[])
  }
}
