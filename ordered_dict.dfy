/** Python dictionaries remember the order in which keys were first inserted,
    and the plotting code and the neighbour scan iterate in that order. A
    `Dict` pairs Dafny's unordered map with that insertion order. */
module PyDicts {

  datatype Dict<K, V> = Dict(order: seq<K>, entries: map<K, V>)
  {
    /** Every key is listed exactly once, and only keys are listed. */
    ghost predicate Valid() {
      && (forall i, j :: 0 <= i < j < |order| ==> order[i] != order[j])
      && (forall i :: 0 <= i < |order| ==> order[i] in entries)
      && (forall k :: k in entries ==> k in order)
    }

    /** `d[k] = v`: a new key goes to the end of the order, an existing key
        keeps its position and gets the new value. */
    function Put(k: K, v: V): (d: Dict<K, V>)
      ensures Valid() ==> d.Valid()
      ensures d.entries == entries[k := v]
      ensures k in entries ==> d.order == order
      ensures k !in entries ==> d.order == order + [k]
    {
      if k in entries then Dict(order, entries[k := v]) else Dict(order + [k], entries[k := v])
    }
  }

  /** Two dictionaries list the same keys in the same order. */
  ghost predicate Alike<K, V, W>(d: Dict<K, V>, e: Dict<K, W>)
  {
    d.order == e.order && d.entries.Keys == e.entries.Keys
  }

  lemma AlikeValid<K, V, W>(d: Dict<K, V>, e: Dict<K, W>)
    requires d.Valid() && Alike(d, e)
    ensures e.Valid()
  {
    assert forall i :: 0 <= i < |e.order| ==> e.order[i] in d.entries;
  }

  /** Storing under the same key keeps two alike dictionaries alike. */
  lemma PutAlike<K, V, W>(d: Dict<K, V>, e: Dict<K, W>, k: K, v: V, w: W)
    requires Alike(d, e)
    ensures Alike(d.Put(k, v), e.Put(k, w))
  {
  }

  /** The last of distinct keys is not among the others. */
  lemma LastIsNew<K>(keys: seq<K>)
    requires keys != [] && forall i, j :: 0 <= i < j < |keys| ==> keys[i] != keys[j]
    ensures keys[|keys| - 1] !in keys[..|keys| - 1]
  {
  }

  /** Storing the last of distinct keys into a dictionary that lists the
      others in order lists them all in order. */
  lemma PutLast<K, V>(d: Dict<K, V>, v: V, keys: seq<K>)
    requires keys != [] && forall i, j :: 0 <= i < j < |keys| ==> keys[i] != keys[j]
    requires d.Valid() && d.order == keys[..|keys| - 1]
    ensures d.Put(keys[|keys| - 1], v).Valid() && d.Put(keys[|keys| - 1], v).order == keys
  {
    LastIsNew(keys);
    assert keys == keys[..|keys| - 1] + [keys[|keys| - 1]];
  }

  function Empty<K, V>(): (d: Dict<K, V>)
    ensures d.Valid() && d.entries == map[] && d.order == []
  {
    Dict([], map[])
  }
}
