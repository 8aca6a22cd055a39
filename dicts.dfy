/** Python's `dict`: a finite map that also remembers the order in which its keys were
    first inserted, which is the order its iteration yields. */
module Dicts {
  import opened Seqs

  datatype Dict<K(==, !new), V> = Dict(keys: seq<K>, items: map<K, V>) {

    /** Keys are listed once each, and exactly the mapped keys are listed. */
    ghost predicate Valid() {
      Distinct(keys) && forall k :: k in items <==> k in keys
    }

    /** `d[k] = v`: a new key goes to the end, an existing key keeps its place. */
    function Put(k: K, v: V): (d: Dict<K, V>)
      ensures d.items == items[k := v]
      ensures d.keys == if k in items then keys else keys + [k]
    {
      if k in items then Dict(keys, items[k := v]) else Dict(keys + [k], items[k := v])
    }

    function Get(k: K, default: V): V {
      if k in items then items[k] else default
    }
  }

  /** Setting a key keeps the key list and the map in step. */
  lemma {:induction false} PutValid<K(!new), V>(d: Dict<K, V>, k: K, v: V)
    requires d.Valid()
    ensures d.Put(k, v).Valid()
  {
    if k !in d.items {
      var r := d.Put(k, v);
      assert forall i :: 0 <= i < |d.keys| ==> r.keys[i] == d.keys[i];
    }
  }

  /** Two new, different keys set one after the other go to the end in that order. */
  lemma {:induction false} PutPairFresh<K(!new), V>(d: Dict<K, V>, a: K, b: K, va: V, vb: V)
    requires d.Valid() && a !in d.items && b !in d.items && a != b
    ensures d.Put(a, va).Put(b, vb).Valid()
    ensures d.Put(a, va).Put(b, vb).keys == d.keys + [a, b]
  {
    PutValid(d, a, va);
    PutValid(d.Put(a, va), b, vb);
  }

  function Empty<K(==, !new), V>(): (d: Dict<K, V>)
    ensures d.Valid() && d.keys == [] && d.items == map[]
  {
    Dict([], map[])
  }

  /** `d[k] = items[k]` for every `k` of `keys`, in order. */
  function PutAll<K(==, !new), V>(d: Dict<K, V>, keys: seq<K>, items: map<K, V>): (r: Dict<K, V>)
    requires forall i :: 0 <= i < |keys| ==> keys[i] in items
    ensures d.keys <= r.keys
    ensures r.items.Keys == d.items.Keys + set k | k in keys
    ensures forall i :: 0 <= i < |keys| ==> r.items[keys[i]] == items[keys[i]]
    ensures forall k :: k in d.items && k !in keys ==> r.items[k] == d.items[k]
  {
    if keys == [] then d
    else
      var init := PutAll(d, keys[..|keys| - 1], items);
      assert forall i :: 0 <= i < |keys| - 1 ==> keys[i] == keys[..|keys| - 1][i];
      init.Put(keys[|keys| - 1], items[keys[|keys| - 1]])
  }

  lemma {:induction false} PutAllValid<K(!new), V>(d: Dict<K, V>, keys: seq<K>, items: map<K, V>)
    requires forall i :: 0 <= i < |keys| ==> keys[i] in items
    ensures d.Valid() ==> PutAll(d, keys, items).Valid()
  {
    if keys != [] {
      var init := keys[..|keys| - 1];
      assert forall i :: 0 <= i < |init| ==> init[i] == keys[i];
      PutAllValid(d, init, items);
      if d.Valid() {
        PutValid(PutAll(d, init, items), keys[|keys| - 1], items[keys[|keys| - 1]]);
      }
    }
  }

  /** `d.update(other)`: the keys of `other` keep or take their place in `d` and carry
      the values of `other`; the other keys of `d` are untouched. */
  function Update<K(==, !new), V>(d: Dict<K, V>, other: Dict<K, V>): (r: Dict<K, V>)
    requires other.Valid()
    ensures d.Valid() ==> r.Valid()
    ensures d.keys <= r.keys
    ensures r.items.Keys == d.items.Keys + other.items.Keys
    ensures forall k :: k in other.items ==> r.items[k] == other.items[k]
    ensures forall k :: k in d.items && k !in other.items ==> r.items[k] == d.items[k]
  {
    PutAllValid(d, other.keys, other.items);
    PutAll(d, other.keys, other.items)
  }
}
