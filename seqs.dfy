/** Sequence helpers: list comprehensions with a condition, and flattening a list of lists. */
module Seqs {
  import opened Wrappers

  /** `[x for x in s if p(x)]` */
  function Filter<T>(s: seq<T>, p: T -> bool): seq<T> {
    if s == [] then [] else (if p(s[0]) then [s[0]] else []) + Filter(s[1..], p)
  }

  /** The kept elements are exactly the elements of `s` that satisfy `p`. */
  lemma {:induction false} FilterMembers<T>(s: seq<T>, p: T -> bool)
    ensures |Filter(s, p)| <= |s|
    ensures forall i :: 0 <= i < |Filter(s, p)| ==> Filter(s, p)[i] in s && p(Filter(s, p)[i])
    ensures forall i :: 0 <= i < |s| && p(s[i]) ==> s[i] in Filter(s, p)
  {
    if s != [] {
      FilterMembers(s[1..], p);
      var r := Filter(s, p);
      var head := if p(s[0]) then [s[0]] else [];
      forall i | 0 <= i < |r|
        ensures r[i] in s && p(r[i])
      {
        if i >= |head| {
          assert r[i] == Filter(s[1..], p)[i - |head|];
        }
      }
      forall i | 0 <= i < |s| && p(s[i])
        ensures s[i] in r
      {
        if i > 0 {
          assert s[i] == s[1..][i - 1];
        }
      }
    }
  }

  /** The kept elements keep their relative order: kept element i is `s[idx[i]]` for
      strictly increasing positions `idx`. */
  lemma {:induction false} FilterPositions<T>(s: seq<T>, p: T -> bool) returns (idx: seq<nat>)
    ensures |idx| == |Filter(s, p)|
    ensures forall i :: 0 <= i < |idx| ==> idx[i] < |s| && Filter(s, p)[i] == s[idx[i]]
    ensures forall i, j :: 0 <= i < j < |idx| ==> idx[i] < idx[j]
  {
    if s == [] {
      idx := [];
    } else {
      var rest := FilterPositions(s[1..], p);
      idx := ShiftPositions(s, Filter(s[1..], p), rest, p(s[0]));
    }
  }

  /** Positions in `s[1..]` of the elements of `tail`, shifted to positions in `s`, with
      position 0 in front when `s[0]` is kept too. */
  lemma {:induction false} ShiftPositions<T>(s: seq<T>, tail: seq<T>, rest: seq<nat>, keep: bool) returns (idx: seq<nat>)
    requires s != [] && |rest| == |tail|
    requires forall i :: 0 <= i < |rest| ==> rest[i] < |s[1..]| && tail[i] == s[1..][rest[i]]
    requires forall i, j :: 0 <= i < j < |rest| ==> rest[i] < rest[j]
    ensures var r := (if keep then [s[0]] else []) + tail;
      && |idx| == |r|
      && (forall i :: 0 <= i < |idx| ==> idx[i] < |s| && r[i] == s[idx[i]])
      && (forall i, j :: 0 <= i < j < |idx| ==> idx[i] < idx[j])
  {
    var head := if keep then [0] else [];
    var r := (if keep then [s[0]] else []) + tail;
    idx := head + seq(|rest|, k requires 0 <= k < |rest| => rest[k] + 1);
    forall i | 0 <= i < |idx|
      ensures idx[i] < |s| && r[i] == s[idx[i]]
    {
      if i >= |head| {
        var k := i - |head|;
        assert idx[i] == rest[k] + 1 && r[i] == tail[k];
      }
    }
    forall i, j | 0 <= i < j < |idx|
      ensures idx[i] < idx[j]
    {
      if i >= |head| {
        assert rest[i - |head|] < rest[j - |head|];
      }
    }
  }

  /** Any two elements of `r` occur in `s` in the same relative order. */
  predicate InOrderOf<T(==)>(r: seq<T>, s: seq<T>) {
    forall i, j :: 0 <= i < j < |r| ==> exists a, b :: 0 <= a < b < |s| && r[i] == s[a] && r[j] == s[b]
  }

  /** The kept elements occur in `s` in the order in which they are kept. */
  lemma {:induction false} FilteredInOrder<T>(s: seq<T>, p: T -> bool)
    ensures InOrderOf(Filter(s, p), s)
  {
    var r := Filter(s, p);
    var idx := FilterPositions(s, p);
    forall i, j | 0 <= i < j < |r|
      ensures exists a, b :: 0 <= a < b < |s| && r[i] == s[a] && r[j] == s[b]
    {
      assert r[i] == s[idx[i]] && r[j] == s[idx[j]];
    }
  }

  /** Filtering by two conditions that never hold together: the two results share no
      element, and an element meeting either condition is in one of them. */
  lemma {:induction false} FilterDisjoint<T>(s: seq<T>, p: T -> bool, q: T -> bool)
    requires forall i :: 0 <= i < |s| ==> !(p(s[i]) && q(s[i]))
    ensures forall x :: x in Filter(s, p) ==> p(x) && x !in Filter(s, q)
    ensures forall x :: x in Filter(s, q) ==> q(x)
    ensures forall i :: 0 <= i < |s| && (p(s[i]) || q(s[i])) ==> s[i] in Filter(s, p) || s[i] in Filter(s, q)
  {
    FilterMembers(s, p);
    FilterMembers(s, q);
    forall x | x in Filter(s, p)
      ensures p(x) && x in s
    {
      var i :| 0 <= i < |Filter(s, p)| && Filter(s, p)[i] == x;
    }
    forall x | x in Filter(s, q)
      ensures q(x)
    {
      var j :| 0 <= j < |Filter(s, q)| && Filter(s, q)[j] == x;
    }
    forall x | x in Filter(s, p)
      ensures x !in Filter(s, q)
    {
      var k :| 0 <= k < |s| && s[k] == x;
      assert !(p(s[k]) && q(s[k]));
    }
  }

  /** Filtering a list without repeats gives a list without repeats. */
  lemma {:induction false} FilterDistinct<T>(s: seq<T>, p: T -> bool)
    requires Distinct(s)
    ensures Distinct(Filter(s, p))
  {
    var idx := FilterPositions(s, p);
  }

  lemma {:induction false} FilterConcat<T>(a: seq<T>, b: seq<T>, p: T -> bool)
    ensures Filter(a + b, p) == Filter(a, p) + Filter(b, p)
  {
    if a == [] {
      assert a + b == b;
    } else {
      var head := if p(a[0]) then [a[0]] else [];
      assert (a + b)[0] == a[0] && (a + b)[1..] == a[1..] + b;
      FilterConcat(a[1..], b, p);
      assert Filter(a + b, p) == head + (Filter(a[1..], p) + Filter(b, p));
      assert Filter(a, p) == head + Filter(a[1..], p);
    }
  }

  /** Filtering keeps a list whose every element passes. */
  lemma {:induction false} FilterAll<T>(s: seq<T>, p: T -> bool)
    requires forall x :: x in s ==> p(x)
    ensures Filter(s, p) == s
  {
    if s != [] {
      FilterAll(s[1..], p);
    }
  }

  /** Filtering drops a list whose every element fails. */
  lemma {:induction false} FilterNone<T>(s: seq<T>, p: T -> bool)
    requires forall x :: x in s ==> !p(x)
    ensures Filter(s, p) == []
  {
    if s != [] {
      FilterNone(s[1..], p);
    }
  }

  /** Filtering a list ends with the verdict on its last element. */
  lemma {:induction false} FilterLast<T>(s: seq<T>, p: T -> bool)
    requires s != []
    ensures Filter(s, p) == Filter(s[..|s| - 1], p) + (if p(s[|s| - 1]) then [s[|s| - 1]] else [])
  {
    assert s == s[..|s| - 1] + [s[|s| - 1]];
    FilterConcat(s[..|s| - 1], [s[|s| - 1]], p);
  }

  /** Filters that agree on every element of a list keep the same elements. */
  lemma {:induction false} FilterCongruent<T>(s: seq<T>, p: T -> bool, q: T -> bool)
    requires forall x :: x in s ==> p(x) == q(x)
    ensures Filter(s, p) == Filter(s, q)
  {
    if s != [] {
      FilterCongruent(s[1..], p, q);
    }
  }

  /** A filter and its complement split a list between them: every element goes to
      exactly one side. */
  lemma {:induction false} FilterSplit<T>(s: seq<T>, p: T -> bool, q: T -> bool)
    requires forall x :: x in s ==> q(x) == !p(x)
    ensures multiset(Filter(s, p)) + multiset(Filter(s, q)) == multiset(s)
  {
    if s != [] {
      FilterSplit(s[1..], p, q);
      assert s == [s[0]] + s[1..];
    }
  }

  /** `next((i for i, x in enumerate(s) if p(x)), None)`: the position of the first
      element that satisfies `p`. */
  function FirstIndex<T>(s: seq<T>, p: T -> bool): (r: Option<nat>)
    ensures r.Some? ==> r.value < |s| && p(s[r.value]) && forall j :: 0 <= j < r.value ==> !p(s[j])
    ensures r.None? <==> forall j :: 0 <= j < |s| ==> !p(s[j])
  {
    if s == [] then None
    else if p(s[0]) then Some(0)
    else
      match FirstIndex(s[1..], p)
      case None => None
      case Some(i) => Some(i + 1)
  }

  /** No element occurs twice. */
  predicate Distinct<T(==)>(s: seq<T>) {
    forall i, j :: 0 <= i < j < |s| ==> s[i] != s[j]
  }

  /** The last element of a list without repeats does not occur before it. */
  lemma {:induction false} DistinctLast<T>(s: seq<T>)
    requires Distinct(s) && s != []
    ensures s[|s| - 1] !in s[..|s| - 1]
  {
    assert forall i :: 0 <= i < |s| - 1 ==> s[..|s| - 1][i] == s[i];
  }

  /** `[f(x) for x in s]` */
  function Map<A, B>(s: seq<A>, f: A -> B): (r: seq<B>)
    ensures |r| == |s|
    ensures forall i :: 0 <= i < |s| ==> r[i] == f(s[i])
  {
    if s == [] then [] else Map(s[..|s| - 1], f) + [f(s[|s| - 1])]
  }

  lemma {:induction false} MapSnoc<A, B>(s: seq<A>, x: A, f: A -> B)
    ensures Map(s + [x], f) == Map(s, f) + [f(x)]
  {
    assert (s + [x])[..|s|] == s;
  }

  lemma {:induction false} MapConcat<A, B>(a: seq<A>, b: seq<A>, f: A -> B)
    ensures Map(a + b, f) == Map(a, f) + Map(b, f)
  {
    if b != [] {
      var init := b[..|b| - 1];
      assert a + b == (a + init) + [b[|b| - 1]];
      MapSnoc(a + init, b[|b| - 1], f);
      MapConcat(a, init, f);
      MapSnoc(init, b[|b| - 1], f);
      assert init + [b[|b| - 1]] == b;
    }
  }

  /** The concatenation of a list of lists. */
  function Flatten<T>(ss: seq<seq<T>>): seq<T> {
    if ss == [] then [] else ss[0] + Flatten(ss[1..])
  }

  /** The sum of the lengths of a list of lists. */
  function TotalLength<T>(ss: seq<seq<T>>): nat {
    if ss == [] then 0 else |ss[0]| + TotalLength(ss[1..])
  }

  lemma {:induction false} FlattenConcat<T>(a: seq<seq<T>>, b: seq<seq<T>>)
    ensures Flatten(a + b) == Flatten(a) + Flatten(b)
  {
    if a == [] {
      assert a + b == b;
    } else {
      assert (a + b)[1..] == a[1..] + b;
      FlattenConcat(a[1..], b);
    }
  }

  /** Flattening ends with the last list. */
  lemma {:induction false} FlattenLast<T>(ss: seq<seq<T>>)
    requires ss != []
    ensures Flatten(ss) == Flatten(ss[..|ss| - 1]) + ss[|ss| - 1]
  {
    assert ss == ss[..|ss| - 1] + [ss[|ss| - 1]];
    FlattenConcat(ss[..|ss| - 1], [ss[|ss| - 1]]);
    assert Flatten([ss[|ss| - 1]]) == ss[|ss| - 1];
  }

  lemma {:induction false} TotalLengthConcat<T>(a: seq<seq<T>>, b: seq<seq<T>>)
    ensures TotalLength(a + b) == TotalLength(a) + TotalLength(b)
  {
    if a == [] {
      assert a + b == b;
    } else {
      assert (a + b)[1..] == a[1..] + b;
      TotalLengthConcat(a[1..], b);
    }
  }

  lemma {:induction false} TotalLengthIsFlattenLength<T>(ss: seq<seq<T>>)
    ensures TotalLength(ss) == |Flatten(ss)|
  {
    if ss != [] {
      TotalLengthIsFlattenLength(ss[1..]);
    }
  }

  /** Every element of a list of lists occurs in its flattening. */
  lemma {:induction false} InFlatten<T>(ss: seq<seq<T>>, i: nat, x: T)
    requires i < |ss| && x in ss[i]
    ensures x in Flatten(ss)
  {
    if i > 0 {
      InFlatten(ss[1..], i - 1, x);
    }
  }

  /** Every element of a flattening comes from one of the lists. */
  lemma {:induction false} FromFlatten<T>(ss: seq<seq<T>>, x: T) returns (i: nat)
    requires x in Flatten(ss)
    ensures i < |ss| && x in ss[i]
  {
    if x in ss[0] {
      i := 0;
    } else {
      var j := FromFlatten(ss[1..], x);
      i := j + 1;
    }
  }
}

/** `defaultdict(list)` filled by `d[key(x)].append(val(x))` for each `x` in order. */
module Groups {

  /** `d.get(k, [])` */
  function Lookup<K(==), V>(m: map<K, seq<V>>, k: K): seq<V> {
    if k in m then m[k] else []
  }

  /** `[val(x) for x in s if key(x) == k]` */
  function Pick<T, K(==), V>(s: seq<T>, key: T -> K, val: T -> V, k: K): seq<V> {
    if s == [] then []
    else Pick(s[..|s| - 1], key, val, k) + (if key(s[|s| - 1]) == k then [val(s[|s| - 1])] else [])
  }

  /** The grouping after appending every element of `s`, in order, to `m`. */
  function GroupInto<T, K(==), V>(m: map<K, seq<V>>, s: seq<T>, key: T -> K, val: T -> V): map<K, seq<V>> {
    if s == [] then m
    else
      var g := GroupInto(m, s[..|s| - 1], key, val);
      var x := s[|s| - 1];
      g[key(x) := Lookup(g, key(x)) + [val(x)]]
  }

  /** Appending one more element appends its value to its key's list. */
  lemma {:induction false} GroupIntoSnoc<T, K, V>(m: map<K, seq<V>>, s: seq<T>, x: T, key: T -> K, val: T -> V)
    ensures GroupInto(m, s + [x], key, val)
         == GroupInto(m, s, key, val)[key(x) := Lookup(GroupInto(m, s, key, val), key(x)) + [val(x)]]
  {
    assert (s + [x])[..|s + [x]| - 1] == s;
  }

  /** Grouping the first i + 1 elements: element i's value is appended to its key's list
      in the grouping `g` of the first i. */
  lemma {:induction false} GroupIntoStep<T, K, V>(m: map<K, seq<V>>, s: seq<T>, i: nat, key: T -> K, val: T -> V, g: map<K, seq<V>>)
    requires i < |s| && g == GroupInto(m, s[..i], key, val)
    ensures GroupInto(m, s[..i + 1], key, val) == g[key(s[i]) := Lookup(g, key(s[i])) + [val(s[i])]]
  {
    assert s[..i + 1][..i] == s[..i];
  }

  /** Each group is its old list followed by the new elements with that key, in order;
      the keys are the old keys and the keys of the new elements. */
  lemma {:induction false} GroupIntoContents<T, K, V>(m: map<K, seq<V>>, s: seq<T>, key: T -> K, val: T -> V)
    ensures forall k :: Lookup(GroupInto(m, s, key, val), k) == Lookup(m, k) + Pick(s, key, val, k)
    ensures GroupInto(m, s, key, val).Keys == m.Keys + set i | 0 <= i < |s| :: key(s[i])
  {
    GroupIntoLookup(m, s, key, val);
    GroupIntoKeys(m, s, key, val);
  }

  lemma {:induction false} GroupIntoLookup<T, K, V>(m: map<K, seq<V>>, s: seq<T>, key: T -> K, val: T -> V)
    ensures forall k :: Lookup(GroupInto(m, s, key, val), k) == Lookup(m, k) + Pick(s, key, val, k)
  {
    if s != [] {
      var init := s[..|s| - 1];
      var x := s[|s| - 1];
      GroupIntoLookup(m, init, key, val);
      forall k
        ensures Lookup(GroupInto(m, s, key, val), k) == Lookup(m, k) + Pick(s, key, val, k)
      {
        assert Pick(s, key, val, k) == Pick(init, key, val, k) + (if key(x) == k then [val(x)] else []);
      }
    }
  }

  lemma {:induction false} GroupIntoKeys<T, K, V>(m: map<K, seq<V>>, s: seq<T>, key: T -> K, val: T -> V)
    ensures GroupInto(m, s, key, val).Keys == m.Keys + set i | 0 <= i < |s| :: key(s[i])
  {
    if s != [] {
      var init := s[..|s| - 1];
      var x := s[|s| - 1];
      GroupIntoKeys(m, init, key, val);
      KeysSnoc(init, x, key);
      assert s == init + [x];
    }
  }

  /** The keys of a list with one more element are the old keys and that element's key. */
  lemma {:induction false} KeysSnoc<T, K>(init: seq<T>, x: T, key: T -> K)
    ensures (set i | 0 <= i < |init + [x]| :: key((init + [x])[i])) == (set i | 0 <= i < |init| :: key(init[i])) + {key(x)}
  {
    var s := init + [x];
    var all := set i | 0 <= i < |s| :: key(s[i]);
    var before := set i | 0 <= i < |init| :: key(init[i]);
    forall k | k in all
      ensures k in before + {key(x)}
    {
      var i :| 0 <= i < |s| && key(s[i]) == k;
      if i < |init| { assert key(init[i]) == k; }
    }
    forall k | k in before
      ensures k in all
    {
      var i :| 0 <= i < |init| && key(init[i]) == k;
      assert key(s[i]) == k;
    }
    assert key(s[|init|]) == key(x);
  }

  lemma {:induction false} PickConcat<T, K, V>(a: seq<T>, b: seq<T>, key: T -> K, val: T -> V, k: K)
    ensures Pick(a + b, key, val, k) == Pick(a, key, val, k) + Pick(b, key, val, k)
  {
    if b == [] {
      assert a + b == a;
    } else {
      assert (a + b)[..|a + b| - 1] == a + b[..|b| - 1];
      PickConcat(a, b[..|b| - 1], key, val, k);
    }
  }

  /** Grouping `a` and then `b` into the same dictionary is grouping `a + b`. */
  lemma {:induction false} GroupIntoTwice<T, K, V>(m: map<K, seq<V>>, a: seq<T>, b: seq<T>, key: T -> K, val: T -> V)
    ensures GroupInto(GroupInto(m, a, key, val), b, key, val) == GroupInto(m, a + b, key, val)
  {
    if b == [] {
      assert a + b == a;
    } else {
      assert (a + b)[..|a + b| - 1] == a + b[..|b| - 1];
      GroupIntoTwice(m, a, b[..|b| - 1], key, val);
    }
  }

  /** What a group holds: exactly the values of the elements with that key. */
  lemma {:induction false} PickMembers<T, K, V>(s: seq<T>, key: T -> K, val: T -> V, k: K)
    ensures forall i :: 0 <= i < |s| && key(s[i]) == k ==> val(s[i]) in Pick(s, key, val, k)
    ensures forall y :: y in Pick(s, key, val, k) ==> exists i :: 0 <= i < |s| && key(s[i]) == k && val(s[i]) == y
  {
    if s != [] {
      var init := s[..|s| - 1];
      PickMembers(init, key, val, k);
      forall y | y in Pick(s, key, val, k)
        ensures exists i :: 0 <= i < |s| && key(s[i]) == k && val(s[i]) == y
      {
        if y in Pick(init, key, val, k) {
          var i :| 0 <= i < |init| && key(init[i]) == k && val(init[i]) == y;
          assert s[i] == init[i];
        }
      }
      forall i | 0 <= i < |s| && key(s[i]) == k
        ensures val(s[i]) in Pick(s, key, val, k)
      {
        if i < |init| { assert s[i] == init[i]; }
      }
    }
  }
}
