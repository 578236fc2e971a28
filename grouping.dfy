/**
 * Grouping an array into a dictionary of arrays, as the JavaScript idiom
 *
 *     s.reduce((acc, v) => { if (!acc[key(v)]) acc[key(v)] = []; acc[key(v)].push(v); return acc }, {})
 *
 * builds it. Object keys are strings; a plain object enumerates them in
 * insertion order, for keys that are not array indices (those come first, in
 * ascending numeric order), and the model keeps insertion order next to the
 * key-to-array map.
 */
module Grouping {

  /** A dictionary of arrays: `order` is the keys in insertion order, `buckets` the array under each key. */
  datatype Groups<V> = Groups(order: seq<string>, buckets: map<string, seq<V>>)

  /** One step of the reduce: create the array under `k` if there is none, then push `v` onto it. */
  function Push<V>(g: Groups<V>, k: string, v: V): Groups<V> {
    if k in g.buckets then Groups(g.order, g.buckets[k := g.buckets[k] + [v]])
    else Groups(g.order + [k], g.buckets[k := [v]])
  }

  /** The elements of `s` whose key is `k`, in the order of `s`. */
  function Filter<V>(s: seq<V>, key: V -> string, k: string): (r: seq<V>)
    ensures |r| <= |s|
  {
    if s == [] then []
    else Filter(s[..|s| - 1], key, k) + (if key(s[|s| - 1]) == k then [s[|s| - 1]] else [])
  }

  predicate Distinct(o: seq<string>) {
    forall i, j | 0 <= i < j < |o| :: o[i] != o[j]
  }

  /** The distinct keys of `s`, in the order in which they first occur. */
  function KeysInOrder<V>(s: seq<V>, key: V -> string): seq<string> {
    if s == [] then []
    else
      var o := KeysInOrder(s[..|s| - 1], key);
      if key(s[|s| - 1]) in o then o else o + [key(s[|s| - 1])]
  }

  /** A bucket holds only elements of its own key. */
  lemma {:induction false} FilterKeys<V>(s: seq<V>, key: V -> string, k: string)
    ensures forall j | 0 <= j < |Filter(s, key, k)| :: key(Filter(s, key, k)[j]) == k
  {
    if s != [] {
      FilterKeys(s[..|s| - 1], key, k);
    }
  }

  /** The keys listed are distinct, and they are exactly the keys with a non-empty bucket. */
  lemma {:induction false} KeysInOrderSpec<V>(s: seq<V>, key: V -> string)
    ensures Distinct(KeysInOrder(s, key))
    ensures forall k :: k in KeysInOrder(s, key) <==> Filter(s, key, k) != []
  {
    if s != [] {
      KeysInOrderSpec(s[..|s| - 1], key);
    }
  }

  /**
   * `g` is what the reduce builds from `s`: its keys are those of `s` in order of
   * first occurrence, and each bucket holds exactly the elements with that key, in
   * the order of `s`.
   */
  ghost predicate IsGrouping<V>(g: Groups<V>, s: seq<V>, key: V -> string) {
    && g.order == KeysInOrder(s, key)
    && (forall k :: k in g.buckets <==> k in g.order)
    && (forall k | k in g.buckets :: g.buckets[k] == Filter(s, key, k))
  }

  /** The total length of the buckets named in `o`. */
  function SumSizes<V>(o: seq<string>, m: map<string, seq<V>>): nat {
    if o == [] then 0
    else SumSizes(o[..|o| - 1], m) + (if o[|o| - 1] in m then |m[o[|o| - 1]]| else 0)
  }

  /** The number of elements of `s` whose key is among `o`. */
  function Count<V>(o: seq<string>, s: seq<V>, key: V -> string): nat {
    if o == [] then 0
    else Count(o[..|o| - 1], s, key) + |Filter(s, key, o[|o| - 1])|
  }

  /** Pushing one more element keeps the grouping exact. */
  lemma PushPreservesGrouping<V>(g: Groups<V>, t: seq<V>, key: V -> string, v: V)
    requires IsGrouping(g, t, key)
    ensures IsGrouping(Push(g, key(v), v), t + [v], key)
  {
    var s := t + [v];
    assert s[..|s| - 1] == t;
    KeysInOrderSpec(t, key);
    var g' := Push(g, key(v), v);
    forall k | k in g'.buckets
      ensures g'.buckets[k] == Filter(s, key, k)
    {
      if k != key(v) {
        assert g'.buckets[k] == g.buckets[k];
      } else if key(v) !in g.buckets {
        assert Filter(t, key, k) == [];
      }
    }
  }

  /** The loop that the reduce performs. */
  method GroupBy<V>(s: seq<V>, key: V -> string) returns (g: Groups<V>)
    ensures IsGrouping(g, s, key)
  {
    g := Groups([], map[]);
    ghost var done: seq<V> := [];
    for i := 0 to |s|
      invariant done == s[..i]
      invariant IsGrouping(g, done, key)
    {
      PushPreservesGrouping(g, done, key, s[i]);
      g := Push(g, key(s[i]), s[i]);
      done := done + [s[i]];
    }
    assert done == s;
  }

  lemma {:induction false} FilterContains<V>(s: seq<V>, key: V -> string, i: nat)
    requires i < |s|
    ensures s[i] in Filter(s, key, key(s[i]))
  {
    var t := s[..|s| - 1];
    if i < |s| - 1 {
      assert s[i] == t[i];
      FilterContains(t, key, i);
    }
  }

  /** An element of a bucket is an element of the sequence it was taken from. */
  lemma {:induction false} FilterMember<V>(s: seq<V>, key: V -> string, k: string, j: nat)
    requires j < |Filter(s, key, k)|
    ensures Filter(s, key, k)[j] in s
  {
    var t := s[..|s| - 1];
    if j < |Filter(t, key, k)| {
      FilterMember(t, key, k, j);
      assert t[..] <= s;
    }
  }

  /** Every element lies in the bucket of its own key, and in no bucket of another key. */
  lemma InOwnBucket<V>(g: Groups<V>, s: seq<V>, key: V -> string, i: nat)
    requires IsGrouping(g, s, key) && i < |s|
    ensures key(s[i]) in g.buckets && s[i] in g.buckets[key(s[i])]
    ensures forall k | k in g.buckets && s[i] in g.buckets[k] :: k == key(s[i])
  {
    FilterContains(s, key, i);
    KeysInOrderSpec(s, key);
    forall k | k in g.buckets && s[i] in g.buckets[k]
      ensures k == key(s[i])
    {
      var r := g.buckets[k];
      var j :| 0 <= j < |r| && r[j] == s[i];
      FilterKeys(s, key, k);
    }
  }

  lemma {:induction false} CountStep<V>(o: seq<string>, t: seq<V>, key: V -> string, v: V)
    requires Distinct(o)
    ensures Count(o, t + [v], key) == Count(o, t, key) + (if key(v) in o then 1 else 0)
  {
    var s := t + [v];
    assert s[..|s| - 1] == t;
    if o != [] {
      var p := o[..|o| - 1];
      assert o == p + [o[|o| - 1]];
      CountStep(p, t, key, v);
    }
  }

  /** Counting the elements key by key, over all keys of `s`, counts every element once. */
  lemma {:induction false} CountAll<V>(s: seq<V>, key: V -> string)
    ensures Count(KeysInOrder(s, key), s, key) == |s|
  {
    if s != [] {
      var t := s[..|s| - 1];
      var v := s[|s| - 1];
      assert s == t + [v];
      var o := KeysInOrder(t, key);
      KeysInOrderSpec(t, key);
      CountAll(t, key);
      CountStep(o, t, key, v);
      if key(v) !in o {
        var o' := o + [key(v)];
        assert o'[..|o'| - 1] == o;
        assert Filter(t, key, key(v)) == [];
      }
    }
  }

  lemma {:induction false} SumSizesIsCount<V>(o: seq<string>, m: map<string, seq<V>>, s: seq<V>, key: V -> string)
    requires forall k | k in o :: k in m && m[k] == Filter(s, key, k)
    ensures SumSizes(o, m) == Count(o, s, key)
  {
    if o != [] {
      SumSizesIsCount(o[..|o| - 1], m, s, key);
    }
  }

  /** The bucket lengths add up to the length of the grouped sequence. */
  lemma BucketSizesSum<V>(g: Groups<V>, s: seq<V>, key: V -> string)
    requires IsGrouping(g, s, key)
    ensures SumSizes(g.order, g.buckets) == |s|
  {
    SumSizesIsCount(g.order, g.buckets, s, key);
    CountAll(s, key);
  }

  /** `s` is ordered so that `rank` never increases along it. */
  predicate NonIncreasing<V>(s: seq<V>, rank: V -> int) {
    forall i, j | 0 <= i < j < |s| :: rank(s[i]) >= rank(s[j])
  }

  lemma {:induction false} FilterBounded<V>(s: seq<V>, key: V -> string, k: string, rank: V -> int, b: int)
    requires forall i | 0 <= i < |s| :: rank(s[i]) >= b
    ensures forall j | 0 <= j < |Filter(s, key, k)| :: rank(Filter(s, key, k)[j]) >= b
  {
    if s != [] {
      FilterBounded(s[..|s| - 1], key, k, rank, b);
    }
  }

  /** A bucket keeps the order of the sequence it was taken from. */
  lemma {:induction false} FilterKeepsOrder<V>(s: seq<V>, key: V -> string, k: string, rank: V -> int)
    requires NonIncreasing(s, rank)
    ensures NonIncreasing(Filter(s, key, k), rank)
  {
    if s != [] {
      var t := s[..|s| - 1];
      FilterKeepsOrder(t, key, k, rank);
      FilterBounded(t, key, k, rank, rank(s[|s| - 1]));
    }
  }
}
