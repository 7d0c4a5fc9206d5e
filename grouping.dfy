/**
 * Grouping records by a key and summing a weight per group, as
 * `monthly[m] = (monthly[m] || 0) + ...` (frontend/app.js) and
 * `result[k] = result.get(k, 0) + ...` (backend/main.py) do.
 *
 * The running dictionary is modelled as an insertion-ordered `Dict`, since both a
 * JavaScript object with non-numeric keys and a Python dict keep their keys in the
 * order of first insertion.
 */
module Grouping {

  /** No element occurs twice. */
  ghost predicate Distinct<K>(ks: seq<K>) {
    forall i, j :: 0 <= i < j < |ks| ==> ks[i] != ks[j]
  }

  /** The sum of `weight(x)` over the elements `x` of `xs`. */
  function Total<T>(xs: seq<T>, weight: T -> int): int {
    if xs == [] then 0 else Total(xs[..|xs| - 1], weight) + weight(xs[|xs| - 1])
  }

  /** The sum of `weight(x)` over the elements `x` of `xs` whose key is `k`. */
  function GroupSum<T, K(==)>(xs: seq<T>, key: T -> K, weight: T -> int, k: K): int {
    if xs == [] then 0
    else
      var last := xs[|xs| - 1];
      GroupSum(xs[..|xs| - 1], key, weight, k) + (if key(last) == k then weight(last) else 0)
  }

  /** The keys that occur among `xs`. */
  function KeysOf<T, K>(xs: seq<T>, key: T -> K): (ks: set<K>)
    ensures forall i :: 0 <= i < |xs| ==> key(xs[i]) in ks
    ensures forall k :: k in ks ==> exists i :: 0 <= i < |xs| && key(xs[i]) == k
  {
    if xs == [] then {} else KeysOf(xs[..|xs| - 1], key) + {key(xs[|xs| - 1])}
  }

  /** The sum of the group sums of the keys `ks`, in order. */
  function SumGroups<T, K(==)>(xs: seq<T>, key: T -> K, weight: T -> int, ks: seq<K>): int {
    if ks == [] then 0
    else SumGroups(xs, key, weight, ks[..|ks| - 1]) + GroupSum(xs, key, weight, ks[|ks| - 1])
  }

  /** An insertion-ordered dictionary from keys to numeric totals. */
  datatype Dict<K(!new)> = Dict(keys: seq<K>, values: map<K, int>) {

    /** The key order lists every key of the map exactly once. */
    ghost predicate Valid() {
      Distinct(keys) && forall k :: k in values <==> k in keys
    }

    /** The value at `k`, or 0 when `k` is absent (`d.get(k, 0)`, `d[k] || 0`). */
    function Get(k: K): int {
      if k in values then values[k] else 0
    }

    /** Adds `v` to the total at `k`, appending `k` to the key order when it is new. */
    function Add(k: K, v: int): (d: Dict<K>)
      requires Valid()
      ensures d.Valid()
      ensures d.values.Keys == values.Keys + {k}
      ensures d.Get(k) == Get(k) + v
      ensures forall k' :: k' != k ==> d.Get(k') == Get(k')
    {
      Dict(if k in values then keys else keys + [k], values[k := Get(k) + v])
    }

    /** The sum of the values, taken along the key order. */
    function Sum(): int {
      SumAlong(this, keys)
    }
  }

  /** The sum of `d.Get(k)` for the keys `k` of `ks`, in order. */
  function SumAlong<K(!new)>(d: Dict<K>, ks: seq<K>): int {
    if ks == [] then 0 else SumAlong(d, ks[..|ks| - 1]) + d.Get(ks[|ks| - 1])
  }

  /** The dictionary a left-to-right loop of `Add(key(x), weight(x))` builds from an empty one. */
  function Tally<T, K(==,!new)>(xs: seq<T>, key: T -> K, weight: T -> int): (d: Dict<K>)
    ensures d.Valid()
  {
    if xs == [] then Dict([], map[])
    else
      var last := xs[|xs| - 1];
      Tally(xs[..|xs| - 1], key, weight).Add(key(last), weight(last))
  }

  /** The tally holds exactly the keys present, each with its group sum. */
  lemma {:induction false} TallyContents<T, K(!new)>(xs: seq<T>, key: T -> K, weight: T -> int)
    ensures forall k :: k in Tally(xs, key, weight).values <==> k in KeysOf(xs, key)
    ensures forall k :: Tally(xs, key, weight).Get(k) == GroupSum(xs, key, weight, k)
  {
    if xs != [] {
      TallyContents(xs[..|xs| - 1], key, weight);
    }
  }

  /** With no elements, every group sum is 0. */
  lemma {:induction false} SumGroupsOfNothing<T, K>(key: T -> K, weight: T -> int, ks: seq<K>)
    ensures SumGroups([], key, weight, ks) == 0
  {
    if ks != [] {
      SumGroupsOfNothing(key, weight, ks[..|ks| - 1]);
    }
  }

  /** Appending one element adds its weight to the sum of the groups once, if its key is listed. */
  lemma {:induction false} SumGroupsAppend<T, K>(xs: seq<T>, x: T, key: T -> K, weight: T -> int, ks: seq<K>)
    requires Distinct(ks)
    ensures SumGroups(xs + [x], key, weight, ks)
         == SumGroups(xs, key, weight, ks) + (if key(x) in ks then weight(x) else 0)
  {
    if ks != [] {
      var init, k := ks[..|ks| - 1], ks[|ks| - 1];
      assert ks == init + [k];
      SumGroupsAppend(xs, x, key, weight, init);
      assert (xs + [x])[..|xs|] == xs;
      assert GroupSum(xs + [x], key, weight, k)
          == GroupSum(xs, key, weight, k) + (if key(x) == k then weight(x) else 0);
      assert key(x) == k ==> key(x) !in init;
    }
  }

  /**
   * Summing the groups of a duplicate-free list of keys that covers every key
   * present gives the total of all weights: every element is counted exactly once.
   */
  lemma {:induction false} SumGroupsCovers<T, K>(xs: seq<T>, key: T -> K, weight: T -> int, ks: seq<K>)
    requires Distinct(ks)
    requires forall k :: k in KeysOf(xs, key) ==> k in ks
    ensures SumGroups(xs, key, weight, ks) == Total(xs, weight)
  {
    if xs == [] {
      SumGroupsOfNothing(key, weight, ks);
    } else {
      var init, x := xs[..|xs| - 1], xs[|xs| - 1];
      assert xs == init + [x];
      SumGroupsCovers(init, key, weight, ks);
      SumGroupsAppend(init, x, key, weight, ks);
    }
  }

  /** Summing a tally along any list of keys equals summing the matching group sums. */
  lemma {:induction false} SumAlongTally<T, K(!new)>(xs: seq<T>, key: T -> K, weight: T -> int, ks: seq<K>)
    ensures SumAlong(Tally(xs, key, weight), ks) == SumGroups(xs, key, weight, ks)
  {
    if ks != [] {
      SumAlongTally(xs, key, weight, ks[..|ks| - 1]);
      TallyContents(xs, key, weight);
    }
  }

  /** The values of a tally add up to the total weight of all elements. */
  lemma {:induction false} TallySum<T, K(!new)>(xs: seq<T>, key: T -> K, weight: T -> int)
    ensures Tally(xs, key, weight).Sum() == Total(xs, weight)
  {
    var d := Tally(xs, key, weight);
    TallyContents(xs, key, weight);
    SumAlongTally(xs, key, weight, d.keys);
    SumGroupsCovers(xs, key, weight, d.keys);
  }

  lemma TotalSnoc<T>(xs: seq<T>, x: T, weight: T -> int)
    ensures Total(xs + [x], weight) == Total(xs, weight) + weight(x)
  {
    assert (xs + [x])[..|xs|] == xs;
  }

  lemma GroupSumSnoc<T, K>(xs: seq<T>, x: T, key: T -> K, weight: T -> int, k: K)
    ensures GroupSum(xs + [x], key, weight, k) == GroupSum(xs, key, weight, k) + (if key(x) == k then weight(x) else 0)
  {
    assert (xs + [x])[..|xs|] == xs;
  }

  /** Taking one element out of a sequence takes its weight out of the total. */
  lemma {:induction false} TotalRemove<T>(xs: seq<T>, i: nat, weight: T -> int)
    requires i < |xs|
    ensures Total(xs, weight) == Total(xs[..i] + xs[i + 1..], weight) + weight(xs[i])
  {
    var n := |xs|;
    if i < n - 1 {
      var init, last := xs[..n - 1], xs[n - 1];
      TotalRemove(init, i, weight);
      var rest := xs[..i] + xs[i + 1..];
      assert rest == (init[..i] + init[i + 1..]) + [last];
      assert rest[..|rest| - 1] == init[..i] + init[i + 1..];
    } else {
      assert xs[..i] + xs[i + 1..] == xs[..n - 1];
    }
  }

  /** Cutting element `i` out of a sequence takes one copy of it out of the multiset. */
  lemma CutMultiset<T>(ys: seq<T>, i: nat)
    requires i < |ys|
    ensures multiset(ys[..i] + ys[i + 1..]) == multiset(ys) - multiset{ys[i]}
  {
    assert ys == ys[..i] + [ys[i]] + ys[i + 1..];
    assert multiset(ys) == multiset(ys[..i]) + multiset{ys[i]} + multiset(ys[i + 1..]);
  }

  /** The total does not depend on the order of the elements. */
  lemma {:induction false} TotalPermutation<T>(xs: seq<T>, ys: seq<T>, weight: T -> int)
    requires multiset(xs) == multiset(ys)
    ensures Total(xs, weight) == Total(ys, weight)
  {
    if xs == [] {
      assert |ys| == |multiset(ys)| == 0;
    } else {
      var n := |xs|;
      var x := xs[n - 1];
      CutMultiset(xs, n - 1);
      assert xs[..n - 1] + xs[n..] == xs[..n - 1];
      assert x in multiset(ys);
      var i :| 0 <= i < |ys| && ys[i] == x;
      CutMultiset(ys, i);
      TotalPermutation(xs[..n - 1], ys[..i] + ys[i + 1..], weight);
      TotalRemove(ys, i, weight);
    }
  }
}
