/**
 * `getRandomTasks` of src/hooks/useTaskManager.ts: copy the group, shuffle the
 * copy with `sort(() => 0.5 - Math.random())`, and take a prefix. A sort with a
 * random comparator yields some permutation, not a uniform one, so the shuffle
 * is modelled by an arbitrary permutation of the positions, supplied by the
 * caller.
 */
module Sampling {

  function Min(a: int, b: int): (m: int)
    ensures m <= a && m <= b && (m == a || m == b)
  {
    if a <= b then a else b
  }

  /** No position occurs twice in `idx`. */
  predicate Distinct(idx: seq<nat>) {
    forall i, j :: 0 <= i < j < |idx| ==> idx[i] != idx[j]
  }

  /** Every position of `idx` is a position of a sequence of length `n`. */
  predicate InRange(idx: seq<nat>, n: nat) {
    forall i :: 0 <= i < |idx| ==> idx[i] < n
  }

  /** `order` lists each of the positions `0 .. n-1` exactly once. */
  predicate IsPermutation(order: seq<nat>, n: nat) {
    |order| == n && InRange(order, n) && Distinct(order)
  }

  /** The elements of `s` at the positions `idx`, in that order. */
  function Pick<T>(s: seq<T>, idx: seq<nat>): (r: seq<T>)
    requires InRange(idx, |s|)
    ensures |r| == |idx|
    ensures forall i :: 0 <= i < |idx| ==> r[i] == s[idx[i]]
  {
    if |idx| == 0 then [] else [s[idx[0]]] + Pick(s, idx[1..])
  }

  /** Picking along a concatenation of position lists concatenates the picks. */
  lemma PickAppend<T>(s: seq<T>, a: seq<nat>, b: seq<nat>)
    requires InRange(a, |s|) && InRange(b, |s|)
    ensures InRange(a + b, |s|)
    ensures Pick(s, a + b) == Pick(s, a) + Pick(s, b)
  {
  }

  /** Positions below `|s'|` pick the same elements from `s'` and from any extension of it. */
  lemma PickExtension<T>(s': seq<T>, x: T, idx: seq<nat>)
    requires InRange(idx, |s'|)
    ensures InRange(idx, |s' + [x]|)
    ensures Pick(s' + [x], idx) == Pick(s', idx)
  {
  }

  /** Removing the entry at `k` from a distinct list leaves a distinct list that avoids `idx[k]`. */
  lemma RemoveAt(idx: seq<nat>, k: nat, n: nat)
    requires Distinct(idx) && InRange(idx, n + 1) && k < |idx| && idx[k] == n
    ensures Distinct(idx[..k] + idx[k + 1..])
    ensures InRange(idx[..k] + idx[k + 1..], n)
  {
    var idx' := idx[..k] + idx[k + 1..];
    forall i | 0 <= i < |idx'| ensures idx'[i] < n {
      var i0 := if i < k then i else i + 1;
      assert idx'[i] == idx[i0] && i0 != k;
    }
    forall i, j | 0 <= i < j < |idx'| ensures idx'[i] != idx'[j] {
      var i0 := if i < k then i else i + 1;
      var j0 := if j < k then j else j + 1;
      assert idx'[i] == idx[i0] && idx'[j] == idx[j0] && i0 < j0;
    }
  }

  /**
   * Picking at distinct positions takes every element of `s` at most as often
   * as it occurs in `s`.
   */
  lemma {:induction false} PickSubMultiset<T>(s: seq<T>, idx: seq<nat>)
    requires InRange(idx, |s|) && Distinct(idx)
    ensures multiset(Pick(s, idx)) <= multiset(s)
    decreases |s|, 1
  {
    if |idx| == 0 {
      assert Pick(s, idx) == [];
    } else {
      assert idx[0] < |s|;
      var n := |s| - 1;
      if k :| 0 <= k < |idx| && idx[k] == n {
        PickLast(s, idx, k);
      } else {
        PickBelowLast(s, idx);
      }
    }
  }

  /** The case of `PickSubMultiset` where the last position of `s` is picked, at `idx[k]`. */
  lemma {:induction false} PickLast<T>(s: seq<T>, idx: seq<nat>, k: nat)
    requires InRange(idx, |s|) && Distinct(idx)
    requires k < |idx| && idx[k] == |s| - 1
    ensures multiset(Pick(s, idx)) <= multiset(s)
    decreases |s|, 0
  {
    var n := |s| - 1;
    var s' := s[..n];
    var a, b := idx[..k], idx[k + 1..];
    RemoveAt(idx, k, n);
    PickSubMultiset(s', a + b);
    assert s == s' + [s[n]];
    assert idx == a + [n] + b;
    PickAppend(s, a + [n], b);
    PickAppend(s, a, [n]);
    PickAppend(s', a, b);
    PickExtension(s', s[n], a);
    PickExtension(s', s[n], b);
    assert multiset(Pick(s, idx)) == multiset(Pick(s', a + b)) + multiset{s[n]};
  }

  /** The case of `PickSubMultiset` where the last position of `s` is not picked. */
  lemma {:induction false} PickBelowLast<T>(s: seq<T>, idx: seq<nat>)
    requires InRange(idx, |s|) && Distinct(idx) && |s| > 0
    requires forall k :: 0 <= k < |idx| ==> idx[k] != |s| - 1
    ensures multiset(Pick(s, idx)) <= multiset(s)
    decreases |s|, 0
  {
    var n := |s| - 1;
    var s' := s[..n];
    assert s == s' + [s[n]];
    PickExtension(s', s[n], idx);
    PickSubMultiset(s', idx);
  }

  /**
   * `getRandomTasks(pool, count)`: the first `count` elements (all of them when
   * there are fewer) of the pool as rearranged by `order`.
   */
  function RandomTasks<T>(pool: seq<T>, count: nat, order: seq<nat>): (r: seq<T>)
    requires IsPermutation(order, |pool|)
    ensures |r| == Min(count, |pool|)
    ensures forall i :: 0 <= i < |r| ==> r[i] == pool[order[i]]
    ensures multiset(r) <= multiset(pool)
  {
    var k := Min(count, |pool|);
    var shuffled := Pick(pool, order);
    var r := shuffled[..k];
    assert r == Pick(pool, order[..k]);
    PickSubMultiset(pool, order[..k]);
    r
  }
}
