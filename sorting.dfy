/**
 * `Array.prototype.sort` with a descending comparator `(a, b) => key(b) - key(a)`,
 * as the dashboard and the log queries use it. The model sorts in place by
 * insertion with adjacent swaps, which (like the JavaScript sort) never moves an
 * element past an equal one.
 */
module Sorting {

  /** `s` is ordered non-increasingly by `key`. */
  ghost predicate SortedDesc<T>(s: seq<T>, key: T -> real) {
    forall i, j | 0 <= i < j < |s| :: key(s[i]) >= key(s[j])
  }

  /** Exchanges two adjacent elements and keeps the multiset of elements. */
  method SwapDown<T>(a: array<T>, j: nat)
    requires 0 < j < a.Length
    modifies a
    ensures a[j - 1] == old(a[j]) && a[j] == old(a[j - 1])
    ensures forall m | 0 <= m < a.Length && m != j - 1 && m != j :: a[m] == old(a[m])
    ensures multiset(a[..]) == multiset(old(a[..]))
  {
    a[j - 1], a[j] := a[j], a[j - 1];
  }

  /** Sorts `a` in place, non-increasingly by `key`, as a permutation of its elements. */
  method SortDescending<T>(a: array<T>, key: T -> real)
    modifies a
    ensures SortedDesc(a[..], key)
    ensures multiset(a[..]) == multiset(old(a[..]))
  {
    for i := 0 to a.Length
      invariant SortedDesc(a[..i], key)
      invariant multiset(a[..]) == multiset(old(a[..]))
    {
      var j := i;
      while j > 0 && key(a[j - 1]) < key(a[j])
        invariant 0 <= j <= i
        invariant multiset(a[..]) == multiset(old(a[..]))
        invariant forall p, q | 0 <= p < q <= i && p != j && q != j :: key(a[p]) >= key(a[q])
        invariant forall q | j < q <= i :: key(a[j]) > key(a[q])
      {
        SwapDown(a, j);
        j := j - 1;
      }
    }
  }

  /** In a non-increasing sequence, what is cut off after the first `k` is never above what is kept. */
  lemma TopK<T>(s: seq<T>, key: T -> real, k: nat)
    requires SortedDesc(s, key) && k <= |s|
    ensures forall x | x in multiset(s) - multiset(s[..k]) :: forall i | 0 <= i < k :: key(s[i]) >= key(x)
  {
    assert s == s[..k] + s[k..];
    assert multiset(s) - multiset(s[..k]) == multiset(s[k..]);
    forall x | x in multiset(s) - multiset(s[..k])
      ensures forall i | 0 <= i < k :: key(s[i]) >= key(x)
    {
      assert x in s[k..];
      var j :| 0 <= j < |s[k..]| && s[k..][j] == x;
      assert s[k + j] == x;
    }
  }

  /**
   * `r` is what sorting `all` non-increasingly by `key` and keeping the first
   * `k` answers: as many elements as there are room for, in order, drawn from
   * `all`, and none left out above one kept.
   */
  ghost predicate IsTop<T>(all: seq<T>, key: T -> real, k: nat, r: seq<T>) {
    && |r| == (if k < |all| then k else |all|)
    && SortedDesc(r, key)
    && multiset(r) <= multiset(all)
    && forall x | x in multiset(all) - multiset(r) :: forall i | 0 <= i < |r| :: key(x) <= key(r[i])
  }

  /** The first `k` of a sorted rearrangement of `all` are its top `k`. */
  lemma SortedPrefixIsTop<T>(all: seq<T>, sorted: seq<T>, key: T -> real, k: nat)
    requires multiset(sorted) == multiset(all) && SortedDesc(sorted, key)
    ensures IsTop(all, key, k, sorted[..if k < |sorted| then k else |sorted|])
  {
    var n := if k < |sorted| then k else |sorted|;
    assert |sorted| == |multiset(all)| == |all|;
    TopK(sorted, key, n);
    assert sorted == sorted[..n] + sorted[n..];
  }

  /** Sorts a copy of `all` and keeps its first `k` elements. */
  method TopBy<T>(all: seq<T>, key: T -> real, k: nat) returns (r: seq<T>)
    ensures IsTop(all, key, k, r)
  {
    var a := new T[|all|](i requires 0 <= i < |all| => all[i]);
    assert a[..] == all;
    SortDescending(a, key);
    SortedPrefixIsTop(all, a[..], key, k);
    r := a[..if k < a.Length then k else a.Length];
  }

  /** An element dropped by cutting `r` to its first `n` was dropped before or is in the rest. */
  lemma DroppedFromPrefix<T>(all: seq<T>, r: seq<T>, n: nat, x: T)
    requires n <= |r| && multiset(r) <= multiset(all)
    requires x in multiset(all) - multiset(r[..n])
    ensures x in multiset(all) - multiset(r) || x in r[n..]
  {
    assert r == r[..n] + r[n..];
    assert multiset(r) == multiset(r[..n]) + multiset(r[n..]);
  }

  /** Nothing dropped from `all` outranks the kept `r`. */
  ghost predicate NoneAbove<T>(all: seq<T>, key: T -> real, r: seq<T>) {
    forall x | x in multiset(all) - multiset(r) :: forall i | 0 <= i < |r| :: key(x) <= key(r[i])
  }

  /** Cutting a sorted answer to its first `n` keeps nothing dropped above the rest. */
  lemma PrefixNoneAbove<T>(all: seq<T>, key: T -> real, r: seq<T>, n: nat)
    requires n <= |r| && multiset(r) <= multiset(all)
    requires SortedDesc(r, key) && NoneAbove(all, key, r)
    ensures NoneAbove(all, key, r[..n])
  {
    var p := r[..n];
    forall x | x in multiset(all) - multiset(p)
      ensures forall i | 0 <= i < |p| :: key(x) <= key(p[i])
    {
      DroppedFromPrefix(all, r, n, x);
      if x in multiset(all) - multiset(r) {
        forall i | 0 <= i < |p| ensures key(x) <= key(p[i]) {
          assert p[i] == r[i];
        }
      } else {
        var j :| 0 <= j < |r[n..]| && r[n..][j] == x;
        assert r[n + j] == x;
      }
    }
  }

  /** A prefix of a sorted sequence is sorted, and drawn from the same elements. */
  lemma PrefixSorted<T>(r: seq<T>, key: T -> real, n: nat)
    requires n <= |r| && SortedDesc(r, key)
    ensures SortedDesc(r[..n], key) && multiset(r[..n]) <= multiset(r)
  {
    assert r == r[..n] + r[n..];
  }

  /** The first `k'` of a top-`k` answer are the top `k'`. */
  lemma TopOfTop<T>(all: seq<T>, key: T -> real, k: nat, r: seq<T>, k': nat)
    requires IsTop(all, key, k, r) && k' <= k
    ensures IsTop(all, key, k', r[..if k' < |r| then k' else |r|])
  {
    var n := if k' < |r| then k' else |r|;
    assert n == if k' < |all| then k' else |all|;
    PrefixSorted(r, key, n);
    assert NoneAbove(all, key, r);
    PrefixNoneAbove(all, key, r, n);
    assert multiset(r[..n]) <= multiset(all);
  }
}
