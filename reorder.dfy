/**
 * The in-place reorderings the threshold algorithms rely on: `std::partition`,
 * `std::sort` and `std::nth_element` with `std::greater`, each specified by what
 * the standard library guarantees (a permutation of the range, with the order
 * property), not by one particular algorithm.
 */
module Reorder {
  import opened Numeric

  /** Non-increasing order, the result of sorting with `std::greater`. */
  ghost predicate SortedDesc(s: seq<real>)
  {
    forall i, j :: 0 <= i < j < |s| ==> s[i] >= s[j]
  }

  /** `after` is `before` with only the range [lo, hi) permuted. */
  ghost predicate PermutedWithin(before: seq<real>, after: seq<real>, lo: nat, hi: nat)
  {
    |before| == |after| && lo <= hi <= |after|
    && before[..lo] == after[..lo] && before[hi..] == after[hi..]
    && multiset(before[lo..hi]) == multiset(after[lo..hi])
  }

  /** A permutation of a range is a permutation of the whole sequence. */
  lemma {:induction false} PermutedWithinWhole(before: seq<real>, after: seq<real>, lo: nat, hi: nat)
    requires PermutedWithin(before, after, lo, hi)
    ensures multiset(before) == multiset(after)
  {
    assert before == before[..lo] + before[lo..hi] + before[hi..];
    assert after == after[..lo] + after[lo..hi] + after[hi..];
  }

  /** Permuting a sub-range [lo2, hi2) of [lo, hi) keeps [lo, hi) a permutation. */
  lemma {:induction false} PermutedWithinCompose(s0: seq<real>, s1: seq<real>, s2: seq<real>,
                              lo: nat, hi: nat, lo2: nat, hi2: nat)
    requires PermutedWithin(s0, s1, lo, hi)
    requires PermutedWithin(s1, s2, lo2, hi2)
    requires lo <= lo2 <= hi2 <= hi
    ensures PermutedWithin(s0, s2, lo, hi)
  {
    assert s1[lo..hi] == s1[lo..lo2] + s1[lo2..hi2] + s1[hi2..hi];
    assert s2[lo..hi] == s2[lo..lo2] + s2[lo2..hi2] + s2[hi2..hi];
    assert s1[lo..lo2] == s1[..lo2][lo..];
    assert s2[lo..lo2] == s2[..lo2][lo..];
    assert s1[hi2..hi] == s1[hi2..][..hi - hi2];
    assert s2[hi2..hi] == s2[hi2..][..hi - hi2];
    assert s2[..lo] == s2[..lo2][..lo];
    assert s1[..lo] == s1[..lo2][..lo];
    assert s2[hi..] == s2[hi2..][hi - hi2..];
    assert s1[hi..] == s1[hi2..][hi - hi2..];
  }

  /** The multiset of a sequence, cut in three. */
  lemma {:induction false} MultisetSplit3(s: seq<real>, lo: nat, hi: nat)
    requires lo <= hi <= |s|
    ensures multiset(s) == multiset(s[..lo]) + multiset(s[lo..hi]) + multiset(s[hi..])
  {
    assert s == s[..lo] + s[lo..hi] + s[hi..];
  }

  /** The whole-multiset form of PermutedWithin, convenient as a loop invariant. */
  lemma {:induction false} PermutedWithinIntro(before: seq<real>, after: seq<real>, lo: nat, hi: nat)
    requires |before| == |after| && lo <= hi <= |after|
    requires before[..lo] == after[..lo] && before[hi..] == after[hi..]
    requires multiset(before) == multiset(after)
    ensures PermutedWithin(before, after, lo, hi)
  {
    MultisetSplit3(before, lo, hi);
    MultisetSplit3(after, lo, hi);
    assert multiset(before[lo..hi])
        == multiset(before) - multiset(before[..lo]) - multiset(before[hi..]);
    assert multiset(after[lo..hi])
        == multiset(after) - multiset(after[..lo]) - multiset(after[hi..]);
  }

  /** Nothing outside [lo, hi) differs. */
  ghost predicate Outside(before: seq<real>, after: seq<real>, lo: nat, hi: nat)
  {
    |before| == |after| && lo <= hi <= |after|
    && forall k :: 0 <= k < |after| && !(lo <= k < hi) ==> before[k] == after[k]
  }

  lemma {:induction false} OutsideIntro(before: seq<real>, after: seq<real>, lo: nat, hi: nat)
    requires Outside(before, after, lo, hi)
    requires multiset(before) == multiset(after)
    ensures PermutedWithin(before, after, lo, hi)
  {
    assert before[..lo] == after[..lo];
    assert before[hi..] == after[hi..];
    PermutedWithinIntro(before, after, lo, hi);
  }

  /** A property of every entry of a range survives permuting that range. */
  lemma {:induction false} PermutedWithinForall(before: seq<real>, after: seq<real>, lo: nat, hi: nat,
                             p: real -> bool)
    requires PermutedWithin(before, after, lo, hi)
    requires forall i :: lo <= i < hi ==> p(before[i])
    ensures forall i :: lo <= i < hi ==> p(after[i])
  {
    forall i | lo <= i < hi
      ensures p(after[i])
    {
      assert after[lo..hi][i - lo] == after[i];
      assert after[i] in multiset(before[lo..hi]);
      var j :| 0 <= j < hi - lo && before[lo..hi][j] == after[i];
      assert before[lo + j] == after[i];
    }
  }

  /** The sum of a permuted range is unchanged. */
  lemma {:induction false} PermutedWithinSum(before: seq<real>, after: seq<real>, lo: nat, hi: nat)
    requires PermutedWithin(before, after, lo, hi)
    ensures Sum(before[lo..hi]) == Sum(after[lo..hi])
  {
    SumPermutation(before[lo..hi], after[lo..hi]);
  }

  /** Every entry of s mapped through f. */
  function Map(s: seq<real>, f: real -> real): (r: seq<real>)
    ensures |r| == |s|
  {
    seq(|s|, i requires 0 <= i < |s| => f(s[i]))
  }

  lemma {:induction false} MapConcat(s: seq<real>, u: seq<real>, f: real -> real)
    ensures Map(s + u, f) == Map(s, f) + Map(u, f)
  {
  }

  /** Removing entry j from a sequence removes one copy of it from its multiset. */
  lemma {:induction false} MultisetRemove(u: seq<real>, j: nat)
    requires j < |u|
    ensures multiset(u[..j] + u[j + 1..]) == multiset(u) - multiset{u[j]}
  {
    assert u == u[..j] + [u[j]] + u[j + 1..];
  }

  /** Mapping a sequence with entry j removed removes the image of that entry. */
  lemma {:induction false} MapRemove(u: seq<real>, j: nat, f: real -> real)
    requires j < |u|
    ensures multiset(Map(u, f)) == multiset(Map(u[..j] + u[j + 1..], f)) + multiset{f(u[j])}
  {
    var u1, u2 := u[..j], u[j + 1..];
    assert u == u1 + [u[j]] + u2;
    MapConcat(u1 + [u[j]], u2, f);
    MapConcat(u1, [u[j]], f);
    MapConcat(u1, u2, f);
  }

  /** Mapping commutes with reordering. */
  lemma {:induction false} MapPermutation(s: seq<real>, u: seq<real>, f: real -> real)
    requires multiset(s) == multiset(u)
    ensures multiset(Map(s, f)) == multiset(Map(u, f))
    decreases |s|
  {
    if |s| > 0 {
      var n := |s| - 1;
      assert s[n] in multiset(u);
      var j :| 0 <= j < |u| && u[j] == s[n];
      MultisetRemove(s, n);
      MultisetRemove(u, j);
      assert s[..n] + s[n + 1..] == s[..n];
      MapPermutation(s[..n], u[..j] + u[j + 1..], f);
      MapRemove(s, n, f);
      MapRemove(u, j, f);
    }
  }

  /** The sum of a mapped sequence does not depend on the order. */
  lemma {:induction false} SumMapPermutation(s: seq<real>, u: seq<real>, f: real -> real)
    requires multiset(s) == multiset(u)
    ensures Sum(Map(s, f)) == Sum(Map(u, f))
  {
    MapPermutation(s, u, f);
    SumPermutation(Map(s, f), Map(u, f));
  }

  /** Exchanges two entries, the `std::swap` of two elements of a buffer. */
  method Swap(a: array<real>, i: nat, j: nat)
    requires i < a.Length && j < a.Length
    modifies a
    ensures a[i] == old(a[j]) && a[j] == old(a[i])
    ensures forall k :: 0 <= k < a.Length && k != i && k != j ==> a[k] == old(a[k])
    ensures multiset(a[..]) == multiset(old(a[..]))
  {
    a[i], a[j] := a[j], a[i];
  }

  /**
   * `std::partition(first, last, p)`: permutes [lo, hi) so that the elements
   * satisfying p come first and returns the boundary.
   */
  method Partition(a: array<real>, lo: nat, hi: nat, p: real -> bool) returns (mid: nat)
    requires lo <= hi <= a.Length
    modifies a
    ensures lo <= mid <= hi
    ensures PermutedWithin(old(a[..]), a[..], lo, hi)
    ensures forall i :: lo <= i < mid ==> p(a[i])
    ensures forall i :: mid <= i < hi ==> !p(a[i])
  {
    mid := lo;
    var j := lo;
    while j < hi
      invariant lo <= mid <= j <= hi
      invariant multiset(a[..]) == multiset(old(a[..]))
      invariant Outside(old(a[..]), a[..], lo, hi)
      invariant forall i :: lo <= i < mid ==> p(a[i])
      invariant forall i :: mid <= i < j ==> !p(a[i])
    {
      if p(a[j]) {
        Swap(a, mid, j);
        mid := mid + 1;
      }
      j := j + 1;
    }
    OutsideIntro(old(a[..]), a[..], lo, hi);
  }

  /** `std::sort(first, last, std::greater<>())` on the range [lo, hi). */
  method SortDescending(a: array<real>, lo: nat, hi: nat)
    requires lo <= hi <= a.Length
    modifies a
    ensures PermutedWithin(old(a[..]), a[..], lo, hi)
    ensures SortedDesc(a[lo..hi])
  {
    if lo == hi {
      OutsideIntro(old(a[..]), a[..], lo, hi);
      return;
    }
    var i := lo + 1;
    while i < hi
      invariant lo + 1 <= i <= hi
      invariant forall p, q :: lo <= p < q < i ==> a[p] >= a[q]
      invariant multiset(a[..]) == multiset(old(a[..]))
      invariant Outside(old(a[..]), a[..], lo, hi)
    {
      InsertDown(a, lo, i);
      i := i + 1;
    }
    OutsideIntro(old(a[..]), a[..], lo, hi);
  }

  /** One insertion step: a[i] sinks left into the sorted run [lo, i). */
  method InsertDown(a: array<real>, lo: nat, i: nat)
    requires lo <= i < a.Length
    requires forall p, q :: lo <= p < q < i ==> a[p] >= a[q]
    modifies a
    ensures forall p, q :: lo <= p < q <= i ==> a[p] >= a[q]
    ensures multiset(a[..]) == multiset(old(a[..]))
    ensures forall k :: 0 <= k < a.Length && !(lo <= k <= i) ==> a[k] == old(a[k])
  {
    var j := i;
    while j > lo && a[j - 1] < a[j]
      invariant lo <= j <= i
      invariant forall p, q :: lo <= p < q <= i && p != j && q != j ==> a[p] >= a[q]
      invariant forall q :: j < q <= i ==> a[j] >= a[q]
      invariant forall p, q :: lo <= p < j < q <= i ==> a[p] >= a[q]
      invariant multiset(a[..]) == multiset(old(a[..]))
      invariant forall k :: 0 <= k < a.Length && !(lo <= k <= i) ==> a[k] == old(a[k])
    {
      Swap(a, j - 1, j);
      j := j - 1;
    }
  }

  /**
   * `std::nth_element(first, first + k - 1, last, std::greater<>())`: the k-th
   * largest element lands at index k - 1, with nothing smaller before it and
   * nothing larger after it.
   */
  method NthElementDesc(a: array<real>, k: nat)
    requires 1 <= k <= a.Length
    modifies a
    ensures PermutedWithin(old(a[..]), a[..], 0, a.Length)
    ensures forall i :: 0 <= i < k - 1 ==> a[i] >= a[k - 1]
    ensures forall i :: k - 1 < i < a.Length ==> a[i] <= a[k - 1]
  {
    SortDescending(a, 0, a.Length);
    assert forall i :: 0 <= i < a.Length ==> a[0..a.Length][i] == a[i];
  }

  /** `*std::max_element(first, last)` of a non-empty range. */
  function MaxOf(s: seq<real>): (r: real)
    requires |s| > 0
    ensures forall i :: 0 <= i < |s| ==> s[i] <= r
    ensures exists i :: 0 <= i < |s| && s[i] == r
    decreases |s|
  {
    if |s| == 1 then s[0]
    else
      var m := MaxOf(s[..|s| - 1]);
      if s[|s| - 1] > m then s[|s| - 1] else m
  }

  /** `*std::min_element(first, last)` of a non-empty range. */
  function MinOf(s: seq<real>): (r: real)
    requires |s| > 0
    ensures forall i :: 0 <= i < |s| ==> r <= s[i]
    ensures exists i :: 0 <= i < |s| && s[i] == r
    decreases |s|
  {
    if |s| == 1 then s[0]
    else
      var m := MinOf(s[..|s| - 1]);
      if s[|s| - 1] < m then s[|s| - 1] else m
  }
}
