/**
 * The continuous knapsack problem with an inequality constraint,
 *    min 1/2 <x, x> - <a, x>   s.t.  <1, x> <= rhs,  lo <= x_i <= hi,
 * solved by `thresholds_knapsack_le`: if clamping a to [lo, hi] already meets
 * the budget the constraint is inactive and t = 0; otherwise the equality
 * knapsack decides.
 */
module KnapsackLe {
  import opened Numeric
  import opened Reorder
  import opened ProxDef
  import opened KnapsackEq

  /** What one entry contributes to the clamped sum s of the source. */
  function ClampLe(x: real, lo: real, hi: real): real
  {
    if x >= hi then hi else if x > lo then x else lo
  }

  /** s = sum of the entries clamped to [lo, hi], in any order. */
  function ClampedSum(s: seq<real>, lo: real, hi: real): real
  {
    Sum(Map(s, x => ClampLe(x, lo, hi)))
  }

  /**
   * The layout the two partitions leave: entries >= hi, then entries strictly
   * between lo and hi, then entries <= lo (and, having failed the first
   * test, below hi).
   */
  ghost predicate LeGroups(s: seq<real>, first: nat, last: nat, lo: real, hi: real)
  {
    first <= last <= |s|
    && (forall i :: 0 <= i < first ==> s[i] >= hi)
    && (forall i :: first <= i < last ==> lo < s[i] < hi)
    && (forall i :: last <= i < |s| ==> s[i] <= lo && s[i] < hi)
  }

  /** Clamping to [lo, hi] does not depend on the order of the buffer. */
  lemma {:induction false} ClampedSumPermutation(s: seq<real>, u: seq<real>, lo: real, hi: real)
    requires multiset(s) == multiset(u)
    ensures ClampedSum(s, lo, hi) == ClampedSum(u, lo, hi)
  {
    SumMapPermutation(s, u, x => ClampLe(x, lo, hi));
  }

  /** On a grouped buffer the clamped sum is the block sum with t = 0. */
  lemma {:induction false} ClampedSumGrouped(s: seq<real>, first: nat, last: nat, lo: real, hi: real)
    requires LeGroups(s, first, last, lo, hi)
    ensures ClampedSum(s, lo, hi) == ShapedSum(Thresholds(0.0, lo, hi, first, last), s)
  {
    var p := Map(s, x => ClampLe(x, lo, hi));
    assert BlockShaped(s, p, Thresholds(0.0, lo, hi, first, last));
    SumShaped(s, p, Thresholds(0.0, lo, hi, first, last));
  }

  /** The source's s, written with products, is the block sum with t = 0. */
  lemma {:induction false} ClampedSumArith(v: real, sumM: real, first: nat, last: nat, n: nat, lo: real, hi: real)
    requires first <= last <= n
    requires v == sumM + hi * (first as real) + lo * ((n - last) as real)
    ensures v == Times(first, hi) + (sumM - Times(last - first, 0.0)) + Times(n - last, lo)
  {
    TimesMul(first, hi);
    TimesMul(n - last, lo);
    TimesMul(last - first, 0.0);
  }

  /** A partition of the suffix [mFirst, n) keeps a prefix property. */
  lemma {:induction false} PrefixKept(s1: seq<real>, s2: seq<real>, mFirst: nat, hi: real)
    requires PermutedWithin(s1, s2, mFirst, |s1|)
    requires forall i :: 0 <= i < mFirst ==> s1[i] >= hi
    ensures forall i :: 0 <= i < mFirst ==> s2[i] >= hi
  {
    forall i | 0 <= i < mFirst
      ensures s2[i] >= hi
    {
      assert s2[i] == s2[..mFirst][i] == s1[..mFirst][i];
    }
  }

  /** The two partitions of the source: x >= hi first, then x > lo. */
  method SplitLe(a: array<real>, lo: real, hi: real) returns (mFirst: nat, mLast: nat)
    modifies a
    ensures multiset(a[..]) == multiset(old(a[..]))
    ensures LeGroups(a[..], mFirst, mLast, lo, hi)
  {
    ghost var s0 := a[..];
    mFirst := Partition(a, 0, a.Length, x => x >= hi);
    ghost var s1 := a[..];
    mLast := Partition(a, mFirst, a.Length, x => x > lo);
    PrefixKept(s1, a[..], mFirst, hi);
    PermutedWithinForall(s1, a[..], mFirst, a.Length, x => x < hi);
    PermutedWithinWhole(s0, s1, 0, a.Length);
    PermutedWithinWhole(s1, a[..], mFirst, a.Length);
  }

  /** The s the source computes on the split buffer is the clamped sum of the input. */
  lemma {:induction false} ClampedSumSplit(s0: seq<real>, s: seq<real>, v: real, mFirst: nat, mLast: nat,
                        lo: real, hi: real)
    requires multiset(s0) == multiset(s)
    requires LeGroups(s, mFirst, mLast, lo, hi)
    requires v == Sum(s[mFirst..mLast]) + hi * (mFirst as real) + lo * ((|s| - mLast) as real)
    ensures v == ClampedSum(s0, lo, hi)
    ensures v == ShapedSum(Thresholds(0.0, lo, hi, mFirst, mLast), s)
  {
    ClampedSumArith(v, Sum(s[mFirst..mLast]), mFirst, mLast, |s|, lo, hi);
    ShapedSumUnfold(Thresholds(0.0, lo, hi, mFirst, mLast), s, v);
    ClampedSumGrouped(s, mFirst, mLast, lo, hi);
    ClampedSumPermutation(s0, s, lo, hi);
  }

  /**
   * What `thresholds_knapsack_le` promises for input s0 and reordered buffer s:
   * an active budget gives the equality-knapsack result, an inactive one
   * t = 0 with the split's blocks, whose block sum is the clamped sum.
   */
  ghost predicate KnapsackLeResult(s0: seq<real>, s: seq<real>, th: Thresholds,
                                   lo: real, hi: real, rhs: real, eps: real)
  {
    (ClampedSum(s0, lo, hi) > rhs + eps ==> KnapsackResult(s, th, lo, hi, rhs, eps))
    && (ClampedSum(s0, lo, hi) <= rhs + eps
        ==> th.t == 0.0 && th.lo == lo && th.hi == hi
            && LeGroups(s, th.first, th.last, lo, hi)
            && ShapedSum(th, s) == ClampedSum(s0, lo, hi))
  }

  /**
   * `thresholds_knapsack_le(first, last, lo, hi, rhs)`. The range is split
   * into x >= hi, lo < x < hi and x <= lo and s is the clamped sum. If
   * s > rhs + eps the result is that of `thresholds_knapsack_eq`; otherwise t
   * is 0 and the blocks are those of the split, whose block sum is s.
   */
  method ThresholdsKnapsackLe(a: array<real>, lo: real, hi: real, rhs: real, machineEps: real)
      returns (th: Thresholds)
    requires machineEps >= 0.0
    requires a.Length > 0 || 0.0 <= rhs + KnapsackEps(machineEps, rhs)
    modifies a
    ensures multiset(a[..]) == multiset(old(a[..]))
    ensures KnapsackLeResult(old(a[..]), a[..], th, lo, hi, rhs, KnapsackEps(machineEps, rhs))
  {
    var eps := KnapsackEps(machineEps, rhs);
    ghost var s0 := a[..];

    // First, check if the inequality constraint is active (sum > rhs)
    var mFirst, mLast := SplitLe(a, lo, hi);
    var s := Sum(a[mFirst..mLast]) + hi * (mFirst as real) + lo * ((a.Length - mLast) as real);
    ClampedSumSplit(s0, a[..], s, mFirst, mLast, lo, hi);

    if s > rhs + eps {
      th := ThresholdsKnapsackEq(a, lo, hi, rhs, machineEps);
    } else {
      th := Thresholds(0.0, lo, hi, mFirst, mLast);
    }
  }

  /** With t = 0 and lo <= hi, the groups of the split are consistent thresholds. */
  lemma {:induction false} LeGroupsConsistent(s: seq<real>, th: Thresholds)
    requires th.t == 0.0 && th.lo <= th.hi
    requires LeGroups(s, th.first, th.last, th.lo, th.hi)
    ensures Consistent(s, th)
  {
  }

  /** The projection's sum does not depend on the order of the buffer. */
  lemma {:induction false} SumProxPermutation(s: seq<real>, u: seq<real>, th: Thresholds)
    requires multiset(s) == multiset(u)
    ensures Sum(ProxSeq(s, th)) == Sum(ProxSeq(u, th))
  {
    ProxSeqPermutation(s, u, th);
    SumPermutation(ProxSeq(s, th), ProxSeq(u, th));
  }

  /**
   * An inactive budget: projecting the input with the t = 0 thresholds of the
   * split gives entries in [lo, hi] summing to the clamped sum.
   */
  lemma {:induction false} InactiveProx(orig: seq<real>, u: seq<real>, th: Thresholds)
    requires multiset(orig) == multiset(u)
    requires th.t == 0.0 && th.lo <= th.hi
    requires LeGroups(u, th.first, th.last, th.lo, th.hi)
    requires ShapedSum(th, u) == ClampedSum(orig, th.lo, th.hi)
    ensures Sum(ProxSeq(orig, th)) == ClampedSum(orig, th.lo, th.hi)
    ensures forall i :: 0 <= i < |orig| ==> th.lo <= ProxSeq(orig, th)[i] <= th.hi
  {
    LeGroupsConsistent(u, th);
    SumProxCorrect(th, u);
    SumProxPermutation(orig, u, th);
    ProxSeqInBounds(orig, th);
  }

  /**
   * `prox_knapsack_le(first, last, lo, hi, rhs)`. For lo <= hi every entry of
   * the result lies in [lo, hi] and the sum stays within rhs + eps, unless
   * even every entry at lo exceeds the budget. An inactive budget leaves the
   * plain clamp (t = 0); an active one meets rhs within eps, or rhs is out of
   * reach of the box and every entry sits at one bound.
   */
  method ProxKnapsackLe(a: array<real>, lo: real, hi: real, rhs: real, machineEps: real)
      returns (th: Thresholds)
    requires machineEps >= 0.0
    requires a.Length > 0 || 0.0 <= rhs + KnapsackEps(machineEps, rhs)
    modifies a
    ensures a[..] == ProxSeq(old(a[..]), th)
    ensures lo <= hi ==> forall i :: 0 <= i < a.Length ==> lo <= a[i] <= hi
    ensures lo <= hi ==>
              Sum(a[..]) <= rhs + KnapsackEps(machineEps, rhs)
              || forall i :: 0 <= i < a.Length ==> a[i] == lo
    ensures lo <= hi && ClampedSum(old(a[..]), lo, hi) <= rhs + KnapsackEps(machineEps, rhs)
        ==> th.t == 0.0 && Sum(a[..]) == ClampedSum(old(a[..]), lo, hi)
    ensures lo <= hi && ClampedSum(old(a[..]), lo, hi) > rhs + KnapsackEps(machineEps, rhs)
        ==> Abs(Sum(a[..]) - rhs) <= KnapsackEps(machineEps, rhs)
            || (forall i :: 0 <= i < a.Length ==> a[i] == hi)
            || (forall i :: 0 <= i < a.Length ==> a[i] == lo)
  {
    ghost var orig := a[..];
    var aux := Copy(a);
    th := ThresholdsKnapsackLe(aux, lo, hi, rhs, machineEps);
    ghost var eps := KnapsackEps(machineEps, rhs);
    if lo <= hi && ClampedSum(orig, lo, hi) <= eps + rhs {
      InactiveProx(orig, aux[..], th);
    } else if lo <= hi {
      KnapsackProx(orig, aux[..], th, lo, hi, rhs, eps);
    }
    ProxWhole(th, a);
  }
}
