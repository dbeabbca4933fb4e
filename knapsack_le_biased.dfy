/**
 * The biased continuous knapsack problem,
 *    min 1/2 (<x, x> + rho <1, x>^2) - <a, x>  s.t.  <1, x> <= rhs,  lo <= x_i <= hi,
 * solved by `thresholds_knapsack_le_biased`: rho = 0 is the plain inequality
 * knapsack, otherwise the equality knapsack is tried first and, if its t is
 * too small, a search over sorted data picks the upper block U and the
 * middle block M.
 */
module KnapsackLeBiased {
  import opened Numeric
  import opened Reorder
  import opened ProxDef
  import opened KnapsackEq
  import opened KnapsackLe

  /**
   * The candidate t for |L| = numL, |U| = numU, |M| = numM and sum_M, with
   * rhoInverse = 1 / rho: (lo |L| + hi |U| + sum_M) / (1/rho + |M|).
   */
  function BiasedT(lo: real, hi: real, rhoInverse: real,
                   numL: real, numU: real, numM: real, sumM: real): real
    requires rhoInverse > 0.0 && numM >= 0.0
  {
    (lo * numL + hi * numU + sumM) / (rhoInverse + numM)
  }

  /**
   * The five tests of a candidate, with +/-infinity standing for the bound of
   * an empty set: t <= rho rhs, max_M <= hi + t <= min_U and
   * max_L <= lo + t <= min_M, each with eps slack.
   */
  predicate BiasedTest(t: real, lo: real, hi: real, rhoRhs: real, eps: real,
                       minU: XReal, maxM: XReal, minM: XReal, maxL: XReal)
  {
    t <= rhoRhs + eps
    && XAdd(maxM, -eps).Leq(Fin(hi + t)) && Fin(hi + t).Leq(XAdd(minU, eps))
    && Fin(lo + t).Leq(XAdd(minM, eps)) && XAdd(maxL, -eps).Leq(Fin(lo + t))
  }

  /** The candidate with U = s[..f] and M = s[f..l] passes the tests. */
  predicate BiasedAccept(s: seq<real>, lo: real, hi: real, rhs: real, rho: real, eps: real,
                         f: nat, l: nat)
    requires rho > 0.0 && f <= l <= |s|
  {
    BiasedTest(BiasedT(lo, hi, 1.0 / rho, (|s| - l) as real, f as real, (l - f) as real,
                       Sum(s[f..l])),
               lo, hi, rho * rhs, eps, MinU(s, f), MaxM(s, f, l), MinM(s, f, l), MaxL(s, l))
  }

  /** Every candidate the search visits before (f, l) fails: smaller U, or same U and smaller M. */
  ghost predicate RejectedBefore(s: seq<real>, lo: real, hi: real, rhs: real, rho: real, eps: real,
                                 f: nat, l: nat)
    requires rho > 0.0
  {
    forall f': nat, l': nat :: (f' < f && f' <= l' <= |s|) || (f' == f && f' <= l' < l && l' <= |s|)
      ==> !BiasedAccept(s, lo, hi, rhs, rho, eps, f', l')
  }

  /** Before the first candidate nothing has been rejected. */
  lemma {:induction false} RejectedNothing(s: seq<real>, lo: real, hi: real, rhs: real, rho: real, eps: real)
    requires rho > 0.0
    ensures RejectedBefore(s, lo, hi, rhs, rho, eps, 0, 0)
  {
  }

  /** th is the first candidate of the search order that passes the tests. */
  ghost predicate FirstAccepted(s: seq<real>, th: Thresholds, lo: real, hi: real, rhs: real,
                                rho: real, eps: real)
    requires rho > 0.0
  {
    th.first <= th.last <= |s| && th.lo == lo && th.hi == hi
    && th.t == BiasedT(lo, hi, 1.0 / rho, (|s| - th.last) as real, th.first as real,
                       (th.last - th.first) as real, Sum(s[th.first..th.last]))
    && BiasedAccept(s, lo, hi, rhs, rho, eps, th.first, th.last)
    && RejectedBefore(s, lo, hi, rhs, rho, eps, th.first, th.last)
  }

  /**
   * What the search returns on the sorted s: the first candidate that passes,
   * or, when none does, t = lo = hi = 0 with an empty middle at the front.
   */
  ghost predicate SearchResult(s: seq<real>, th: Thresholds, lo: real, hi: real, rhs: real,
                               rho: real, eps: real)
    requires rho > 0.0
  {
    FirstAccepted(s, th, lo, hi, rhs, rho, eps)
    || (th == Thresholds(0.0, 0.0, 0.0, 0, 0)
        && RejectedBefore(s, lo, hi, rhs, rho, eps, |s| + 1, |s| + 1))
  }

  /**
   * The inner loop of the search: M grows from empty at U = s[..f] until a
   * candidate passes or M reaches the end.
   */
  method SearchM(a: array<real>, lo: real, hi: real, rhs: real, rho: real, eps: real,
                 f: nat, minU: XReal)
      returns (found: bool, th: Thresholds)
    requires rho > 0.0 && f <= a.Length
    requires minU == MinU(a[..], f)
    requires RejectedBefore(a[..], lo, hi, rhs, rho, eps, f, f)
    ensures found ==> FirstAccepted(a[..], th, lo, hi, rhs, rho, eps)
    ensures !found ==> RejectedBefore(a[..], lo, hi, rhs, rho, eps, f + 1, f + 1)
  {
    ghost var s := a[..];
    var rhoRhs := rho * rhs;
    var rhoInverse := 1.0 / rho;
    var minM, maxM := PosInf, NegInf;
    var numM, sumM := 0.0, 0.0;
    var numL := (a.Length - f) as real;
    var numU := f as real;
    var mLast := f;
    while true
      invariant f <= mLast <= a.Length
      invariant numM == (mLast - f) as real && numL == (a.Length - mLast) as real
      invariant sumM == Sum(s[f..mLast])
      invariant minM == MinM(s, f, mLast) && maxM == MaxM(s, f, mLast)
      invariant RejectedBefore(s, lo, hi, rhs, rho, eps, f, mLast)
      decreases a.Length - mLast
    {
      var t := BiasedT(lo, hi, rhoInverse, numL, numU, numM, sumM);
      var maxL := if mLast == a.Length then NegInf else Fin(a[mLast]);
      if BiasedTest(t, lo, hi, rhoRhs, eps, minU, maxM, minM, maxL) {
        assert BiasedAccept(s, lo, hi, rhs, rho, eps, f, mLast);
        return true, Thresholds(t, lo, hi, f, mLast);
      }

      // Increment the set M
      if mLast == a.Length {
        break;
      }
      minM := Fin(a[mLast]);
      maxM := Fin(a[f]);
      SumStep(s, f, mLast);
      sumM := sumM + a[mLast];
      numL := numL - 1.0;
      numM := numM + 1.0;
      mLast := mLast + 1;
    }
    return false, Thresholds(0.0, 0.0, 0.0, 0, 0);
  }

  /**
   * The outer loop of the search: U grows from empty; for each U the inner
   * loop tries every M. Falls back to zero thresholds when nothing passes.
   */
  method SearchU(a: array<real>, lo: real, hi: real, rhs: real, rho: real, eps: real)
      returns (th: Thresholds)
    requires rho > 0.0
    ensures SearchResult(a[..], th, lo, hi, rhs, rho, eps)
  {
    ghost var s := a[..];
    // Grow U starting with empty
    var minU := PosInf;
    var mFirst := 0;
    RejectedNothing(s, lo, hi, rhs, rho, eps);
    while true
      invariant mFirst <= a.Length
      invariant minU == MinU(s, mFirst)
      invariant RejectedBefore(s, lo, hi, rhs, rho, eps, mFirst, mFirst)
      decreases a.Length - mFirst
    {
      var found;
      found, th := SearchM(a, lo, hi, rhs, rho, eps, mFirst, minU);
      if found {
        return;
      }

      // Increment the set U
      if mFirst == a.Length {
        break;
      }
      minU := Fin(a[mFirst]);
      mFirst := mFirst + 1;
    }

    // Default to 0
    th := Thresholds(0.0, 0.0, 0.0, 0, 0);
  }

  /**
   * `thresholds_knapsack_le_biased_search(first, last, lo, hi, rhs, rho)`:
   * sorts the range in descending order, then searches it.
   */
  method KnapsackLeBiasedSearch(a: array<real>, lo: real, hi: real, rhs: real, rho: real, eps: real)
      returns (th: Thresholds)
    requires rho > 0.0
    modifies a
    ensures multiset(a[..]) == multiset(old(a[..]))
    ensures SortedDesc(a[..])
    ensures SearchResult(a[..], th, lo, hi, rhs, rho, eps)
  {
    // Sort data to search efficiently
    SortDescending(a, 0, a.Length);
    PermutedWithinWhole(old(a[..]), a[..], 0, a.Length);
    assert a[0..a.Length] == a[..];
    th := SearchU(a, lo, hi, rhs, rho, eps);
  }

  /**
   * What `thresholds_knapsack_le_biased` promises for input s0 and reordered
   * buffer s: with rho = 0 that of the inequality knapsack; otherwise either
   * the equality-knapsack result with t >= rho rhs - eps, or the search's
   * result on the sorted buffer.
   */
  ghost predicate KnapsackLeBiasedResult(s0: seq<real>, s: seq<real>, th: Thresholds,
                                         lo: real, hi: real, rhs: real, rho: real, eps: real)
    requires rho >= 0.0
  {
    (rho == 0.0 ==> KnapsackLeResult(s0, s, th, lo, hi, rhs, eps))
    && (rho > 0.0
        ==> (KnapsackResult(s, th, lo, hi, rhs, eps) && th.t >= rho * rhs - eps)
            || (SortedDesc(s) && SearchResult(s, th, lo, hi, rhs, rho, eps)))
  }

  /**
   * `thresholds_knapsack_le_biased(first, last, lo, hi, rhs, rho)`: rho = 0 is
   * exactly `thresholds_knapsack_le`; otherwise the equality-knapsack result
   * is kept when its t >= rho rhs - eps, and the search decides when it is not.
   */
  method ThresholdsKnapsackLeBiased(a: array<real>, lo: real, hi: real, rhs: real, rho: real,
                                    machineEps: real)
      returns (th: Thresholds)
    requires rho >= 0.0 && machineEps >= 0.0
    requires a.Length > 0 || (rho == 0.0 && 0.0 <= rhs + KnapsackEps(machineEps, rhs))
    modifies a
    ensures multiset(a[..]) == multiset(old(a[..]))
    ensures KnapsackLeBiasedResult(old(a[..]), a[..], th, lo, hi, rhs, rho,
                                   KnapsackEps(machineEps, rhs))
  {
    if rho == 0.0 {
      th := ThresholdsKnapsackLe(a, lo, hi, rhs, machineEps);
      return;
    }

    var eps := KnapsackEps(machineEps, rhs);

    // Equality constraint
    th := ThresholdsKnapsackEq(a, lo, hi, rhs, machineEps);
    if th.t >= rho * rhs - eps {
      return;
    }

    // General case
    th := KnapsackLeBiasedSearch(a, lo, hi, rhs, rho, eps);
  }

  /**
   * The tolerance of the budget: eps for the inequality and equality
   * knapsacks, and with rho > 0 also eps / rho and n eps from the slack of the
   * search's tests.
   */
  function BiasedSlack(eps: real, rho: real, n: nat): real
    requires rho >= 0.0
  {
    if rho == 0.0 then eps else eps + eps / rho + Times(n, eps)
  }

  /**
   * The accepted candidate spreads t / rho over the blocks: hi on U, x - t
   * on M and lo on L add up to t / rho, which is how t was chosen.
   */
  lemma {:induction false} SearchShapedSum(s: seq<real>, th: Thresholds, lo: real, hi: real, rhs: real,
                                           rho: real, eps: real)
    requires rho > 0.0 && FirstAccepted(s, th, lo, hi, rhs, rho, eps)
    ensures ShapedSum(th, s) == th.t / rho
  {
    BiasedTShaped(s, th, rho);
  }

  /** The candidate t solves t (1/rho + |M|) = lo |L| + hi |U| + sum_M, which is ShapedSum = t / rho. */
  lemma {:induction false} BiasedTShaped(s: seq<real>, th: Thresholds, rho: real)
    requires rho > 0.0 && th.first <= th.last <= |s|
    requires th.t == BiasedT(th.lo, th.hi, 1.0 / rho, (|s| - th.last) as real, th.first as real,
                             (th.last - th.first) as real, Sum(s[th.first..th.last]))
    ensures ShapedSum(th, s) == th.t / rho
  {
    var f, l := th.first, th.last;
    var nM := (l - f) as real;
    var inv := 1.0 / rho;
    var num := th.lo * (|s| - l) as real + th.hi * f as real + Sum(s[f..l]);
    TimesMul(f, th.hi);
    TimesMul(l - f, th.t);
    TimesMul(|s| - l, th.lo);
    assert ShapedSum(th, s) == num - nM * th.t;
    DivBack(num, inv + nM, th.t);
    assert th.t * inv + th.t * nM == num;
    assert th.t * inv == th.t / rho;
  }

  lemma {:induction false} DivBack(num: real, d: real, t: real)
    requires d > 0.0 && t == num / d
    ensures t * d == num
  {
  }

  /**
   * On the sorted buffer the accepted candidate's tests, which compare t with
   * the bounds of the blocks, hold for every entry of each block: the buffer
   * agrees with the thresholds up to eps.
   */
  lemma {:induction false} SearchNearlyConsistent(s: seq<real>, th: Thresholds, lo: real, hi: real,
                                                  rhs: real, rho: real, eps: real)
    requires rho > 0.0
    requires SortedDesc(s) && FirstAccepted(s, th, lo, hi, rhs, rho, eps)
    ensures NearlyConsistent(s, th, eps)
  {
    var f, l, t := th.first, th.last, th.t;
    assert BiasedTest(t, lo, hi, rho * rhs, eps, MinU(s, f), MaxM(s, f, l), MinM(s, f, l), MaxL(s, l));
    forall i | 0 <= i < f
      ensures s[i] - t >= hi - eps
    {
      assert s[i] >= s[f - 1];
    }
    forall i | f <= i < l
      ensures lo - eps <= s[i] - t <= hi + eps
    {
      assert s[f] >= s[i] >= s[l - 1];
    }
    forall i | l <= i < |s|
      ensures s[i] - t <= lo + eps
    {
      assert s[i] <= s[l];
    }
  }

  /**
   * On the sorted buffer every projected entry is at most its block value
   * plus eps, so the projection sums to at most ShapedSum + n eps.
   */
  lemma {:induction false} SearchProxAtMost(s: seq<real>, th: Thresholds, lo: real, hi: real, rhs: real,
                                            rho: real, eps: real)
    requires rho > 0.0 && eps >= 0.0 && lo <= hi
    requires SortedDesc(s) && FirstAccepted(s, th, lo, hi, rhs, rho, eps)
    ensures Sum(ProxSeq(s, th)) <= ShapedSum(th, s) + Times(|s|, eps)
  {
    SearchNearlyConsistent(s, th, lo, hi, rhs, rho, eps);
    SumProxNearAbove(th, s, eps);
  }

  /**
   * The budget <1, x> <= rhs up to the tolerance, in every outcome: the
   * inequality knapsack's, the equality knapsack's, and the search's
   * t <= rho rhs + eps through t / rho. The exceptions are an infeasible box
   * (everything at lo) and the search's fallback to zero.
   */
  lemma {:induction false} BiasedBudget(s0: seq<real>, s: seq<real>, th: Thresholds, lo: real, hi: real,
                                        rhs: real, rho: real, eps: real)
    requires rho >= 0.0 && eps >= 0.0 && lo <= hi && multiset(s0) == multiset(s)
    requires KnapsackLeBiasedResult(s0, s, th, lo, hi, rhs, rho, eps)
    ensures Sum(ProxSeq(s0, th)) <= rhs + BiasedSlack(eps, rho, |s0|)
            || (forall i :: 0 <= i < |s0| ==> ProxSeq(s0, th)[i] == lo)
            || th == ZeroThresholds
  {
    if rho == 0.0 {
      if ClampedSum(s0, lo, hi) > rhs + eps {
        KnapsackProx(s0, s, th, lo, hi, rhs, eps);
      } else {
        InactiveProx(s0, s, th);
      }
    } else {
      TimesMul(|s0|, eps);
      assert eps / rho >= 0.0;
      if KnapsackResult(s, th, lo, hi, rhs, eps) && th.t >= rho * rhs - eps {
        KnapsackProx(s0, s, th, lo, hi, rhs, eps);
      } else if FirstAccepted(s, th, lo, hi, rhs, rho, eps) {
        SearchBudget(s0, s, th, lo, hi, rhs, rho, eps);
      }
    }
  }

  /** The search's branch of the budget: t <= rho rhs + eps, so t / rho <= rhs + eps / rho. */
  lemma {:induction false} SearchBudget(s0: seq<real>, s: seq<real>, th: Thresholds, lo: real, hi: real,
                                        rhs: real, rho: real, eps: real)
    requires rho > 0.0 && eps >= 0.0 && lo <= hi && multiset(s0) == multiset(s)
    requires SortedDesc(s) && FirstAccepted(s, th, lo, hi, rhs, rho, eps)
    ensures Sum(ProxSeq(s0, th)) <= rhs + eps / rho + Times(|s0|, eps)
  {
    SearchShapedSum(s, th, lo, hi, rhs, rho, eps);
    SearchProxAtMost(s, th, lo, hi, rhs, rho, eps);
    SumProxPermutation(s0, s, th);
    assert |s0| == |s| by {
      assert |multiset(s0)| == |multiset(s)|;
    }
    assert BiasedAccept(s, lo, hi, rhs, rho, eps, th.first, th.last);
    BudgetOverRho(th.t, rho, rhs, eps);
  }

  /** t <= rho rhs + eps gives t / rho <= rhs + eps / rho. */
  lemma {:induction false} BudgetOverRho(t: real, rho: real, rhs: real, eps: real)
    requires rho > 0.0 && t <= rho * rhs + eps
    ensures t / rho <= rhs + eps / rho
  {
    DivMonotone(t, rho * rhs + eps, rho);
    assert (rho * rhs + eps) / rho == rhs + eps / rho;
  }

  lemma {:induction false} DivMonotone(x: real, y: real, d: real)
    requires d > 0.0 && x <= y
    ensures x / d <= y / d
  {
  }

  /**
   * `prox_knapsack_le_biased(first, last, lo, hi, rhs, rho)`: the thresholds
   * are computed on a copy, sorted by the search when it runs (s is that
   * reordered copy), then the buffer is clamped with them.
   */
  method ProxKnapsackLeBiased(a: array<real>, lo: real, hi: real, rhs: real, rho: real,
                              machineEps: real)
      returns (th: Thresholds, ghost s: seq<real>)
    requires rho >= 0.0 && machineEps >= 0.0
    requires a.Length > 0 || (rho == 0.0 && 0.0 <= rhs + KnapsackEps(machineEps, rhs))
    modifies a
    ensures (th.lo == lo && th.hi == hi) || th == ZeroThresholds
    ensures a[..] == ProxSeq(old(a[..]), th)
    ensures multiset(s) == multiset(old(a[..]))
    ensures KnapsackLeBiasedResult(old(a[..]), s, th, lo, hi, rhs, rho, KnapsackEps(machineEps, rhs))
    ensures lo <= hi ==>
              Sum(a[..]) <= rhs + BiasedSlack(KnapsackEps(machineEps, rhs), rho, a.Length)
              || (forall i :: 0 <= i < a.Length ==> a[i] == lo)
              || th == ZeroThresholds
  {
    var aux := Copy(a);
    ghost var s0 := aux[..];
    th := ThresholdsKnapsackLeBiased(aux, lo, hi, rhs, rho, machineEps);
    s := aux[..];
    BiasedResultBounds(s0, s, th, lo, hi, rhs, rho, KnapsackEps(machineEps, rhs));
    if lo <= hi {
      BiasedBudget(s0, s, th, lo, hi, rhs, rho, KnapsackEps(machineEps, rhs));
    }
    ProxWhole(th, a);
  }

  /**
   * Every outcome clamps to the requested bounds, except the search's
   * fallback, which clamps everything to 0.
   */
  lemma {:induction false} BiasedResultBounds(s0: seq<real>, s: seq<real>, th: Thresholds, lo: real, hi: real,
                           rhs: real, rho: real, eps: real)
    requires rho >= 0.0 && KnapsackLeBiasedResult(s0, s, th, lo, hi, rhs, rho, eps)
    ensures (th.lo == lo && th.hi == hi) || th == ZeroThresholds
  {
  }
}
