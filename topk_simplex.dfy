/**
 * The projection onto the top-k simplex,
 *    min 1/2 <x, x> - <a, x>   s.t.  <1, x> <= rhs,  0 <= x_i <= <1, x> / k,
 * whose solution is x = max(0, min(a - t, hi)). The cone's special cases
 * come first; a constant projection whose total exceeds rhs, and the
 * general case, fall back to the equality knapsack with hi = rhs / k, and
 * the general case switches to the cone search when the knapsack solution
 * fails the top-k test on its upper block.
 */
module TopkSimplex {
  import opened Numeric
  import opened Reorder
  import opened ProxDef
  import opened KnapsackEq
  import opened TopkCone

  /**
   * `is_topk_simplex_lt(u_first, u_last, t, k, rhs, eps)`: with U empty,
   * t < -eps; otherwise k (sum_U + (k - |U|) t) < rhs |U| - eps.
   */
  predicate IsTopkSimplexLt(u: seq<real>, t: real, k: real, rhs: real, eps: real)
  {
    if |u| == 0 then t < -eps
    else k * (Sum(u) + (k - |u| as real) * t) < rhs * (|u| as real) - eps
  }

  /** The test reads U as a set: reordering the upper block does not change it. */
  lemma {:induction false} IsTopkSimplexLtPermutation(u: seq<real>, v: seq<real>, t: real, k: real, rhs: real, eps: real)
    requires multiset(u) == multiset(v)
    ensures IsTopkSimplexLt(u, t, k, rhs, eps) <==> IsTopkSimplexLt(v, t, k, rhs, eps)
  {
    assert |u| == |multiset(u)| == |multiset(v)| == |v|;
    SumPermutation(u, v);
  }

  /**
   * What `thresholds_topk_simplex` returns, on the buffer as it leaves it:
   * the zero projection; the constant projection when its total k hi stays
   * within rhs + eps; the equality knapsack with lo = 0, hi = rhs / k; or the
   * cone search on the sorted buffer.
   */
  ghost predicate TopkSimplexResult(s: seq<real>, k: nat, rhs: real, eps: real, coneEps: real,
                                    th: Thresholds)
    requires 1 <= k <= |s|
  {
    (KthLargestAt(s, k) && Sum(s[..k]) <= coneEps && th == ZeroThresholds)
    || (KthLargestAt(s, k) && Sum(s[..k]) > coneEps && ConstantFits(s, k, k as real, coneEps)
        && th == ConstantThresholds(s, k, k as real) && (k as real) * th.hi <= rhs + eps)
    || KnapsackResult(s, th, 0.0, rhs / (k as real), rhs, eps)
    || SimplexGeneralResult(s, k, rhs, eps, coneEps, th)
  }

  /**
   * The general case: the equality knapsack with lo = 0 and hi = rhs / k
   * when the top-k test fails on its upper block, or else the cone search on
   * the sorted buffer.
   */
  ghost predicate SimplexGeneralResult(s: seq<real>, k: nat, rhs: real, eps: real, coneEps: real,
                                       th: Thresholds)
    requires 1 <= k <= |s|
  {
    (KnapsackResult(s, th, 0.0, rhs / (k as real), rhs, eps)
     && !IsTopkSimplexLt(s[..th.first], th.t, k as real, rhs, eps))
    || (SortedDesc(s) && ConeSearchResult(s, k, coneEps, th))
  }

  /**
   * The general case of `thresholds_topk_simplex`: the knapsack result,
   * unless the top-k test holds on its upper block, in which case the
   * cone search decides.
   */
  method TopkSimplexGeneral(a: array<real>, k: nat, rhs: real, machineEps: real)
      returns (th: Thresholds)
    requires 1 <= k <= a.Length && machineEps >= 0.0
    modifies a
    ensures multiset(a[..]) == multiset(old(a[..]))
    ensures SimplexGeneralResult(a[..], k, rhs, KnapsackEps(machineEps, rhs), ConeEps(machineEps), th)
  {
    var kk := k as real;
    var eps := KnapsackEps(machineEps, rhs);
    th := ThresholdsKnapsackEq(a, 0.0, rhs / kk, rhs, machineEps);
    if IsTopkSimplexLt(a[..th.first], th.t, kk, rhs, eps) {
      th := ThresholdsTopkConeSearch(a, k, machineEps);
    }
  }

  /**
   * `thresholds_topk_simplex(first, last, k, rhs)`: eps is
   * machine_eps max(1, |rhs|) for the knapsack and the test, while the
   * special cases and the search keep the cone's own tolerance.
   */
  method ThresholdsTopkSimplex(a: array<real>, k: nat, rhs: real, machineEps: real)
      returns (th: Thresholds)
    requires 1 <= k <= a.Length && machineEps >= 0.0
    modifies a
    ensures multiset(a[..]) == multiset(old(a[..]))
    ensures TopkSimplexResult(a[..], k, rhs, KnapsackEps(machineEps, rhs), ConeEps(machineEps), th)
  {
    var kk := k as real;
    var eps := KnapsackEps(machineEps, rhs);
    var proj;
    proj, th := TopkConeSpecialCases(a, k, kk, machineEps);
    if proj == Constant && kk * th.hi > rhs + eps {
      th := ThresholdsKnapsackEq(a, 0.0, rhs / kk, rhs, machineEps);
    } else if proj == General {
      th := TopkSimplexGeneral(a, k, rhs, machineEps);
    }
  }

  /**
   * The constant projection that the simplex keeps (k hi <= rhs + eps) lies
   * in the cone, and its k largest entries sum to at most rhs + eps.
   */
  lemma {:induction false} SimplexConstantCase(s: seq<real>, k: nat, divConst: real, coneEps: real, rhs: real, eps: real)
    requires 1 <= k <= |s| && divConst > 0.0 && coneEps >= 0.0
    requires KthLargestAt(s, k)
    requires Sum(s[..k]) > coneEps && ConstantFits(s, k, divConst, coneEps)
    requires (k as real) * ConstantThresholds(s, k, divConst).hi <= rhs + eps
    ensures InTopkCone(ProxSeq(s, ConstantThresholds(s, k, divConst)), k)
    ensures Sum(ProxSeq(s, ConstantThresholds(s, k, divConst))[..k]) <= rhs + eps
  {
    var th := ConstantThresholds(s, k, divConst);
    var p := ProxSeq(s, th);
    ConstantCaseEntries(s, k, divConst, coneEps);
    TopBlockSum(p, k, th.hi);
    CappedInConeWithin(p, k, th.hi, 0.0);
    TimesBound(Sum(p[..k]), k, th.hi, rhs + eps);
  }

  lemma {:induction false} TimesBound(v: real, k: nat, hi: real, b: real)
    requires v == Times(k, hi) && (k as real) * hi <= b
    ensures v <= b
  {
    TimesMul(k, hi);
  }

  /**
   * A knapsack result with a non-empty middle puts hi = rhs / k on U, x - t
   * in (0, hi] on M and 0 on L, and that shape sums to rhs within eps: its
   * entries are at most rhs / k and its total at most rhs + eps.
   */
  lemma {:induction false} SimplexKnapsackCase(s: seq<real>, k: nat, rhs: real, eps: real, th: Thresholds)
    requires 1 <= k <= |s|
    requires KnapsackResult(s, th, 0.0, rhs / (k as real), rhs, eps)
    requires th.first < th.last
    ensures forall i :: th.first <= i < th.last ==> 0.0 < s[i] - th.t <= th.hi
    ensures th.hi == rhs / (k as real) && ShapedSum(th, s) <= rhs + eps
    ensures rhs - eps <= ShapedSum(th, s)
  {
  }

  /**
   * The outcomes that do not come from the cone search: the zero
   * projection, the constant projection kept within the budget, and the
   * equality knapsack with lo = 0, hi = rhs / k.
   */
  ghost predicate SimplexBudgetCase(s: seq<real>, k: nat, divConst: real, rhs: real, eps: real,
                                    coneEps: real, th: Thresholds)
    requires 1 <= k <= |s| && divConst > 0.0
  {
    (KthLargestAt(s, k) && Sum(s[..k]) <= coneEps && th == ZeroThresholds)
    || (KthLargestAt(s, k) && Sum(s[..k]) > coneEps && ConstantFits(s, k, divConst, coneEps)
        && th == ConstantThresholds(s, k, divConst) && (k as real) * th.hi <= rhs + eps)
    || KnapsackResult(s, th, 0.0, rhs / (k as real), rhs, eps)
  }

  /** A quotient by a positive count keeps the sign of the dividend. */
  lemma QuotientSign(x: real, d: real)
    requires d > 0.0
    ensures x >= 0.0 ==> x / d >= 0.0
    ensures x < 0.0 ==> x / d < 0.0
  {
    assert x / d * d == x;
  }

  /**
   * The constant projection kept by the simplex lies in the cone and its
   * total is at most rhs + eps plus coneEps for each entry outside the k
   * largest.
   */
  lemma {:induction false} SimplexConstantBudget(s: seq<real>, k: nat, divConst: real, coneEps: real,
                                                 rhs: real, eps: real)
    requires 1 <= k <= |s| && divConst > 0.0 && coneEps >= 0.0
    requires KthLargestAt(s, k)
    requires Sum(s[..k]) > coneEps && ConstantFits(s, k, divConst, coneEps)
    requires (k as real) * ConstantThresholds(s, k, divConst).hi <= rhs + eps
    ensures InTopkCone(ProxSeq(s, ConstantThresholds(s, k, divConst)), k)
    ensures Sum(ProxSeq(s, ConstantThresholds(s, k, divConst))) <= rhs + eps + Times(|s|, coneEps)
  {
    SimplexConstantCase(s, k, divConst, coneEps, rhs, eps);
    ConstantCaseEntries(s, k, divConst, coneEps);
    SumTailAtMost(ProxSeq(s, ConstantThresholds(s, k, divConst)), k, coneEps);
  }

  /**
   * The knapsack outcome: the projection lies in the cone widened by eps,
   * and for rhs >= 0 its total is at most rhs + eps.
   */
  lemma {:induction false} SimplexKnapsackBudget(s: seq<real>, k: nat, rhs: real, eps: real, th: Thresholds)
    requires 1 <= k <= |s| && eps >= 0.0
    requires KnapsackResult(s, th, 0.0, rhs / (k as real), rhs, eps)
    ensures InTopkConeWithin(ProxSeq(s, th), k, eps)
    ensures 0.0 <= rhs ==> Sum(ProxSeq(s, th)) <= rhs + eps
  {
    var p := ProxSeq(s, th);
    QuotientSign(rhs, k as real);
    if rhs < 0.0 {
      assert forall i :: 0 <= i < |p| ==> p[i] == 0.0;
      SumConst(p, 0.0);
      TimesZero(|p|);
    } else {
      SumProxCorrect(th, s);
      ProxSeqInBounds(s, th);
      MeanTimes(rhs, k, k as real, th.hi);
      ShapedSumEnds(th, s);
      TimesZero(|s|);
      TimesSplit(k, |s|, th.hi);
      TimesNonNegative(|s| - k, th.hi);
      CappedInConeWithin(p, k, th.hi, eps);
    }
  }

  /**
   * Every outcome other than the cone search projects into the cone widened
   * by eps + |s| coneEps, with a total of at most rhs plus the same slack.
   */
  lemma {:induction false} SimplexBudgetProx(s: seq<real>, k: nat, divConst: real, rhs: real, eps: real,
                                             coneEps: real, th: Thresholds)
    requires 1 <= k <= |s| && divConst > 0.0 && eps >= 0.0 && coneEps >= 0.0
    requires SimplexBudgetCase(s, k, divConst, rhs, eps, coneEps, th)
    ensures InTopkConeWithin(ProxSeq(s, th), k, eps + Times(|s|, coneEps))
    ensures 0.0 <= rhs ==> Sum(ProxSeq(s, th)) <= rhs + eps + Times(|s|, coneEps)
  {
    var slack := eps + Times(|s|, coneEps);
    TimesNonNegative(|s|, coneEps);
    if KnapsackResult(s, th, 0.0, rhs / (k as real), rhs, eps) {
      SimplexKnapsackBudget(s, k, rhs, eps, th);
      InTopkConeWiden(ProxSeq(s, th), k, eps, slack);
    } else if th == ZeroThresholds {
      ZeroCaseProx(s, k);
      SumConst(ProxSeq(s, th), 0.0);
      TimesZero(|s|);
      InTopkConeWiden(ProxSeq(s, th), k, 0.0, slack);
    } else {
      SimplexConstantBudget(s, k, divConst, coneEps, rhs, eps);
      InTopkConeWiden(ProxSeq(s, th), k, 0.0, slack);
    }
  }

  /**
   * Whatever `thresholds_topk_simplex` returns, the projection of the
   * reordered buffer lies in the top-k cone widened by eps + |s| coneEps;
   * for rhs >= 0 its total stays within rhs plus the same slack, unless the
   * thresholds came from the cone search.
   */
  lemma {:induction false} SimplexProx(s: seq<real>, k: nat, rhs: real, eps: real, coneEps: real,
                                       th: Thresholds)
    requires 1 <= k <= |s| && eps >= 0.0 && coneEps >= 0.0
    requires TopkSimplexResult(s, k, rhs, eps, coneEps, th)
    ensures InTopkConeWithin(ProxSeq(s, th), k, eps + Times(|s|, coneEps))
    ensures 0.0 <= rhs ==> Sum(ProxSeq(s, th)) <= rhs + eps + Times(|s|, coneEps)
                           || (SortedDesc(s) && ConeSearchResult(s, k, coneEps, th))
  {
    if SortedDesc(s) && ConeSearchResult(s, k, coneEps, th) {
      ConeSearchProx(s, k, coneEps, th);
      InTopkConeWiden(ProxSeq(s, th), k, Times(|s|, coneEps), eps + Times(|s|, coneEps));
    } else {
      SimplexBudgetProx(s, k, k as real, rhs, eps, coneEps, th);
    }
  }

  /**
   * The simplex properties carried from the reordered copy back to the
   * caller's order; the search case is named by the sorted copy it ran on.
   */
  lemma {:induction false} SimplexAfterCopy(orig: seq<real>, s: seq<real>, k: nat, rhs: real, eps: real,
                                            coneEps: real, th: Thresholds)
    requires multiset(s) == multiset(orig)
    requires 1 <= k <= |s| && eps >= 0.0 && coneEps >= 0.0
    requires TopkSimplexResult(s, k, rhs, eps, coneEps, th)
    ensures InTopkConeWithin(ProxSeq(orig, th), k, eps + Times(|orig|, coneEps))
    ensures 0.0 <= rhs ==> Sum(ProxSeq(orig, th)) <= rhs + eps + Times(|orig|, coneEps)
                           || ConeSearchedOn(orig, k, coneEps, th)
  {
    SimplexProx(s, k, rhs, eps, coneEps, th);
    ProxSeqPermutation(s, orig, th);
    SumPermutation(ProxSeq(s, th), ProxSeq(orig, th));
    assert |s| == |orig| by {
      assert |multiset(s)| == |multiset(orig)|;
    }
    InTopkConePermutation(ProxSeq(s, th), ProxSeq(orig, th), k, eps + Times(|s|, coneEps));
  }

  /**
   * With exact arithmetic every outcome of the dispatch with rhs > 0 is
   * consistent with the reordered buffer, or is the zero projection, so the
   * smoothed loss read off the thresholds is <h, p> - 1/2 <p, p>.
   */
  lemma {:induction false} SimplexExactLoss(s: seq<real>, k: nat, rhs: real, th: Thresholds)
    requires 1 <= k <= |s| && rhs > 0.0
    requires TopkSimplexResult(s, k, rhs, 0.0, 0.0, th)
    ensures th.first <= th.last <= |s|
    ensures SmoothLoss(th, s) == Dot(s, ProxSeq(s, th)) - 0.5 * SumSq(ProxSeq(s, th))
  {
    if th == ZeroThresholds {
      ZeroThresholdsLoss(s);
    } else if KnapsackResult(s, th, 0.0, rhs / (k as real), rhs, 0.0) {
      QuotientSign(rhs, k as real);
      SmoothLossCorrect(th, s);
    } else if SortedDesc(s) && ConeFirstAccepted(s, k, 0.0, th) {
      ConeCandidateExact(s, k, th);
      SmoothLossCorrect(th, s);
    } else {
      ConstantCaseExact(s, k, k as real);
      SmoothLossCorrect(th, s);
    }
  }

  /** Every result of the top-k simplex dispatch is an ordered threshold record. */
  lemma {:induction false} TopkSimplexResultRange(s: seq<real>, k: nat, rhs: real, eps: real, coneEps: real,
                               th: Thresholds)
    requires 1 <= k <= |s| && TopkSimplexResult(s, k, rhs, eps, coneEps, th)
    ensures th.first <= th.last <= |s|
  {
  }

  /**
   * The smoothed loss at the solver's tolerances: the folds are
   * <h, p> - 1/2 <p, p> on a consistent buffer, and always when
   * machineEps = 0.
   */
  lemma {:induction false} SimplexSmoothLoss(s: seq<real>, k: nat, rhs: real, machineEps: real, th: Thresholds)
    requires 1 <= k <= |s| && rhs > 0.0 && machineEps >= 0.0
    requires TopkSimplexResult(s, k, rhs, KnapsackEps(machineEps, rhs), ConeEps(machineEps), th)
    ensures th.first <= th.last <= |s|
    ensures Consistent(s, th) ==> SmoothLoss(th, s) == Dot(s, ProxSeq(s, th)) - 0.5 * SumSq(ProxSeq(s, th))
    ensures machineEps == 0.0 ==> SmoothLoss(th, s) == Dot(s, ProxSeq(s, th)) - 0.5 * SumSq(ProxSeq(s, th))
  {
    if machineEps == 0.0 {
      SimplexExactLoss(s, k, rhs, th);
    } else {
      TopkSimplexResultRange(s, k, rhs, KnapsackEps(machineEps, rhs), ConeEps(machineEps), th);
      ConsistentSmoothLoss(th, s);
    }
  }

  /** SimplexAfterCopy at the tolerances the solver uses, exact when machineEps = 0. */
  lemma {:induction false} SimplexMachineProx(orig: seq<real>, s: seq<real>, k: nat, rhs: real,
                                              machineEps: real, th: Thresholds)
    requires multiset(s) == multiset(orig)
    requires 1 <= k <= |s| && machineEps >= 0.0
    requires TopkSimplexResult(s, k, rhs, KnapsackEps(machineEps, rhs), ConeEps(machineEps), th)
    ensures InTopkConeWithin(ProxSeq(orig, th), k,
                             KnapsackEps(machineEps, rhs) + Times(|orig|, ConeEps(machineEps)))
    ensures 0.0 <= rhs ==>
              Sum(ProxSeq(orig, th)) <= rhs + KnapsackEps(machineEps, rhs) + Times(|orig|, ConeEps(machineEps))
              || ConeSearchedOn(orig, k, ConeEps(machineEps), th)
    ensures machineEps == 0.0 ==> InTopkCone(ProxSeq(orig, th), k)
  {
    SimplexAfterCopy(orig, s, k, rhs, KnapsackEps(machineEps, rhs), ConeEps(machineEps), th);
    if machineEps == 0.0 {
      TimesZero(|orig|);
    }
  }

  /**
   * `prox_topk_simplex(first, last, k, rhs)`: thresholds on a copy, then the
   * clamp. The result lies in the top-k cone up to the tolerances, and (for
   * rhs >= 0) within the budget rhs up to the tolerances unless the cone
   * search produced the thresholds; with exact arithmetic (machineEps = 0)
   * it lies in the cone exactly.
   */
  method ProxTopkSimplex(a: array<real>, k: nat, rhs: real, machineEps: real)
      returns (th: Thresholds)
    requires 1 <= k <= a.Length && machineEps >= 0.0
    modifies a
    ensures th.lo == 0.0
    ensures a[..] == ProxSeq(old(a[..]), th)
    ensures InTopkConeWithin(a[..], k, KnapsackEps(machineEps, rhs) + Times(a.Length, ConeEps(machineEps)))
    ensures 0.0 <= rhs ==>
              Sum(a[..]) <= rhs + KnapsackEps(machineEps, rhs) + Times(a.Length, ConeEps(machineEps))
              || ConeSearchedOn(old(a[..]), k, ConeEps(machineEps), th)
    ensures machineEps == 0.0 ==> InTopkCone(a[..], k)
  {
    var aux := Copy(a);
    th := ThresholdsTopkSimplex(aux, k, rhs, machineEps);
    ghost var orig := a[..];
    ProxWhole(th, a);
    SimplexMachineProx(orig, aux[..], k, rhs, machineEps, th);
  }
}
