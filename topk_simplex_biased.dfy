/**
 * The projection onto the biased top-k simplex,
 *    min 1/2 (<x, x> + rho <1, x>^2) - <a, x>
 *    s.t.  <1, x> <= rhs,  0 <= x_i <= <1, x> / k,
 * dispatched as the plain top-k simplex, with div_const = k + rho k^2 in
 * the special cases, the biased top-k test and the biased cone search.
 */
module TopkSimplexBiased {
  import opened Numeric
  import opened Reorder
  import opened ProxDef
  import opened KnapsackEq
  import opened TopkCone
  import opened TopkConeBiased
  import opened TopkSimplex

  /**
   * `is_topk_simplex_biased_lt(u_first, u_last, t, k, rhs, rho, eps)`: with
   * U empty, t < rho rhs - eps; otherwise
   * k (sum_U + (k - |U|) t) < rhs (|U| + rho k^2) - eps.
   */
  predicate IsTopkSimplexBiasedLt(u: seq<real>, t: real, k: real, rhs: real, rho: real, eps: real)
  {
    if |u| == 0 then t < rho * rhs - eps
    else k * (Sum(u) + (k - |u| as real) * t) < rhs * (|u| as real + rho * k * k) - eps
  }

  /** With rho = 0 the biased test is the plain top-k simplex test. */
  lemma {:induction false} IsTopkSimplexBiasedLtAtZero(u: seq<real>, t: real, k: real, rhs: real, eps: real)
    ensures IsTopkSimplexBiasedLt(u, t, k, rhs, 0.0, eps) <==> IsTopkSimplexLt(u, t, k, rhs, eps)
  {
    assert 0.0 * rhs == 0.0 && 0.0 * k * k == 0.0;
  }

  /** The biased test also reads U as a set. */
  lemma {:induction false} IsTopkSimplexBiasedLtPermutation(u: seq<real>, v: seq<real>, t: real, k: real, rhs: real,
                                         rho: real, eps: real)
    requires multiset(u) == multiset(v)
    ensures IsTopkSimplexBiasedLt(u, t, k, rhs, rho, eps) <==> IsTopkSimplexBiasedLt(v, t, k, rhs, rho, eps)
  {
    assert |u| == |multiset(u)| == |multiset(v)| == |v|;
    SumPermutation(u, v);
  }

  /**
   * The general case: the knapsack with lo = 0 and hi = rhs / k when the
   * biased test fails on its upper block, or else the biased cone search on
   * the sorted buffer.
   */
  ghost predicate BiasedSimplexGeneralResult(s: seq<real>, k: nat, rhs: real, rho: real, eps: real,
                                             coneEps: real, th: Thresholds)
    requires 1 <= k <= |s|
  {
    (KnapsackResult(s, th, 0.0, rhs / (k as real), rhs, eps)
     && !IsTopkSimplexBiasedLt(s[..th.first], th.t, k as real, rhs, rho, eps))
    || (SortedDesc(s) && BiasedConeSearchResult(s, k, rho, coneEps, th))
  }

  /**
   * What `thresholds_topk_simplex_biased` returns: the zero projection, the
   * constant projection (div_const = k + rho k^2) while k hi stays within
   * rhs + eps, the knapsack, or the general case.
   */
  ghost predicate TopkSimplexBiasedResult(s: seq<real>, k: nat, rhs: real, rho: real, eps: real,
                                          coneEps: real, th: Thresholds)
    requires 1 <= k <= |s| && rho >= 0.0
  {
    (KthLargestAt(s, k) && Sum(s[..k]) <= coneEps && th == ZeroThresholds)
    || (KthLargestAt(s, k) && Sum(s[..k]) > coneEps
        && ConstantFits(s, k, BiasedDivConst(k, rho), coneEps)
        && th == ConstantThresholds(s, k, BiasedDivConst(k, rho)) && (k as real) * th.hi <= rhs + eps)
    || KnapsackResult(s, th, 0.0, rhs / (k as real), rhs, eps)
    || BiasedSimplexGeneralResult(s, k, rhs, rho, eps, coneEps, th)
  }

  /** The general case of `thresholds_topk_simplex_biased`. */
  method TopkSimplexBiasedGeneral(a: array<real>, k: nat, rhs: real, rho: real, machineEps: real)
      returns (th: Thresholds)
    requires 1 <= k <= a.Length && machineEps >= 0.0
    modifies a
    ensures multiset(a[..]) == multiset(old(a[..]))
    ensures BiasedSimplexGeneralResult(a[..], k, rhs, rho, KnapsackEps(machineEps, rhs),
                                       ConeEps(machineEps), th)
  {
    var kk := k as real;
    var eps := KnapsackEps(machineEps, rhs);
    th := ThresholdsKnapsackEq(a, 0.0, rhs / kk, rhs, machineEps);
    if IsTopkSimplexBiasedLt(a[..th.first], th.t, kk, rhs, rho, eps) {
      th := ThresholdsTopkConeBiasedSearch(a, k, rho, machineEps);
    }
  }

  /**
   * `thresholds_topk_simplex_biased(first, last, k, rhs, rho)`, which
   * asserts rho >= 0.
   */
  method ThresholdsTopkSimplexBiased(a: array<real>, k: nat, rhs: real, rho: real, machineEps: real)
      returns (th: Thresholds)
    requires 1 <= k <= a.Length && rho >= 0.0 && machineEps >= 0.0
    modifies a
    ensures multiset(a[..]) == multiset(old(a[..]))
    ensures TopkSimplexBiasedResult(a[..], k, rhs, rho, KnapsackEps(machineEps, rhs),
                                    ConeEps(machineEps), th)
  {
    var kk := k as real;
    var eps := KnapsackEps(machineEps, rhs);
    var proj;
    proj, th := TopkConeSpecialCases(a, k, BiasedDivConst(k, rho), machineEps);
    if proj == Constant && kk * th.hi > rhs + eps {
      th := ThresholdsKnapsackEq(a, 0.0, rhs / kk, rhs, machineEps);
    } else if proj == General {
      th := TopkSimplexBiasedGeneral(a, k, rhs, rho, machineEps);
    }
  }

  /** With rho = 0 every branch of the biased dispatch is the plain top-k simplex one. */
  lemma {:induction false} TopkSimplexBiasedAtZero(s: seq<real>, k: nat, rhs: real, eps: real, coneEps: real,
                                th: Thresholds)
    requires 1 <= k <= |s|
    ensures TopkSimplexBiasedResult(s, k, rhs, 0.0, eps, coneEps, th)
            <==> TopkSimplexResult(s, k, rhs, eps, coneEps, th)
  {
    assert BiasedDivConst(k, 0.0) == k as real;
    BiasedConeSearchAtZero(s, k, coneEps, th);
    if th.first <= |s| {
      IsTopkSimplexBiasedLtAtZero(s[..th.first], th.t, k as real, rhs, eps);
    }
    assert BiasedSimplexGeneralResult(s, k, rhs, 0.0, eps, coneEps, th)
           <==> SimplexGeneralResult(s, k, rhs, eps, coneEps, th);
  }

  /**
   * Whatever `thresholds_topk_simplex_biased` returns, the projection of the
   * reordered buffer lies in the top-k cone widened by eps + |s| coneEps;
   * for rhs >= 0 its total stays within rhs plus the same slack, unless the
   * thresholds came from the biased cone search.
   */
  lemma {:induction false} BiasedSimplexProx(s: seq<real>, k: nat, rhs: real, rho: real, eps: real,
                                             coneEps: real, th: Thresholds)
    requires 1 <= k <= |s| && rho >= 0.0 && eps >= 0.0 && coneEps >= 0.0
    requires TopkSimplexBiasedResult(s, k, rhs, rho, eps, coneEps, th)
    ensures InTopkConeWithin(ProxSeq(s, th), k, eps + Times(|s|, coneEps))
    ensures 0.0 <= rhs ==> Sum(ProxSeq(s, th)) <= rhs + eps + Times(|s|, coneEps)
                           || (SortedDesc(s) && BiasedConeSearchResult(s, k, rho, coneEps, th))
  {
    if SortedDesc(s) && BiasedConeSearchResult(s, k, rho, coneEps, th) {
      BiasedConeSearchProx(s, k, rho, coneEps, th);
      InTopkConeWiden(ProxSeq(s, th), k, Times(|s|, coneEps), eps + Times(|s|, coneEps));
    } else {
      SimplexBudgetProx(s, k, BiasedDivConst(k, rho), rhs, eps, coneEps, th);
    }
  }

  /**
   * The biased simplex properties carried from the reordered copy back to
   * the caller's order, at the tolerances the solver uses; exact when
   * machineEps = 0.
   */
  lemma {:induction false} BiasedSimplexAfterCopy(orig: seq<real>, s: seq<real>, k: nat, rhs: real, rho: real,
                                                  machineEps: real, th: Thresholds)
    requires multiset(s) == multiset(orig)
    requires 1 <= k <= |s| && rho >= 0.0 && machineEps >= 0.0
    requires TopkSimplexBiasedResult(s, k, rhs, rho, KnapsackEps(machineEps, rhs), ConeEps(machineEps), th)
    ensures InTopkConeWithin(ProxSeq(orig, th), k,
                             KnapsackEps(machineEps, rhs) + Times(|orig|, ConeEps(machineEps)))
    ensures 0.0 <= rhs ==>
              Sum(ProxSeq(orig, th)) <= rhs + KnapsackEps(machineEps, rhs) + Times(|orig|, ConeEps(machineEps))
              || BiasedConeSearchedOn(orig, k, rho, ConeEps(machineEps), th)
    ensures machineEps == 0.0 ==> InTopkCone(ProxSeq(orig, th), k)
  {
    var eps := KnapsackEps(machineEps, rhs);
    var coneEps := ConeEps(machineEps);
    BiasedSimplexProx(s, k, rhs, rho, eps, coneEps, th);
    ProxSeqPermutation(s, orig, th);
    SumPermutation(ProxSeq(s, th), ProxSeq(orig, th));
    assert |s| == |orig| by {
      assert |multiset(s)| == |multiset(orig)|;
    }
    InTopkConePermutation(ProxSeq(s, th), ProxSeq(orig, th), k, eps + Times(|s|, coneEps));
    if machineEps == 0.0 {
      TimesZero(|orig|);
    }
  }

  /**
   * `prox_topk_simplex_biased(first, last, k, rhs, rho)`: thresholds on a
   * copy, then the clamp. The result lies in the top-k cone up to the
   * tolerances and, for rhs >= 0, within the budget rhs up to the
   * tolerances unless the biased cone search produced the thresholds.
   */
  method ProxTopkSimplexBiased(a: array<real>, k: nat, rhs: real, rho: real, machineEps: real)
      returns (th: Thresholds)
    requires 1 <= k <= a.Length && rho >= 0.0 && machineEps >= 0.0
    modifies a
    ensures th.lo == 0.0
    ensures a[..] == ProxSeq(old(a[..]), th)
    ensures InTopkConeWithin(a[..], k, KnapsackEps(machineEps, rhs) + Times(a.Length, ConeEps(machineEps)))
    ensures 0.0 <= rhs ==>
              Sum(a[..]) <= rhs + KnapsackEps(machineEps, rhs) + Times(a.Length, ConeEps(machineEps))
              || BiasedConeSearchedOn(old(a[..]), k, rho, ConeEps(machineEps), th)
    ensures machineEps == 0.0 ==> InTopkCone(a[..], k)
  {
    var aux := Copy(a);
    th := ThresholdsTopkSimplexBiased(aux, k, rhs, rho, machineEps);
    ghost var orig := a[..];
    ProxWhole(th, a);
    BiasedSimplexAfterCopy(orig, aux[..], k, rhs, rho, machineEps, th);
  }
}
