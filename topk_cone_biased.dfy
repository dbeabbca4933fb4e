/**
 * The biased top-k cone projection,
 *    min 1/2 (<x, x> + rho <1, x>^2) - <a, x>   s.t.  0 <= x_i <= <1, x> / k,
 * solved like the top-k cone: the same special cases with
 * div_const = k + rho k^2, otherwise a search whose closed form carries the
 * extra term rho k^2 next to |U|.
 */
module TopkConeBiased {
  import opened Numeric
  import opened Reorder
  import opened ProxDef
  import opened TopkCone

  /** D = (k - |U|)^2 + (|U| + rho k^2) |M|. */
  function BiasedConeD(k: nat, rho: real, nU: nat, nM: nat): real
  {
    (k as real - nU as real) * (k as real - nU as real)
      + (nU as real + rho * (k as real) * (k as real)) * (nM as real)
  }

  /** t = ((|U| + rho k^2) sum_M - (k - |U|) sum_U) / D. */
  function BiasedConeT(k: nat, rho: real, nU: nat, nM: nat, sumU: real, sumM: real): real
    requires BiasedConeD(k, rho, nU, nM) != 0.0
  {
    ((nU as real + rho * (k as real) * (k as real)) * sumM - (k as real - nU as real) * sumU)
      / BiasedConeD(k, rho, nU, nM)
  }

  /** hi = (|M| sum_U + (k - |U|) sum_M) / D. */
  function BiasedConeHi(k: nat, rho: real, nU: nat, nM: nat, sumU: real, sumM: real): real
    requires BiasedConeD(k, rho, nU, nM) != 0.0
  {
    ((nM as real) * sumU + (k as real - nU as real) * sumM) / BiasedConeD(k, rho, nU, nM)
  }

  /**
   * t and hi solve the biased optimality conditions: k hi is the sum of the
   * projection and (k - |U|) t = (|U| + rho k^2) hi - sum_U.
   */
  lemma {:induction false} BiasedConeSolves(k: nat, rho: real, nU: nat, nM: nat, sumU: real, sumM: real,
                         t: real, hi: real)
    requires BiasedConeD(k, rho, nU, nM) != 0.0
    requires t == BiasedConeT(k, rho, nU, nM, sumU, sumM)
    requires hi == BiasedConeHi(k, rho, nU, nM, sumU, sumM)
    ensures (k as real) * hi == (nU as real) * hi + (sumM - (nM as real) * t)
    ensures (k as real - nU as real) * t == (nU as real + rho * (k as real) * (k as real)) * hi - sumU
  {
    var d := BiasedConeD(k, rho, nU, nM);
    var r, u, m, c := k as real - nU as real, nU as real, nM as real, rho * (k as real) * (k as real);
    assert d == r * r + (u + c) * m;
    assert t * d == (u + c) * sumM - r * sumU;
    assert hi * d == m * sumU + r * sumM;
    assert (r * hi + m * t - sumM) * d == 0.0;
    assert (r * t - (u + c) * hi + sumU) * d == 0.0;
  }

  /** With rho = 0 the biased formulas are those of the top-k cone. */
  lemma {:induction false} BiasedConeAtZero(k: nat, nU: nat, nM: nat, sumU: real, sumM: real)
    ensures BiasedConeD(k, 0.0, nU, nM) == ConeD(k, nU, nM)
    ensures ConeD(k, nU, nM) != 0.0
        ==> BiasedConeT(k, 0.0, nU, nM, sumU, sumM) == ConeT(k, nU, nM, sumU, sumM)
            && BiasedConeHi(k, 0.0, nU, nM, sumU, sumM) == ConeHi(k, nU, nM, sumU, sumM)
  {
  }

  /** The candidate with U = s[..f] and M = s[f..l] passes the same tests as in the cone. */
  predicate BiasedConeAccept(s: seq<real>, k: nat, rho: real, eps: real, f: nat, l: nat)
    requires f <= k && f <= l <= |s|
  {
    BiasedConeD(k, rho, f, l - f) != 0.0
    && ConeTest(BiasedConeT(k, rho, f, l - f, Sum(s[..f]), Sum(s[f..l])),
                BiasedConeHi(k, rho, f, l - f, Sum(s[..f]), Sum(s[f..l])),
                eps, MinU(s, f), MaxM(s, f, l), MinM(s, f, l), MaxL(s, l))
  }

  /** Every candidate visited before (f, l) fails. */
  ghost predicate BiasedConeRejectedBefore(s: seq<real>, k: nat, rho: real, eps: real, f: nat, l: nat)
  {
    forall f': nat, l': nat :: f' <= k && l' <= |s|
      && ((f' < f && f' <= l') || (f' == f && f' <= l' < l))
      ==> !BiasedConeAccept(s, k, rho, eps, f', l')
  }

  lemma {:induction false} BiasedConeRejectedNothing(s: seq<real>, k: nat, rho: real, eps: real)
    ensures BiasedConeRejectedBefore(s, k, rho, eps, 0, 0)
  {
  }

  /** th is the first candidate of the search order that passes. */
  ghost predicate BiasedConeFirstAccepted(s: seq<real>, k: nat, rho: real, eps: real, th: Thresholds)
  {
    th.first <= k && th.first <= th.last <= |s|
    && BiasedConeAccept(s, k, rho, eps, th.first, th.last)
    && th == Thresholds(BiasedConeT(k, rho, th.first, th.last - th.first, Sum(s[..th.first]),
                                    Sum(s[th.first..th.last])),
                        0.0,
                        BiasedConeHi(k, rho, th.first, th.last - th.first, Sum(s[..th.first]),
                                     Sum(s[th.first..th.last])),
                        th.first, th.last)
    && BiasedConeRejectedBefore(s, k, rho, eps, th.first, th.last)
  }

  /** The first passing candidate with |U| <= k, or the zero thresholds. */
  ghost predicate BiasedConeSearchResult(s: seq<real>, k: nat, rho: real, eps: real, th: Thresholds)
  {
    BiasedConeFirstAccepted(s, k, rho, eps, th)
    || (th == ZeroThresholds && BiasedConeRejectedBefore(s, k, rho, eps, k + 1, k + 1))
  }

  /** With rho = 0 the biased search has exactly the results of the cone search. */
  lemma {:induction false} BiasedConeSearchAtZero(s: seq<real>, k: nat, eps: real, th: Thresholds)
    ensures BiasedConeSearchResult(s, k, 0.0, eps, th) <==> ConeSearchResult(s, k, eps, th)
  {
    forall f: nat, l: nat | f <= k && f <= l <= |s|
      ensures BiasedConeAccept(s, k, 0.0, eps, f, l) == ConeAccept(s, k, eps, f, l)
    {
      BiasedConeAtZero(k, f, l - f, Sum(s[..f]), Sum(s[f..l]));
    }
    if th.first <= k && th.first <= th.last <= |s| {
      BiasedConeAtZero(k, th.first, th.last - th.first, Sum(s[..th.first]), Sum(s[th.first..th.last]));
    }
  }

  lemma {:induction false} BiasedConeRejectedNext(s: seq<real>, k: nat, rho: real, eps: real, f: nat, l: nat)
    requires f <= k && f <= l < |s|
    requires BiasedConeRejectedBefore(s, k, rho, eps, f, l)
    requires !BiasedConeAccept(s, k, rho, eps, f, l)
    ensures BiasedConeRejectedBefore(s, k, rho, eps, f, l + 1)
  {
  }

  lemma {:induction false} BiasedConeRejectedRow(s: seq<real>, k: nat, rho: real, eps: real, f: nat)
    requires f <= k && f <= |s|
    requires BiasedConeRejectedBefore(s, k, rho, eps, f, |s|)
    requires !BiasedConeAccept(s, k, rho, eps, f, |s|)
    ensures BiasedConeRejectedBefore(s, k, rho, eps, f + 1, f + 1)
  {
  }

  /** The running quantities of the inner loop give D, t and hi of the candidate. */
  lemma {:induction false} BiasedConeRunning(k: nat, rho: real, f: nat, nM: nat, kMinusNumU: real,
                          numUPlusRhoK2: real, sumU: real, sumM: real, numMSumU: real, d: real)
    requires kMinusNumU == k as real - f as real
    requires numUPlusRhoK2 == f as real + rho * (k as real) * (k as real)
    requires numMSumU == Times(nM, sumU)
    requires d == kMinusNumU * kMinusNumU + Times(nM, numUPlusRhoK2)
    ensures d == BiasedConeD(k, rho, f, nM)
    ensures d != 0.0 ==> (numUPlusRhoK2 * sumM - kMinusNumU * sumU) / d
                         == BiasedConeT(k, rho, f, nM, sumU, sumM)
    ensures d != 0.0 ==> (numMSumU + kMinusNumU * sumM) / d == BiasedConeHi(k, rho, f, nM, sumU, sumM)
  {
    TimesMul(nM, sumU);
    TimesMul(nM, numUPlusRhoK2);
    BiasedConeRunningProducts(k, rho, f, nM, kMinusNumU, numUPlusRhoK2, sumU, sumM, numMSumU, d);
  }

  lemma {:induction false} BiasedConeRunningProducts(k: nat, rho: real, f: nat, nM: nat, kMinusNumU: real,
                                  numUPlusRhoK2: real, sumU: real, sumM: real, numMSumU: real, d: real)
    requires kMinusNumU == k as real - f as real
    requires numUPlusRhoK2 == f as real + rho * (k as real) * (k as real)
    requires numMSumU == (nM as real) * sumU
    requires d == kMinusNumU * kMinusNumU + (nM as real) * numUPlusRhoK2
    ensures d == BiasedConeD(k, rho, f, nM)
    ensures d != 0.0 ==> (numUPlusRhoK2 * sumM - kMinusNumU * sumU) / d
                         == BiasedConeT(k, rho, f, nM, sumU, sumM)
    ensures d != 0.0 ==> (numMSumU + kMinusNumU * sumM) / d == BiasedConeHi(k, rho, f, nM, sumU, sumM)
  {
  }

  lemma {:induction false} BiasedConeAcceptTest(s: seq<real>, k: nat, rho: real, eps: real, f: nat, l: nat,
                             t: real, hi: real, minU: XReal, maxM: XReal, minM: XReal, maxL: XReal)
    requires f <= k && f <= l <= |s| && BiasedConeD(k, rho, f, l - f) != 0.0
    requires t == BiasedConeT(k, rho, f, l - f, Sum(s[..f]), Sum(s[f..l]))
    requires hi == BiasedConeHi(k, rho, f, l - f, Sum(s[..f]), Sum(s[f..l]))
    requires minU == MinU(s, f) && maxM == MaxM(s, f, l) && minM == MinM(s, f, l) && maxL == MaxL(s, l)
    ensures BiasedConeAccept(s, k, rho, eps, f, l) <==> ConeTest(t, hi, eps, minU, maxM, minM, maxL)
  {
  }

  /** The inner loop of the biased search: M grows from empty at U = s[..f]. */
  method BiasedConeSearchM(a: array<real>, k: nat, rho: real, eps: real, f: nat,
                           kMinusNumU: real, numUPlusRhoK2: real, minU: XReal, sumU: real)
      returns (found: bool, th: Thresholds)
    requires f <= k && f <= a.Length
    requires kMinusNumU == k as real - f as real
    requires numUPlusRhoK2 == f as real + rho * (k as real) * (k as real)
    requires minU == MinU(a[..], f) && sumU == Sum(a[..f])
    requires BiasedConeRejectedBefore(a[..], k, rho, eps, f, f)
    ensures found ==> BiasedConeFirstAccepted(a[..], k, rho, eps, th)
    ensures !found ==> BiasedConeRejectedBefore(a[..], k, rho, eps, f + 1, f + 1)
  {
    ghost var s := a[..];
    var minM, maxM := PosInf, NegInf;
    var sumM, numMSumU := 0.0, 0.0;
    var d := kMinusNumU * kMinusNumU;
    var kMinusNumUSumU := kMinusNumU * sumU;

    // Grow M starting with empty
    var mLast := f;
    while true
      invariant f <= mLast <= a.Length
      invariant sumM == Sum(s[f..mLast])
      invariant numMSumU == Times(mLast - f, sumU)
      invariant d == kMinusNumU * kMinusNumU + Times(mLast - f, numUPlusRhoK2)
      invariant minM == MinM(s, f, mLast) && maxM == MaxM(s, f, mLast)
      invariant BiasedConeRejectedBefore(s, k, rho, eps, f, mLast)
      decreases a.Length - mLast
    {
      BiasedConeRunning(k, rho, f, mLast - f, kMinusNumU, numUPlusRhoK2, sumU, sumM, numMSumU, d);
      var maxL := if mLast == a.Length then NegInf else Fin(a[mLast]);
      // d = 0 makes t and hi NaN, and the tests fail
      if d != 0.0 {
        var t := (numUPlusRhoK2 * sumM - kMinusNumUSumU) / d;
        var hi := (numMSumU + kMinusNumU * sumM) / d;
        BiasedConeAcceptTest(s, k, rho, eps, f, mLast, t, hi, minU, maxM, minM, maxL);
        if ConeTest(t, hi, eps, minU, maxM, minM, maxL) {
          return true, Thresholds(t, 0.0, hi, f, mLast);
        }
      }

      // Increment the set M
      if mLast == a.Length {
        BiasedConeRejectedRow(s, k, rho, eps, f);
        break;
      }
      BiasedConeRejectedNext(s, k, rho, eps, f, mLast);
      minM := Fin(a[mLast]);
      maxM := Fin(a[f]);
      SumStep(s, f, mLast);
      sumM := sumM + a[mLast];
      numMSumU := numMSumU + sumU;
      d := d + numUPlusRhoK2;
      mLast := mLast + 1;
    }
    return false, ZeroThresholds;
  }

  /** The outer loop of the biased search: U grows from empty up to the k largest. */
  method BiasedConeSearchU(a: array<real>, k: nat, rho: real, eps: real) returns (th: Thresholds)
    requires k <= a.Length
    ensures BiasedConeSearchResult(a[..], k, rho, eps, th)
  {
    ghost var s := a[..];
    var kMinusNumU := k as real;
    var numUPlusRhoK2 := rho * (k as real) * (k as real);
    var minU := PosInf;
    var sumU := 0.0;
    BiasedConeRejectedNothing(s, k, rho, eps);

    // Grow U starting with empty
    var mFirst := 0;
    while true
      invariant mFirst <= k
      invariant kMinusNumU == k as real - mFirst as real
      invariant numUPlusRhoK2 == mFirst as real + rho * (k as real) * (k as real)
      invariant minU == MinU(s, mFirst) && sumU == Sum(s[..mFirst])
      invariant BiasedConeRejectedBefore(s, k, rho, eps, mFirst, mFirst)
      decreases k - mFirst
    {
      var found;
      found, th := BiasedConeSearchM(a, k, rho, eps, mFirst, kMinusNumU, numUPlusRhoK2, minU, sumU);
      if found {
        return;
      }

      // Increment the set U
      if mFirst == k {
        break;
      }
      minU := Fin(a[mFirst]);
      SumStep(s, 0, mFirst);
      assert s[..mFirst + 1] == s[0..mFirst + 1] && s[..mFirst] == s[0..mFirst];
      sumU := sumU + a[mFirst];
      kMinusNumU := kMinusNumU - 1.0;
      numUPlusRhoK2 := numUPlusRhoK2 + 1.0;
      mFirst := mFirst + 1;
    }

    // Default to 0
    th := ZeroThresholds;
  }

  /**
   * `thresholds_topk_cone_biased_search(first, last, k, rho)`: sorts the
   * range in descending order, then searches it.
   */
  method ThresholdsTopkConeBiasedSearch(a: array<real>, k: nat, rho: real, machineEps: real)
      returns (th: Thresholds)
    requires k <= a.Length && machineEps >= 0.0
    modifies a
    ensures multiset(a[..]) == multiset(old(a[..]))
    ensures SortedDesc(a[..])
    ensures BiasedConeSearchResult(a[..], k, rho, ConeEps(machineEps), th)
  {
    // Sort data to search efficiently
    SortDescending(a, 0, a.Length);
    PermutedWithinWhole(old(a[..]), a[..], 0, a.Length);
    assert a[0..a.Length] == a[..];
    th := BiasedConeSearchU(a, k, rho, ConeEps(machineEps));
  }

  /** The block sum of a biased candidate is k hi. */
  lemma {:induction false} BiasedConeCandidateSum(v: real, k: nat, rho: real, nU: nat, nM: nat, nL: nat,
                               sumU: real, sumM: real, t: real, hi: real)
    requires BiasedConeD(k, rho, nU, nM) != 0.0
    requires t == BiasedConeT(k, rho, nU, nM, sumU, sumM)
    requires hi == BiasedConeHi(k, rho, nU, nM, sumU, sumM)
    requires v == Times(nU, hi) + (sumM - Times(nM, t)) + Times(nL, 0.0)
    ensures v == Times(k, hi)
  {
    BiasedConeSolves(k, rho, nU, nM, sumU, sumM, t, hi);
    CandidateSumArith(v, k, nU, nM, nL, sumM, t, hi);
  }

  /**
   * The first biased candidate the search accepts on the sorted buffer: its
   * shape sums to k hi, and its projection lies in the cone widened by
   * |s| eps (the cone itself when eps = 0).
   */
  lemma {:induction false} BiasedConeCandidateInCone(s: seq<real>, k: nat, rho: real, eps: real, th: Thresholds)
    requires eps >= 0.0 && SortedDesc(s)
    requires BiasedConeFirstAccepted(s, k, rho, eps, th)
    ensures ShapedSum(th, s) == Times(k, th.hi)
    ensures InTopkConeWithin(ProxSeq(s, th), k, Times(|s|, eps))
  {
    ConeTestNear(s, th.t, th.hi, eps, th.first, th.last);
    BiasedConeCandidateSum(ShapedSum(th, s), k, rho, th.first, th.last - th.first, |s| - th.last,
                           Sum(s[..th.first]), Sum(s[th.first..th.last]), th.t, th.hi);
    ConeNearInCone(s, k, eps, th);
  }

  /** The biased search's result, accepted candidate or zero fallback, projects into the widened cone. */
  lemma {:induction false} BiasedConeSearchProx(s: seq<real>, k: nat, rho: real, eps: real, th: Thresholds)
    requires eps >= 0.0 && SortedDesc(s) && BiasedConeSearchResult(s, k, rho, eps, th)
    ensures InTopkConeWithin(ProxSeq(s, th), k, Times(|s|, eps))
  {
    TimesNonNegative(|s|, eps);
    if BiasedConeFirstAccepted(s, k, rho, eps, th) {
      BiasedConeCandidateInCone(s, k, rho, eps, th);
    } else {
      ZeroCaseProx(s, k);
      InTopkConeWiden(ProxSeq(s, th), k, 0.0, Times(|s|, eps));
    }
  }

  /** th is what the biased cone search finds on some sorted reordering of s. */
  ghost predicate BiasedConeSearchedOn(s: seq<real>, k: nat, rho: real, eps: real, th: Thresholds)
  {
    exists u :: multiset(u) == multiset(s) && SortedDesc(u) && BiasedConeSearchResult(u, k, rho, eps, th)
  }

  /** The divisor of the biased special cases, k + rho k^2. */
  function BiasedDivConst(k: nat, rho: real): (r: real)
    requires k >= 1 && rho >= 0.0
    ensures r >= k as real
  {
    k as real + rho * (k as real) * (k as real)
  }

  /** The special cases on the partially sorted buffer, or the biased search on the sorted one. */
  ghost predicate BiasedConeDispatchResult(s: seq<real>, k: nat, rho: real, eps: real, th: Thresholds)
    requires 1 <= k <= |s| && rho >= 0.0
  {
    (KthLargestAt(s, k) && Sum(s[..k]) <= eps && th == ZeroThresholds)
    || (KthLargestAt(s, k) && Sum(s[..k]) > eps && ConstantFits(s, k, BiasedDivConst(k, rho), eps)
        && th == ConstantThresholds(s, k, BiasedDivConst(k, rho)))
    || (SortedDesc(s) && BiasedConeSearchResult(s, k, rho, eps, th))
  }

  /** With rho = 0 the biased dispatch has exactly the results of the cone's dispatch. */
  lemma {:induction false} BiasedConeDispatchAtZero(s: seq<real>, k: nat, eps: real, th: Thresholds)
    requires 1 <= k <= |s|
    ensures BiasedConeDispatchResult(s, k, 0.0, eps, th) <==> ConeDispatchResult(s, k, k as real, eps, th)
  {
    assert BiasedDivConst(k, 0.0) == k as real;
    BiasedConeSearchAtZero(s, k, eps, th);
  }

  /**
   * Whatever the biased dispatch returns, the projection of the reordered
   * buffer lies in the cone widened by |s| eps.
   */
  lemma {:induction false} BiasedConeDispatchProx(s: seq<real>, k: nat, rho: real, eps: real, th: Thresholds)
    requires 1 <= k <= |s| && rho >= 0.0 && eps >= 0.0
    requires BiasedConeDispatchResult(s, k, rho, eps, th)
    ensures InTopkConeWithin(ProxSeq(s, th), k, Times(|s|, eps))
  {
    TimesNonNegative(|s|, eps);
    if SortedDesc(s) && BiasedConeSearchResult(s, k, rho, eps, th) {
      BiasedConeSearchProx(s, k, rho, eps, th);
    } else if th == ZeroThresholds {
      ZeroCaseProx(s, k);
      InTopkConeWiden(ProxSeq(s, th), k, 0.0, Times(|s|, eps));
    } else {
      ConstantCaseProx(s, k, BiasedDivConst(k, rho), eps);
      InTopkConeWiden(ProxSeq(s, th), k, 0.0, Times(|s|, eps));
    }
  }

  /** The widened-cone property carried from the reordered copy back to the caller's order. */
  lemma {:induction false} BiasedConeInConeAfterCopy(orig: seq<real>, s: seq<real>, k: nat, rho: real,
                                                     eps: real, th: Thresholds)
    requires multiset(s) == multiset(orig)
    requires 1 <= k <= |s| && rho >= 0.0 && eps >= 0.0
    requires BiasedConeDispatchResult(s, k, rho, eps, th)
    ensures InTopkConeWithin(ProxSeq(orig, th), k, Times(|orig|, eps))
  {
    BiasedConeDispatchProx(s, k, rho, eps, th);
    ProxSeqPermutation(s, orig, th);
    assert |s| == |orig| by {
      assert |multiset(s)| == |multiset(orig)|;
    }
    InTopkConePermutation(ProxSeq(s, th), ProxSeq(orig, th), k, Times(|s|, eps));
  }

  /**
   * `thresholds_topk_cone_biased(first, last, k, rho)`: the special cases
   * with div_const = k + rho k^2, else the biased search.
   */
  method ThresholdsTopkConeBiased(a: array<real>, k: nat, rho: real, machineEps: real)
      returns (th: Thresholds)
    requires 1 <= k <= a.Length && rho >= 0.0 && machineEps >= 0.0
    modifies a
    ensures multiset(a[..]) == multiset(old(a[..]))
    ensures BiasedConeDispatchResult(a[..], k, rho, ConeEps(machineEps), th)
  {
    var proj;
    proj, th := TopkConeSpecialCases(a, k, BiasedDivConst(k, rho), machineEps);
    if proj == General {
      th := ThresholdsTopkConeBiasedSearch(a, k, rho, machineEps);
    }
  }

  /**
   * `prox_topk_cone_biased(first, last, k, rho)`: the thresholds are computed
   * on a copy and the buffer is clamped to [0, hi] after the shift by t; the
   * result lies in the top-k cone up to the search tolerance.
   */
  method ProxTopkConeBiased(a: array<real>, k: nat, rho: real, machineEps: real)
      returns (th: Thresholds)
    requires 1 <= k <= a.Length && rho >= 0.0 && machineEps >= 0.0
    modifies a
    ensures th.lo == 0.0
    ensures a[..] == ProxSeq(old(a[..]), th)
    ensures InTopkConeWithin(a[..], k, Times(a.Length, ConeEps(machineEps)))
    ensures machineEps == 0.0 ==> InTopkCone(a[..], k)
  {
    var aux := Copy(a);
    th := ThresholdsTopkConeBiased(aux, k, rho, machineEps);
    ghost var orig := a[..];
    ProxWhole(th, a);
    BiasedConeInConeAfterCopy(orig, aux[..], k, rho, ConeEps(machineEps), th);
    if machineEps == 0.0 {
      TimesZero(a.Length);
    }
  }
}
