/**
 * The projection onto the top-k cone,
 *    min 1/2 <x, x> - <a, x>   s.t.  0 <= x_i <= <1, x> / k,
 * whose solution is x = max(0, min(a - t, hi)). Two special cases (the zero
 * vector and a constant on the k largest entries) are recognised after a
 * partial sort; otherwise a search over the sorted data picks the upper
 * block U and the middle block M whose closed-form t and hi pass the
 * ordering tests.
 */
module TopkCone {
  import opened Numeric
  import opened Reorder
  import opened ProxDef

  /** `projection`: which of the three cases a projection falls into. */
  datatype Projection = Zero | Constant | General

  /** The tolerance of the cone code: 16 machine epsilons. */
  function ConeEps(machineEps: real): (r: real)
    requires machineEps >= 0.0
    ensures r >= 0.0
  {
    16.0 * machineEps
  }

  /** A partial sort around index k - 1: nothing smaller before it, nothing larger after it. */
  ghost predicate KthLargestAt(s: seq<real>, k: nat)
    requires 1 <= k <= |s|
  {
    (forall i :: 0 <= i < k - 1 ==> s[i] >= s[k - 1])
    && (forall i :: k - 1 < i < |s| ==> s[i] <= s[k - 1])
  }

  /**
   * The constant candidate: hi is the sum of the k largest over divConst and
   * t puts the k-th largest exactly at hi.
   */
  function ConstantThresholds(s: seq<real>, k: nat, divConst: real): Thresholds
    requires 1 <= k <= |s| && divConst > 0.0
  {
    var hi := Sum(s[..k]) / divConst;
    Thresholds(s[k - 1] - hi, 0.0, hi, k, k)
  }

  /** The entries after the k largest fall below t + eps (or there are none). */
  ghost predicate ConstantFits(s: seq<real>, k: nat, divConst: real, eps: real)
    requires 1 <= k <= |s| && divConst > 0.0
  {
    k == |s| || forall i :: k <= i < |s| ==> s[i] - eps <= ConstantThresholds(s, k, divConst).t
  }

  /**
   * Every entry is non-negative and k times it exceeds the total by at most
   * slack: the feasible set, widened by a tolerance.
   */
  ghost predicate InTopkConeWithin(x: seq<real>, k: nat, slack: real)
  {
    forall i :: 0 <= i < |x| ==> 0.0 <= x[i] && (k as real) * x[i] <= Sum(x) + slack
  }

  /** Every entry is non-negative and at most the total over k: the feasible set. */
  ghost predicate InTopkCone(x: seq<real>, k: nat)
  {
    InTopkConeWithin(x, k, 0.0)
  }

  /** Widening the tolerance keeps a vector in the widened cone. */
  lemma {:induction false} InTopkConeWiden(x: seq<real>, k: nat, slack: real, wider: real)
    requires InTopkConeWithin(x, k, slack) && slack <= wider
    ensures InTopkConeWithin(x, k, wider)
  {
  }

  /**
   * `topk_cone_special_cases(first, last, k, div_const)`: the k largest are
   * moved to the front; a sum of at most eps gives the zero projection, a
   * constant candidate that fits gives the constant projection, and
   * anything else is left to a search.
   */
  method TopkConeSpecialCases(a: array<real>, k: nat, divConst: real, machineEps: real)
      returns (proj: Projection, th: Thresholds)
    requires 1 <= k <= a.Length && divConst > 0.0 && machineEps >= 0.0
    modifies a
    ensures multiset(a[..]) == multiset(old(a[..]))
    ensures KthLargestAt(a[..], k)
    ensures proj == Zero <==> Sum(a[..k]) <= ConeEps(machineEps)
    ensures proj == Zero ==> th == ZeroThresholds
    ensures proj == Constant
        <==> Sum(a[..k]) > ConeEps(machineEps) && ConstantFits(a[..], k, divConst, ConeEps(machineEps))
    ensures proj == Constant ==> th == ConstantThresholds(a[..], k, divConst)
  {
    // Partially sort data around the kth element
    NthElementDesc(a, k);
    PermutedWithinWhole(old(a[..]), a[..], 0, a.Length);
    assert a[0..a.Length] == a[..];

    // Case 1: U empty, M empty, proj = 0
    var eps := ConeEps(machineEps);
    var sumKLargest := Sum(a[..k]);
    if sumKLargest <= eps {
      return Zero, ZeroThresholds;
    }

    // Case 2: U not empty, M empty, proj = const * sum_k_largest for k largest
    var hi := sumKLargest / divConst;
    var t := a[k - 1] - hi;
    if k == a.Length || t >= MaxOf(a[k..]) - eps {
      assert forall i :: k <= i < a.Length ==> a[i] == a[k..][i - k];
      return Constant, Thresholds(t, 0.0, hi, k, k);
    }
    assert !ConstantFits(a[..], k, divConst, eps) by {
      var j :| 0 <= j < |a[k..]| && a[k..][j] == MaxOf(a[k..]);
      assert a[k + j] == a[k..][j];
    }

    // The source leaves the thresholds default-constructed; no caller reads them
    return General, ZeroThresholds;
  }

  /** The zero projection is the zero vector, which lies in the cone. */
  lemma {:induction false} ZeroCaseProx(s: seq<real>, k: nat)
    ensures forall i :: 0 <= i < |s| ==> ProxSeq(s, ZeroThresholds)[i] == 0.0
    ensures InTopkCone(ProxSeq(s, ZeroThresholds), k)
  {
    var p := ProxSeq(s, ZeroThresholds);
    SumConst(p, 0.0);
    TimesZero(|p|);
  }

  /** hi = x / k for a positive count k: k hi gives back x. */
  lemma {:induction false} MeanTimes(x: real, k: nat, divConst: real, hi: real)
    requires k > 0 && divConst == k as real && hi == x / divConst
    ensures Times(k, hi) == x
  {
    DivMul(x, k);
    TimesMul(k, hi);
  }

  /** hi on the first k entries and [0, hi] on the rest: the total is at least k hi. */
  lemma {:induction false} TopBlockSum(p: seq<real>, k: nat, hi: real)
    requires k <= |p|
    requires forall i :: 0 <= i < k ==> p[i] == hi
    requires forall i :: k <= i < |p| ==> 0.0 <= p[i] <= hi
    ensures Sum(p[..k]) == Times(k, hi)
    ensures Times(k, hi) <= Sum(p)
  {
    var upper, rest := p[..k], p[k..];
    SumConst(upper, hi);
    assert forall i :: 0 <= i < |rest| ==> 0.0 <= rest[i];
    SumNonNegative(rest);
    assert p == upper + rest;
    SumConcat(upper, rest);
  }

  /** A positive amount over a positive divisor is positive. */
  lemma PositiveQuotient(x: real, d: real)
    requires x > 0.0 && d > 0.0
    ensures x / d > 0.0
  {
    assert x / d * d == x;
  }

  /**
   * The constant projection puts hi > 0 on the k largest and a value in
   * [0, eps] (and below hi) on the rest.
   */
  lemma {:induction false} ConstantCaseEntries(s: seq<real>, k: nat, divConst: real, eps: real)
    requires 1 <= k <= |s| && divConst > 0.0 && eps >= 0.0
    requires KthLargestAt(s, k)
    requires Sum(s[..k]) > eps && ConstantFits(s, k, divConst, eps)
    ensures ConstantThresholds(s, k, divConst).hi > 0.0
    ensures forall i :: 0 <= i < k
              ==> ProxSeq(s, ConstantThresholds(s, k, divConst))[i] == ConstantThresholds(s, k, divConst).hi
    ensures forall i :: k <= i < |s|
              ==> 0.0 <= ProxSeq(s, ConstantThresholds(s, k, divConst))[i] <= eps
                  && ProxSeq(s, ConstantThresholds(s, k, divConst))[i] <= ConstantThresholds(s, k, divConst).hi
  {
    var th := ConstantThresholds(s, k, divConst);
    assert th.hi > 0.0 by {
      PositiveQuotient(Sum(s[..k]), divConst);
    }
    forall i | 0 <= i < k
      ensures ProxSeq(s, th)[i] == th.hi
    {
      assert s[i] >= s[k - 1];
    }
  }

  /**
   * The constant projection lies in the cone, and when divConst is k the k
   * largest keep their total.
   */
  lemma {:induction false} ConstantCaseProx(s: seq<real>, k: nat, divConst: real, eps: real)
    requires 1 <= k <= |s| && divConst > 0.0 && eps >= 0.0
    requires KthLargestAt(s, k)
    requires Sum(s[..k]) > eps && ConstantFits(s, k, divConst, eps)
    ensures InTopkCone(ProxSeq(s, ConstantThresholds(s, k, divConst)), k)
    ensures divConst == k as real ==>
              Sum(ProxSeq(s, ConstantThresholds(s, k, divConst))[..k]) == Sum(s[..k])
  {
    var th := ConstantThresholds(s, k, divConst);
    var p := ProxSeq(s, th);
    ConstantCaseEntries(s, k, divConst, eps);
    TopBlockSum(p, k, th.hi);
    CappedInConeWithin(p, k, th.hi, 0.0);
    if divConst == k as real {
      MeanTimes(Sum(s[..k]), k, divConst, th.hi);
    }
  }

  /** D = (k - |U|)^2 + |M| |U|, the denominator of the search's t and hi. */
  function ConeD(k: nat, nU: nat, nM: nat): real
  {
    (k as real - nU as real) * (k as real - nU as real) + (nM as real) * (nU as real)
  }

  /** t = (|U| sum_M - (k - |U|) sum_U) / D. */
  function ConeT(k: nat, nU: nat, nM: nat, sumU: real, sumM: real): real
    requires ConeD(k, nU, nM) != 0.0
  {
    ((nU as real) * sumM - (k as real - nU as real) * sumU) / ConeD(k, nU, nM)
  }

  /** hi = (|M| sum_U + (k - |U|) sum_M) / D. */
  function ConeHi(k: nat, nU: nat, nM: nat, sumU: real, sumM: real): real
    requires ConeD(k, nU, nM) != 0.0
  {
    ((nM as real) * sumU + (k as real - nU as real) * sumM) / ConeD(k, nU, nM)
  }

  /**
   * t and hi solve the two equations of the cone's optimality conditions:
   * k hi is the sum of the projection (hi on U, x - t on M, 0 on L) and
   * (k - |U|) t = |U| hi - sum_U.
   */
  lemma {:induction false} ConeCandidateSolves(k: nat, nU: nat, nM: nat, sumU: real, sumM: real, t: real, hi: real)
    requires ConeD(k, nU, nM) != 0.0
    requires t == ConeT(k, nU, nM, sumU, sumM) && hi == ConeHi(k, nU, nM, sumU, sumM)
    ensures (k as real) * hi == (nU as real) * hi + (sumM - (nM as real) * t)
    ensures (k as real - nU as real) * t == (nU as real) * hi - sumU
  {
    var d := ConeD(k, nU, nM);
    var r, u, m := k as real - nU as real, nU as real, nM as real;
    assert t * d == u * sumM - r * sumU;
    assert hi * d == m * sumU + r * sumM;
    assert (r * hi + m * t - sumM) * d == 0.0;
    assert (r * t - u * hi + sumU) * d == 0.0;
  }

  /**
   * The four ordering tests of a candidate, with +/-infinity standing for
   * the bound of an empty block: max_M - eps <= hi + t <= min_U + eps,
   * t <= min_M + eps and max_L - eps <= t.
   */
  predicate ConeTest(t: real, hi: real, eps: real, minU: XReal, maxM: XReal, minM: XReal, maxL: XReal)
  {
    XAdd(maxM, -eps).Leq(Fin(hi + t)) && Fin(hi + t).Leq(XAdd(minU, eps))
    && Fin(t).Leq(XAdd(minM, eps)) && XAdd(maxL, -eps).Leq(Fin(t))
  }

  /**
   * The candidate with U = s[..f] and M = s[f..l] passes. D = 0 (U holds all
   * k entries and M is empty) makes t and hi 0/0 = NaN, which fails every
   * comparison, so that candidate never passes.
   */
  predicate ConeAccept(s: seq<real>, k: nat, eps: real, f: nat, l: nat)
    requires f <= k && f <= l <= |s|
  {
    ConeD(k, f, l - f) != 0.0
    && ConeTest(ConeT(k, f, l - f, Sum(s[..f]), Sum(s[f..l])),
                ConeHi(k, f, l - f, Sum(s[..f]), Sum(s[f..l])),
                eps, MinU(s, f), MaxM(s, f, l), MinM(s, f, l), MaxL(s, l))
  }

  /** Every candidate visited before (f, l) fails: smaller U, or same U and smaller M. */
  ghost predicate ConeRejectedBefore(s: seq<real>, k: nat, eps: real, f: nat, l: nat)
  {
    forall f': nat, l': nat :: f' <= k && l' <= |s|
      && ((f' < f && f' <= l') || (f' == f && f' <= l' < l))
      ==> !ConeAccept(s, k, eps, f', l')
  }

  lemma {:induction false} ConeRejectedNothing(s: seq<real>, k: nat, eps: real)
    ensures ConeRejectedBefore(s, k, eps, 0, 0)
  {
  }

  /** th is the first candidate of the search order that passes. */
  ghost predicate ConeFirstAccepted(s: seq<real>, k: nat, eps: real, th: Thresholds)
  {
    th.first <= k && th.first <= th.last <= |s|
    && ConeAccept(s, k, eps, th.first, th.last)
    && th == Thresholds(ConeT(k, th.first, th.last - th.first, Sum(s[..th.first]),
                              Sum(s[th.first..th.last])),
                        0.0,
                        ConeHi(k, th.first, th.last - th.first, Sum(s[..th.first]),
                               Sum(s[th.first..th.last])),
                        th.first, th.last)
    && ConeRejectedBefore(s, k, eps, th.first, th.last)
  }

  /**
   * What the search returns on the sorted s: the first candidate with
   * |U| <= k that passes, or, when none does, the zero thresholds.
   */
  ghost predicate ConeSearchResult(s: seq<real>, k: nat, eps: real, th: Thresholds)
  {
    ConeFirstAccepted(s, k, eps, th)
    || (th == ZeroThresholds && ConeRejectedBefore(s, k, eps, k + 1, k + 1))
  }

  /** One more rejected candidate extends the rejected prefix of the row f. */
  lemma {:induction false} ConeRejectedNext(s: seq<real>, k: nat, eps: real, f: nat, l: nat)
    requires f <= k && f <= l < |s|
    requires ConeRejectedBefore(s, k, eps, f, l)
    requires !ConeAccept(s, k, eps, f, l)
    ensures ConeRejectedBefore(s, k, eps, f, l + 1)
  {
  }

  /** Rejecting the whole row f moves on to the row f + 1. */
  lemma {:induction false} ConeRejectedRow(s: seq<real>, k: nat, eps: real, f: nat)
    requires f <= k && f <= |s|
    requires ConeRejectedBefore(s, k, eps, f, |s|)
    requires !ConeAccept(s, k, eps, f, |s|)
    ensures ConeRejectedBefore(s, k, eps, f + 1, f + 1)
  {
  }

  /**
   * The running quantities of the inner loop give D, t and hi of the
   * candidate (U, M) = (s[..f], s[f..l]).
   */
  lemma {:induction false} ConeRunning(k: nat, f: nat, nM: nat, kMinusNumU: real, numU: real, sumU: real,
                    sumM: real, numMSumU: real, d: real)
    requires kMinusNumU == k as real - f as real && numU == f as real
    requires numMSumU == Times(nM, sumU)
    requires d == kMinusNumU * kMinusNumU + Times(nM, numU)
    ensures d == ConeD(k, f, nM)
    ensures d != 0.0 ==> (numU * sumM - kMinusNumU * sumU) / d == ConeT(k, f, nM, sumU, sumM)
    ensures d != 0.0 ==> (numMSumU + kMinusNumU * sumM) / d == ConeHi(k, f, nM, sumU, sumM)
  {
    TimesMul(nM, sumU);
    TimesMul(nM, numU);
    ConeRunningProducts(k, f, nM, kMinusNumU, numU, sumU, sumM, numMSumU, d);
  }

  lemma {:induction false} ConeRunningProducts(k: nat, f: nat, nM: nat, kMinusNumU: real, numU: real, sumU: real,
                            sumM: real, numMSumU: real, d: real)
    requires kMinusNumU == k as real - f as real && numU == f as real
    requires numMSumU == (nM as real) * sumU
    requires d == kMinusNumU * kMinusNumU + (nM as real) * numU
    ensures d == ConeD(k, f, nM)
    ensures d != 0.0 ==> (numU * sumM - kMinusNumU * sumU) / d == ConeT(k, f, nM, sumU, sumM)
    ensures d != 0.0 ==> (numMSumU + kMinusNumU * sumM) / d == ConeHi(k, f, nM, sumU, sumM)
  {
  }

  /** The candidate passes exactly when its tests, on the tracked bounds, pass. */
  lemma {:induction false} ConeAcceptTest(s: seq<real>, k: nat, eps: real, f: nat, l: nat, t: real, hi: real,
                       minU: XReal, maxM: XReal, minM: XReal, maxL: XReal)
    requires f <= k && f <= l <= |s| && ConeD(k, f, l - f) != 0.0
    requires t == ConeT(k, f, l - f, Sum(s[..f]), Sum(s[f..l]))
    requires hi == ConeHi(k, f, l - f, Sum(s[..f]), Sum(s[f..l]))
    requires minU == MinU(s, f) && maxM == MaxM(s, f, l) && minM == MinM(s, f, l) && maxL == MaxL(s, l)
    ensures ConeAccept(s, k, eps, f, l) <==> ConeTest(t, hi, eps, minU, maxM, minM, maxL)
  {
  }

  /**
   * The inner loop of the search: M grows from empty at U = s[..f]; D,
   * |M| sum_U and (k - |U|) sum_U are kept up to date as in the source.
   */
  method ConeSearchM(a: array<real>, k: nat, eps: real, f: nat,
                     kMinusNumU: real, numU: real, minU: XReal, sumU: real)
      returns (found: bool, th: Thresholds)
    requires f <= k && f <= a.Length
    requires kMinusNumU == k as real - f as real && numU == f as real
    requires minU == MinU(a[..], f) && sumU == Sum(a[..f])
    requires ConeRejectedBefore(a[..], k, eps, f, f)
    ensures found ==> ConeFirstAccepted(a[..], k, eps, th)
    ensures !found ==> ConeRejectedBefore(a[..], k, eps, f + 1, f + 1)
  {
    ghost var s := a[..];
    var minM, maxM := PosInf, NegInf;
    var sumM, numMSumU := 0.0, 0.0;
    var d := kMinusNumU * kMinusNumU;
    var kMinusNumUSumU := kMinusNumU * sumU;

    // Grow M starting with empty
    var mLast := f;
    while true
      invariant f <= mLast <= a.Length
      invariant sumM == Sum(s[f..mLast])
      invariant numMSumU == Times(mLast - f, sumU)
      invariant d == kMinusNumU * kMinusNumU + Times(mLast - f, numU)
      invariant minM == MinM(s, f, mLast) && maxM == MaxM(s, f, mLast)
      invariant ConeRejectedBefore(s, k, eps, f, mLast)
      decreases a.Length - mLast
    {
      ConeRunning(k, f, mLast - f, kMinusNumU, numU, sumU, sumM, numMSumU, d);
      var maxL := if mLast == a.Length then NegInf else Fin(a[mLast]);
      // d = 0 makes t and hi NaN, and the tests fail
      if d != 0.0 {
        var t := (numU * sumM - kMinusNumUSumU) / d;
        var hi := (numMSumU + kMinusNumU * sumM) / d;
        ConeAcceptTest(s, k, eps, f, mLast, t, hi, minU, maxM, minM, maxL);
        if ConeTest(t, hi, eps, minU, maxM, minM, maxL) {
          return true, Thresholds(t, 0.0, hi, f, mLast);
        }
      }

      // Increment the set M
      if mLast == a.Length {
        ConeRejectedRow(s, k, eps, f);
        break;
      }
      ConeRejectedNext(s, k, eps, f, mLast);
      minM := Fin(a[mLast]);
      maxM := Fin(a[f]);
      SumStep(s, f, mLast);
      sumM := sumM + a[mLast];
      numMSumU := numMSumU + sumU;
      d := d + numU;
      mLast := mLast + 1;
    }
    return false, ZeroThresholds;
  }

  /**
   * The outer loop of the search: U grows from empty up to the k largest;
   * falls back to the zero thresholds when no candidate passes.
   */
  method ConeSearchU(a: array<real>, k: nat, eps: real) returns (th: Thresholds)
    requires k <= a.Length
    ensures ConeSearchResult(a[..], k, eps, th)
  {
    ghost var s := a[..];
    var kMinusNumU := k as real;
    var minU := PosInf;
    var numU, sumU := 0.0, 0.0;
    ConeRejectedNothing(s, k, eps);

    // Grow U starting with empty
    var mFirst := 0;
    while true
      invariant mFirst <= k
      invariant kMinusNumU == k as real - mFirst as real && numU == mFirst as real
      invariant minU == MinU(s, mFirst) && sumU == Sum(s[..mFirst])
      invariant ConeRejectedBefore(s, k, eps, mFirst, mFirst)
      decreases k - mFirst
    {
      var found;
      found, th := ConeSearchM(a, k, eps, mFirst, kMinusNumU, numU, minU, sumU);
      if found {
        return;
      }

      // Increment the set U
      if mFirst == k {
        break;
      }
      minU := Fin(a[mFirst]);
      SumStep(s, 0, mFirst);
      assert s[..mFirst + 1] == s[0..mFirst + 1] && s[..mFirst] == s[0..mFirst];
      sumU := sumU + a[mFirst];
      kMinusNumU := kMinusNumU - 1.0;
      numU := numU + 1.0;
      mFirst := mFirst + 1;
    }

    // Default to 0
    th := ZeroThresholds;
  }

  /**
   * `thresholds_topk_cone_search(first, last, k)`: sorts the range in
   * descending order, then searches it.
   */
  method ThresholdsTopkConeSearch(a: array<real>, k: nat, machineEps: real) returns (th: Thresholds)
    requires k <= a.Length && machineEps >= 0.0
    modifies a
    ensures multiset(a[..]) == multiset(old(a[..]))
    ensures SortedDesc(a[..])
    ensures ConeSearchResult(a[..], k, ConeEps(machineEps), th)
  {
    // Sort data to search efficiently
    SortDescending(a, 0, a.Length);
    PermutedWithinWhole(old(a[..]), a[..], 0, a.Length);
    assert a[0..a.Length] == a[..];
    th := ConeSearchU(a, k, ConeEps(machineEps));
  }

  /** A block sum is k hi once k hi = |U| hi + sum_M - |M| t. */
  lemma {:induction false} CandidateSumArith(v: real, k: nat, nU: nat, nM: nat, nL: nat, sumM: real, t: real, hi: real)
    requires (k as real) * hi == (nU as real) * hi + (sumM - (nM as real) * t)
    requires v == Times(nU, hi) + (sumM - Times(nM, t)) + Times(nL, 0.0)
    ensures v == Times(k, hi)
  {
    TimesMul(nU, hi);
    TimesMul(nM, t);
    TimesZero(nL);
    TimesMul(k, hi);
  }

  /** The block sum of a candidate (hi on U, x - t on M, 0 on L) is k hi. */
  lemma {:induction false} ConeCandidateSum(v: real, k: nat, nU: nat, nM: nat, nL: nat, sumU: real, sumM: real,
                         t: real, hi: real)
    requires ConeD(k, nU, nM) != 0.0
    requires t == ConeT(k, nU, nM, sumU, sumM) && hi == ConeHi(k, nU, nM, sumU, sumM)
    requires v == Times(nU, hi) + (sumM - Times(nM, t)) + Times(nL, 0.0)
    ensures v == Times(k, hi)
  {
    ConeCandidateSolves(k, nU, nM, sumU, sumM, t, hi);
    CandidateSumArith(v, k, nU, nM, nL, sumM, t, hi);
  }

  /** n copies of a non-negative amount add up to a non-negative amount. */
  lemma {:induction false} TimesNonNegative(n: nat, c: real)
    requires c >= 0.0
    ensures Times(n, c) >= 0.0
  {
    TimesMul(n, c);
    MulMono(n as real, 0.0, c);
  }

  /**
   * On the sorted buffer, a candidate that passes the tests with tolerance
   * eps matches its blocks up to eps.
   */
  lemma {:induction false} ConeTestNear(s: seq<real>, t: real, hi: real, eps: real, f: nat, l: nat)
    requires SortedDesc(s) && f <= l <= |s|
    requires ConeTest(t, hi, eps, MinU(s, f), MaxM(s, f, l), MinM(s, f, l), MaxL(s, l))
    ensures NearlyConsistent(s, Thresholds(t, 0.0, hi, f, l), eps)
  {
    forall i | 0 <= i < f
      ensures s[i] - t >= hi - eps
    {
      assert s[i] >= s[f - 1];
    }
    forall i | f <= i < l
      ensures -eps <= s[i] - t <= hi + eps
    {
      assert s[f] >= s[i] >= s[l - 1];
    }
    forall i | l <= i < |s|
      ensures s[i] - t <= eps
    {
      assert s[i] <= s[l];
    }
  }

  /**
   * Thresholds with lo = 0 whose shape sums to k hi, matched by the buffer
   * up to eps, project into the cone widened by |s| eps: every entry is at
   * most hi and the sum falls short of k hi by at most |s| eps.
   */
  lemma {:induction false} ConeNearInCone(s: seq<real>, k: nat, eps: real, th: Thresholds)
    requires eps >= 0.0 && th.lo == 0.0
    requires NearlyConsistent(s, th, eps)
    requires ShapedSum(th, s) == Times(k, th.hi)
    ensures InTopkConeWithin(ProxSeq(s, th), k, Times(|s|, eps))
  {
    var p := ProxSeq(s, th);
    SumProxNear(th, s, eps);
    TimesNonNegative(|s|, eps);
    if th.hi >= 0.0 {
      ProxSeqInBounds(s, th);
      CappedInConeWithin(p, k, th.hi, Times(|s|, eps));
    } else {
      SumConst(p, 0.0);
      TimesZero(|p|);
    }
  }

  /** Entries in [0, hi] with k hi at most their total plus slack lie in the widened cone. */
  lemma {:induction false} CappedInConeWithin(p: seq<real>, k: nat, hi: real, slack: real)
    requires forall i :: 0 <= i < |p| ==> 0.0 <= p[i] <= hi
    requires Times(k, hi) <= Sum(p) + slack
    ensures InTopkConeWithin(p, k, slack)
  {
    TimesMul(k, hi);
    forall i | 0 <= i < |p|
      ensures 0.0 <= p[i] && (k as real) * p[i] <= Sum(p) + slack
    {
      MulMono(k as real, p[i], hi);
    }
  }

  /**
   * The first candidate the search accepts on the sorted buffer: its shape
   * sums to k hi, and its projection lies in the cone widened by |s| eps
   * (the cone itself when eps = 0).
   */
  lemma {:induction false} ConeCandidateInCone(s: seq<real>, k: nat, eps: real, th: Thresholds)
    requires eps >= 0.0 && SortedDesc(s)
    requires ConeFirstAccepted(s, k, eps, th)
    ensures ShapedSum(th, s) == Times(k, th.hi)
    ensures InTopkConeWithin(ProxSeq(s, th), k, Times(|s|, eps))
  {
    ConeTestNear(s, th.t, th.hi, eps, th.first, th.last);
    ConeCandidateSum(ShapedSum(th, s), k, th.first, th.last - th.first, |s| - th.last,
                     Sum(s[..th.first]), Sum(s[th.first..th.last]), th.t, th.hi);
    ConeNearInCone(s, k, eps, th);
  }

  /**
   * With exact arithmetic (eps = 0) an accepted candidate is consistent
   * with the sorted buffer: a non-empty M puts hi above 0, and an empty one
   * makes hi = 0.
   */
  lemma {:induction false} ConeCandidateExact(s: seq<real>, k: nat, th: Thresholds)
    requires SortedDesc(s) && ConeFirstAccepted(s, k, 0.0, th)
    ensures Consistent(s, th)
  {
    ConeTestNear(s, th.t, th.hi, 0.0, th.first, th.last);
    if th.first == th.last {
      assert s[th.first..th.last] == [];
    } else {
      assert 0.0 <= s[th.first] - th.t <= th.hi;
    }
  }

  /**
   * With exact arithmetic (eps = 0) the constant case is consistent: the k
   * largest reach hi and the rest fall to 0.
   */
  lemma {:induction false} ConstantCaseExact(s: seq<real>, k: nat, divConst: real)
    requires 1 <= k <= |s| && divConst > 0.0
    requires KthLargestAt(s, k)
    requires Sum(s[..k]) > 0.0 && ConstantFits(s, k, divConst, 0.0)
    ensures Consistent(s, ConstantThresholds(s, k, divConst))
  {
    ConstantCaseEntries(s, k, divConst, 0.0);
    forall i | 0 <= i < k
      ensures s[i] - ConstantThresholds(s, k, divConst).t >= ConstantThresholds(s, k, divConst).hi
    {
      assert s[i] >= s[k - 1];
    }
  }

  /** The cone's constraints do not depend on the order of the entries. */
  lemma {:induction false} InTopkConePermutation(x: seq<real>, y: seq<real>, k: nat, slack: real)
    requires multiset(x) == multiset(y)
    requires InTopkConeWithin(x, k, slack)
    ensures InTopkConeWithin(y, k, slack)
  {
    SumPermutation(x, y);
    forall j | 0 <= j < |y|
      ensures 0.0 <= y[j] && (k as real) * y[j] <= Sum(y) + slack
    {
      assert y[j] in multiset(x);
      var i :| 0 <= i < |x| && x[i] == y[j];
    }
  }

  /**
   * What the dispatch returns: the zero or constant special case on the
   * partially sorted buffer, or the search result on the sorted buffer.
   */
  ghost predicate ConeDispatchResult(s: seq<real>, k: nat, divConst: real, eps: real, th: Thresholds)
    requires 1 <= k <= |s| && divConst > 0.0
  {
    (KthLargestAt(s, k) && Sum(s[..k]) <= eps && th == ZeroThresholds)
    || (KthLargestAt(s, k) && Sum(s[..k]) > eps && ConstantFits(s, k, divConst, eps)
        && th == ConstantThresholds(s, k, divConst))
    || (SortedDesc(s) && ConeSearchResult(s, k, eps, th))
  }

  /** th is what the cone search finds on some sorted reordering of s. */
  ghost predicate ConeSearchedOn(s: seq<real>, k: nat, eps: real, th: Thresholds)
  {
    exists u :: multiset(u) == multiset(s) && SortedDesc(u) && ConeSearchResult(u, k, eps, th)
  }

  /**
   * Whatever the dispatch returns, the projection of the reordered buffer
   * lies in the cone widened by |s| eps.
   */
  lemma {:induction false} ConeDispatchProx(s: seq<real>, k: nat, divConst: real, eps: real, th: Thresholds)
    requires 1 <= k <= |s| && divConst > 0.0 && eps >= 0.0
    requires ConeDispatchResult(s, k, divConst, eps, th)
    ensures InTopkConeWithin(ProxSeq(s, th), k, Times(|s|, eps))
  {
    TimesNonNegative(|s|, eps);
    if SortedDesc(s) && ConeSearchResult(s, k, eps, th) {
      ConeSearchProx(s, k, eps, th);
    } else if th == ZeroThresholds {
      ZeroCaseProx(s, k);
      InTopkConeWiden(ProxSeq(s, th), k, 0.0, Times(|s|, eps));
    } else {
      ConstantCaseProx(s, k, divConst, eps);
      InTopkConeWiden(ProxSeq(s, th), k, 0.0, Times(|s|, eps));
    }
  }

  /** The search's result, accepted candidate or zero fallback, projects into the widened cone. */
  lemma {:induction false} ConeSearchProx(s: seq<real>, k: nat, eps: real, th: Thresholds)
    requires eps >= 0.0 && SortedDesc(s) && ConeSearchResult(s, k, eps, th)
    ensures InTopkConeWithin(ProxSeq(s, th), k, Times(|s|, eps))
  {
    TimesNonNegative(|s|, eps);
    if ConeFirstAccepted(s, k, eps, th) {
      ConeCandidateInCone(s, k, eps, th);
    } else {
      ZeroCaseProx(s, k);
      InTopkConeWiden(ProxSeq(s, th), k, 0.0, Times(|s|, eps));
    }
  }

  /** `thresholds_topk_cone(first, last, k)`: the special cases with div_const = k, else the search. */
  method ThresholdsTopkCone(a: array<real>, k: nat, machineEps: real) returns (th: Thresholds)
    requires 1 <= k <= a.Length && machineEps >= 0.0
    modifies a
    ensures multiset(a[..]) == multiset(old(a[..]))
    ensures ConeDispatchResult(a[..], k, k as real, ConeEps(machineEps), th)
  {
    var proj;
    proj, th := TopkConeSpecialCases(a, k, k as real, machineEps);
    if proj == General {
      th := ThresholdsTopkConeSearch(a, k, machineEps);
    }
  }

  /** The widened-cone property carried from the reordered copy back to the caller's order. */
  lemma {:induction false} ConeInConeAfterCopy(orig: seq<real>, s: seq<real>, k: nat, divConst: real,
                                               eps: real, th: Thresholds)
    requires multiset(s) == multiset(orig)
    requires 1 <= k <= |s| && divConst > 0.0 && eps >= 0.0
    requires ConeDispatchResult(s, k, divConst, eps, th)
    ensures InTopkConeWithin(ProxSeq(orig, th), k, Times(|orig|, eps))
  {
    ConeDispatchProx(s, k, divConst, eps, th);
    ProxSeqPermutation(s, orig, th);
    assert |s| == |orig| by {
      assert |multiset(s)| == |multiset(orig)|;
    }
    InTopkConePermutation(ProxSeq(s, th), ProxSeq(orig, th), k, Times(|s|, eps));
  }

  /**
   * `prox_topk_cone(first, last, k)`: the thresholds are computed on a copy
   * and the buffer is clamped to [0, hi] after the shift by t.
   */
  method ProxTopkCone(a: array<real>, k: nat, machineEps: real) returns (th: Thresholds)
    requires 1 <= k <= a.Length && machineEps >= 0.0
    modifies a
    ensures th.lo == 0.0
    ensures a[..] == ProxSeq(old(a[..]), th)
    ensures InTopkConeWithin(a[..], k, Times(a.Length, ConeEps(machineEps)))
    ensures machineEps == 0.0 ==> InTopkCone(a[..], k)
  {
    var aux := Copy(a);
    th := ThresholdsTopkCone(aux, k, machineEps);
    ghost var orig := a[..];
    ProxWhole(th, a);
    ConeInConeAfterCopy(orig, aux[..], k, k as real, ConeEps(machineEps), th);
    if machineEps == 0.0 {
      TimesZero(a.Length);
    }
  }
}
