/**
 * `thresholds_knapsack_eq`: Kiwiel's variable-fixing algorithm (Algorithm 3.1
 * of "Variable fixing algorithms for the continuous quadratic knapsack
 * problem") for
 *    min 0.5 <x, x> - <a, x>   s.t.   <1, x> = rhs,  lo <= x_i <= hi,
 * whose solution is x = max(lo, min(a - t, hi)).
 *
 * The buffer is reordered in place: the entries fixed at hi gather at the
 * front, the entries fixed at lo at the back, and the active window
 * [mFirst, mLast) in between shrinks until the infeasibility of t is within
 * eps.
 */
module KnapsackEq {
  import opened Numeric
  import opened Reorder
  import opened ProxDef

  /** The tolerance machine_eps * max(1, |rhs|). */
  function KnapsackEps(machineEps: real, rhs: real): (r: real)
    requires machineEps >= 0.0
    ensures r >= machineEps
  {
    ScaleAtLeastOne(machineEps, Max(1.0, Abs(rhs)));
    machineEps * Max(1.0, Abs(rhs))
  }

  /** Scaling a non-negative amount by at least one does not shrink it. */
  lemma ScaleAtLeastOne(a: real, b: real)
    requires a >= 0.0 && b >= 1.0
    ensures a * b >= a
  {
    assert a * b - a == a * (b - 1.0);
  }

  /**
   * The infeasibility of t: the amount by which fixing the upper group U at hi
   * and the lower group L at lo moves the sum, sum_U (x - t - hi) + sum_L (x - t - lo),
   * written with the group sums and sizes as the algorithm keeps them.
   */
  function Infeasibility(sumHi: real, nHi: nat, sumLo: real, nLo: nat,
                         t: real, lo: real, hi: real): real
  {
    sumHi + sumLo - ((nHi as real) * hi + (nLo as real) * lo) - ((nHi + nLo) as real) * t
  }

  /**
   * The numerator of the next t after fixing n entries at `bound`:
   * m t - sum + n bound, over the window of size m before the fixing.
   */
  function Refit(m: nat, t: real, sumFixed: real, nFixed: nat, bound: real): real
  {
    (m as real) * t - sumFixed + (nFixed as real) * bound
  }

  /**
   * Entries of U exceed hi + t and entries of L do not exceed lo + t, so an
   * empty U makes the infeasibility non-positive and an empty L non-negative:
   * whichever group the algorithm fixes is non-empty.
   */
  lemma {:induction false} InfeasibilitySign(sumHi: real, nHi: nat, sumLo: real, nLo: nat,
                          t: real, lo: real, hi: real)
    requires (nHi as real) * (hi + t) <= sumHi && (nHi == 0 ==> sumHi == 0.0)
    requires sumLo <= (nLo as real) * (lo + t) && (nLo == 0 ==> sumLo == 0.0)
    ensures nHi == 0 ==> Infeasibility(sumHi, nHi, sumLo, nLo, t, lo, hi) <= 0.0
    ensures nLo == 0 ==> Infeasibility(sumHi, nHi, sumLo, nLo, t, lo, hi) >= 0.0
  {
    assert (nLo as real) * (lo + t) == (nLo as real) * lo + (nLo as real) * t;
    assert (nHi as real) * (hi + t) == (nHi as real) * hi + (nHi as real) * t;
  }

  /**
   * The invariant of the variable-fixing loop: with everything before mFirst
   * at hi, everything from mLast on at lo and the window shifted by t, the
   * vector sums to rhs exactly.
   */
  ghost predicate Balanced(s: seq<real>, t: real, lo: real, hi: real, rhs: real,
                           mFirst: nat, mLast: nat)
  {
    mFirst <= mLast <= |s| && ShapedSum(Thresholds(t, lo, hi, mFirst, mLast), s) == rhs
  }

  /** A t with n t = sum a - rhs balances the whole buffer. */
  lemma {:induction false} BalancedWhole(s: seq<real>, t: real, lo: real, hi: real, rhs: real)
    requires Times(|s|, t) == Sum(s) - rhs
    ensures Balanced(s, t, lo, hi, rhs, 0, |s|)
  {
    assert s[0..|s|] == s;
    ShapedSumUnfold(Thresholds(t, lo, hi, 0, |s|), s, rhs);
  }

  /** x / n: the t that spreads x evenly over n free entries. */
  function Mean(x: real, n: nat): (r: real)
    requires n > 0
    ensures Times(n, r) == x
  {
    DivMul(x, n);
    TimesMul(n, x / (n as real));
    x / (n as real)
  }

  /** Reordering inside the window keeps the balance. */
  lemma {:induction false} BalancedPermuted(s: seq<real>, u: seq<real>, t: real, lo: real, hi: real, rhs: real,
                         mFirst: nat, mLast: nat)
    requires Balanced(s, t, lo, hi, rhs, mFirst, mLast)
    requires PermutedWithin(s, u, mFirst, mLast)
    ensures Balanced(u, t, lo, hi, rhs, mFirst, mLast)
  {
    PermutedWithinSum(s, u, mFirst, mLast);
  }

  /** Fixing the upper group [mFirst, itHi) at hi with the updated t keeps the balance. */
  lemma {:induction false} FixUpperTimes(s: seq<real>, t: real, lo: real, hi: real, rhs: real,
                      mFirst: nat, itHi: nat, mLast: nat, tNew: real)
    requires Balanced(s, t, lo, hi, rhs, mFirst, mLast) && mFirst <= itHi <= mLast
    requires Times(mLast - itHi, tNew)
      == Times(mLast - mFirst, t) - Sum(s[mFirst..itHi]) + Times(itHi - mFirst, hi)
    ensures Balanced(s, tNew, lo, hi, rhs, itHi, mLast)
  {
    SumSplit(s, mFirst, itHi, mLast);
    TimesSum(mFirst, itHi - mFirst, itHi, hi);
  }

  /** Refit with its products written as Times. */
  lemma {:induction false} RefitTimes(m: nat, t: real, sumFixed: real, nFixed: nat, bound: real)
    ensures Refit(m, t, sumFixed, nFixed, bound) == Times(m, t) - sumFixed + Times(nFixed, bound)
  {
    TimesMul(m, t);
    TimesMul(nFixed, bound);
  }

  /**
   * The update the algorithm makes after fixing U: the new t is
   * Mean(Refit(m, t, sum_U, |U|, hi), m - |U|), and the balance carries over.
   */
  lemma {:induction false} FixUpper(s: seq<real>, t: real, lo: real, hi: real, rhs: real,
                 mFirst: nat, itHi: nat, mLast: nat, m: nat, nHi: nat, mNew: nat, sumHi: real)
    requires Balanced(s, t, lo, hi, rhs, mFirst, mLast) && mFirst <= itHi <= mLast
    requires m == mLast - mFirst && nHi == itHi - mFirst && mNew == m - nHi
    requires sumHi == Sum(s[mFirst..itHi])
    ensures mNew > 0 ==> Balanced(s, Mean(Refit(m, t, sumHi, nHi, hi), mNew),
                                  lo, hi, rhs, itHi, mLast)
  {
    if mNew > 0 {
      RefitTimes(m, t, sumHi, nHi, hi);
      assert mNew == mLast - itHi;
      FixUpperTimes(s, t, lo, hi, rhs, mFirst, itHi, mLast, Mean(Refit(m, t, sumHi, nHi, hi), mNew));
    }
  }

  /** Fixing the lower group [itLo, mLast) at lo with the updated t keeps the balance. */
  lemma {:induction false} FixLowerTimes(s: seq<real>, t: real, lo: real, hi: real, rhs: real,
                      mFirst: nat, itLo: nat, mLast: nat, tNew: real)
    requires Balanced(s, t, lo, hi, rhs, mFirst, mLast) && mFirst <= itLo <= mLast
    requires Times(itLo - mFirst, tNew)
      == Times(mLast - mFirst, t) - Sum(s[itLo..mLast]) + Times(mLast - itLo, lo)
    ensures Balanced(s, tNew, lo, hi, rhs, mFirst, itLo)
  {
    SumSplit(s, mFirst, itLo, mLast);
    TimesSum(|s| - mLast, mLast - itLo, |s| - itLo, lo);
  }

  /**
   * The update the algorithm makes after fixing L: the new t is
   * Mean(Refit(m, t, sum_L, |L|, lo), m - |L|), and the balance carries over.
   */
  lemma {:induction false} FixLower(s: seq<real>, t: real, lo: real, hi: real, rhs: real,
                 mFirst: nat, itLo: nat, mLast: nat, m: nat, nLo: nat, mNew: nat, sumLo: real)
    requires Balanced(s, t, lo, hi, rhs, mFirst, mLast) && mFirst <= itLo <= mLast
    requires m == mLast - mFirst && nLo == mLast - itLo && mNew == m - nLo
    requires sumLo == Sum(s[itLo..mLast])
    ensures mNew > 0 ==> Balanced(s, Mean(Refit(m, t, sumLo, nLo, lo), mNew),
                                  lo, hi, rhs, mFirst, itLo)
  {
    if mNew > 0 {
      RefitTimes(m, t, sumLo, nLo, lo);
      assert mNew == itLo - mFirst;
      FixLowerTimes(s, t, lo, hi, rhs, mFirst, itLo, mLast, Mean(Refit(m, t, sumLo, nLo, lo), mNew));
    }
  }

  /** The infeasibility with its products written as Times. */
  lemma {:induction false} InfeasibilityTimes(sumHi: real, nHi: nat, sumLo: real, nLo: nat,
                           t: real, lo: real, hi: real)
    ensures Infeasibility(sumHi, nHi, sumLo, nLo, t, lo, hi)
      == sumHi + sumLo - (Times(nHi, hi) + Times(nLo, lo)) - Times(nHi + nLo, t)
  {
    TimesMul(nHi, hi);
    TimesMul(nLo, lo);
    TimesMul(nHi + nLo, t);
  }

  /** FixBoth with the infeasibility written with Times. */
  lemma {:induction false} FixBothTimes(s: seq<real>, t: real, lo: real, hi: real, rhs: real,
                     mFirst: nat, itHi: nat, itLo: nat, mLast: nat,
                     sumHi: real, nHi: nat, sumLo: real, nLo: nat)
    requires Balanced(s, t, lo, hi, rhs, mFirst, mLast) && mFirst <= itHi <= itLo <= mLast
    requires nHi == itHi - mFirst && nLo == mLast - itLo
    requires sumHi == Sum(s[mFirst..itHi]) && sumLo == Sum(s[itLo..mLast])
    ensures ShapedSum(Thresholds(t, lo, hi, itHi, itLo), s)
      == rhs - (sumHi + sumLo - (Times(nHi, hi) + Times(nLo, lo)) - Times(nHi + nLo, t))
  {
    SumSplit(s, mFirst, itHi, mLast);
    SumSplit(s, itHi, itLo, mLast);
    TimesSum(mFirst, nHi, itHi, hi);
    TimesSum(|s| - mLast, nLo, |s| - itLo, lo);
    TimesSum(itLo - itHi, nHi + nLo, mLast - mFirst, t);
  }

  /**
   * Fixing both groups at once, as the final pass does, leaves the sum off by
   * exactly the infeasibility.
   */
  lemma {:induction false} FixBoth(s: seq<real>, t: real, lo: real, hi: real, rhs: real,
                mFirst: nat, itHi: nat, itLo: nat, mLast: nat,
                sumHi: real, nHi: nat, sumLo: real, nLo: nat)
    requires Balanced(s, t, lo, hi, rhs, mFirst, mLast) && mFirst <= itHi <= itLo <= mLast
    requires nHi == itHi - mFirst && nLo == mLast - itLo
    requires sumHi == Sum(s[mFirst..itHi]) && sumLo == Sum(s[itLo..mLast])
    ensures ShapedSum(Thresholds(t, lo, hi, itHi, itLo), s)
      == rhs - Infeasibility(sumHi, nHi, sumLo, nLo, t, lo, hi)
  {
    FixBothTimes(s, t, lo, hi, rhs, mFirst, itHi, itLo, mLast, sumHi, nHi, sumLo, nLo);
    InfeasibilityTimes(sumHi, nHi, sumLo, nLo, t, lo, hi);
  }

  /** A suffix the second partition did not touch keeps its entries. */
  lemma {:induction false} SuffixKept(s1: seq<real>, s2: seq<real>, mFirst: nat, itLo: nat, mLast: nat)
    requires PermutedWithin(s1, s2, mFirst, itLo) && itLo <= mLast <= |s1|
    ensures s2[itLo..mLast] == s1[itLo..mLast]
  {
    assert s2[itLo..mLast] == s2[itLo..][..mLast - itLo];
    assert s1[itLo..mLast] == s1[itLo..][..mLast - itLo];
  }


  /**
   * The clamped sum with the window [mFirst, mLast) free and the rest fixed:
   * hi before mFirst, clamp(x - tau) inside, lo from mLast on. At the current
   * t the algorithm's pass makes this the sum of its shape; its value at
   * earlier t's bounds the next t from both sides.
   */
  ghost function FixedClampSum(s: seq<real>, tau: real, lo: real, hi: real,
                               mFirst: nat, mLast: nat): real
    requires mFirst <= mLast <= |s|
  {
    Times(mFirst, hi) + Sum(ProxSeq(s[mFirst..mLast], Thresholds(tau, lo, hi, 0, 0)))
      + Times(|s| - mLast, lo)
  }

  /** Permuting the window leaves the clamped sum alone. */
  lemma {:induction false} FixedClampSumPermuted(s0: seq<real>, s: seq<real>, tau: real, lo: real, hi: real,
                                                 mFirst: nat, mLast: nat)
    requires PermutedWithin(s0, s, mFirst, mLast)
    ensures FixedClampSum(s0, tau, lo, hi, mFirst, mLast) == FixedClampSum(s, tau, lo, hi, mFirst, mLast)
  {
    var th := Thresholds(tau, lo, hi, 0, 0);
    ProxSeqPermutation(s0[mFirst..mLast], s[mFirst..mLast], th);
    SumPermutation(ProxSeq(s0[mFirst..mLast], th), ProxSeq(s[mFirst..mLast], th));
  }

  /** Window entries at or above hi + tau may be fixed at hi without changing the sum. */
  lemma {:induction false} FixedClampSumUpper(s: seq<real>, tau: real, lo: real, hi: real,
                                              mFirst: nat, k: nat, mLast: nat)
    requires mFirst <= k <= mLast <= |s| && lo <= hi
    requires forall i :: mFirst <= i < k ==> s[i] - tau >= hi
    ensures FixedClampSum(s, tau, lo, hi, mFirst, mLast) == FixedClampSum(s, tau, lo, hi, k, mLast)
  {
    var th := Thresholds(tau, lo, hi, 0, 0);
    var u, w := s[mFirst..k], s[k..mLast];
    assert s[mFirst..mLast] == u + w;
    ProxSeqConcat(u, w, th);
    SumConcat(ProxSeq(u, th), ProxSeq(w, th));
    forall i | 0 <= i < |u|
      ensures ProxSeq(u, th)[i] == hi
    {
      assert u[i] == s[mFirst + i];
      ClampSpec(u[i], th);
    }
    SumConst(ProxSeq(u, th), hi);
    TimesSum(mFirst, k - mFirst, k, hi);
  }

  /** Window entries at or below lo + tau may be fixed at lo without changing the sum. */
  lemma {:induction false} FixedClampSumLower(s: seq<real>, tau: real, lo: real, hi: real,
                                              mFirst: nat, k: nat, mLast: nat)
    requires mFirst <= k <= mLast <= |s|
    requires forall i :: k <= i < mLast ==> s[i] - tau <= lo
    ensures FixedClampSum(s, tau, lo, hi, mFirst, mLast) == FixedClampSum(s, tau, lo, hi, mFirst, k)
  {
    var th := Thresholds(tau, lo, hi, 0, 0);
    var u, w := s[mFirst..k], s[k..mLast];
    assert s[mFirst..mLast] == u + w;
    ProxSeqConcat(u, w, th);
    SumConcat(ProxSeq(u, th), ProxSeq(w, th));
    forall i | 0 <= i < |w|
      ensures ProxSeq(w, th)[i] == lo
    {
      assert w[i] == s[k + i];
      ClampSpec(w[i], th);
    }
    SumConst(ProxSeq(w, th), lo);
    TimesSum(|s| - mLast, mLast - k, |s| - k, lo);
  }

  /** A window lying within [lo + tau, hi + tau] sums to its shape. */
  lemma {:induction false} FixedClampSumMiddle(s: seq<real>, tau: real, lo: real, hi: real,
                                               f: nat, l: nat)
    requires f <= l <= |s|
    requires forall i :: f <= i < l ==> lo <= s[i] - tau <= hi
    ensures FixedClampSum(s, tau, lo, hi, f, l) == ShapedSum(Thresholds(tau, lo, hi, f, l), s)
  {
    var th := Thresholds(tau, lo, hi, 0, 0);
    var w := s[f..l];
    forall i | 0 <= i < |w|
      ensures ProxSeq(w, th)[i] == w[i] - tau
    {
      assert w[i] == s[f + i];
      ClampSpec(w[i], th);
    }
    SumShift(w, ProxSeq(w, th), tau);
  }

  /**
   * A window lying above lo + tau clamps to at most its shift by tau: the
   * clamped sum is at most the balance at tau.
   */
  lemma {:induction false} ClampBelowBalance(s: seq<real>, tau: real, lo: real, hi: real, f: nat, l: nat)
    requires f <= l <= |s|
    requires forall i :: f <= i < l ==> s[i] > lo + tau
    ensures FixedClampSum(s, tau, lo, hi, f, l) <= ShapedSum(Thresholds(tau, lo, hi, f, l), s)
  {
    var th := Thresholds(tau, lo, hi, 0, 0);
    var w := s[f..l];
    var u := seq(|w|, i requires 0 <= i < |w| => w[i] - tau);
    SumShift(w, u, tau);
    forall i | 0 <= i < |w|
      ensures ProxSeq(w, th)[i] <= u[i]
    {
      assert w[i] == s[f + i];
    }
    SumMonotone(ProxSeq(w, th), u);
  }

  /**
   * A window lying at or below hi + tau clamps to at least its shift by tau:
   * the clamped sum is at least the balance at tau.
   */
  lemma {:induction false} ClampAboveBalance(s: seq<real>, tau: real, lo: real, hi: real, f: nat, l: nat)
    requires f <= l <= |s|
    requires forall i :: f <= i < l ==> s[i] <= hi + tau
    ensures FixedClampSum(s, tau, lo, hi, f, l) >= ShapedSum(Thresholds(tau, lo, hi, f, l), s)
  {
    var th := Thresholds(tau, lo, hi, 0, 0);
    var w := s[f..l];
    var u := seq(|w|, i requires 0 <= i < |w| => w[i] - tau);
    SumShift(w, u, tau);
    forall i | 0 <= i < |w|
      ensures u[i] <= ProxSeq(w, th)[i]
    {
      assert w[i] == s[f + i];
    }
    SumMonotone(u, ProxSeq(w, th));
  }

  /** The balance of a non-empty window falls as t grows, so it orders the t's. */
  lemma {:induction false} BalanceOrder(s: seq<real>, lo: real, hi: real, f: nat, l: nat, a: real, b: real)
    requires f < l <= |s|
    requires ShapedSum(Thresholds(a, lo, hi, f, l), s) <= ShapedSum(Thresholds(b, lo, hi, f, l), s)
    ensures b <= a
  {
    var n: nat := l - f;
    TimesMul(n, a);
    TimesMul(n, b);
    assert Times(n, b) <= Times(n, a);
    MulCancel(n as real, b, a);
  }

  lemma MulCancel(m: real, x: real, y: real)
    requires m > 0.0 && m * x <= m * y
    ensures x <= y
  {
    assert m * (y - x) == m * y - m * x;
  }

  /** The shape of one pass: U above hi + t, the middle, L at or below lo + t. */
  ghost predicate PassShape(s: seq<real>, t: real, lo: real, hi: real,
                            mFirst: nat, itHi: nat, itLo: nat, mLast: nat)
  {
    mFirst <= itHi <= itLo <= mLast <= |s|
    && (forall i :: mFirst <= i < itHi ==> s[i] > hi + t)
    && (forall i :: itHi <= i < itLo ==> lo + t < s[i] <= hi + t)
    && (forall i :: itLo <= i < mLast ==> s[i] <= lo + t)
  }

  /** At the pass's own t the clamped sum is the sum of the shape the pass found. */
  lemma {:induction false} PassClampSum(s: seq<real>, t: real, lo: real, hi: real,
                                        mFirst: nat, itHi: nat, itLo: nat, mLast: nat)
    requires lo <= hi && PassShape(s, t, lo, hi, mFirst, itHi, itLo, mLast)
    ensures FixedClampSum(s, t, lo, hi, mFirst, mLast) == ShapedSum(Thresholds(t, lo, hi, itHi, itLo), s)
  {
    FixedClampSumUpper(s, t, lo, hi, mFirst, itHi, mLast);
    FixedClampSumLower(s, t, lo, hi, itHi, itLo, mLast);
    FixedClampSumMiddle(s, t, lo, hi, itHi, itLo);
  }

  /**
   * The lower end of the bracket around the solution: tLo is the largest t at
   * which entries were fixed at lo (NegInf before any was). Those entries lie
   * at or below lo + tLo, the window lies above it, and the clamped sum at
   * tLo still reaches rhs.
   */
  ghost predicate LowerBracket(s: seq<real>, t: real, lo: real, hi: real, rhs: real,
                               mFirst: nat, mLast: nat, tLo: XReal)
    requires mFirst <= mLast <= |s|
  {
    if tLo.Fin? then
      tLo.value <= t
      && (forall i :: mFirst <= i < mLast ==> s[i] > lo + tLo.value)
      && (forall i :: mLast <= i < |s| ==> s[i] <= lo + tLo.value)
      && FixedClampSum(s, tLo.value, lo, hi, mFirst, mLast) >= rhs
    else
      mLast == |s|
  }

  /**
   * The upper end: tHi is the smallest t at which entries were fixed at hi
   * (PosInf before any was). Those entries lie above hi + tHi, the window at
   * or below it, and the clamped sum at tHi does not exceed rhs.
   */
  ghost predicate UpperBracket(s: seq<real>, t: real, lo: real, hi: real, rhs: real,
                               mFirst: nat, mLast: nat, tHi: XReal)
    requires mFirst <= mLast <= |s|
  {
    if tHi.Fin? then
      t <= tHi.value
      && (forall i :: 0 <= i < mFirst ==> s[i] > hi + tHi.value)
      && (forall i :: mFirst <= i < mLast ==> s[i] <= hi + tHi.value)
      && FixedClampSum(s, tHi.value, lo, hi, mFirst, mLast) <= rhs
    else
      mFirst == 0
  }

  /**
   * The bracket invariant of the variable-fixing loop (for lo <= hi): every
   * fixing so far agrees with the final clamp, because t stays between the
   * t's at which the two kinds of fixing happened.
   */
  ghost predicate Bracket(s: seq<real>, t: real, lo: real, hi: real, rhs: real,
                          mFirst: nat, mLast: nat, tLo: XReal, tHi: XReal)
  {
    mFirst <= mLast <= |s|
    && LowerBracket(s, t, lo, hi, rhs, mFirst, mLast, tLo)
    && UpperBracket(s, t, lo, hi, rhs, mFirst, mLast, tHi)
  }

  /** Before any fixing the bracket is open on both sides. */
  lemma {:induction false} BracketInit(s: seq<real>, t: real, lo: real, hi: real, rhs: real)
    ensures Bracket(s, t, lo, hi, rhs, 0, |s|, NegInf, PosInf)
  {
  }

  /** Reordering the window keeps the bracket. */
  lemma {:induction false} BracketPermuted(s0: seq<real>, s: seq<real>, t: real, lo: real, hi: real, rhs: real,
                                           mFirst: nat, mLast: nat, tLo: XReal, tHi: XReal)
    requires Bracket(s0, t, lo, hi, rhs, mFirst, mLast, tLo, tHi)
    requires PermutedWithin(s0, s, mFirst, mLast)
    ensures Bracket(s, t, lo, hi, rhs, mFirst, mLast, tLo, tHi)
  {
    forall i | 0 <= i < mFirst
      ensures s[i] == s0[i]
    {
      assert s[..mFirst][i] == s0[..mFirst][i];
    }
    forall i | mLast <= i < |s|
      ensures s[i] == s0[i]
    {
      assert s[mLast..][i - mLast] == s0[mLast..][i - mLast];
    }
    if tLo.Fin? {
      var b := tLo.value;
      PermutedWithinForall(s0, s, mFirst, mLast, x => x > lo + b);
      FixedClampSumPermuted(s0, s, b, lo, hi, mFirst, mLast);
    }
    if tHi.Fin? {
      var c := tHi.value;
      PermutedWithinForall(s0, s, mFirst, mLast, x => x <= hi + c);
      FixedClampSumPermuted(s0, s, c, lo, hi, mFirst, mLast);
    }
  }

  /**
   * Fixing U at hi after an infeasible pass (positive infeasibility) moves
   * the upper end of the bracket to the old t, and the new t stays within it.
   */
  lemma {:induction false} UpperFixBracket(s: seq<real>, t: real, lo: real, hi: real, rhs: real, eps: real,
                                           mFirst: nat, itHi: nat, itLo: nat, mLast: nat,
                                           sumHi: real, nHi: nat, sumLo: real, nLo: nat,
                                           tLo: XReal, tHi: XReal, tNew: real)
    requires lo <= hi && eps >= 0.0
    requires Balanced(s, t, lo, hi, rhs, mFirst, mLast)
    requires Bracket(s, t, lo, hi, rhs, mFirst, mLast, tLo, tHi)
    requires PassShape(s, t, lo, hi, mFirst, itHi, itLo, mLast)
    requires nHi == itHi - mFirst && nLo == mLast - itLo
    requires sumHi == Sum(s[mFirst..itHi]) && sumLo == Sum(s[itLo..mLast])
    requires Infeasibility(sumHi, nHi, sumLo, nLo, t, lo, hi) > eps
    requires itHi < mLast && Balanced(s, tNew, lo, hi, rhs, itHi, mLast)
    ensures Bracket(s, tNew, lo, hi, rhs, itHi, mLast, tLo, Fin(t))
  {
    FixBoth(s, t, lo, hi, rhs, mFirst, itHi, itLo, mLast, sumHi, nHi, sumLo, nLo);
    PassClampSum(s, t, lo, hi, mFirst, itHi, itLo, mLast);
    FixedClampSumUpper(s, t, lo, hi, mFirst, itHi, mLast);
    // the clamped sum at t is below rhs, so the balance at t is too: tNew <= t
    ClampAboveBalance(s, t, lo, hi, itHi, mLast);
    BalanceOrder(s, lo, hi, itHi, mLast, t, tNew);
    if tLo.Fin? {
      // the clamped sum at tLo reaches rhs, so the balance at tLo does too: tLo <= tNew
      var b := tLo.value;
      FixedClampSumUpper(s, b, lo, hi, mFirst, itHi, mLast);
      ClampBelowBalance(s, b, lo, hi, itHi, mLast);
      BalanceOrder(s, lo, hi, itHi, mLast, tNew, b);
    }
  }

  /**
   * Fixing L at lo after an infeasible pass (negative infeasibility) moves
   * the lower end of the bracket to the old t, and the new t stays within it.
   */
  lemma {:induction false} LowerFixBracket(s: seq<real>, t: real, lo: real, hi: real, rhs: real, eps: real,
                                           mFirst: nat, itHi: nat, itLo: nat, mLast: nat,
                                           sumHi: real, nHi: nat, sumLo: real, nLo: nat,
                                           tLo: XReal, tHi: XReal, tNew: real)
    requires lo <= hi && eps >= 0.0
    requires Balanced(s, t, lo, hi, rhs, mFirst, mLast)
    requires Bracket(s, t, lo, hi, rhs, mFirst, mLast, tLo, tHi)
    requires PassShape(s, t, lo, hi, mFirst, itHi, itLo, mLast)
    requires nHi == itHi - mFirst && nLo == mLast - itLo
    requires sumHi == Sum(s[mFirst..itHi]) && sumLo == Sum(s[itLo..mLast])
    requires Infeasibility(sumHi, nHi, sumLo, nLo, t, lo, hi) < -eps
    requires mFirst < itLo && Balanced(s, tNew, lo, hi, rhs, mFirst, itLo)
    ensures Bracket(s, tNew, lo, hi, rhs, mFirst, itLo, Fin(t), tHi)
  {
    FixBoth(s, t, lo, hi, rhs, mFirst, itHi, itLo, mLast, sumHi, nHi, sumLo, nLo);
    PassClampSum(s, t, lo, hi, mFirst, itHi, itLo, mLast);
    FixedClampSumLower(s, t, lo, hi, mFirst, itLo, mLast);
    // the clamped sum at t exceeds rhs, so the balance at t does too: t <= tNew
    ClampBelowBalance(s, t, lo, hi, mFirst, itLo);
    BalanceOrder(s, lo, hi, mFirst, itLo, tNew, t);
    if tHi.Fin? {
      // the clamped sum at tHi does not exceed rhs, nor does the balance: tNew <= tHi
      var c := tHi.value;
      FixedClampSumLower(s, c, lo, hi, mFirst, itLo, mLast);
      ClampAboveBalance(s, c, lo, hi, mFirst, itLo);
      BalanceOrder(s, lo, hi, mFirst, itLo, c, tNew);
    }
  }

  /** Within the bracket, a pass's shape is consistent with the whole buffer. */
  lemma {:induction false} PassConsistent(s: seq<real>, t: real, lo: real, hi: real, rhs: real,
                                          mFirst: nat, itHi: nat, itLo: nat, mLast: nat,
                                          tLo: XReal, tHi: XReal)
    requires lo <= hi
    requires Bracket(s, t, lo, hi, rhs, mFirst, mLast, tLo, tHi)
    requires PassShape(s, t, lo, hi, mFirst, itHi, itLo, mLast)
    ensures Consistent(s, Thresholds(t, lo, hi, itHi, itLo))
  {
  }

  /** With nothing left in the window, the clamped sum does not depend on tau. */
  lemma {:induction false} EmptyWindowSum(s: seq<real>, tau: real, t: real, lo: real, hi: real, k: nat)
    requires k <= |s|
    ensures FixedClampSum(s, tau, lo, hi, k, k) == ShapedSum(Thresholds(t, lo, hi, k, k), s)
  {
    assert s[k..k] == [];
    assert ProxSeq(s[k..k], Thresholds(tau, lo, hi, 0, 0)) == [];
  }

  /**
   * A pass that fixes the whole window at hi ends the loop with every entry
   * at hi: had anything been fixed at lo, the clamped sum at that t would
   * both reach rhs and equal this shape's sum, which falls short of it.
   */
  lemma {:induction false} UpperExit(s: seq<real>, t: real, lo: real, hi: real, rhs: real, eps: real,
                                     mFirst: nat, itHi: nat, itLo: nat, mLast: nat,
                                     sumHi: real, nHi: nat, sumLo: real, nLo: nat,
                                     tLo: XReal, tHi: XReal)
    requires lo <= hi && eps >= 0.0
    requires Balanced(s, t, lo, hi, rhs, mFirst, mLast)
    requires Bracket(s, t, lo, hi, rhs, mFirst, mLast, tLo, tHi)
    requires PassShape(s, t, lo, hi, mFirst, itHi, itLo, mLast)
    requires nHi == itHi - mFirst && nLo == mLast - itLo
    requires sumHi == Sum(s[mFirst..itHi]) && sumLo == Sum(s[itLo..mLast])
    requires Infeasibility(sumHi, nHi, sumLo, nLo, t, lo, hi) > eps && itHi == mLast
    ensures Consistent(s, Thresholds(t, lo, hi, itHi, mLast))
    ensures mLast == |s| && ShapedSum(Thresholds(t, lo, hi, itHi, mLast), s) < rhs - eps
  {
    FixBoth(s, t, lo, hi, rhs, mFirst, itHi, itLo, mLast, sumHi, nHi, sumLo, nLo);
    PassConsistent(s, t, lo, hi, rhs, mFirst, itHi, itLo, mLast, tLo, tHi);
    if tLo.Fin? {
      FixedClampSumUpper(s, tLo.value, lo, hi, mFirst, mLast, mLast);
      EmptyWindowSum(s, tLo.value, t, lo, hi, mLast);
    }
  }

  /** The mirror image: a pass that fixes the whole window at lo leaves every entry at lo. */
  lemma {:induction false} LowerExit(s: seq<real>, t: real, lo: real, hi: real, rhs: real, eps: real,
                                     mFirst: nat, itHi: nat, itLo: nat, mLast: nat,
                                     sumHi: real, nHi: nat, sumLo: real, nLo: nat,
                                     tLo: XReal, tHi: XReal)
    requires lo <= hi && eps >= 0.0
    requires Balanced(s, t, lo, hi, rhs, mFirst, mLast)
    requires Bracket(s, t, lo, hi, rhs, mFirst, mLast, tLo, tHi)
    requires PassShape(s, t, lo, hi, mFirst, itHi, itLo, mLast)
    requires nHi == itHi - mFirst && nLo == mLast - itLo
    requires sumHi == Sum(s[mFirst..itHi]) && sumLo == Sum(s[itLo..mLast])
    requires Infeasibility(sumHi, nHi, sumLo, nLo, t, lo, hi) < -eps && itLo == mFirst
    ensures Consistent(s, Thresholds(t, lo, hi, mFirst, itLo))
    ensures mFirst == 0 && ShapedSum(Thresholds(t, lo, hi, mFirst, itLo), s) > rhs + eps
  {
    FixBoth(s, t, lo, hi, rhs, mFirst, itHi, itLo, mLast, sumHi, nHi, sumLo, nLo);
    PassConsistent(s, t, lo, hi, rhs, mFirst, itHi, itLo, mLast, tLo, tHi);
    if tHi.Fin? {
      FixedClampSumLower(s, tHi.value, lo, hi, mFirst, mFirst, mLast);
      EmptyWindowSum(s, tHi.value, t, lo, hi, mFirst);
    }
  }

  /**
   * One pass of the loop: re-partitions the window [mFirst, mLast) into the
   * upper group U = {x > hi + t}, the middle and the lower group
   * L = {x <= lo + t}, and sums U and L.
   */
  method KnapsackPass(a: array<real>, mFirst: nat, mLast: nat, t: real, lo: real, hi: real)
      returns (itHi: nat, itLo: nat, sumHi: real, sumLo: real)
    requires mFirst <= mLast <= a.Length
    modifies a
    ensures PermutedWithin(old(a[..]), a[..], mFirst, mLast)
    ensures PassShape(a[..], t, lo, hi, mFirst, itHi, itLo, mLast)
    ensures sumHi == Sum(a[mFirst..itHi]) && sumLo == Sum(a[itLo..mLast])
  {
    ghost var s0 := a[..];
    var tt := lo + t;
    itLo := Partition(a, mFirst, mLast, x => x > tt);
    ghost var s1 := a[..];
    sumLo := Sum(a[itLo..mLast]);

    tt := hi + t;
    itHi := Partition(a, mFirst, itLo, x => x > tt);
    sumHi := Sum(a[mFirst..itHi]);

    PermutedWithinCompose(s0, s1, a[..], mFirst, mLast, mFirst, itLo);
    SuffixKept(s1, a[..], mFirst, itLo, mLast);
    PermutedWithinForall(s1, a[..], mFirst, itLo, x => x > lo + t);
    forall i | itLo <= i < mLast
      ensures a[i] <= lo + t
    {
      assert a[..][itLo..mLast][i - itLo] == s1[itLo..mLast][i - itLo];
    }
  }

  /**
   * Entries of U exceed hi + t and entries of L do not exceed lo + t, so the
   * infeasibility is non-positive when U is empty and non-negative when L is.
   */
  lemma {:induction false} PassSign(s: seq<real>, mFirst: nat, itHi: nat, itLo: nat, mLast: nat,
                 t: real, lo: real, hi: real, sumHi: real, nHi: nat, sumLo: real, nLo: nat)
    requires mFirst <= itHi <= itLo <= mLast <= |s|
    requires forall i :: mFirst <= i < itHi ==> s[i] > hi + t
    requires forall i :: itLo <= i < mLast ==> s[i] <= lo + t
    requires nHi == itHi - mFirst && nLo == mLast - itLo
    requires sumHi == Sum(s[mFirst..itHi]) && sumLo == Sum(s[itLo..mLast])
    ensures nHi == 0 ==> Infeasibility(sumHi, nHi, sumLo, nLo, t, lo, hi) <= 0.0
    ensures nLo == 0 ==> Infeasibility(sumHi, nHi, sumLo, nLo, t, lo, hi) >= 0.0
  {
    SumAtLeast(s[mFirst..itHi], hi + t);
    SumAtMost(s[itLo..mLast], lo + t);
    InfeasibilitySign(sumHi, nHi, sumLo, nLo, t, lo, hi);
  }

  /**
   * The final thresholds as the function promises them (eps is the
   * tolerance). The middle block lies strictly above lo + t and at most hi + t,
   * and a non-empty middle meets rhs within eps. For lo <= hi the reordered
   * buffer is consistent with the thresholds, and either the clamped sum is
   * within eps of rhs or rhs is out of reach: every entry is at hi and the sum
   * still falls short, or every entry is at lo and the sum still exceeds it.
   */
  ghost predicate KnapsackResult(s: seq<real>, th: Thresholds, lo: real, hi: real, rhs: real, eps: real)
  {
    th.lo == lo && th.hi == hi && th.first <= th.last <= |s|
    && (forall i :: th.first <= i < th.last ==> lo + th.t < s[i] <= hi + th.t)
    && (th.first < th.last ==> Abs(ShapedSum(th, s) - rhs) <= eps)
    && (lo <= hi ==>
          Consistent(s, th)
          && (Abs(ShapedSum(th, s) - rhs) <= eps
              || (th.first == th.last == |s| && ShapedSum(th, s) < rhs - eps)
              || (th.first == th.last == 0 && ShapedSum(th, s) > rhs + eps)))
  }

  /**
   * A feasible pass ends the loop: with |infeasibility| <= eps the shape fixed
   * by the pass meets rhs within eps.
   */
  lemma {:induction false} FeasibleResult(s: seq<real>, t: real, lo: real, hi: real, rhs: real, eps: real,
                       mFirst: nat, itHi: nat, itLo: nat, mLast: nat,
                       sumHi: real, nHi: nat, sumLo: real, nLo: nat, tLo: XReal, tHi: XReal)
    requires Balanced(s, t, lo, hi, rhs, mFirst, mLast)
    requires PassShape(s, t, lo, hi, mFirst, itHi, itLo, mLast)
    requires lo <= hi ==> Bracket(s, t, lo, hi, rhs, mFirst, mLast, tLo, tHi)
    requires nHi == itHi - mFirst && nLo == mLast - itLo
    requires sumHi == Sum(s[mFirst..itHi]) && sumLo == Sum(s[itLo..mLast])
    requires -eps <= Infeasibility(sumHi, nHi, sumLo, nLo, t, lo, hi) <= eps
    ensures KnapsackResult(s, Thresholds(t, lo, hi, itHi, itLo), lo, hi, rhs, eps)
  {
    FixBoth(s, t, lo, hi, rhs, mFirst, itHi, itLo, mLast, sumHi, nHi, sumLo, nLo);
    if lo <= hi {
      PassConsistent(s, t, lo, hi, rhs, mFirst, itHi, itLo, mLast, tLo, tHi);
    }
  }

  /** The exit after U emptied the window, as a KnapsackResult. */
  lemma {:induction false} UpperExitResult(s: seq<real>, t: real, lo: real, hi: real, rhs: real, eps: real,
                                           mFirst: nat, itHi: nat, itLo: nat, mLast: nat,
                                           sumHi: real, nHi: nat, sumLo: real, nLo: nat,
                                           tLo: XReal, tHi: XReal)
    requires eps >= 0.0
    requires Balanced(s, t, lo, hi, rhs, mFirst, mLast)
    requires lo <= hi ==> Bracket(s, t, lo, hi, rhs, mFirst, mLast, tLo, tHi)
    requires PassShape(s, t, lo, hi, mFirst, itHi, itLo, mLast)
    requires nHi == itHi - mFirst && nLo == mLast - itLo
    requires sumHi == Sum(s[mFirst..itHi]) && sumLo == Sum(s[itLo..mLast])
    requires Infeasibility(sumHi, nHi, sumLo, nLo, t, lo, hi) > eps && itHi == mLast
    ensures KnapsackResult(s, Thresholds(t, lo, hi, itHi, mLast), lo, hi, rhs, eps)
  {
    if lo <= hi {
      UpperExit(s, t, lo, hi, rhs, eps, mFirst, itHi, itLo, mLast, sumHi, nHi, sumLo, nLo, tLo, tHi);
    }
  }

  /** The exit after L emptied the window, as a KnapsackResult. */
  lemma {:induction false} LowerExitResult(s: seq<real>, t: real, lo: real, hi: real, rhs: real, eps: real,
                                           mFirst: nat, itHi: nat, itLo: nat, mLast: nat,
                                           sumHi: real, nHi: nat, sumLo: real, nLo: nat,
                                           tLo: XReal, tHi: XReal)
    requires eps >= 0.0
    requires Balanced(s, t, lo, hi, rhs, mFirst, mLast)
    requires lo <= hi ==> Bracket(s, t, lo, hi, rhs, mFirst, mLast, tLo, tHi)
    requires PassShape(s, t, lo, hi, mFirst, itHi, itLo, mLast)
    requires nHi == itHi - mFirst && nLo == mLast - itLo
    requires sumHi == Sum(s[mFirst..itHi]) && sumLo == Sum(s[itLo..mLast])
    requires Infeasibility(sumHi, nHi, sumLo, nLo, t, lo, hi) < -eps && itLo == mFirst
    ensures KnapsackResult(s, Thresholds(t, lo, hi, mFirst, itLo), lo, hi, rhs, eps)
  {
    if lo <= hi {
      LowerExit(s, t, lo, hi, rhs, eps, mFirst, itHi, itLo, mLast, sumHi, nHi, sumLo, nLo, tLo, tHi);
    }
  }

  /**
   * The decision that ends a round of `thresholds_knapsack_eq`, on the
   * buffer s the pass left behind: fix the upper group, fix the lower group,
   * or stop on a feasible pass. A round that does not stop shrinks the window
   * and keeps the balance for the new t, and (for lo <= hi) the bracket around
   * it; tLo and tHi are the ghost ends of the bracket.
   */
  method KnapsackDecide(ghost s: seq<real>, lo: real, hi: real, rhs: real, eps: real,
                        mFirst: nat, mLast: nat, m: nat, t: real,
                        itHi: nat, itLo: nat, sumHi: real, sumLo: real,
                        ghost tLo: XReal, ghost tHi: XReal)
      returns (done: bool, th: Thresholds, mFirst': nat, mLast': nat, m': nat, t': real,
               ghost tLo': XReal, ghost tHi': XReal)
    requires eps >= 0.0
    requires mFirst <= mLast <= |s| && m == mLast - mFirst && m > 0
    requires Balanced(s, t, lo, hi, rhs, mFirst, mLast)
    requires lo <= hi ==> Bracket(s, t, lo, hi, rhs, mFirst, mLast, tLo, tHi)
    requires PassShape(s, t, lo, hi, mFirst, itHi, itLo, mLast)
    requires sumHi == Sum(s[mFirst..itHi]) && sumLo == Sum(s[itLo..mLast])
    ensures done ==> KnapsackResult(s, th, lo, hi, rhs, eps)
    ensures !done ==> mFirst' <= mLast' <= |s| && m' == mLast' - mFirst' && 0 < m' < m
    ensures !done ==> Balanced(s, t', lo, hi, rhs, mFirst', mLast')
    ensures !done && lo <= hi ==> Bracket(s, t', lo, hi, rhs, mFirst', mLast', tLo', tHi')
  {
    done, th, mFirst', mLast', m', t' := false, Thresholds(t, lo, hi, mFirst, mLast), mFirst, mLast, m, t;
    tLo', tHi' := tLo, tHi;
    var nLo: nat := mLast - itLo;
    var nHi: nat := itHi - mFirst;
    PassSign(s, mFirst, itHi, itLo, mLast, t, lo, hi, sumHi, nHi, sumLo, nLo);

    // Check feasibility and fix variables
    var infeas := Infeasibility(sumHi, nHi, sumLo, nLo, t, lo, hi);
    if infeas > eps {
      var tt := Refit(m, t, sumHi, nHi, hi);
      FixUpper(s, t, lo, hi, rhs, mFirst, itHi, mLast, m, nHi, m - nHi, sumHi);
      mFirst', m' := itHi, m - nHi;
      if m' > 0 {
        t' := Mean(tt, m');
        tHi' := Fin(t);
        if lo <= hi {
          UpperFixBracket(s, t, lo, hi, rhs, eps, mFirst, itHi, itLo, mLast,
                          sumHi, nHi, sumLo, nLo, tLo, tHi, t');
        }
      } else {
        UpperExitResult(s, t, lo, hi, rhs, eps, mFirst, itHi, itLo, mLast,
                        sumHi, nHi, sumLo, nLo, tLo, tHi);
        done, th := true, Thresholds(t, lo, hi, mFirst', mLast);
      }
    } else if infeas < -eps {
      var tt := Refit(m, t, sumLo, nLo, lo);
      FixLower(s, t, lo, hi, rhs, mFirst, itLo, mLast, m, nLo, m - nLo, sumLo);
      mLast', m' := itLo, m - nLo;
      if m' > 0 {
        t' := Mean(tt, m');
        tLo' := Fin(t);
        if lo <= hi {
          LowerFixBracket(s, t, lo, hi, rhs, eps, mFirst, itHi, itLo, mLast,
                          sumHi, nHi, sumLo, nLo, tLo, tHi, t');
        }
      } else {
        LowerExitResult(s, t, lo, hi, rhs, eps, mFirst, itHi, itLo, mLast,
                        sumHi, nHi, sumLo, nLo, tLo, tHi);
        done, th := true, Thresholds(t, lo, hi, mFirst, mLast');
      }
    } else {
      FeasibleResult(s, t, lo, hi, rhs, eps, mFirst, itHi, itLo, mLast,
                     sumHi, nHi, sumLo, nLo, tLo, tHi);
      done, th := true, Thresholds(t, lo, hi, itHi, itLo);
    }
  }

  /**
   * One round of the loop of `thresholds_knapsack_eq`: re-partition the
   * window [mFirst, mLast) around hi + t and lo + t, then decide.
   */
  method KnapsackRound(a: array<real>, lo: real, hi: real, rhs: real, eps: real,
                       mFirst: nat, mLast: nat, m: nat, t: real, ghost tLo: XReal, ghost tHi: XReal)
      returns (done: bool, th: Thresholds, mFirst': nat, mLast': nat, m': nat, t': real,
               ghost tLo': XReal, ghost tHi': XReal)
    requires eps >= 0.0
    requires mFirst <= mLast <= a.Length && m == mLast - mFirst && m > 0
    requires Balanced(a[..], t, lo, hi, rhs, mFirst, mLast)
    requires lo <= hi ==> Bracket(a[..], t, lo, hi, rhs, mFirst, mLast, tLo, tHi)
    modifies a
    ensures multiset(a[..]) == multiset(old(a[..]))
    ensures done ==> KnapsackResult(a[..], th, lo, hi, rhs, eps)
    ensures !done ==> mFirst' <= mLast' <= a.Length && m' == mLast' - mFirst' && 0 < m' < m
    ensures !done ==> Balanced(a[..], t', lo, hi, rhs, mFirst', mLast')
    ensures !done && lo <= hi ==> Bracket(a[..], t', lo, hi, rhs, mFirst', mLast', tLo', tHi')
  {
    ghost var s0 := a[..];
    var itHi, itLo, sumHi, sumLo := KnapsackPass(a, mFirst, mLast, t, lo, hi);
    PermutedWithinWhole(s0, a[..], mFirst, mLast);
    BalancedPermuted(s0, a[..], t, lo, hi, rhs, mFirst, mLast);
    if lo <= hi {
      BracketPermuted(s0, a[..], t, lo, hi, rhs, mFirst, mLast, tLo, tHi);
    }
    done, th, mFirst', mLast', m', t', tLo', tHi' :=
      KnapsackDecide(a[..], lo, hi, rhs, eps, mFirst, mLast, m, t, itHi, itLo, sumHi, sumLo, tLo, tHi);
  }

  /**
   * `thresholds_knapsack_eq(first, last, lo, hi, rhs)`. On return the buffer
   * is a reordering of its input and the thresholds satisfy KnapsackResult.
   */
  method ThresholdsKnapsackEq(a: array<real>, lo: real, hi: real, rhs: real, machineEps: real)
      returns (th: Thresholds)
    requires a.Length > 0
    requires machineEps >= 0.0
    modifies a
    ensures multiset(a[..]) == multiset(old(a[..]))
    ensures KnapsackResult(a[..], th, lo, hi, rhs, KnapsackEps(machineEps, rhs))
  {
    var eps := KnapsackEps(machineEps, rhs);
    var m: nat := a.Length;
    var t := Mean(Sum(a[..]) - rhs, m);
    var mFirst: nat, mLast: nat := 0, a.Length;
    ghost var tLo: XReal, tHi: XReal := NegInf, PosInf;
    BalancedWhole(a[..], t, lo, hi, rhs);
    BracketInit(a[..], t, lo, hi, rhs);
    while true
      invariant mFirst <= mLast <= a.Length && m == mLast - mFirst && m > 0
      invariant multiset(a[..]) == multiset(old(a[..]))
      invariant Balanced(a[..], t, lo, hi, rhs, mFirst, mLast)
      invariant lo <= hi ==> Bracket(a[..], t, lo, hi, rhs, mFirst, mLast, tLo, tHi)
      decreases m
    {
      var done;
      done, th, mFirst, mLast, m, t, tLo, tHi := KnapsackRound(a, lo, hi, rhs, eps, mFirst, mLast, m, t, tLo, tHi);
      if done {
        return;
      }
    }
  }

  /**
   * The projection of the original buffer under thresholds found on a
   * reordering of it: for lo <= hi every entry lies in [lo, hi], and the sum
   * meets rhs within eps unless rhs is out of reach, in which case every
   * entry sits at the bound nearest to it.
   */
  lemma {:induction false} KnapsackProx(orig: seq<real>, s: seq<real>, th: Thresholds,
                                        lo: real, hi: real, rhs: real, eps: real)
    requires multiset(orig) == multiset(s)
    requires KnapsackResult(s, th, lo, hi, rhs, eps) && lo <= hi
    ensures forall i :: 0 <= i < |orig| ==> lo <= ProxSeq(orig, th)[i] <= hi
    ensures Abs(Sum(ProxSeq(orig, th)) - rhs) <= eps
         || ((forall i :: 0 <= i < |orig| ==> ProxSeq(orig, th)[i] == hi) && Sum(ProxSeq(orig, th)) < rhs - eps)
         || ((forall i :: 0 <= i < |orig| ==> ProxSeq(orig, th)[i] == lo) && Sum(ProxSeq(orig, th)) > rhs + eps)
  {
    ProxSeqInBounds(orig, th);
    SumProxCorrect(th, s);
    ProxSeqPermutation(orig, s, th);
    SumPermutation(ProxSeq(orig, th), ProxSeq(s, th));
    ConsistentShaped(th, s);
    forall i | 0 <= i < |orig|
      ensures th.first == |s| ==> ProxSeq(orig, th)[i] == hi
      ensures th.last == 0 ==> ProxSeq(orig, th)[i] == lo
    {
      assert orig[i] in multiset(s);
      var j :| 0 <= j < |s| && s[j] == orig[i];
      assert ProxSeq(orig, th)[i] == ProxSeq(s, th)[j];
    }
  }

  /**
   * `prox_knapsack_eq(first, last, lo, hi, rhs)`: the thresholds are computed
   * on a copy, then the caller's buffer is clamped in place, in its own order.
   * For lo <= hi the result lies in [lo, hi] and sums to rhs within eps, or,
   * when no vector in the box reaches rhs, sits at the bound nearest to it.
   */
  method ProxKnapsackEq(a: array<real>, lo: real, hi: real, rhs: real, machineEps: real)
      returns (th: Thresholds)
    requires a.Length > 0
    requires machineEps >= 0.0
    modifies a
    ensures th.lo == lo && th.hi == hi
    ensures a[..] == ProxSeq(old(a[..]), th)
    ensures lo <= hi ==> forall i :: 0 <= i < a.Length ==> lo <= a[i] <= hi
    ensures lo <= hi ==>
              Abs(Sum(a[..]) - rhs) <= KnapsackEps(machineEps, rhs)
              || ((forall i :: 0 <= i < a.Length ==> a[i] == hi) && Sum(a[..]) < rhs)
              || ((forall i :: 0 <= i < a.Length ==> a[i] == lo) && Sum(a[..]) > rhs)
  {
    var aux := Copy(a);
    th := ThresholdsKnapsackEq(aux, lo, hi, rhs, machineEps);
    ghost var orig := a[..];
    ProxWhole(th, a);
    if lo <= hi {
      KnapsackProx(orig, aux[..], th, lo, hi, rhs, KnapsackEps(machineEps, rhs));
    }
  }
}
