/**
 * `thresholds_two_simplex_sort`: the projection onto the two-simplex
 *    min ||x - a||^2 + ||y - b||^2   s.t.  <1, x> = <1, y> <= rhs,  x, y >= 0,
 * by a search over the common sum c = <1, x> = <1, y>. Both blocks are
 * sorted in descending order; with r (resp. s) active entries of a (resp.
 * b) the thresholds are theta_a = (sum_mu - c) / r and theta_b =
 * (sum_nu - c) / s, and the grid points where an entry enters the active
 * set split [0, rhs] into intervals. On each interval the optimal c is copt,
 * where theta_a + theta_b = 0.
 */
module TwoSimplexSort {
  import opened Numeric
  import opened Reorder
  import opened ProxDef
  import opened KnapsackEq
  import opened TwoSimplex

  /**
   * The margin a_r that the next grid point is computed from: the entry at
   * r, or past the end the pseudo point last - C.
   */
  function NextMargin(s: seq<real>, r: nat, cap: real): real
    requires 0 < |s| && r <= |s|
  {
    if r < |s| then s[r] else s[|s| - 1] - cap
  }

  /** copt = (s sum_mu + r sum_nu) / (r + s), where theta_a + theta_b = 0. */
  function Copt(sumMu: real, sumNu: real, r: nat, s: nat): real
    requires r + s > 0
  {
    ((s as real) * sumMu + (r as real) * sumNu) / ((r + s) as real)
  }

  /** c <= copt, stated without the division: (r + s) c <= s sum_mu + r sum_nu. */
  ghost predicate CoptAbove(c: real, sumMu: real, sumNu: real, r: nat, s: nat)
  {
    Times(r + s, c) <= Times(s, sumMu) + Times(r, sumNu)
  }

  /** The bracket of one block at c: c lies between the last and the next grid point. */
  ghost predicate BlockBracket(c: real, sum: real, r: nat, next: real, last: real)
  {
    c <= sum - Times(r, next) && sum - Times(r, last) <= c
  }

  /** The bookkeeping of one block: r active entries, their sum and the next margin. */
  ghost predicate GridState(s: seq<real>, cap: real, r: nat, sum: real, next: real)
  {
    1 <= r <= |s| && sum == Sum(s[..r]) && next == NextMargin(s, r, cap)
  }

  /** The loop state shared by both blocks. */
  ghost predicate SortLoop(sa: seq<real>, sb: seq<real>, cap: real, c: real, r: nat, s: nat,
                           sumMu: real, sumNu: real, aR: real, bS: real)
  {
    GridState(sa, cap, r, sumMu, aR) && GridState(sb, cap, s, sumNu, bS)
    && 0.0 <= c < cap
    && BlockBracket(c, sumMu, r, aR, sa[r - 1]) && BlockBracket(c, sumNu, s, bS, sb[s - 1])
  }

  /**
   * One block of the answer: bounds [0, rhs], the first r entries as middle,
   * all of them at least theta; every later entry exceeds theta by at most
   * eps / r, and is at most theta when the common sum is under rhs.
   */
  ghost predicate SortBlock(s: seq<real>, rhs: real, eps: real, th: Thresholds)
  {
    th.lo == 0.0 && th.hi == rhs && th.first == 0 && 1 <= th.last <= |s|
    && (forall i :: 0 <= i < th.last ==> s[i] >= th.t)
    && (forall i :: th.last <= i < |s| ==> Times(th.last, s[i] - th.t) <= eps)
    && (MiddleSum(s, th.t, th.last) < rhs ==> forall i :: th.last <= i < |s| ==> s[i] <= th.t)
  }

  /** Both blocks sorted and shaped, with the same shifted sum in [0, rhs]. */
  ghost predicate SortShape(sa: seq<real>, sb: seq<real>, rhs: real, eps: real,
                            thA: Thresholds, thB: Thresholds)
  {
    SortedDesc(sa) && SortedDesc(sb)
    && SortBlock(sa, rhs, eps, thA) && SortBlock(sb, rhs, eps, thB)
    && MiddleSum(sa, thA.t, thA.last) == MiddleSum(sb, thB.t, thB.last)
    && 0.0 <= MiddleSum(sa, thA.t, thA.last) <= rhs
  }

  /**
   * What the source returns: the shape, with theta_a + theta_b = 0 whenever
   * the common sum is under rhs.
   */
  ghost predicate AsWrittenSortResult(sa: seq<real>, sb: seq<real>, rhs: real, eps: real,
                                      thA: Thresholds, thB: Thresholds)
  {
    SortShape(sa, sb, rhs, eps, thA, thB)
    && (MiddleSum(sa, thA.t, thA.last) < rhs ==> thA.t + thB.t == 0.0)
  }

  /**
   * The optimality conditions in c: theta_a + theta_b = 0 inside (0, rhs),
   * at most 0 at c = 0, and at c = rhs at least -(r + s) eps / (r s), that is
   * r s (theta_a + theta_b) >= -(r + s) eps.
   */
  ghost predicate TwoSimplexSortResult(sa: seq<real>, sb: seq<real>, rhs: real, eps: real,
                                       thA: Thresholds, thB: Thresholds)
  {
    SortShape(sa, sb, rhs, eps, thA, thB)
    && (0.0 < MiddleSum(sa, thA.t, thA.last) < rhs ==> thA.t + thB.t == 0.0)
    && (MiddleSum(sa, thA.t, thA.last) == 0.0 ==> thA.t + thB.t <= 0.0)
    && (MiddleSum(sa, thA.t, thA.last) == rhs
        ==> Times(thA.last, Times(thB.last, thA.t + thB.t)) >= -Times(thA.last + thB.last, eps))
  }

  /** The source's next grid point (sum + a_r) - (r + 1) a_r is sum - r a_r. */
  lemma {:induction false} GridPoint(sum: real, r: nat, x: real)
    ensures (sum + x) - ((r + 1) as real) * x == sum - Times(r, x)
  {
    TimesMul(r, x);
  }

  /** The next margin never increases: past the end it is last - C < last. */
  lemma {:induction false} MarginStep(s: seq<real>, r: nat, cap: real)
    requires SortedDesc(s) && r < |s| && cap > 0.0
    ensures NextMargin(s, r + 1, cap) <= s[r]
  {
  }

  /** Times is monotone in the value. */
  lemma {:induction false} TimesMono(n: nat, x: real, y: real)
    requires x <= y
    ensures Times(n, x) <= Times(n, y)
  {
    TimesMul(n, x);
    TimesMul(n, y);
    MulMono(n as real, x, y);
  }

  /**
   * At r = |s| the pseudo point last - C puts the grid point at or above C,
   * so a grid point below C means r < |s|.
   */
  lemma {:induction false} GridInRange(s: seq<real>, cap: real, r: nat, sum: real, next: real)
    requires SortedDesc(s) && cap > 0.0 && GridState(s, cap, r, sum, next)
    requires sum - Times(r, next) < cap
    ensures r < |s|
  {
    if r == |s| {
      var last := s[|s| - 1];
      assert forall i :: 0 <= i < |s[..r]| ==> last <= s[..r][i];
      SumAtLeast(s[..r], last);
      TimesMul(r, last - cap);
      assert false;
    }
  }

  /** Entering entry r: the bracket moves to [c', next grid point]. */
  lemma {:induction false} BlockAdvance(c': real, sum: real, r: nat, next: real, next': real)
    requires c' == sum - Times(r, next) && next' <= next
    ensures BlockBracket(c', sum + next, r + 1, next', next)
  {
    TimesMono(r + 1, next', next);
  }

  /** copt of the current counts compared with c, with and without the division. */
  lemma {:induction false} CoptAboveIff(c: real, sumMu: real, sumNu: real, r: nat, s: nat)
    requires r + s > 0
    ensures c <= Copt(sumMu, sumNu, r, s) <==> CoptAbove(c, sumMu, sumNu, r, s)
  {
    var copt := Copt(sumMu, sumNu, r, s);
    CoptTimes(sumMu, sumNu, r, s);
    if c <= copt {
      TimesMono(r + s, c, copt);
    } else {
      TimesStrict(r + s, copt, c);
    }
  }

  /** Times is strictly monotone in the value for a positive count. */
  lemma {:induction false} TimesStrict(n: nat, x: real, y: real)
    requires n > 0 && x < y
    ensures Times(n, x) < Times(n, y)
  {
    if n > 1 {
      TimesStrict(n - 1, x, y);
    }
  }

  /** Times distributes over a sum of values. */
  lemma {:induction false} TimesPlus(n: nat, x: real, y: real)
    ensures Times(n, x + y) == Times(n, x) + Times(n, y)
  {
    if n > 0 {
      TimesPlus(n - 1, x, y);
    }
  }

  /** Nested Times commute: r (s x) = s (r x). */
  lemma {:induction false} TimesNest(r: nat, s: nat, x: real)
    ensures Times(r, Times(s, x)) == Times(s, Times(r, x))
  {
    if r > 0 {
      TimesNest(r - 1, s, x);
      TimesPlus(s, Times(r - 1, x), x);
    } else {
      TimesZero(s);
    }
  }

  /** A positive count with a non-negative Times leaves the value non-negative. */
  lemma {:induction false} TimesSign(n: nat, q: real)
    requires n > 0 && Times(n, q) >= 0.0
    ensures q >= 0.0
  {
    if q < 0.0 {
      TimesStrict(n, q, 0.0);
      TimesZero(n);
    }
  }

  /**
   * At the grid point c' = sum_mu - r a_r the entry a_r joins without moving
   * theta_a, so c' <= copt stays true for the new counts.
   */
  lemma {:induction false} CoptAdvance(c': real, sumMu: real, sumNu: real, r: nat, s: nat, next: real)
    requires r > 0 && c' == sumMu - Times(r, next) && CoptAbove(c', sumMu, sumNu, r, s)
    ensures CoptAbove(c', sumMu + next, sumNu, r + 1, s)
  {
    // The slack of c' <= copt is r q with q = s a_r + sum_nu - c'.
    var q := Times(s, next) + sumNu - c';
    TimesSub(s, sumMu, c');
    TimesSub(r, sumNu, c');
    TimesAdd(r, s, c');
    TimesNest(s, r, next);
    TimesPlus(r, Times(s, next), sumNu - c');
    assert Times(s, sumMu) + Times(r, sumNu) - Times(r + s, c') == Times(r, q);
    TimesSign(r, q);
    // One more entry adds q to the slack.
    TimesPlus(s, sumMu, next);
    TimesAdd(r, 1, sumNu);
    TimesAdd(r + s, 1, c');
  }

  /** The initial state r = s = 1, c = 0 satisfies the loop state. */
  lemma {:induction false} SortInit(sa: seq<real>, sb: seq<real>, cap: real)
    requires SortedDesc(sa) && SortedDesc(sb) && 0 < |sa| && 0 < |sb| && cap > 0.0
    ensures SortLoop(sa, sb, cap, 0.0, 1, 1, sa[0], sb[0], NextMargin(sa, 1, cap), NextMargin(sb, 1, cap))
  {
    MarginStep(sa, 0, cap);
    MarginStep(sb, 0, cap);
    assert sa[..1] == [sa[0]] && sb[..1] == [sb[0]];
    assert [sa[0]][..0] == [] && [sb[0]][..0] == [];
  }

  /**
   * Stepping to the grid point of block a (it comes before that of block b
   * and before C): a_r joins the active entries of a.
   */
  lemma {:induction false} SortStep(sa: seq<real>, sb: seq<real>, cap: real, c: real, r: nat, s: nat,
                 sumMu: real, sumNu: real, aR: real, bS: real, c': real)
    requires SortedDesc(sa) && cap > 0.0
    requires SortLoop(sa, sb, cap, c, r, s, sumMu, sumNu, aR, bS)
    requires c' == sumMu - Times(r, aR) && c' < cap && c' <= sumNu - Times(s, bS)
    ensures r < |sa| && aR == sa[r]
    ensures SortLoop(sa, sb, cap, c', r + 1, s, sumMu + aR, sumNu, NextMargin(sa, r + 1, cap), bS)
  {
    GridInRange(sa, cap, r, sumMu, aR);
    MarginStep(sa, r, cap);
    BlockAdvance(c', sumMu, r, aR, NextMargin(sa, r + 1, cap));
    SumStep(sa, 0, r);
    assert sa[0..r + 1] == sa[..r + 1] && sa[0..r] == sa[..r];
  }

  /** The same step for block b. */
  lemma {:induction false} SortStepB(sa: seq<real>, sb: seq<real>, cap: real, c: real, r: nat, s: nat,
                  sumMu: real, sumNu: real, aR: real, bS: real, c': real)
    requires SortedDesc(sb) && cap > 0.0
    requires SortLoop(sa, sb, cap, c, r, s, sumMu, sumNu, aR, bS)
    requires c' == sumNu - Times(s, bS) && c' < cap && c' <= sumMu - Times(r, aR)
    ensures s < |sb| && bS == sb[s]
    ensures SortLoop(sa, sb, cap, c', r, s + 1, sumMu, sumNu + bS, aR, NextMargin(sb, s + 1, cap))
  {
    SortStep(sb, sa, cap, c, s, r, sumNu, sumMu, bS, aR, c');
  }

  /**
   * One block at the exit with common sum bc: theta = (sum - bc) / r gives
   * the shifted sum bc, and the shape of SortBlock, both when bc < C lies
   * at or before the next grid point and when bc = C with the next grid
   * point at least C - eps.
   */
  lemma {:induction false} BlockExit(s: seq<real>, cap: real, eps: real, c: real, r: nat, sum: real, next: real,
                  bc: real, nextC: real)
    requires SortedDesc(s) && cap > 0.0 && eps >= 0.0
    requires GridState(s, cap, r, sum, next) && BlockBracket(c, sum, r, next, s[r - 1])
    requires c <= bc <= cap && nextC <= sum - Times(r, next)
    requires (bc < cap && bc <= nextC) || (bc == cap && nextC >= cap - eps)
    ensures SortBlock(s, cap, eps, Thresholds(Mean(sum - bc, r), 0.0, cap, 0, r))
    ensures MiddleSum(s, Mean(sum - bc, r), r) == bc
  {
    var t := Mean(sum - bc, r);
    TimesCancel(r, t, s[r - 1]);
    if r < |s| {
      if bc < cap {
        TimesCancel(r, next, t);
        TimesMono(r, next - t, 0.0);
        TimesZero(r);
        TailBelow(s, r, t);
      } else {
        TimesSub(r, next, t);
      }
      TailBound(s, r, t, eps);
    }
  }

  /** Times distributes over a difference. */
  lemma {:induction false} TimesSub(n: nat, x: real, y: real)
    ensures Times(n, x - y) == Times(n, x) - Times(n, y)
  {
    TimesPlus(n, x - y, y);
  }

  /** On a descending sequence, entry r at most t bounds the whole tail. */
  lemma {:induction false} TailBelow(s: seq<real>, r: nat, t: real)
    requires SortedDesc(s) && r < |s| && s[r] <= t
    ensures forall i :: r <= i < |s| ==> s[i] <= t
  {
  }

  /** On a descending sequence, the bound on entry r covers the whole tail. */
  lemma {:induction false} TailBound(s: seq<real>, r: nat, t: real, eps: real)
    requires SortedDesc(s) && r < |s| && Times(r, s[r] - t) <= eps
    ensures forall i :: r <= i < |s| ==> Times(r, s[i] - t) <= eps
  {
    forall i | r <= i < |s|
      ensures Times(r, s[i] - t) <= eps
    {
      TimesMono(r, s[i] - t, s[r] - t);
    }
  }

  /** Dividing by a positive d and multiplying back. */
  lemma MulDiv(x: real, d: real)
    requires d > 0.0
    ensures d * (x / d) == x
  {
  }

  /**
   * theta_a and theta_b of a common sum bc, weighted by r s: their sum is
   * (s sum_mu + r sum_nu) - (r + s) bc.
   */
  lemma {:induction false} DualGap(sumMu: real, sumNu: real, r: nat, s: nat, bc: real, ta: real, tb: real)
    requires Times(r, ta) == sumMu - bc && Times(s, tb) == sumNu - bc
    ensures Times(r, Times(s, ta + tb)) == Times(s, sumMu) + Times(r, sumNu) - Times(r + s, bc)
  {
    TimesPlus(s, ta, tb);
    TimesPlus(r, Times(s, ta), Times(s, tb));
    TimesNest(r, s, ta);
    TimesSub(s, sumMu, bc);
    TimesSub(r, sumNu, bc);
    TimesAdd(r, s, bc);
  }

  /** r s v with r, s > 0 has the sign of v. */
  lemma {:induction false} WeightSign(r: nat, s: nat, v: real)
    requires r > 0 && s > 0
    ensures Times(r, Times(s, v)) == 0.0 ==> v == 0.0
    ensures Times(r, Times(s, v)) < 0.0 ==> v < 0.0
  {
    TimesZero(s);
    TimesZero(r);
    if v > 0.0 {
      TimesStrict(s, 0.0, v);
      TimesStrict(r, 0.0, Times(s, v));
    } else if v < 0.0 {
      TimesStrict(s, v, 0.0);
      TimesStrict(r, Times(s, v), 0.0);
    }
  }

  /** (r + s) copt = s sum_mu + r sum_nu. */
  lemma {:induction false} CoptTimes(sumMu: real, sumNu: real, r: nat, s: nat)
    requires r + s > 0
    ensures Times(r + s, Copt(sumMu, sumNu, r, s)) == Times(s, sumMu) + Times(r, sumNu)
  {
    var x := (s as real) * sumMu + (r as real) * sumNu;
    MulDiv(x, (r + s) as real);
    TimesMul(r + s, Copt(sumMu, sumNu, r, s));
    TimesMul(s, sumMu);
    TimesMul(r, sumNu);
  }

  /** At c = copt the thresholds cancel. */
  lemma {:induction false} CoptBalance(sumMu: real, sumNu: real, r: nat, s: nat, bc: real)
    requires r > 0 && s > 0 && bc == Copt(sumMu, sumNu, r, s)
    ensures Mean(sumMu - bc, r) + Mean(sumNu - bc, s) == 0.0
  {
    CoptTimes(sumMu, sumNu, r, s);
    DualGap(sumMu, sumNu, r, s, bc, Mean(sumMu - bc, r), Mean(sumNu - bc, s));
    WeightSign(r, s, Mean(sumMu - bc, r) + Mean(sumNu - bc, s));
  }

  /** With copt at least C - eps, r s (theta_a + theta_b) >= -(r + s) eps at c = C. */
  lemma {:induction false} CapDual(sumMu: real, sumNu: real, r: nat, s: nat, cap: real, eps: real)
    requires r > 0 && s > 0 && Copt(sumMu, sumNu, r, s) >= cap - eps
    ensures Times(r, Times(s, Mean(sumMu - cap, r) + Mean(sumNu - cap, s))) >= -Times(r + s, eps)
  {
    CoptAboveIff(cap - eps, sumMu, sumNu, r, s);
    DualGap(sumMu, sumNu, r, s, cap, Mean(sumMu - cap, r), Mean(sumNu - cap, s));
    TimesSub(r + s, cap, eps);
  }

  /** copt below c = 0: the thresholds of c = 0 add up to a negative value. */
  lemma {:induction false} CoptBelowZero(sumMu: real, sumNu: real, r: nat, s: nat)
    requires r > 0 && s > 0 && Copt(sumMu, sumNu, r, s) < 0.0
    ensures Mean(sumMu - 0.0, r) + Mean(sumNu - 0.0, s) < 0.0
  {
    CoptAboveIff(0.0, sumMu, sumNu, r, s);
    TimesZero(r + s);
    DualGap(sumMu, sumNu, r, s, 0.0, Mean(sumMu - 0.0, r), Mean(sumNu - 0.0, s));
    WeightSign(r, s, Mean(sumMu - 0.0, r) + Mean(sumNu - 0.0, s));
  }

  /** `make_thresholds(theta, 0, rhs, first, first + r)` with theta = (sum - bc) / r. */
  function SortThresholds(sum: real, bc: real, r: nat, rhs: real): Thresholds
    requires r > 0
  {
    Thresholds(Mean(sum - bc, r), 0.0, rhs, 0, r)
  }

  /** The exit at c <= bc <= next_c with cancelling thresholds: both results, common sum bc < C. */
  lemma {:induction false} ExitAtCopt(sa: seq<real>, sb: seq<real>, cap: real, eps: real, c: real, r: nat, s: nat,
                   sumMu: real, sumNu: real, aR: real, bS: real, nextC: real, bc: real)
    requires SortedDesc(sa) && SortedDesc(sb) && cap > 0.0 && eps >= 0.0
    requires SortLoop(sa, sb, cap, c, r, s, sumMu, sumNu, aR, bS)
    requires nextC <= sumMu - Times(r, aR) && nextC <= sumNu - Times(s, bS) && nextC <= cap
    requires c <= bc < nextC && Mean(sumMu - bc, r) + Mean(sumNu - bc, s) == 0.0
    ensures AsWrittenSortResult(sa, sb, cap, eps, SortThresholds(sumMu, bc, r, cap),
                                SortThresholds(sumNu, bc, s, cap))
    ensures TwoSimplexSortResult(sa, sb, cap, eps, SortThresholds(sumMu, bc, r, cap),
                                 SortThresholds(sumNu, bc, s, cap))
  {
    BlockExit(sa, cap, eps, c, r, sumMu, aR, bc, nextC);
    BlockExit(sb, cap, eps, c, s, sumNu, bS, bc, nextC);
    ResultInside(sa, sb, cap, eps, SortThresholds(sumMu, bc, r, cap), SortThresholds(sumNu, bc, s, cap), bc);
  }

  /** Both blocks shaped with common sum bc below rhs and cancelling thresholds: both results hold. */
  lemma {:induction false} ResultInside(sa: seq<real>, sb: seq<real>, rhs: real, eps: real, thA: Thresholds, thB: Thresholds,
                     bc: real)
    requires SortedDesc(sa) && SortedDesc(sb) && SortBlock(sa, rhs, eps, thA) && SortBlock(sb, rhs, eps, thB)
    requires MiddleSum(sa, thA.t, thA.last) == bc && MiddleSum(sb, thB.t, thB.last) == bc
    requires 0.0 <= bc < rhs && thA.t + thB.t == 0.0
    ensures AsWrittenSortResult(sa, sb, rhs, eps, thA, thB)
    ensures TwoSimplexSortResult(sa, sb, rhs, eps, thA, thB)
  {
  }

  /**
   * The exit at C once the next grid point reaches C - eps: the source's
   * result, and the optimality conditions too when r s (theta_a + theta_b)
   * stays at least -(r + s) eps there.
   */
  lemma {:induction false} ExitAtCap(sa: seq<real>, sb: seq<real>, cap: real, eps: real, c: real, r: nat, s: nat,
                  sumMu: real, sumNu: real, aR: real, bS: real, nextC: real)
    requires SortedDesc(sa) && SortedDesc(sb) && cap > 0.0 && eps >= 0.0
    requires SortLoop(sa, sb, cap, c, r, s, sumMu, sumNu, aR, bS)
    requires nextC <= sumMu - Times(r, aR) && nextC <= sumNu - Times(s, bS) && nextC <= cap
    requires nextC >= cap - eps
    ensures AsWrittenSortResult(sa, sb, cap, eps, SortThresholds(sumMu, cap, r, cap),
                                SortThresholds(sumNu, cap, s, cap))
    ensures Times(r, Times(s, Mean(sumMu - cap, r) + Mean(sumNu - cap, s))) >= -Times(r + s, eps)
            ==> TwoSimplexSortResult(sa, sb, cap, eps, SortThresholds(sumMu, cap, r, cap),
                                     SortThresholds(sumNu, cap, s, cap))
  {
    BlockExit(sa, cap, eps, c, r, sumMu, aR, cap, nextC);
    BlockExit(sb, cap, eps, c, s, sumNu, bS, cap, nextC);
    ResultAtCap(sa, sb, cap, eps, SortThresholds(sumMu, cap, r, cap), SortThresholds(sumNu, cap, s, cap));
  }

  /** Both blocks shaped with common sum rhs: the source's result, and the optimality conditions given the one at C. */
  lemma {:induction false} ResultAtCap(sa: seq<real>, sb: seq<real>, rhs: real, eps: real, thA: Thresholds, thB: Thresholds)
    requires SortedDesc(sa) && SortedDesc(sb) && SortBlock(sa, rhs, eps, thA) && SortBlock(sb, rhs, eps, thB)
    requires MiddleSum(sa, thA.t, thA.last) == rhs && MiddleSum(sb, thB.t, thB.last) == rhs && rhs > 0.0
    ensures AsWrittenSortResult(sa, sb, rhs, eps, thA, thB)
    ensures Times(thA.last, Times(thB.last, thA.t + thB.t)) >= -Times(thA.last + thB.last, eps)
            ==> TwoSimplexSortResult(sa, sb, rhs, eps, thA, thB)
  {
  }

  /** The corrected exit at c = 0 when the thresholds of c = 0 add up below 0: x = y = 0. */
  lemma {:induction false} ExitAtZero(sa: seq<real>, sb: seq<real>, cap: real, eps: real, r: nat, s: nat,
                   sumMu: real, sumNu: real, aR: real, bS: real, nextC: real)
    requires SortedDesc(sa) && SortedDesc(sb) && cap > 0.0 && eps >= 0.0
    requires SortLoop(sa, sb, cap, 0.0, r, s, sumMu, sumNu, aR, bS)
    requires nextC <= sumMu - Times(r, aR) && nextC <= sumNu - Times(s, bS) && nextC <= cap
    requires 0.0 <= nextC && Mean(sumMu - 0.0, r) + Mean(sumNu - 0.0, s) < 0.0
    ensures TwoSimplexSortResult(sa, sb, cap, eps, SortThresholds(sumMu, 0.0, r, cap),
                                 SortThresholds(sumNu, 0.0, s, cap))
  {
    BlockExit(sa, cap, eps, 0.0, r, sumMu, aR, 0.0, nextC);
    BlockExit(sb, cap, eps, 0.0, s, sumNu, bS, 0.0, nextC);
    ResultAtZero(sa, sb, cap, eps, SortThresholds(sumMu, 0.0, r, cap), SortThresholds(sumNu, 0.0, s, cap));
  }

  /** Both blocks shaped with common sum 0 and thresholds adding up below 0: the optimality conditions. */
  lemma {:induction false} ResultAtZero(sa: seq<real>, sb: seq<real>, rhs: real, eps: real, thA: Thresholds, thB: Thresholds)
    requires SortedDesc(sa) && SortedDesc(sb) && SortBlock(sa, rhs, eps, thA) && SortBlock(sb, rhs, eps, thB)
    requires MiddleSum(sa, thA.t, thA.last) == 0.0 && MiddleSum(sb, thB.t, thB.last) == 0.0 && rhs > 0.0
    requires thA.t + thB.t < 0.0
    ensures TwoSimplexSortResult(sa, sb, rhs, eps, thA, thB)
  {
  }

  /**
   * Moving to the next grid point c' <= copt: c' <= copt holds for the new
   * counts, whichever block gains an entry.
   */
  lemma {:induction false} CoptStep(c': real, sumMu: real, sumNu: real, r: nat, s: nat, aR: real, bS: real, advanceA: bool)
    requires r > 0 && s > 0 && c' <= Copt(sumMu, sumNu, r, s)
    requires advanceA ==> c' == sumMu - Times(r, aR)
    requires !advanceA ==> c' == sumNu - Times(s, bS)
    ensures advanceA ==> CoptAbove(c', sumMu + aR, sumNu, r + 1, s)
    ensures !advanceA ==> CoptAbove(c', sumMu, sumNu + bS, r, s + 1)
  {
    CoptAboveIff(c', sumMu, sumNu, r, s);
    if advanceA {
      CoptAdvance(c', sumMu, sumNu, r, s, aR);
    } else {
      CoptAdvance(c', sumNu, sumMu, s, r, bS);
      assert ((s + 1 + r) as real) == ((r + (s + 1)) as real);
    }
  }

  /**
   * Stepping to the next grid point: the block whose candidate next_c is
   * smaller (b on a tie) gains its next entry. c <= copt carries over to
   * the new counts whenever the step does not pass copt.
   */
  method SortAdvance(a: array<real>, b: array<real>, cap: real, c: real, r: nat, s: nat,
                     sumMu: real, sumNu: real, aR: real, bS: real, nextCr: real, nextCs: real, nextC: real)
      returns (r': nat, s': nat, sumMu': real, sumNu': real, aR': real, bS': real)
    requires SortedDesc(a[..]) && SortedDesc(b[..]) && cap > 0.0
    requires SortLoop(a[..], b[..], cap, c, r, s, sumMu, sumNu, aR, bS)
    requires nextCr == sumMu - Times(r, aR) && nextCs == sumNu - Times(s, bS)
    requires nextC == (if nextCr < nextCs then nextCr else nextCs) && nextC < cap
    ensures SortLoop(a[..], b[..], cap, nextC, r', s', sumMu', sumNu', aR', bS')
    ensures r' + s' == r + s + 1
    ensures nextC <= Copt(sumMu, sumNu, r, s) ==> CoptAbove(nextC, sumMu', sumNu', r', s')
  {
    if nextCr < nextCs {
      SortStep(a[..], b[..], cap, c, r, s, sumMu, sumNu, aR, bS, nextC);
      if nextC <= Copt(sumMu, sumNu, r, s) {
        CoptStep(nextC, sumMu, sumNu, r, s, aR, bS, true);
      }
      r', s', sumMu', sumNu' := r + 1, s, sumMu + aR, sumNu;
      aR', bS' := NextMargin(a[..], r', cap), bS;
    } else {
      SortStepB(a[..], b[..], cap, c, r, s, sumMu, sumNu, aR, bS, nextC);
      if nextC <= Copt(sumMu, sumNu, r, s) {
        CoptStep(nextC, sumMu, sumNu, r, s, aR, bS, false);
      }
      r', s', sumMu', sumNu' := r, s + 1, sumMu, sumNu + bS;
      aR', bS' := aR, NextMargin(b[..], s', cap);
    }
  }

  /** Sort a whole block in descending order. */
  method SortBlockDesc(a: array<real>)
    modifies a
    ensures multiset(a[..]) == multiset(old(a[..]))
    ensures SortedDesc(a[..])
  {
    SortDescending(a, 0, a.Length);
    PermutedWithinWhole(old(a[..]), a[..], 0, a.Length);
    assert a[0..a.Length] == a[..];
  }

  /**
   * `thresholds_two_simplex_sort(a_first, a_last, b_first, b_last, rhs)` as
   * written: it asserts rhs > 0 and non-empty blocks, sorts both blocks and
   * searches c from 0 with r = s = 1. When the largest entries satisfy
   * a_max + b_max >= 0 its answer meets the optimality conditions.
   */
  method ThresholdsTwoSimplexSortAsWritten(a: array<real>, b: array<real>, rhs: real, machineEps: real)
      returns (thA: Thresholds, thB: Thresholds)
    requires a != b && a.Length > 0 && b.Length > 0 && rhs > 0.0 && machineEps >= 0.0
    modifies a, b
    ensures multiset(a[..]) == multiset(old(a[..])) && multiset(b[..]) == multiset(old(b[..]))
    ensures AsWrittenSortResult(a[..], b[..], rhs, KnapsackEps(machineEps, rhs), thA, thB)
    ensures a[0] + b[0] >= 0.0 ==> TwoSimplexSortResult(a[..], b[..], rhs, KnapsackEps(machineEps, rhs), thA, thB)
  {
    var eps := KnapsackEps(machineEps, rhs);

    // Sort the margins in descending order
    SortBlockDesc(a);
    SortBlockDesc(b);
    ghost var sa, sb := a[..], b[..];

    var c, cap, bestC := 0.0, rhs, rhs;
    var sumMu, sumNu := a[0], b[0];
    var r: nat, s: nat := 1, 1;
    var aR, bS := NextMargin(a[..], r, cap), NextMargin(b[..], s, cap);
    SortInit(sa, sb, cap);
    while c < cap
      invariant a[..] == sa && b[..] == sb
      invariant SortLoop(sa, sb, cap, c, r, s, sumMu, sumNu, aR, bS)
      invariant sa[0] + sb[0] >= 0.0 ==> CoptAbove(c, sumMu, sumNu, r, s)
      decreases (|sa| - r) + (|sb| - s)
    {
      var copt := Copt(sumMu, sumNu, r, s);
      var nextCr := (sumMu + aR) - ((r + 1) as real) * aR;
      var nextCs := (sumNu + bS) - ((s + 1) as real) * bS;
      var nextC := Min(Min(nextCr, nextCs), cap);
      GridPoint(sumMu, r, aR);
      GridPoint(sumNu, s, bS);
      if sa[0] + sb[0] >= 0.0 {
        CoptAboveIff(c, sumMu, sumNu, r, s);
      }

      // The optimal c falls in [c, next_c)
      if c <= copt && copt < nextC {
        bestC := copt;
        CoptBalance(sumMu, sumNu, r, s, copt);
        ExitAtCopt(sa, sb, cap, eps, c, r, s, sumMu, sumNu, aR, bS, nextC, copt);
        break;
      }

      // C is reached
      if nextC >= cap - eps {
        bestC := cap;
        ExitAtCap(sa, sb, cap, eps, c, r, s, sumMu, sumNu, aR, bS, nextC);
        if sa[0] + sb[0] >= 0.0 {
          CapDual(sumMu, sumNu, r, s, cap, eps);
        }
        break;
      }

      // Update the candidates for next_c
      r, s, sumMu, sumNu, aR, bS := SortAdvance(a, b, cap, c, r, s, sumMu, sumNu, aR, bS, nextCr, nextCs, nextC);
      c := nextC;
    }

    // Calculate the thresholds
    thA := SortThresholds(sumMu, bestC, r, rhs);
    thB := SortThresholds(sumNu, bestC, s, rhs);
  }

  /**
   * `thresholds_two_simplex_sort` with copt clamped to the interval
   * [c, next_c): an optimum below c = 0 stops the search at 0 instead of
   * running on to C.
   */
  method ThresholdsTwoSimplexSort(a: array<real>, b: array<real>, rhs: real, machineEps: real)
      returns (thA: Thresholds, thB: Thresholds)
    requires a != b && a.Length > 0 && b.Length > 0 && rhs > 0.0 && machineEps >= 0.0
    modifies a, b
    ensures multiset(a[..]) == multiset(old(a[..])) && multiset(b[..]) == multiset(old(b[..]))
    ensures TwoSimplexSortResult(a[..], b[..], rhs, KnapsackEps(machineEps, rhs), thA, thB)
  {
    var eps := KnapsackEps(machineEps, rhs);

    // Sort the margins in descending order
    SortBlockDesc(a);
    SortBlockDesc(b);
    ghost var sa, sb := a[..], b[..];

    var c, cap, bestC := 0.0, rhs, rhs;
    var sumMu, sumNu := a[0], b[0];
    var r: nat, s: nat := 1, 1;
    var aR, bS := NextMargin(a[..], r, cap), NextMargin(b[..], s, cap);
    SortInit(sa, sb, cap);
    while c < cap
      invariant a[..] == sa && b[..] == sb
      invariant SortLoop(sa, sb, cap, c, r, s, sumMu, sumNu, aR, bS)
      invariant c == 0.0 || CoptAbove(c, sumMu, sumNu, r, s)
      decreases (|sa| - r) + (|sb| - s)
    {
      var copt := Copt(sumMu, sumNu, r, s);
      var nextCr := (sumMu + aR) - ((r + 1) as real) * aR;
      var nextCs := (sumNu + bS) - ((s + 1) as real) * bS;
      var nextC := Min(Min(nextCr, nextCs), cap);
      GridPoint(sumMu, r, aR);
      GridPoint(sumNu, s, bS);

      // The optimal c, clamped to [c, next_c), falls in [c, next_c)
      if copt < nextC {
        bestC := Max(c, copt);
        if c <= copt {
          CoptBalance(sumMu, sumNu, r, s, copt);
          ExitAtCopt(sa, sb, cap, eps, c, r, s, sumMu, sumNu, aR, bS, nextC, copt);
        } else {
          CoptAboveIff(c, sumMu, sumNu, r, s);
          CoptBelowZero(sumMu, sumNu, r, s);
          ExitAtZero(sa, sb, cap, eps, r, s, sumMu, sumNu, aR, bS, nextC);
        }
        break;
      }

      // C is reached
      if nextC >= cap - eps {
        bestC := cap;
        ExitAtCap(sa, sb, cap, eps, c, r, s, sumMu, sumNu, aR, bS, nextC);
        CapDual(sumMu, sumNu, r, s, cap, eps);
        break;
      }

      // Update the candidates for next_c
      r, s, sumMu, sumNu, aR, bS := SortAdvance(a, b, cap, c, r, s, sumMu, sumNu, aR, bS, nextCr, nextCs, nextC);
      c := nextC;
    }

    // Calculate the thresholds
    thA := SortThresholds(sumMu, bestC, r, rhs);
    thB := SortThresholds(sumNu, bestC, s, rhs);
  }

  /**
   * One block of the answer clamped to [0, rhs]: entries in [0, rhs], x - t
   * on the first r entries, and shaped sum equal to the shifted sum; below
   * rhs the thresholds are consistent, so the clamped block sums to it.
   */
  lemma {:induction false} SortBlockProx(s: seq<real>, rhs: real, eps: real, th: Thresholds)
    requires rhs > 0.0 && SortBlock(s, rhs, eps, th) && 0.0 <= MiddleSum(s, th.t, th.last) <= rhs
    ensures forall i :: 0 <= i < |s| ==> 0.0 <= ProxSeq(s, th)[i] <= rhs
    ensures forall i :: 0 <= i < th.last ==> ProxSeq(s, th)[i] == s[i] - th.t
    ensures ShapedSum(th, s) == MiddleSum(s, th.t, th.last)
    ensures MiddleSum(s, th.t, th.last) < rhs
            ==> Consistent(s, th) && Sum(ProxSeq(s, th)) == MiddleSum(s, th.t, th.last)
  {
    var l := th.last;
    var u := seq(l, i requires 0 <= i < l => s[i] - th.t);
    SumShift(s[..l], u, th.t);
    forall i | 0 <= i < l
      ensures s[i] - th.t <= rhs
    {
      EntryAtMostSum(u, i);
    }
    forall i | 0 <= i < l
      ensures ProxSeq(s, th)[i] == s[i] - th.t
    {
      ClampSpec(s[i], th);
    }
    ProxSeqInBounds(s, th);
    MiddleShaped(s, th);
    if MiddleSum(s, th.t, l) < rhs {
      SumProxCorrect(th, s);
    }
  }

  /**
   * What the projection makes of a result: both blocks land in [0, rhs]
   * with x_i = a_i - theta_a (y_j = b_j - theta_b) on the active entries and
   * equal shaped sums in [0, rhs]; below rhs the thresholds are consistent
   * and <1, x> = <1, y> holds exactly.
   */
  lemma {:induction false} TwoSimplexSortProx(sa: seq<real>, sb: seq<real>, rhs: real, eps: real, thA: Thresholds, thB: Thresholds)
    requires rhs > 0.0 && SortShape(sa, sb, rhs, eps, thA, thB)
    ensures forall i :: 0 <= i < |sa| ==> 0.0 <= ProxSeq(sa, thA)[i] <= rhs
    ensures forall j :: 0 <= j < |sb| ==> 0.0 <= ProxSeq(sb, thB)[j] <= rhs
    ensures forall i :: 0 <= i < thA.last ==> ProxSeq(sa, thA)[i] == sa[i] - thA.t
    ensures forall j :: 0 <= j < thB.last ==> ProxSeq(sb, thB)[j] == sb[j] - thB.t
    ensures ShapedSum(thA, sa) == ShapedSum(thB, sb)
    ensures 0.0 <= ShapedSum(thA, sa) <= rhs
    ensures ShapedSum(thA, sa) < rhs ==> Consistent(sa, thA) && Consistent(sb, thB)
    ensures ShapedSum(thA, sa) < rhs ==> Sum(ProxSeq(sa, thA)) == Sum(ProxSeq(sb, thB)) == ShapedSum(thA, sa)
  {
    SortBlockProx(sa, rhs, eps, thA);
    SortBlockProx(sb, rhs, eps, thB);
  }

  /**
   * The largest entries a_0, b_0 bound theta_a and theta_b from above, so
   * when a_0 + b_0 < 0 the thresholds cannot cancel: the source's result
   * then always has common sum rhs.
   */
  lemma {:induction false} AsWrittenSortNegative(sa: seq<real>, sb: seq<real>, rhs: real, eps: real, thA: Thresholds, thB: Thresholds)
    requires 0 < |sa| && 0 < |sb| && sa[0] + sb[0] < 0.0
    requires AsWrittenSortResult(sa, sb, rhs, eps, thA, thB)
    ensures MiddleSum(sa, thA.t, thA.last) == rhs
  {
    assert sa[0] >= thA.t && sb[0] >= thB.t;
  }

  /**
   * On a = b = [-1, -2] with rhs = 1 and eps < 1, every result the source
   * can return fails the optimality conditions: it projects to common sum
   * 1 (x = y = [1, 0]) where theta_a + theta_b = -4, while the optimum is
   * x = y = 0.
   */
  lemma AsWrittenSortCounterexample(eps: real, thA: Thresholds, thB: Thresholds)
    requires 0.0 <= eps < 1.0
    requires AsWrittenSortResult([-1.0, -2.0], [-1.0, -2.0], 1.0, eps, thA, thB)
    ensures !TwoSimplexSortResult([-1.0, -2.0], [-1.0, -2.0], 1.0, eps, thA, thB)
  {
    var ex := [-1.0, -2.0];
    AsWrittenSortNegative(ex, ex, 1.0, eps, thA, thB);
    assert ex[0] >= thA.t && ex[0] >= thB.t;
    CapViolated(thA.last, thB.last, thA.t + thB.t, eps);
  }

  /** With counts 1 or 2 and v <= -2, r s v < -(r + s) eps for every eps < 1. */
  lemma {:induction false} CapViolated(r: nat, s: nat, v: real, eps: real)
    requires 1 <= r <= 2 && 1 <= s <= 2 && v <= -2.0 && eps < 1.0
    ensures Times(r, Times(s, v)) < -Times(r + s, eps)
  {
    TimesMul(s, v);
    TimesMul(r, Times(s, v));
    TimesMul(r + s, eps);
  }

  /** A count of at least one scales a non-negative value up. */
  lemma {:induction false} TimesAtLeastOnce(n: nat, x: real)
    requires n >= 1 && x >= 0.0
    ensures Times(n, x) >= x
  {
    TimesMul(n, x);
    MulMono(x, 1.0, n as real);
  }

  /**
   * A block whose shifted sum reaches rhs clamps to a total in
   * [rhs, rhs + |s| eps]: the first r entries give rhs and each later one
   * at most eps.
   */
  lemma {:induction false} SortBlockCapSum(s: seq<real>, rhs: real, eps: real, th: Thresholds)
    requires rhs > 0.0 && eps >= 0.0 && SortBlock(s, rhs, eps, th) && MiddleSum(s, th.t, th.last) == rhs
    ensures rhs <= Sum(ProxSeq(s, th)) <= rhs + Times(|s|, eps)
  {
    var p := ProxSeq(s, th);
    var l := th.last;
    SortBlockProx(s, rhs, eps, th);
    SumShift(s[..l], p[..l], th.t);
    SortTailAtMost(s, rhs, eps, th);
    SumTailAtMost(p, l, eps);
    SumTailNonNegative(p, l);
  }

  /** Past the first r entries of a block every clamped entry lies in [0, eps]. */
  lemma {:induction false} SortTailAtMost(s: seq<real>, rhs: real, eps: real, th: Thresholds)
    requires rhs > 0.0 && eps >= 0.0 && SortBlock(s, rhs, eps, th)
    ensures forall i :: th.last <= i < |s| ==> 0.0 <= ProxSeq(s, th)[i] <= eps
  {
    forall i | th.last <= i < |s|
      ensures 0.0 <= ProxSeq(s, th)[i] <= eps
    {
      ClampSpec(s[i], th);
      if s[i] - th.t > 0.0 {
        TimesAtLeastOnce(th.last, s[i] - th.t);
      }
    }
  }

  /**
   * The totals of the two clamped blocks: equal to the common shifted sum
   * when that is under rhs, and otherwise each in [rhs, rhs + n eps].
   */
  lemma {:induction false} TwoSimplexSortSums(sa: seq<real>, sb: seq<real>, rhs: real, eps: real,
                                              thA: Thresholds, thB: Thresholds)
    requires rhs > 0.0 && eps >= 0.0 && SortShape(sa, sb, rhs, eps, thA, thB)
    ensures (Sum(ProxSeq(sa, thA)) == Sum(ProxSeq(sb, thB)) == MiddleSum(sa, thA.t, thA.last) < rhs)
            || (MiddleSum(sa, thA.t, thA.last) == rhs
                && rhs <= Sum(ProxSeq(sa, thA)) <= rhs + Times(|sa|, eps)
                && rhs <= Sum(ProxSeq(sb, thB)) <= rhs + Times(|sb|, eps))
  {
    TwoSimplexSortProx(sa, sb, rhs, eps, thA, thB);
    SortBlockProx(sa, rhs, eps, thA);
    if MiddleSum(sa, thA.t, thA.last) == rhs {
      SortBlockCapSum(sa, rhs, eps, thA);
      SortBlockCapSum(sb, rhs, eps, thB);
    }
  }

  /**
   * The result of the corrected search, clamped in the caller's order:
   * both blocks in [0, rhs]; equal totals under rhs, or both totals in
   * [rhs, rhs + n eps]; and the optimality conditions on theta_a + theta_b
   * read off the totals.
   */
  lemma {:induction false} TwoSimplexSortOutcome(oa: seq<real>, ob: seq<real>, sa: seq<real>, sb: seq<real>,
                                                 rhs: real, eps: real, thA: Thresholds, thB: Thresholds)
    requires multiset(sa) == multiset(oa) && multiset(sb) == multiset(ob)
    requires rhs > 0.0 && eps >= 0.0 && TwoSimplexSortResult(sa, sb, rhs, eps, thA, thB)
    ensures forall i :: 0 <= i < |oa| ==> 0.0 <= ProxSeq(oa, thA)[i] <= rhs
    ensures forall j :: 0 <= j < |ob| ==> 0.0 <= ProxSeq(ob, thB)[j] <= rhs
    ensures Sum(ProxSeq(oa, thA)) == Sum(ProxSeq(ob, thB)) < rhs
            || (rhs <= Sum(ProxSeq(oa, thA)) <= rhs + Times(|oa|, eps)
                && rhs <= Sum(ProxSeq(ob, thB)) <= rhs + Times(|ob|, eps))
    ensures 0.0 < Sum(ProxSeq(oa, thA)) < rhs ==> thA.t + thB.t == 0.0
    ensures Sum(ProxSeq(oa, thA)) == 0.0 ==> thA.t + thB.t <= 0.0
    ensures rhs <= Sum(ProxSeq(oa, thA))
            ==> Times(thA.last, Times(thB.last, thA.t + thB.t)) >= -Times(thA.last + thB.last, eps)
  {
    ProxSeqInBounds(oa, thA);
    ProxSeqInBounds(ob, thB);
    TwoSimplexSortSums(sa, sb, rhs, eps, thA, thB);
    ProxSeqPermutation(sa, oa, thA);
    ProxSeqPermutation(sb, ob, thB);
    SumPermutation(ProxSeq(sa, thA), ProxSeq(oa, thA));
    SumPermutation(ProxSeq(sb, thB), ProxSeq(ob, thB));
    assert |sa| == |oa| && |sb| == |ob| by {
      assert |multiset(sa)| == |multiset(oa)| && |multiset(sb)| == |multiset(ob)|;
    }
  }

  /**
   * `prox_two_simplex_sort(a_first, a_last, b_first, b_last, rhs)` with the
   * corrected search: the thresholds are computed on copies, then each block
   * is clamped with its own. Both blocks land in [0, rhs] with equal totals
   * under rhs (or both totals within n eps above rhs), and theta_a + theta_b
   * meets the optimality conditions of the common total.
   */
  method ProxTwoSimplexSort(a: array<real>, b: array<real>, rhs: real, machineEps: real)
      returns (thA: Thresholds, thB: Thresholds)
    requires a != b && a.Length > 0 && b.Length > 0 && rhs > 0.0 && machineEps >= 0.0
    modifies a, b
    ensures thA.lo == 0.0 && thA.hi == rhs && thB.lo == 0.0 && thB.hi == rhs
    ensures a[..] == ProxSeq(old(a[..]), thA) && b[..] == ProxSeq(old(b[..]), thB)
    ensures forall i :: 0 <= i < a.Length ==> 0.0 <= a[i] <= rhs
    ensures forall j :: 0 <= j < b.Length ==> 0.0 <= b[j] <= rhs
    ensures Sum(a[..]) == Sum(b[..]) < rhs
            || (rhs <= Sum(a[..]) <= rhs + Times(a.Length, KnapsackEps(machineEps, rhs))
                && rhs <= Sum(b[..]) <= rhs + Times(b.Length, KnapsackEps(machineEps, rhs)))
    ensures 0.0 < Sum(a[..]) < rhs ==> thA.t + thB.t == 0.0
    ensures Sum(a[..]) == 0.0 ==> thA.t + thB.t <= 0.0
    ensures rhs <= Sum(a[..]) ==> Times(thA.last, Times(thB.last, thA.t + thB.t))
                                  >= -Times(thA.last + thB.last, KnapsackEps(machineEps, rhs))
  {
    var aAux := Copy(a);
    var bAux := Copy(b);
    thA, thB := ThresholdsTwoSimplexSort(aAux, bAux, rhs, machineEps);
    ghost var oa, ob := a[..], b[..];
    TwoSimplexSortOutcome(oa, ob, aAux[..], bAux[..], rhs, KnapsackEps(machineEps, rhs), thA, thB);
    ProxWhole(thA, a);
    ProxWhole(thB, b);
  }
}
