/**
 * `thresholds_two_simplex`: the projection onto the two-simplex
 *    min ||x - a||^2 + ||y - b||^2   s.t.  <1, x> = <1, y> <= rhs,  x, y >= 0,
 * whose solution is x = max(0, a - t), y = max(0, b - s).
 *
 * Phase 1 solves each block on its own with the sum fixed at rhs, by
 * shrinking the active prefix to the entries above t. When t + s >= -eps
 * that pair is the answer; otherwise phase 2 ties s = -t and fixes whole
 * groups of entries at 0 until the two block sums agree within eps.
 */
module TwoSimplex {
  import opened Numeric
  import opened Reorder
  import opened ProxDef
  import opened KnapsackEq

  /** The sum of the active prefix s[..l] shifted by t: sum (x - t) over it. */
  function MiddleSum(s: seq<real>, t: real, l: nat): real
    requires l <= |s|
  {
    Sum(s[..l]) - Times(l, t)
  }

  /**
   * What phase 1 leaves on one block: the active prefix s[..l] is non-empty,
   * lies above t and, shifted by t, sums to rhs; everything after it is at
   * most t.
   */
  ghost predicate Phase1Result(s: seq<real>, t: real, l: nat, rhs: real)
  {
    0 < l <= |s|
    && (forall i :: 0 <= i < l ==> s[i] > t)
    && (forall i :: l <= i < |s| ==> s[i] <= t)
    && MiddleSum(s, t, l) == rhs
  }

  /** A smaller multiple of the same positive count: the factor is smaller. */
  lemma {:induction false} TimesCancel(n: nat, x: real, y: real)
    requires n > 0 && Times(n, x) <= Times(n, y)
    ensures x <= y
  {
    TimesMul(n, x);
    TimesMul(n, y);
  }

  /**
   * Dropping the entries at most t from the active prefix: since rhs > 0 the
   * new prefix is not empty, and the next t is at least the current one.
   */
  lemma {:induction false} Phase1Shrink(s: seq<real>, xIt: nat, xLast: nat, t: real, rhs: real)
    requires xIt <= xLast <= |s| && rhs > 0.0
    requires forall i :: xIt <= i < xLast ==> s[i] <= t
    requires Times(xLast, t) == Sum(s[..xLast]) - rhs
    ensures 0 < xIt
    ensures Times(xIt, t) <= Sum(s[..xIt]) - rhs
  {
    var dropped := s[xIt..xLast];
    SumAtMostTimes(dropped, t);
    assert s[..xLast] == s[..xIt] + dropped;
    SumConcat(s[..xIt], dropped);
    TimesSplit(xIt, xLast, t);
  }

  /** Entries at most c add up to at most |s| copies of c. */
  lemma {:induction false} SumAtMostTimes(s: seq<real>, c: real)
    requires forall i :: 0 <= i < |s| ==> s[i] <= c
    ensures Sum(s) <= Times(|s|, c)
  {
    SumAtMost(s, c);
    TimesMul(|s|, c);
  }

  /**
   * Phase 1 on one block: t = (sum_active - rhs) / |active|, then the active
   * prefix shrinks to the entries above t, until it no longer shrinks.
   */
  method SimplexPhase1(a: array<real>, rhs: real) returns (t: real, xLast: nat)
    requires a.Length > 0 && rhs > 0.0
    modifies a
    ensures multiset(a[..]) == multiset(old(a[..]))
    ensures Phase1Result(a[..], t, xLast, rhs)
  {
    xLast := a.Length;
    assert a[..xLast] == a[..];
    ghost var bound := Mean(Sum(a[..]) - rhs, a.Length);
    while true
      invariant 0 < xLast <= a.Length
      invariant multiset(a[..]) == multiset(old(a[..]))
      invariant forall i :: xLast <= i < a.Length ==> a[i] <= bound
      invariant Times(xLast, bound) <= Sum(a[..xLast]) - rhs
      decreases xLast
    {
      // Solve the restricted subproblem
      t := Mean(Sum(a[..xLast]) - rhs, xLast);
      TimesCancel(xLast, bound, t);
      ghost var s0 := a[..];
      var tt := t;
      var xIt := Partition(a, 0, xLast, x => x > tt);
      PermutedWithinWhole(s0, a[..], 0, xLast);
      PermutedWithinSum(s0, a[..], 0, xLast);
      assert s0[0..xLast] == s0[..xLast] && a[0..xLast] == a[..xLast];
      assert forall i :: xLast <= i < a.Length ==> a[i] == a[..][xLast..][i - xLast] == s0[xLast..][i - xLast];

      // Feasibility check
      if xIt == xLast {
        assert MiddleSum(a[..], t, xLast) == rhs;
        return;
      }
      Phase1Shrink(a[..], xIt, xLast, t, rhs);
      xLast, bound := xIt, t;
    }
  }

  /** An entry of a sequence of positive entries is at most their sum. */
  lemma {:induction false} EntryAtMostSum(u: seq<real>, i: nat)
    requires i < |u| && forall j :: 0 <= j < |u| ==> 0.0 <= u[j]
    ensures u[i] <= Sum(u)
  {
    assert u == u[..i] + [u[i]] + u[i + 1..];
    SumConcat(u[..i] + [u[i]], u[i + 1..]);
    SumConcat(u[..i], [u[i]]);
    assert Sum([u[i]]) == u[i] by { assert [u[i]][..0] == []; }
    var before, after := u[..i], u[i + 1..];
    assert forall j :: 0 <= j < |before| ==> 0.0 <= before[j];
    assert forall j :: 0 <= j < |after| ==> 0.0 <= after[j];
    SumNonNegative(before);
    SumNonNegative(after);
  }

  /**
   * Thresholds (t, 0, rhs) whose middle is an active prefix above t, with
   * everything after it at most t and the prefix's shifted sum at most rhs,
   * match the block: the projection is the shifted prefix followed by zeros,
   * lies in [0, rhs] and sums to the shifted sum.
   */
  lemma {:induction false} PrefixProx(s: seq<real>, t: real, l: nat, rhs: real)
    requires l <= |s| && rhs >= 0.0
    requires forall i :: 0 <= i < l ==> s[i] > t
    requires forall i :: l <= i < |s| ==> s[i] <= t
    requires MiddleSum(s, t, l) <= rhs
    ensures Consistent(s, Thresholds(t, 0.0, rhs, 0, l))
    ensures Sum(ProxSeq(s, Thresholds(t, 0.0, rhs, 0, l))) == MiddleSum(s, t, l)
    ensures forall i :: 0 <= i < |s| ==> 0.0 <= ProxSeq(s, Thresholds(t, 0.0, rhs, 0, l))[i] <= rhs
  {
    var th := Thresholds(t, 0.0, rhs, 0, l);
    var u := seq(l, i requires 0 <= i < l => s[i] - t);
    SumShift(s[..l], u, t);
    forall i | 0 <= i < l
      ensures s[i] - t <= rhs
    {
      EntryAtMostSum(u, i);
    }
    SumProxCorrect(th, s);
    MiddleShaped(s, th);
    ProxSeqInBounds(s, th);
  }

  /**
   * The phase 1 thresholds (t, 0, rhs) with the active prefix as middle are
   * consistent with the block, so its projection is exactly the shifted
   * prefix and sums to rhs.
   */
  lemma {:induction false} Phase1Prox(s: seq<real>, t: real, l: nat, rhs: real)
    requires rhs > 0.0 && Phase1Result(s, t, l, rhs)
    ensures Consistent(s, Thresholds(t, 0.0, rhs, 0, l))
    ensures Sum(ProxSeq(s, Thresholds(t, 0.0, rhs, 0, l))) == rhs
    ensures forall i :: 0 <= i < |s| ==> 0.0 <= ProxSeq(s, Thresholds(t, 0.0, rhs, 0, l))[i] <= rhs
  {
    PrefixProx(s, t, l, rhs);
  }

  /**
   * What phase 2 leaves: entries of a above t and entries of b above -t on
   * the active prefixes, everything after them at most t (at most -t on b),
   * shifted sums of the prefixes at most rhs and within eps of each other.
   */
  ghost predicate Phase2Result(sa: seq<real>, sb: seq<real>, t: real, xLast: nat, yLast: nat,
                               rhs: real, eps: real)
  {
    xLast <= |sa| && yLast <= |sb|
    && (forall i :: 0 <= i < xLast ==> sa[i] > t)
    && (forall i :: xLast <= i < |sa| ==> sa[i] <= t)
    && (forall j :: 0 <= j < yLast ==> sb[j] > -t)
    && (forall j :: yLast <= j < |sb| ==> sb[j] <= -t)
    && MiddleSum(sa, t, xLast) <= rhs && MiddleSum(sb, -t, yLast) <= rhs
    && Abs(MiddleSum(sa, t, xLast) - MiddleSum(sb, -t, yLast)) <= eps
  }

  /** The clamp max(0, x - c) as a function of x. */
  function ExcessOver(c: real): real -> real
  {
    x => if x > c then x - c else 0.0
  }

  /** sum max(0, x - c) over s: the shifted sum of s with its negative terms dropped. */
  ghost function PosSum(s: seq<real>, c: real): real
  {
    Sum(Map(s, ExcessOver(c)))
  }

  lemma {:induction false} PosSumConcat(u: seq<real>, w: seq<real>, c: real)
    ensures PosSum(u + w, c) == PosSum(u, c) + PosSum(w, c)
  {
    MapConcat(u, w, ExcessOver(c));
    SumConcat(Map(u, ExcessOver(c)), Map(w, ExcessOver(c)));
  }

  lemma {:induction false} PosSumPermutation(u: seq<real>, w: seq<real>, c: real)
    requires multiset(u) == multiset(w)
    ensures PosSum(u, c) == PosSum(w, c)
  {
    SumMapPermutation(u, w, ExcessOver(c));
  }

  /**
   * Dropping the negative terms only adds: the clamped sum is at least 0 and
   * at least the shifted sum, equal to the latter when every entry is above
   * c and 0 when none is.
   */
  lemma {:induction false} PosSumBounds(u: seq<real>, c: real)
    ensures 0.0 <= PosSum(u, c)
    ensures Sum(u) - Times(|u|, c) <= PosSum(u, c)
    ensures (forall i :: 0 <= i < |u| ==> u[i] > c) ==> PosSum(u, c) == Sum(u) - Times(|u|, c)
    ensures (forall i :: 0 <= i < |u| ==> u[i] <= c) ==> PosSum(u, c) == 0.0
  {
    var e := Map(u, ExcessOver(c));
    var d := seq(|u|, i requires 0 <= i < |u| => u[i] - c);
    SumShift(u, d, c);
    SumNonNegative(e);
    SumMonotone(d, e);
    if forall i :: 0 <= i < |u| ==> u[i] > c {
      assert e == d;
    }
    if forall i :: 0 <= i < |u| ==> u[i] <= c {
      SumConst(e, 0.0);
      TimesZero(|e|);
    }
  }

  /** A larger shift clamps more away. */
  lemma {:induction false} PosSumAntitone(u: seq<real>, c: real, c': real)
    requires c <= c'
    ensures PosSum(u, c') <= PosSum(u, c)
  {
    SumMonotone(Map(u, ExcessOver(c')), Map(u, ExcessOver(c)));
  }

  /**
   * A shorter prefix has a smaller clamped sum, the same one when the
   * entries between the two ends are at most c.
   */
  lemma {:induction false} PosSumPrefix(s: seq<real>, k: nat, l: nat, c: real)
    requires k <= l <= |s|
    ensures PosSum(s[..k], c) <= PosSum(s[..l], c)
    ensures (forall i :: k <= i < l ==> s[i] <= c) ==> PosSum(s[..k], c) == PosSum(s[..l], c)
  {
    var w := s[k..l];
    assert s[..l] == s[..k] + w;
    PosSumConcat(s[..k], w, c);
    PosSumBounds(w, c);
    if forall i :: k <= i < l ==> s[i] <= c {
      assert forall j :: 0 <= j < |w| ==> w[j] == s[k + j];
    }
  }

  /** n copies of -c add up to minus n copies of c. */
  lemma {:induction false} TimesNeg(n: nat, c: real)
    ensures Times(n, -c) == -Times(n, c)
  {
    TimesMul(n, c);
    TimesMul(n, -c);
  }

  /**
   * The bracket tLow <= t <= tHigh that phase 2 keeps around its t: every
   * a-entry past the active prefix is at most tLow and every b-entry past
   * it at most -tHigh; at tLow the a-prefix's shifted sum covers the
   * b-prefix's clamped one and at tHigh the other way round, so that the
   * balancing t of the two active prefixes lies in the bracket; and the
   * clamped prefix sums at the ends of the bracket stay within rhs.
   */
  ghost predicate Phase2Bracket(sa: seq<real>, sb: seq<real>, xLast: nat, yLast: nat,
                                tLow: real, tHigh: real, rhs: real)
  {
    xLast <= |sa| && yLast <= |sb| && tLow <= tHigh
    && (forall i :: xLast <= i < |sa| ==> sa[i] <= tLow)
    && (forall j :: yLast <= j < |sb| ==> sb[j] <= -tHigh)
    && PosSum(sb[..yLast], -tLow) <= MiddleSum(sa, tLow, xLast)
    && PosSum(sa[..xLast], tHigh) <= MiddleSum(sb, -tHigh, yLast)
    && PosSum(sa[..xLast], tLow) <= rhs && PosSum(sb[..yLast], -tHigh) <= rhs
  }

  /** The t balancing the two active prefixes lies in the bracket. */
  lemma {:induction false} BracketHolds(sa: seq<real>, sb: seq<real>, xLast: nat, yLast: nat, m: nat, t: real,
                                        tLow: real, tHigh: real, rhs: real)
    requires Phase2Bracket(sa, sb, xLast, yLast, tLow, tHigh, rhs) && 0 < m == xLast + yLast
    requires Times(m, t) == Sum(sa[..xLast]) - Sum(sb[..yLast])
    ensures tLow <= t <= tHigh
  {
    PosSumBounds(sb[..yLast], -tLow);
    PosSumBounds(sa[..xLast], tHigh);
    TimesNeg(yLast, tLow);
    TimesNeg(yLast, tHigh);
    TimesAdd(xLast, yLast, tLow);
    TimesAdd(xLast, yLast, tHigh);
    TimesCancel(m, tLow, t);
    TimesCancel(m, t, tHigh);
  }

  /** Phase 1 without a feasible pair starts phase 2 with the bracket [t, -s]. */
  lemma {:induction false} Phase2Start(sa: seq<real>, sb: seq<real>, t: real, s: real, xLast: nat, yLast: nat,
                                       rhs: real)
    requires Phase1Result(sa, t, xLast, rhs) && Phase1Result(sb, s, yLast, rhs) && t + s < 0.0
    ensures Phase2Bracket(sa, sb, xLast, yLast, t, -s, rhs)
  {
    assert forall i :: 0 <= i < xLast ==> sa[..xLast][i] > t;
    assert forall j :: 0 <= j < yLast ==> sb[..yLast][j] > s;
    PosSumBounds(sa[..xLast], t);
    PosSumBounds(sb[..yLast], s);
    PosSumAntitone(sb[..yLast], s, -t);
    PosSumAntitone(sa[..xLast], t, -s);
  }

  /** Re-partitioning inside the active prefixes keeps the bracket. */
  lemma {:induction false} BracketPermuted(sa0: seq<real>, sb0: seq<real>, sa: seq<real>, sb: seq<real>,
                                           xLast: nat, yLast: nat, tLow: real, tHigh: real, rhs: real)
    requires Phase2Bracket(sa0, sb0, xLast, yLast, tLow, tHigh, rhs)
    requires PermutedWithin(sa0, sa, 0, xLast) && PermutedWithin(sb0, sb, 0, yLast)
    ensures Phase2Bracket(sa, sb, xLast, yLast, tLow, tHigh, rhs)
  {
    PermutedWithinSum(sa0, sa, 0, xLast);
    PermutedWithinSum(sb0, sb, 0, yLast);
    assert sa0[0..xLast] == sa0[..xLast] && sa[0..xLast] == sa[..xLast];
    assert sb0[0..yLast] == sb0[..yLast] && sb[0..yLast] == sb[..yLast];
    PosSumPermutation(sa0[..xLast], sa[..xLast], tLow);
    PosSumPermutation(sa0[..xLast], sa[..xLast], tHigh);
    PosSumPermutation(sb0[..yLast], sb[..yLast], -tLow);
    PosSumPermutation(sb0[..yLast], sb[..yLast], -tHigh);
    assert forall i :: xLast <= i < |sa| ==> sa[i] == sa[xLast..][i - xLast] == sa0[i];
    assert forall j :: yLast <= j < |sb| ==> sb[j] == sb[yLast..][j - yLast] == sb0[j];
  }

  /**
   * After a pass's partitions: a[..xIt] above t, a[xIt..xLast] at most t,
   * b[..yIt] above -t and b[yIt..yLast] at most -t.
   */
  ghost predicate Phase2Parted(sa: seq<real>, sb: seq<real>, t: real, xIt: nat, xLast: nat, yIt: nat, yLast: nat)
  {
    xIt <= xLast <= |sa| && yIt <= yLast <= |sb|
    && (forall i :: 0 <= i < xIt ==> sa[i] > t)
    && (forall i :: xIt <= i < xLast ==> sa[i] <= t)
    && (forall j :: 0 <= j < yIt ==> sb[j] > -t)
    && (forall j :: yIt <= j < yLast ==> sb[j] <= -t)
  }

  /** Partitioned at t, the clamped sums of the old prefixes are the shifted sums of the new ones. */
  lemma {:induction false} PartedSums(sa: seq<real>, sb: seq<real>, t: real, xIt: nat, xLast: nat, yIt: nat, yLast: nat)
    requires Phase2Parted(sa, sb, t, xIt, xLast, yIt, yLast)
    ensures PosSum(sa[..xLast], t) == MiddleSum(sa, t, xIt)
    ensures PosSum(sb[..yLast], -t) == MiddleSum(sb, -t, yIt)
  {
    PosSumPrefix(sa, xIt, xLast, t);
    PosSumPrefix(sb, yIt, yLast, -t);
    assert forall i :: 0 <= i < xIt ==> sa[..xIt][i] > t;
    assert forall j :: 0 <= j < yIt ==> sb[..yIt][j] > -t;
    PosSumBounds(sa[..xIt], t);
    PosSumBounds(sb[..yIt], -t);
  }

  /**
   * Fixing the b-group (infeasibility >= 0, i.e. the a-prefix's shifted sum
   * at most the b-prefix's) lowers the top of the bracket to t.
   */
  lemma {:induction false} BracketFixB(sa: seq<real>, sb: seq<real>, t: real, xIt: nat, xLast: nat, yIt: nat, yLast: nat,
                                       tLow: real, tHigh: real, rhs: real)
    requires Phase2Bracket(sa, sb, xLast, yLast, tLow, tHigh, rhs) && tLow <= t <= tHigh
    requires Phase2Parted(sa, sb, t, xIt, xLast, yIt, yLast)
    requires MiddleSum(sa, t, xIt) <= MiddleSum(sb, -t, yIt)
    ensures Phase2Bracket(sa, sb, xLast, yIt, tLow, t, rhs)
  {
    PartedSums(sa, sb, t, xIt, xLast, yIt, yLast);
    PosSumPrefix(sb, yIt, yLast, -tLow);
    PosSumAntitone(sb[..yIt], -tHigh, -t);
    PosSumPrefix(sb, yIt, yLast, -tHigh);
  }

  /**
   * Fixing the a-group (infeasibility <= 0) raises the bottom of the
   * bracket to t.
   */
  lemma {:induction false} BracketFixA(sa: seq<real>, sb: seq<real>, t: real, xIt: nat, xLast: nat, yIt: nat, yLast: nat,
                                       tLow: real, tHigh: real, rhs: real)
    requires Phase2Bracket(sa, sb, xLast, yLast, tLow, tHigh, rhs) && tLow <= t <= tHigh
    requires Phase2Parted(sa, sb, t, xIt, xLast, yIt, yLast)
    requires MiddleSum(sa, t, xIt) >= MiddleSum(sb, -t, yIt)
    ensures Phase2Bracket(sa, sb, xIt, yLast, t, tHigh, rhs)
  {
    PartedSums(sa, sb, t, xIt, xLast, yIt, yLast);
    PosSumPrefix(sa, xIt, xLast, tHigh);
    PosSumAntitone(sa[..xIt], tLow, t);
    PosSumPrefix(sa, xIt, xLast, tLow);
  }

  /** A pass that fixes nothing ends phase 2 with its result. */
  lemma {:induction false} BracketExit(sa: seq<real>, sb: seq<real>, t: real, xIt: nat, xLast: nat, yIt: nat, yLast: nat,
                                       tLow: real, tHigh: real, rhs: real, eps: real)
    requires Phase2Bracket(sa, sb, xLast, yLast, tLow, tHigh, rhs) && tLow <= t <= tHigh
    requires Phase2Parted(sa, sb, t, xIt, xLast, yIt, yLast)
    requires Abs(MiddleSum(sa, t, xIt) - MiddleSum(sb, -t, yIt)) <= eps
    ensures Phase2Result(sa, sb, t, xIt, yIt, rhs, eps)
  {
    PartedSums(sa, sb, t, xIt, xLast, yIt, yLast);
    PosSumAntitone(sa[..xLast], tLow, t);
    PosSumAntitone(sb[..yLast], -tHigh, -t);
  }

  /** Nothing active on either block: the bracket around t gives the result. */
  lemma {:induction false} Phase2Empty(sa: seq<real>, sb: seq<real>, t: real, tLow: real, tHigh: real,
                                       rhs: real, eps: real)
    requires Phase2Bracket(sa, sb, 0, 0, tLow, tHigh, rhs) && tLow <= t <= tHigh && eps >= 0.0
    ensures Phase2Result(sa, sb, t, 0, 0, rhs, eps)
  {
    assert sa[..0] == [] && sb[..0] == [];
    PosSumBounds([], tLow);
  }

  /**
   * The infeasibility sum_x - sum_y - (n_x + n_y) t of a phase 2 pass, over
   * the entries of a at most t (sum_x, n_x) and of b at most -t (sum_y, n_y).
   */
  function Phase2Infeasibility(sumX: real, nX: nat, sumY: real, nY: nat, t: real): real
  {
    sumX - sumY - ((nX + nY) as real) * t
  }

  /**
   * While m t = sum_X - sum_Y balances the active prefixes, the difference of
   * the shifted sums of the prefixes that a pass keeps is minus the
   * infeasibility of the groups it splits off.
   */
  lemma {:induction false} Phase2Gap(sa: seq<real>, sb: seq<real>, t: real, xIt: nat, xLast: nat, yIt: nat, yLast: nat,
                                     sumX: real, sumY: real)
    requires xIt <= xLast <= |sa| && yIt <= yLast <= |sb|
    requires Times(xLast + yLast, t) == Sum(sa[..xLast]) - Sum(sb[..yLast])
    requires Sum(sa[..xLast]) == Sum(sa[..xIt]) + sumX && Sum(sb[..yLast]) == Sum(sb[..yIt]) + sumY
    ensures MiddleSum(sa, t, xIt) - MiddleSum(sb, -t, yIt)
            == -Phase2Infeasibility(sumX, xLast - xIt, sumY, yLast - yIt, t)
  {
    TimesMul(xLast + yLast, t);
    TimesMul(xIt, t);
    TimesMul(yIt, -t);
    var nX, nY := (xLast - xIt) as real, (yLast - yIt) as real;
    assert ((xLast + yLast) as real) * t == (xIt as real) * t + (yIt as real) * t + nX * t + nY * t;
    assert ((xLast - xIt + (yLast - yIt)) as real) * t == nX * t + nY * t;
  }

  /**
   * A pass that fixes neither group has infeasibility within eps: an empty
   * group forces its sign, so the test that was skipped could not fire.
   */
  lemma {:induction false} Phase2Exit(nX: nat, nY: nat, sumX: real, sumY: real, t: real, eps: real)
    requires eps >= 0.0
    requires sumX <= Times(nX, t) && sumY <= Times(nY, -t)
    requires (nX == 0 ==> sumX == 0.0) && (nY == 0 ==> sumY == 0.0)
    requires !(nY > 0 && Phase2Infeasibility(sumX, nX, sumY, nY, t) > eps)
    requires !(nX > 0 && Phase2Infeasibility(sumX, nX, sumY, nY, t) < -eps)
    ensures Abs(Phase2Infeasibility(sumX, nX, sumY, nY, t)) <= eps
  {
    TimesMul(nX, t);
    TimesMul(nY, -t);
    assert ((nX + nY) as real) * t == (nX as real) * t + (nY as real) * t;
  }

  /** One phase 2 fixing step keeps m t = sum_X - sum_Y for the new t. */
  lemma {:induction false} Phase2Refit(m: nat, t: real, sumA: real, sumB: real, fixed: real, nFixed: nat, tt: real)
    requires nFixed <= m && (m as real) * t == sumA - sumB
    requires tt == (m as real) * t + fixed
    ensures tt == sumA - (sumB - fixed)
  {
  }

  /** Entries of s[lo..hi] at most c: their sum is at most (hi - lo) c, and 0 when the range is empty. */
  lemma {:induction false} RangeAtMost(s: seq<real>, lo: nat, hi: nat, c: real)
    requires lo <= hi <= |s|
    requires forall i :: lo <= i < hi ==> s[i] <= c
    ensures Sum(s[lo..hi]) <= Times(hi - lo, c)
    ensures lo == hi ==> Sum(s[lo..hi]) == 0.0
  {
    var u := s[lo..hi];
    assert forall j :: 0 <= j < |u| ==> u[j] == s[lo + j];
    SumAtMostTimes(u, c);
  }

  /**
   * One pass of phase 2: re-partition both active prefixes around t and -t,
   * then fix the b-group at 0 (infeasibility > eps), the a-group
   * (infeasibility < -eps), or stop. A pass that does not stop shrinks m,
   * keeps m t = sum_X - sum_Y for the new t and keeps the bracket around it,
   * with its top lowered to the old t after a b-fix and its bottom raised
   * after an a-fix.
   */
  method Phase2Round(a: array<real>, b: array<real>, xLast: nat, yLast: nat, m: nat, t: real, eps: real,
                     ghost rhs: real, ghost tLow: real, ghost tHigh: real)
      returns (done: bool, t': real, xLast': nat, yLast': nat, m': nat, ghost tLow': real, ghost tHigh': real)
    requires a != b && xLast <= a.Length && yLast <= b.Length && 0 < m == xLast + yLast
    requires eps >= 0.0
    requires Times(m, t) == Sum(a[..xLast]) - Sum(b[..yLast])
    requires Phase2Bracket(a[..], b[..], xLast, yLast, tLow, tHigh, rhs) && tLow <= t <= tHigh
    modifies a, b
    ensures multiset(a[..]) == multiset(old(a[..])) && multiset(b[..]) == multiset(old(b[..]))
    ensures xLast' <= xLast && yLast' <= yLast
    ensures done ==> Phase2Result(a[..], b[..], t', xLast', yLast', rhs, eps)
    ensures !done ==> 0 < m' < m && m' == xLast' + yLast'
                      && Times(m', t') == Sum(a[..xLast']) - Sum(b[..yLast'])
                      && Phase2Bracket(a[..], b[..], xLast', yLast', tLow', tHigh', rhs)
                      && tLow' <= t' <= tHigh'
  {
    // Re-partition and compute the sums
    ghost var sa0, sb0 := a[..], b[..];
    var xIt, sumX := Phase2Split(a, xLast, t);
    var yIt, sumY := Phase2Split(b, yLast, -t);
    ghost var sa, sb := a[..], b[..];
    var nX: nat := xLast - xIt;
    var nY: nat := yLast - yIt;
    Phase2Parts(sa0, sb0, sa, sb, t, m, xIt, xLast, yIt, yLast, sumX, sumY, tLow, tHigh, rhs);

    // Check feasibility and fix variables
    var infeas := Phase2Infeasibility(sumX, nX, sumY, nY, t);
    var tNum: real;
    done, t', xLast', yLast', m', tLow', tHigh' := false, t, xLast, yLast, m, tLow, tHigh;
    if nY > 0 && infeas > eps {
      tNum := (m as real) * t + sumY;
      BracketFixB(sa, sb, t, xIt, xLast, yIt, yLast, tLow, tHigh, rhs);
      yLast', tHigh' := yIt, t;
      m' := m - nY;
    } else if nX > 0 && infeas < -eps {
      tNum := (m as real) * t - sumX;
      BracketFixA(sa, sb, t, xIt, xLast, yIt, yLast, tLow, tHigh, rhs);
      xLast', tLow' := xIt, t;
      m' := m - nX;
    } else {
      Phase2Exit(nX, nY, sumX, sumY, t, eps);
      BracketExit(sa, sb, t, xIt, xLast, yIt, yLast, tLow, tHigh, rhs, eps);
      return true, t, xIt, yIt, m, tLow, tHigh;
    }
    assert Phase2Bracket(sa, sb, xLast', yLast', tLow', tHigh', rhs) && tLow' <= t <= tHigh';
    assert tNum == Sum(sa[..xLast']) - Sum(sb[..yLast']);

    // Update t or stop if degenerated
    if m' > 0 {
      t' := Mean(tNum, m');
      BracketHolds(sa, sb, xLast', yLast', m', t', tLow', tHigh', rhs);
    } else {
      Phase2Empty(sa, sb, t, tLow', tHigh', rhs, eps);
      done := true;
    }
  }

  /**
   * The bookkeeping of a pass after both partitions: the bracket survives
   * them, the blocks are split at t and -t, the difference of the kept
   * shifted sums is minus the infeasibility, and the numerators of both
   * fixing steps are again differences of the active sums.
   */
  lemma {:induction false} Phase2Parts(sa0: seq<real>, sb0: seq<real>, sa: seq<real>, sb: seq<real>, t: real, m: nat,
                                       xIt: nat, xLast: nat, yIt: nat, yLast: nat, sumX: real, sumY: real,
                                       tLow: real, tHigh: real, rhs: real)
    requires m == xLast + yLast && xIt <= xLast && yIt <= yLast
    requires Phase2Bracket(sa0, sb0, xLast, yLast, tLow, tHigh, rhs)
    requires Times(m, t) == Sum(sa0[..xLast]) - Sum(sb0[..yLast])
    requires PermutedWithin(sa0, sa, 0, xLast) && PermutedWithin(sb0, sb, 0, yLast)
    requires forall i :: 0 <= i < xIt ==> sa[i] > t
    requires forall i :: xIt <= i < xLast ==> sa[i] <= t
    requires forall j :: 0 <= j < yIt ==> sb[j] > -t
    requires forall j :: yIt <= j < yLast ==> sb[j] <= -t
    requires Sum(sa[..xLast]) == Sum(sa0[..xLast]) == Sum(sa[..xIt]) + sumX
    requires Sum(sb[..yLast]) == Sum(sb0[..yLast]) == Sum(sb[..yIt]) + sumY
    ensures Phase2Bracket(sa, sb, xLast, yLast, tLow, tHigh, rhs)
    ensures Phase2Parted(sa, sb, t, xIt, xLast, yIt, yLast)
    ensures MiddleSum(sa, t, xIt) - MiddleSum(sb, -t, yIt)
            == -Phase2Infeasibility(sumX, xLast - xIt, sumY, yLast - yIt, t)
    ensures (m as real) * t + sumY == Sum(sa[..xLast]) - Sum(sb[..yIt])
    ensures (m as real) * t - sumX == Sum(sa[..xIt]) - Sum(sb[..yLast])
  {
    BracketPermuted(sa0, sb0, sa, sb, xLast, yLast, tLow, tHigh, rhs);
    Phase2Gap(sa, sb, t, xIt, xLast, yIt, yLast, sumX, sumY);
    TimesMul(m, t);
  }

  /**
   * Phase 2 from the active prefixes xLast and yLast of phase 1, with
   * m t = sum_X - sum_Y and t inside a bracket, repeating passes until one
   * stops.
   */
  method SimplexPhase2(a: array<real>, b: array<real>, xLast0: nat, yLast0: nat, t0: real, eps: real,
                       ghost rhs: real, ghost tLow0: real, ghost tHigh0: real)
      returns (t: real, xLast: nat, yLast: nat)
    requires a != b && xLast0 <= a.Length && yLast0 <= b.Length && 0 < xLast0 + yLast0
    requires eps >= 0.0
    requires Times(xLast0 + yLast0, t0) == Sum(a[..xLast0]) - Sum(b[..yLast0])
    requires Phase2Bracket(a[..], b[..], xLast0, yLast0, tLow0, tHigh0, rhs) && tLow0 <= t0 <= tHigh0
    modifies a, b
    ensures multiset(a[..]) == multiset(old(a[..])) && multiset(b[..]) == multiset(old(b[..]))
    ensures xLast <= xLast0 && yLast <= yLast0
    ensures Phase2Result(a[..], b[..], t, xLast, yLast, rhs, eps)
  {
    t, xLast, yLast := t0, xLast0, yLast0;
    var m: nat := xLast + yLast;
    ghost var tLow, tHigh := tLow0, tHigh0;
    while true
      invariant xLast <= xLast0 && yLast <= yLast0 && 0 < m == xLast + yLast
      invariant multiset(a[..]) == multiset(old(a[..])) && multiset(b[..]) == multiset(old(b[..]))
      invariant Times(m, t) == Sum(a[..xLast]) - Sum(b[..yLast])
      invariant Phase2Bracket(a[..], b[..], xLast, yLast, tLow, tHigh, rhs) && tLow <= t <= tHigh
      decreases m
    {
      var done;
      done, t, xLast, yLast, m, tLow, tHigh := Phase2Round(a, b, xLast, yLast, m, t, eps, rhs, tLow, tHigh);
      if done {
        return;
      }
    }
  }

  /**
   * A pass of phase 2 on one block: partition the active prefix [0, last)
   * around c, leaving [0, it) above c and [it, last) at most c, with sum_out
   * the sum of the latter; the prefix sum is unchanged and splits accordingly.
   */
  method Phase2Split(a: array<real>, last: nat, c: real) returns (it: nat, sumOut: real)
    requires last <= a.Length
    modifies a
    ensures multiset(a[..]) == multiset(old(a[..]))
    ensures it <= last && PermutedWithin(old(a[..]), a[..], 0, last)
    ensures forall i :: 0 <= i < it ==> a[i] > c
    ensures forall i :: it <= i < last ==> a[i] <= c
    ensures Sum(a[..last]) == old(Sum(a[..last])) == Sum(a[..it]) + sumOut
    ensures sumOut <= Times(last - it, c)
    ensures it == last ==> sumOut == 0.0
  {
    ghost var s0 := a[..];
    it := Partition(a, 0, last, x => x > c);
    assert forall i :: 0 <= i < it ==> a[i] > c;
    ghost var s := a[..];
    sumOut := Sum(a[it..last]);
    assert a[it..last] == s[it..last] && a[..it] == s[..it] && a[..last] == s[..last];
    RangeAtMost(s, it, last, c);
    Phase2Pass(s0, s, it, last, c);
    PermutedWithinWhole(s0, s, 0, last);
  }

  /**
   * A pass of phase 2 on one block: after partitioning the active prefix
   * around t, the prefix [0, it) lies above t, [it, last) at most t, and the
   * prefix sum splits accordingly.
   */
  lemma {:induction false} Phase2Pass(s0: seq<real>, s: seq<real>, it: nat, last: nat, t: real)
    requires PermutedWithin(s0, s, 0, last) && it <= last
    ensures Sum(s[..last]) == Sum(s0[..last])
    ensures Sum(s[..last]) == Sum(s[..it]) + Sum(s[it..last])
  {
    PermutedWithinSum(s0, s, 0, last);
    assert s0[0..last] == s0[..last] && s[0..last] == s[..last];
    assert s[..last] == s[..it] + s[it..last];
    SumConcat(s[..it], s[it..last]);
  }

  /**
   * What `thresholds_two_simplex` returns: both thresholds have bounds
   * [0, rhs] and the active prefix as middle; either the phase 1 pair with
   * t + s >= -eps, or the phase 2 pair (t, -t).
   */
  ghost predicate TwoSimplexResult(sa: seq<real>, sb: seq<real>, rhs: real, eps: real,
                                   thA: Thresholds, thB: Thresholds)
  {
    thA.lo == 0.0 && thA.hi == rhs && thA.first == 0
    && thB.lo == 0.0 && thB.hi == rhs && thB.first == 0
    && ((Phase1Result(sa, thA.t, thA.last, rhs) && Phase1Result(sb, thB.t, thB.last, rhs)
         && thA.t + thB.t >= -eps)
        || (thB.t == -thA.t && Phase2Result(sa, sb, thA.t, thA.last, thB.last, rhs, eps)))
  }

  /**
   * `thresholds_two_simplex(a_first, a_last, b_first, b_last, rhs)`, which
   * asserts rhs > 0 and two non-empty blocks; eps is machine_eps max(1, rhs).
   */
  method ThresholdsTwoSimplex(a: array<real>, b: array<real>, rhs: real, machineEps: real)
      returns (thA: Thresholds, thB: Thresholds)
    requires a != b && a.Length > 0 && b.Length > 0 && rhs > 0.0 && machineEps >= 0.0
    modifies a, b
    ensures multiset(a[..]) == multiset(old(a[..])) && multiset(b[..]) == multiset(old(b[..]))
    ensures TwoSimplexResult(a[..], b[..], rhs, KnapsackEps(machineEps, rhs), thA, thB)
  {
    var eps := KnapsackEps(machineEps, rhs);

    // Phase 1: <1, x> = <1, y> = rhs
    var t, xLast := SimplexPhase1(a, rhs);
    var s, yLast := SimplexPhase1(b, rhs);

    // Check if (t, s) is a feasible solution
    if t + s >= -eps {
      return Thresholds(t, 0.0, rhs, 0, xLast), Thresholds(s, 0.0, rhs, 0, yLast);
    }

    // Phase 2: <1, x> = <1, y> = r < rhs
    var m: nat := xLast + yLast;
    Phase2Start(a[..], b[..], t, s, xLast, yLast, rhs);
    ghost var tLow, tHigh := t, -s;
    t := Mean(Sum(a[..xLast]) - Sum(b[..yLast]), m);
    BracketHolds(a[..], b[..], xLast, yLast, m, t, tLow, tHigh, rhs);
    t, xLast, yLast := SimplexPhase2(a, b, xLast, yLast, t, eps, rhs, tLow, tHigh);
    return Thresholds(t, 0.0, rhs, 0, xLast), Thresholds(-t, 0.0, rhs, 0, yLast);
  }

  /** The shifted sum of a middle starting at 0 is the shaped sum of its thresholds. */
  lemma {:induction false} MiddleShaped(s: seq<real>, th: Thresholds)
    requires th.first == 0 && th.last <= |s| && th.lo == 0.0
    ensures ShapedSum(th, s) == MiddleSum(s, th.t, th.last)
  {
    assert s[0..th.last] == s[..th.last];
    TimesZero(|s| - th.last);
  }

  /**
   * Both outcomes match their blocks and project into [0, rhs]. Phase 1
   * projects each block to a vector summing to rhs; phase 2 to vectors whose
   * sums are at most rhs and agree within eps.
   */
  lemma {:induction false} TwoSimplexProx(sa: seq<real>, sb: seq<real>, rhs: real, eps: real,
                       thA: Thresholds, thB: Thresholds)
    requires rhs > 0.0 && eps >= 0.0 && TwoSimplexResult(sa, sb, rhs, eps, thA, thB)
    ensures Consistent(sa, thA) && Consistent(sb, thB)
    ensures forall i :: 0 <= i < |sa| ==> 0.0 <= ProxSeq(sa, thA)[i] <= rhs
    ensures forall j :: 0 <= j < |sb| ==> 0.0 <= ProxSeq(sb, thB)[j] <= rhs
    ensures Phase1Result(sa, thA.t, thA.last, rhs) && Phase1Result(sb, thB.t, thB.last, rhs)
            ==> Sum(ProxSeq(sa, thA)) == rhs && Sum(ProxSeq(sb, thB)) == rhs
    ensures Sum(ProxSeq(sa, thA)) <= rhs && Sum(ProxSeq(sb, thB)) <= rhs
    ensures Abs(Sum(ProxSeq(sa, thA)) - Sum(ProxSeq(sb, thB))) <= eps
  {
    assert thA == Thresholds(thA.t, 0.0, rhs, 0, thA.last);
    assert thB == Thresholds(thB.t, 0.0, rhs, 0, thB.last);
    if Phase1Result(sa, thA.t, thA.last, rhs) && Phase1Result(sb, thB.t, thB.last, rhs) {
      Phase1Prox(sa, thA.t, thA.last, rhs);
      Phase1Prox(sb, thB.t, thB.last, rhs);
    } else {
      PrefixProx(sa, thA.t, thA.last, rhs);
      PrefixProx(sb, thB.t, thB.last, rhs);
    }
  }

  /**
   * The same sums for the blocks in any order: projecting the caller's
   * blocks with thresholds computed on reorderings of them.
   */
  lemma {:induction false} TwoSimplexCopies(x: seq<real>, y: seq<real>, sa: seq<real>, sb: seq<real>,
                                            rhs: real, eps: real, thA: Thresholds, thB: Thresholds)
    requires rhs > 0.0 && eps >= 0.0 && TwoSimplexResult(sa, sb, rhs, eps, thA, thB)
    requires multiset(sa) == multiset(x) && multiset(sb) == multiset(y)
    ensures forall i :: 0 <= i < |x| ==> 0.0 <= ProxSeq(x, thA)[i] <= rhs
    ensures forall j :: 0 <= j < |y| ==> 0.0 <= ProxSeq(y, thB)[j] <= rhs
    ensures Sum(ProxSeq(x, thA)) <= rhs && Sum(ProxSeq(y, thB)) <= rhs
    ensures Abs(Sum(ProxSeq(x, thA)) - Sum(ProxSeq(y, thB))) <= eps
  {
    TwoSimplexProx(sa, sb, rhs, eps, thA, thB);
    ProxSeqPermutation(x, sa, thA);
    ProxSeqPermutation(y, sb, thB);
    SumPermutation(ProxSeq(x, thA), ProxSeq(sa, thA));
    SumPermutation(ProxSeq(y, thB), ProxSeq(sb, thB));
    ProxSeqInBounds(x, thA);
    ProxSeqInBounds(y, thB);
  }

  /**
   * `prox_two_simplex(a_first, a_last, b_first, b_last, rhs)`: the thresholds
   * are computed on copies, then each block is clamped with its own; sa and
   * sb are the reordered copies the thresholds describe.
   */
  method ProxTwoSimplex(a: array<real>, b: array<real>, rhs: real, machineEps: real)
      returns (thA: Thresholds, thB: Thresholds, ghost sa: seq<real>, ghost sb: seq<real>)
    requires a != b && a.Length > 0 && b.Length > 0 && rhs > 0.0 && machineEps >= 0.0
    modifies a, b
    ensures thA.lo == 0.0 && thA.hi == rhs && thB.lo == 0.0 && thB.hi == rhs
    ensures a[..] == ProxSeq(old(a[..]), thA) && b[..] == ProxSeq(old(b[..]), thB)
    ensures multiset(sa) == multiset(old(a[..])) && multiset(sb) == multiset(old(b[..]))
    ensures TwoSimplexResult(sa, sb, rhs, KnapsackEps(machineEps, rhs), thA, thB)
    ensures forall i :: 0 <= i < a.Length ==> 0.0 <= a[i] <= rhs
    ensures forall j :: 0 <= j < b.Length ==> 0.0 <= b[j] <= rhs
    ensures Sum(a[..]) <= rhs && Sum(b[..]) <= rhs
    ensures Abs(Sum(a[..]) - Sum(b[..])) <= KnapsackEps(machineEps, rhs)
  {
    ghost var a0, b0 := a[..], b[..];
    var aAux := Copy(a);
    var bAux := Copy(b);
    thA, thB := ThresholdsTwoSimplex(aAux, bAux, rhs, machineEps);
    sa, sb := aAux[..], bAux[..];
    ProxWhole(thA, a);
    ProxWhole(thB, b);
    TwoSimplexCopies(a0, b0, sa, sb, rhs, KnapsackEps(machineEps, rhs), thA, thB);
  }
}
