/**
 * The four top-k objectives of the multiclass solvers: the top-k hinge
 * (`l2_topk_hinge`, the sum of the k largest positive margins) and the hinge
 * of the top-k (`l2_hinge_topk`, the positive part of the sum of the k
 * largest margins), each also in a smoothed form. The scores and dual
 * variables of one example are buffers of length m whose entry 0 belongs to
 * the ground-truth class.
 */
module TopkObjectives {
  import opened Numeric
  import opened Reorder
  import opened ProxDef
  import opened Blas
  import opened ObjectiveBase
  import opened TopkSum
  import opened KnapsackEq
  import opened KnapsackLe
  import opened KnapsackLeBiased
  import opened TopkCone
  import opened TopkConeBiased
  import opened TopkSimplex
  import opened TopkSimplexBiased
  import MultisetSolver

  datatype TopkObjective =
    | TopkHinge(c: real, k: nat)
    | TopkHingeSmooth(c: real, gamma: real, k: nat)
    | HingeTopk(c: real, k: nat)
    | HingeTopkSmooth(c: real, gamma: real, k: nat)
  {
    predicate Smooth()
    {
      TopkHingeSmooth? || HingeTopkSmooth?
    }

    /** The parameters the constructors divide by are usable: k >= 1, c > 0, gamma > 0. */
    predicate Valid()
    {
      k >= 1 && c > 0.0 && (Smooth() ==> gamma > 0.0)
    }
  }

  /**
   * The `objective_base` part of each objective: the primal loss is scaled by
   * c / k, or by c / gamma when smoothed.
   */
  function Base(o: TopkObjective): (b: Objective)
    requires o.Valid()
    ensures o.Smooth() ==> b.coeff * o.gamma == o.c
    ensures !o.Smooth() ==> b.coeff * (o.k as real) == o.c
  {
    if o.Smooth() then Objective(o.c / o.gamma) else Objective(o.c / (o.k as real))
  }

  /** Every entry shifted by a. */
  function Shift(s: seq<real>, a: real): seq<real>
  {
    seq(|s|, i requires 0 <= i < |s| => s[i] + a)
  }

  /** The margins 1 + s_j - s_0 of the classes j >= 1 against the ground truth. */
  function Margins(s: seq<real>): seq<real>
    requires |s| >= 1
  {
    Shift(s[1..], 1.0 - s[0])
  }

  /** `std::for_each(first + 1, last, [=](x){ x += a; })`. */
  method AddToTail(x: array<real>, a: real)
    requires x.Length >= 1
    modifies x
    ensures x[0] == old(x[0]) && x[1..] == Shift(old(x[1..]), a)
  {
    var i := 1;
    while i < x.Length
      invariant 1 <= i <= x.Length && x[0] == old(x[0])
      invariant forall j :: 1 <= j < i ==> x[j] == old(x[j]) + a
      invariant forall j :: i <= j < x.Length ==> x[j] == old(x[j])
    {
      x[i] := x[i] + a;
      i := i + 1;
    }
    assert forall j :: 0 <= j < x.Length - 1 ==> x[1..][j] == Shift(old(x[1..]), a)[j];
  }

  /** A fresh buffer holding x[1..]. */
  method TailCopy(x: array<real>) returns (tail: array<real>)
    requires x.Length >= 1
    ensures fresh(tail) && tail[..] == x[1..]
  {
    tail := new real[x.Length - 1];
    CopyInto(x, 1, x.Length, tail);
    assert tail[..] == tail[..x.Length - 1];
  }

  /** Writes a buffer back over x[1..]. */
  method StoreTail(tail: array<real>, x: array<real>)
    requires x.Length == tail.Length + 1 && x != tail
    modifies x
    ensures x[..] == [old(x[0])] + tail[..]
  {
    var i := 0;
    while i < tail.Length
      invariant 0 <= i <= tail.Length && x[0] == old(x[0])
      invariant forall j :: 0 <= j < i ==> x[j + 1] == tail[j]
    {
      x[i + 1] := tail[i];
      i := i + 1;
    }
    assert forall j :: 0 <= j < x.Length ==> x[..][j] == ([old(x[0])] + tail[..])[j];
  }

  // ---------------------------------------------------------------------
  // update_dual_variables
  // ---------------------------------------------------------------------

  /** The vector the updates project: x = a s + b v, then x_j + (a - x_0) for j >= 1. */
  function Prepared(v: seq<real>, s: seq<real>, a: real, b: real): seq<real>
    requires |v| == |s| >= 1
  {
    var x := Axpby(a, s, b, v);
    Shift(x[1..], a - x[0])
  }

  /** The new dual variables: min{rhs, sum p} for the ground truth, then -p. */
  function Recovered(p: seq<real>, rhs: real): seq<real>
  {
    [Min(rhs, Sum(p))] + Scal(-1.0, p)
  }

  /** Step 1 of the updates: the prepared vector, in a buffer of its own. */
  method Prepare(v: array<real>, s: array<real>, a: real, b: real) returns (tail: array<real>)
    requires v.Length == s.Length >= 1 && v != s
    modifies v
    ensures fresh(tail) && tail[..] == Prepared(old(v[..]), s[..], a, b)
  {
    AxpbyInPlace(a, s, b, v);
    AddToTail(v, a - v[0]);
    tail := TailCopy(v);
  }

  /** Step 3 of the updates: the sum capped at rhs in front, the projection negated behind. */
  method Recover(tail: array<real>, v: array<real>, rhs: real)
    requires v.Length == tail.Length + 1 && v != tail
    modifies v
    ensures v[..] == Recovered(tail[..], rhs)
  {
    StoreTail(tail, v);
    assert v[1..] == tail[..];
    v[0] := Min(rhs, Sum(v[1..]));
    ghost var w := v[..];
    assert w[..1] == [Min(rhs, Sum(tail[..]))] && w[1..v.Length] == tail[..] && w[v.Length..] == [];
    ScalRange(-1.0, v, 1, v.Length);
  }

  /**
   * The shape every update leaves: the other classes' variables are at most
   * 0, and the ground truth's is min{c, minus their sum}.
   */
  ghost predicate UpdatedShape(v: seq<real>, c: real)
  {
    |v| >= 1 && v[0] == Min(c, -Sum(v[1..]))
    && forall j :: 1 <= j < |v| ==> v[j] <= 0.0
  }

  /** Every variable of the other classes is at least -hi. */
  ghost predicate CappedBelow(v: seq<real>, hi: real)
  {
    forall j :: 1 <= j < |v| ==> -hi <= v[j]
  }

  /** A projection with lower bound 0 has the updated shape once recovered. */
  lemma {:induction false} RecoveredShape(x: seq<real>, th: Thresholds, c: real)
    requires th.lo == 0.0
    ensures UpdatedShape(Recovered(ProxSeq(x, th), c), c)
  {
    var p := ProxSeq(x, th);
    var v := Recovered(p, c);
    assert v[1..] == Scal(-1.0, p);
    SumNegated(p);
  }

  /** Clamped to [0, hi] (or to 0), the recovered variables also stay at least -hi. */
  lemma {:induction false} RecoveredCapped(x: seq<real>, th: Thresholds, c: real, hi: real)
    requires hi >= 0.0
    requires (th.lo == 0.0 && th.hi == hi) || th == ZeroThresholds
    ensures CappedBelow(Recovered(ProxSeq(x, th), c), hi)
  {
    ProxSeqInBounds(x, th);
  }

  /**
   * The recovered variables of the other classes add up to minus the sum of
   * the projection, so a projection within the budget (or all zeros) keeps
   * their total above -bound.
   */
  lemma {:induction false} RecoveredBudget(x: seq<real>, th: Thresholds, c: real, bound: real)
    requires bound >= 0.0 && th.lo == 0.0
    requires Sum(ProxSeq(x, th)) <= bound
             || (forall i :: 0 <= i < |x| ==> ProxSeq(x, th)[i] == 0.0) || th == ZeroThresholds
    ensures -Sum(Recovered(ProxSeq(x, th), c)[1..]) <= bound
  {
    var p := ProxSeq(x, th);
    assert Recovered(p, c)[1..] == Scal(-1.0, p);
    SumNegated(p);
    if !(Sum(p) <= bound) {
      assert forall i :: 0 <= i < |p| ==> p[i] == 0.0;
      SumConst(p, 0.0);
      TimesZero(|p|);
    }
  }

  /**
   * The budget of the biased knapsack, read on the recovered variables: their
   * total stays above -(c + slack).
   */
  lemma {:induction false} RecoveredBiasedBudget(x: seq<real>, th: Thresholds, c: real, rho: real, eps: real)
    requires c >= 0.0 && rho > 0.0 && eps >= 0.0 && th.lo == 0.0
    requires Sum(ProxSeq(x, th)) <= c + BiasedSlack(eps, rho, |x|)
             || (forall i :: 0 <= i < |x| ==> ProxSeq(x, th)[i] == 0.0) || th == ZeroThresholds
    ensures -Sum(Recovered(ProxSeq(x, th), c)[1..]) <= c + BiasedSlack(eps, rho, |x|)
  {
    TimesMul(|x|, eps);
    assert eps / rho >= 0.0;
    RecoveredBudget(x, th, c, c + BiasedSlack(eps, rho, |x|));
  }

  /** The smoothed step rho = norm2 / (norm2 + gamma / c) lies in (0, 1]. */
  function SmoothRho(norm2: real, gamma: real, c: real): (rho: real)
    requires norm2 > 0.0 && gamma >= 0.0 && c > 0.0
    ensures 0.0 < rho <= 1.0
  {
    assert gamma / c >= 0.0;
    norm2 / (norm2 + gamma / c)
  }

  /**
   * `l2_topk_hinge::update_dual_variables`: the prepared vector (a = 1 /
   * norm2, b = -1) is projected by the biased knapsack with lo = 0,
   * hi = c / k, rhs = c and rho = 1.
   */
  method TopkHingeUpdate(o: TopkObjective, norm2: real, v: array<real>, s: array<real>,
                         machineEps: real)
      returns (th: Thresholds, ghost sorted: seq<real>)
    requires o.TopkHinge? && o.Valid() && norm2 > 0.0 && machineEps >= 0.0
    requires v.Length == s.Length >= 2 && v != s
    modifies v
    ensures var x := Prepared(old(v[..]), s[..], 1.0 / norm2, -1.0);
            v[..] == Recovered(ProxSeq(x, th), o.c)
            && multiset(sorted) == multiset(x)
            && KnapsackLeBiasedResult(x, sorted, th, 0.0, o.c / (o.k as real), o.c, 1.0,
                                      KnapsackEps(machineEps, o.c))
    ensures UpdatedShape(v[..], o.c) && CappedBelow(v[..], o.c / (o.k as real))
    ensures -Sum(v[1..]) <= o.c + BiasedSlack(KnapsackEps(machineEps, o.c), 1.0, v.Length - 1)
  {
    var hi := o.c / (o.k as real);
    assert hi >= 0.0;
    var tail := Prepare(v, s, 1.0 / norm2, -1.0);
    ghost var x := tail[..];
    th, sorted := ProxKnapsackLeBiased(tail, 0.0, hi, o.c, 1.0, machineEps);
    Recover(tail, v, o.c);
    RecoveredShape(x, th, o.c);
    RecoveredCapped(x, th, o.c, hi);
    RecoveredBiasedBudget(x, th, o.c, 1.0, KnapsackEps(machineEps, o.c));
  }

  /**
   * `l2_topk_hinge_smooth::update_dual_variables`: the same projection with
   * rho = norm2 / (norm2 + gamma / c), on the vector prepared with a = rho /
   * norm2 and b = -rho.
   */
  method TopkHingeSmoothUpdate(o: TopkObjective, norm2: real, v: array<real>, s: array<real>,
                               machineEps: real)
      returns (th: Thresholds, ghost sorted: seq<real>)
    requires o.TopkHingeSmooth? && o.Valid() && norm2 > 0.0 && machineEps >= 0.0
    requires v.Length == s.Length >= 2 && v != s
    modifies v
    ensures var rho := SmoothRho(norm2, o.gamma, o.c);
            var x := Prepared(old(v[..]), s[..], rho / norm2, -rho);
            v[..] == Recovered(ProxSeq(x, th), o.c)
            && multiset(sorted) == multiset(x)
            && KnapsackLeBiasedResult(x, sorted, th, 0.0, o.c / (o.k as real), o.c, rho,
                                      KnapsackEps(machineEps, o.c))
    ensures UpdatedShape(v[..], o.c) && CappedBelow(v[..], o.c / (o.k as real))
    ensures -Sum(v[1..]) <= o.c + BiasedSlack(KnapsackEps(machineEps, o.c), SmoothRho(norm2, o.gamma, o.c),
                                              v.Length - 1)
  {
    var rho := SmoothRho(norm2, o.gamma, o.c);
    var hi := o.c / (o.k as real);
    assert hi >= 0.0;
    var tail := Prepare(v, s, rho / norm2, -rho);
    ghost var x := tail[..];
    th, sorted := ProxKnapsackLeBiased(tail, 0.0, hi, o.c, rho, machineEps);
    Recover(tail, v, o.c);
    ghost var p := ProxSeq(x, th);
    assert v[..] == Recovered(p, o.c);
    RecoveredShape(x, th, o.c);
    RecoveredCapped(x, th, o.c, hi);
    RecoveredBiasedBudget(x, th, o.c, rho, KnapsackEps(machineEps, o.c));
  }

  /**
   * `l2_hinge_topk::update_dual_variables`: the prepared vector (a = 1 /
   * norm2, b = -1) is projected onto the biased top-k simplex with rhs = c
   * and rho = 1.
   */
  method HingeTopkUpdate(o: TopkObjective, norm2: real, v: array<real>, s: array<real>,
                         machineEps: real)
      returns (th: Thresholds)
    requires o.HingeTopk? && o.Valid() && norm2 > 0.0 && machineEps >= 0.0
    requires v.Length == s.Length && o.k < v.Length && v != s
    modifies v
    ensures var x := Prepared(old(v[..]), s[..], 1.0 / norm2, -1.0);
            var p := ProxSeq(x, th);
            var tol := KnapsackEps(machineEps, o.c) + Times(|x|, ConeEps(machineEps));
            v[..] == Recovered(p, o.c)
            && InTopkConeWithin(p, o.k, tol)
            && (Sum(p) <= o.c + tol || BiasedConeSearchedOn(x, o.k, 1.0, ConeEps(machineEps), th))
    ensures UpdatedShape(v[..], o.c)
  {
    var tail := Prepare(v, s, 1.0 / norm2, -1.0);
    ghost var x := tail[..];
    th := ProxTopkSimplexBiased(tail, o.k, o.c, 1.0, machineEps);
    Recover(tail, v, o.c);
    RecoveredShape(x, th, o.c);
  }

  /** `l2_hinge_topk_smooth::update_dual_variables`: the same with the smoothed rho. */
  method HingeTopkSmoothUpdate(o: TopkObjective, norm2: real, v: array<real>, s: array<real>,
                               machineEps: real)
      returns (th: Thresholds)
    requires o.HingeTopkSmooth? && o.Valid() && norm2 > 0.0 && machineEps >= 0.0
    requires v.Length == s.Length && o.k < v.Length && v != s
    modifies v
    ensures var rho := SmoothRho(norm2, o.gamma, o.c);
            var x := Prepared(old(v[..]), s[..], rho / norm2, -rho);
            var p := ProxSeq(x, th);
            var tol := KnapsackEps(machineEps, o.c) + Times(|x|, ConeEps(machineEps));
            v[..] == Recovered(p, o.c)
            && InTopkConeWithin(p, o.k, tol)
            && (Sum(p) <= o.c + tol || BiasedConeSearchedOn(x, o.k, rho, ConeEps(machineEps), th))
    ensures UpdatedShape(v[..], o.c)
  {
    var rho := SmoothRho(norm2, o.gamma, o.c);
    var tail := Prepare(v, s, rho / norm2, -rho);
    ghost var x := tail[..];
    th := ProxTopkSimplexBiased(tail, o.k, o.c, rho, machineEps);
    Recover(tail, v, o.c);
    RecoveredShape(x, th, o.c);
  }

  // ---------------------------------------------------------------------
  // primal_loss
  // ---------------------------------------------------------------------

  /** A permutation of x[lo..hi) read on x[1..] is a permutation of [lo - 1, hi - 1). */
  lemma {:induction false} PermutedWithinTail(before: seq<real>, after: seq<real>, lo: nat, hi: nat)
    requires 1 <= lo && PermutedWithin(before, after, lo, hi)
    ensures PermutedWithin(before[1..], after[1..], lo - 1, hi - 1)
  {
    assert |before| == |after| && lo <= hi <= |after|;
    assert before[1..][..lo - 1] == before[1..lo];
    assert after[1..][..lo - 1] == after[1..lo];
    assert before[1..][lo - 1..hi - 1] == before[lo..hi];
    assert after[1..][lo - 1..hi - 1] == after[lo..hi];
    assert before[1..][hi - 1..] == before[hi..];
    assert after[1..][hi - 1..] == after[hi..];
  }

  /**
   * Steps shared by the two non-smooth losses: the margins replace
   * scores[1..], and `std::nth_element(first, first + k - 1, last,
   * std::greater)` brings k largest margins to the front of them.
   */
  method TopMargins(s: array<real>, k: nat)
    requires 1 <= k < s.Length
    modifies s
    ensures s[0] == old(s[0])
    ensures IsTopkArrangement(Margins(old(s[..])), s[1..], k)
  {
    AddToTail(s, 1.0 - s[0]);
    ghost var s0 := s[..];
    ghost var h := s[1..];
    assert h == Margins(old(s[..]));
    SortDescending(s, 1, s.Length);
    PermutedWithinTail(s0, s[..], 1, s.Length);
    assert s0[1..] == h;
    PermutedWithinWhole(h, s[1..], 0, s.Length - 1);
    assert s[1..s.Length] == s[1..];
    SortedTopBlock(s[1..], k);
  }

  /**
   * `l2_topk_hinge::primal_loss`: the positive margins among k largest are
   * moved to the front of them and summed (the division by k happens in the
   * caller). The result is the sum of the positive parts of the top k
   * margins, which TopkHingeLossDeterminate shows depends on the scores only.
   */
  method TopkHingePrimalLoss(o: TopkObjective, s: array<real>) returns (loss: real)
    requires o.TopkHinge? && 1 <= o.k < s.Length
    modifies s
    ensures s[0] == old(s[0])
    ensures IsTopkArrangement(Margins(old(s[..])), s[1..], o.k)
    ensures loss == Sum(Map(s[1..o.k + 1], Pos)) && loss >= 0.0
  {
    var k := o.k;
    TopMargins(s, k);
    ghost var s1 := s[..];
    var it := Partition(s, 1, 1 + k, x => x > 0.0);
    PositiveFront(Margins(old(s[..])), s1, s[..], k, it);
    loss := Sum(s[1..it]);
  }

  /** What the partition of the top block by x > 0 leaves. */
  lemma {:induction false} PositiveFront(h: seq<real>, s1: seq<real>, s2: seq<real>, k: nat, it: nat)
    requires |s1| >= 1 && IsTopkArrangement(h, s1[1..], k)
    requires PermutedWithin(s1, s2, 1, 1 + k) && 1 <= it <= 1 + k
    requires forall i :: 1 <= i < it ==> s2[i] > 0.0
    requires forall i :: it <= i < 1 + k ==> s2[i] <= 0.0
    ensures IsTopkArrangement(h, s2[1..], k)
    ensures Sum(s2[1..it]) == Sum(Map(s2[1..k + 1], Pos)) && Sum(s2[1..it]) >= 0.0
  {
    PermutedWithinTail(s1, s2, 1, 1 + k);
    TopBlockPermuteFront(s1[1..], s2[1..], k);
    PermutedWithinWhole(s1[1..], s2[1..], 0, k);
    assert s2[1..1 + k][..it - 1] == s2[1..it];
    PositivePrefixSum(s2[1..1 + k], it - 1);
    PosSumBounds(s2[1..k + 1]);
  }

  /**
   * `l2_hinge_topk::primal_loss`: max{0, sum of k largest margins} (the
   * division by k happens in the caller).
   */
  method HingeTopkPrimalLoss(o: TopkObjective, s: array<real>) returns (loss: real)
    requires o.HingeTopk? && 1 <= o.k < s.Length
    modifies s
    ensures s[0] == old(s[0])
    ensures IsTopkArrangement(Margins(old(s[..])), s[1..], o.k)
    ensures loss == Max(0.0, Sum(s[1..o.k + 1]))
  {
    TopMargins(s, o.k);
    loss := Max(0.0, Sum(s[1..o.k + 1]));
  }

  /**
   * The top-k hinge loss is a function of the margins: every arrangement the
   * partial sort may produce gives the same value.
   */
  lemma {:induction false} TopkHingeLossDeterminate(h: seq<real>, p: seq<real>, q: seq<real>, k: nat)
    requires IsTopkArrangement(h, p, k) && IsTopkArrangement(h, q, k)
    ensures Sum(Map(p[..k], Pos)) == Sum(Map(q[..k], Pos))
  {
    TopSumUnique(h, p, q, k, Pos);
  }

  /** So is the hinge-of-top-k loss. */
  lemma {:induction false} HingeTopkLossDeterminate(h: seq<real>, p: seq<real>, q: seq<real>, k: nat)
    requires IsTopkArrangement(h, p, k) && IsTopkArrangement(h, q, k)
    ensures Max(0.0, Sum(p[..k])) == Max(0.0, Sum(q[..k]))
  {
    TopSumUnique(h, p, q, k, x => x);
    MapIdentity(p[..k]);
    MapIdentity(q[..k]);
  }

  /** Adding a constant to every entry is a map through x + a. */
  lemma {:induction false} ShiftAsMap(t: seq<real>, a: real)
    ensures Shift(t, a) == Map(t, x => x + a)
  {
  }

  /**
   * Reordering the scores of the other classes, the ground-truth score
   * kept first, reorders the margins the same way.
   */
  lemma {:induction false} MarginsReordered(s: seq<real>, u: seq<real>)
    requires MultisetSolver.Reordered(s, u)
    ensures |Margins(s)| == |Margins(u)| && multiset(Margins(s)) == multiset(Margins(u))
  {
    ShiftAsMap(s[1..], 1.0 - s[0]);
    ShiftAsMap(u[1..], 1.0 - u[0]);
    MapPermutation(s[1..], u[1..], x => x + (1.0 - s[0]));
  }

  /**
   * The top-k hinge loss is order-free in the sense the solvers' evaluation
   * loops rely on: scores reordered behind the ground truth give the same
   * loss, whatever arrangements the partial sort produces on each.
   */
  lemma {:induction false} TopkHingeLossOrderFree(s: seq<real>, u: seq<real>, p: seq<real>, q: seq<real>, k: nat)
    requires MultisetSolver.Reordered(s, u)
    requires IsTopkArrangement(Margins(s), p, k) && IsTopkArrangement(Margins(u), q, k)
    ensures Sum(Map(p[..k], Pos)) == Sum(Map(q[..k], Pos))
  {
    MarginsReordered(s, u);
    assert IsTopkArrangement(Margins(s), q, k);
    TopkHingeLossDeterminate(Margins(s), p, q, k);
  }

  /** So is the hinge-of-top-k loss. */
  lemma {:induction false} HingeTopkLossOrderFree(s: seq<real>, u: seq<real>, p: seq<real>, q: seq<real>, k: nat)
    requires MultisetSolver.Reordered(s, u)
    requires IsTopkArrangement(Margins(s), p, k) && IsTopkArrangement(Margins(u), q, k)
    ensures Max(0.0, Sum(p[..k])) == Max(0.0, Sum(q[..k]))
  {
    MarginsReordered(s, u);
    assert IsTopkArrangement(Margins(s), q, k);
    HingeTopkLossDeterminate(Margins(s), p, q, k);
  }

  /**
   * The hinge of the top-k sum never exceeds the top-k sum of hinges on the
   * same scores, whatever arrangements the two losses work on.
   */
  lemma {:induction false} HingeTopkAtMostTopkHinge(h: seq<real>, p: seq<real>, q: seq<real>, k: nat)
    requires IsTopkArrangement(h, p, k) && IsTopkArrangement(h, q, k)
    ensures Max(0.0, Sum(p[..k])) <= Sum(Map(q[..k], Pos))
  {
    TopkHingeLossDeterminate(h, p, q, k);
    PosSumBounds(p[..k]);
  }

  /** When none of the k largest margins is negative, the two losses agree. */
  lemma {:induction false} LossesAgreeOnNonNegativeTop(h: seq<real>, p: seq<real>, k: nat)
    requires IsTopkArrangement(h, p, k)
    requires forall i :: 0 <= i < k ==> p[i] >= 0.0
    ensures Max(0.0, Sum(p[..k])) == Sum(Map(p[..k], Pos))
  {
    assert Map(p[..k], Pos) == p[..k];
    SumNonNegative(p[..k]);
  }

  /**
   * `l2_topk_hinge_smooth::primal_loss`: the margins are reordered by
   * `thresholds_knapsack_le(0, gamma / k, gamma)` and the loss is
   * <h, p> - 1/2 <p, p> read off the thresholds. The reordered buffer is
   * always consistent with them, so the folds are the inner products
   * themselves.
   */
  method TopkHingeSmoothPrimalLoss(o: TopkObjective, s: array<real>, machineEps: real)
      returns (loss: real, th: Thresholds)
    requires o.TopkHingeSmooth? && o.Valid() && s.Length >= 2 && machineEps >= 0.0
    modifies s
    ensures s[0] == old(s[0]) && multiset(s[1..]) == multiset(Margins(old(s[..])))
    ensures KnapsackLeResult(Margins(old(s[..])), s[1..], th, 0.0, o.gamma / (o.k as real), o.gamma,
                             KnapsackEps(machineEps, o.gamma))
    ensures th.first <= th.last <= s.Length - 1 && loss == SmoothLoss(th, s[1..])
    ensures loss == Dot(s[1..], ProxSeq(s[1..], th)) - 0.5 * SumSq(ProxSeq(s[1..], th))
  {
    AddToTail(s, 1.0 - s[0]);
    var tail := TailCopy(s);
    ghost var h := tail[..];
    var hi := o.gamma / (o.k as real);
    th := ThresholdsKnapsackLe(tail, 0.0, hi, o.gamma, machineEps);
    KnapsackLeSmoothLoss(h, tail[..], th, hi, o.gamma, KnapsackEps(machineEps, o.gamma));
    loss := SmoothLoss(th, tail[..]);
    StoreTail(tail, s);
    assert s[1..] == tail[..];
  }

  /**
   * After `thresholds_knapsack_le` the thresholds are ordered and the
   * reordered buffer is consistent with them, whether the budget is
   * inactive (the split into groups) or active (the equality knapsack).
   */
  lemma {:induction false} KnapsackLeSmoothLoss(h: seq<real>, t: seq<real>, th: Thresholds, hi: real, rhs: real,
                             eps: real)
    requires hi >= 0.0 && KnapsackLeResult(h, t, th, 0.0, hi, rhs, eps)
    ensures th.first <= th.last <= |t|
    ensures Consistent(t, th)
    ensures SmoothLoss(th, t) == Dot(t, ProxSeq(t, th)) - 0.5 * SumSq(ProxSeq(t, th))
  {
    if ClampedSum(h, 0.0, hi) <= rhs + eps {
      LeGroupsConsistent(t, th);
    }
    SmoothLossCorrect(th, t);
  }

  /**
   * `l2_hinge_topk_smooth::primal_loss`: the same, with the thresholds of
   * the top-k simplex with rhs = gamma. The folds are the inner products
   * whenever the buffer is consistent with the thresholds, and always with
   * exact arithmetic; with a tolerance the cone search may accept
   * thresholds that entries miss by up to that tolerance.
   */
  method HingeTopkSmoothPrimalLoss(o: TopkObjective, s: array<real>, machineEps: real)
      returns (loss: real, th: Thresholds)
    requires o.HingeTopkSmooth? && o.Valid() && o.k < s.Length && machineEps >= 0.0
    modifies s
    ensures s[0] == old(s[0]) && multiset(s[1..]) == multiset(Margins(old(s[..])))
    ensures TopkSimplexResult(s[1..], o.k, o.gamma, KnapsackEps(machineEps, o.gamma),
                              ConeEps(machineEps), th)
    ensures th.first <= th.last <= s.Length - 1 && loss == SmoothLoss(th, s[1..])
    ensures Consistent(s[1..], th)
            ==> loss == Dot(s[1..], ProxSeq(s[1..], th)) - 0.5 * SumSq(ProxSeq(s[1..], th))
    ensures machineEps == 0.0
            ==> loss == Dot(s[1..], ProxSeq(s[1..], th)) - 0.5 * SumSq(ProxSeq(s[1..], th))
  {
    AddToTail(s, 1.0 - s[0]);
    var tail := TailCopy(s);
    ghost var h := tail[..];
    assert h == Margins(old(s[..]));
    th := ThresholdsTopkSimplex(tail, o.k, o.gamma, machineEps);
    assert multiset(tail[..]) == multiset(h);
    SimplexSmoothLoss(tail[..], o.k, o.gamma, machineEps, th);
    loss := SmoothLoss(th, tail[..]);
    StoreTail(tail, s);
    assert s[1..] == tail[..];
  }

  // ---------------------------------------------------------------------
  // dual_loss
  // ---------------------------------------------------------------------

  /**
   * The smoothed `dual_loss`: v_0 - gamma / (2 c) sum_{j >= 1} v_j^2. The
   * smoothing term only lowers the default dual loss v_0, and vanishes with
   * gamma.
   */
  function SmoothDualLoss(o: TopkObjective, v: seq<real>): (r: real)
    requires o.Smooth() && o.Valid() && |v| >= 1
    ensures r == DualLoss(v) - o.gamma / (2.0 * o.c) * SumSq(v[1..])
    ensures r <= DualLoss(v)
  {
    DotSelf(v[1..]);
    SumSqNonNegative(v[1..]);
    assert o.gamma / (2.0 * o.c) >= 0.0;
    v[0] - o.gamma / (2.0 * o.c) * Dot(v[1..], v[1..])
  }
}
