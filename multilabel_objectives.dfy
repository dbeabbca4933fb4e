/**
 * The multilabel hinge objective (`l2_multilabel_hinge`) and its smoothed
 * form. The scores and dual variables of one example are buffers of length
 * m whose first p entries belong to the example's labels (the positives) and
 * whose remaining m - p entries belong to the other classes (the negatives).
 * The loss is the hinge of the worst pair: max{0, 1 + max_neg s - min_pos s}.
 */
module MultilabelObjectives {
  import opened Numeric
  import opened Reorder
  import opened ProxDef
  import opened Blas
  import opened ObjectiveBase
  import opened KnapsackEq
  import opened KnapsackLe
  import opened TwoSimplex

  datatype MultilabelObjective =
    | MultilabelHinge(c: real)
    | MultilabelHingeSmooth(c: real, gamma: real)
  {
    /** The parameters the constructors divide by are usable: c > 0, gamma > 0. */
    predicate Valid()
    {
      c > 0.0 && (MultilabelHingeSmooth? ==> gamma > 0.0)
    }
  }

  /**
   * The `objective_base` part: the primal loss is scaled by c, or by
   * c / gamma when smoothed.
   */
  function Base(o: MultilabelObjective): (b: Objective)
    requires o.Valid()
    ensures o.MultilabelHinge? ==> b.coeff == o.c
    ensures o.MultilabelHingeSmooth? ==> b.coeff * o.gamma == o.c && b.coeff > 0.0
  {
    if o.MultilabelHinge? then Objective(o.c) else Objective(o.c / o.gamma)
  }

  /** A labelled layout: at least one positive and at least one negative. */
  predicate Split(m: nat, p: nat)
  {
    1 <= p < m
  }

  // ---------------------------------------------------------------------
  // update_dual_variables
  // ---------------------------------------------------------------------

  /**
   * The vector the updates project, from x = a s + b v: h - x_i on the
   * positives and x_j + h on the negatives, with h = a / 2.
   */
  function Prepared(x: seq<real>, p: nat, h: real): (r: seq<real>)
    requires p <= |x|
    ensures |r| == |x|
  {
    seq(|x|, i requires 0 <= i < |x| => if i < p then h - x[i] else x[i] + h)
  }

  /** The new dual variables: the positives' projection, then the negated negatives' one. */
  function Recovered(pos: seq<real>, neg: seq<real>): seq<real>
  {
    pos + Scal(-1.0, neg)
  }

  /** Variables of the positives lie in [0, c], those of the negatives in [-c, 0]. */
  ghost predicate UpdatedShape(v: seq<real>, p: nat, c: real)
  {
    p <= |v|
    && (forall i :: 0 <= i < p ==> 0.0 <= v[i] <= c)
    && (forall j :: p <= j < |v| ==> -c <= v[j] <= 0.0)
  }

  /**
   * The positives' variables sum to at most c, the negatives' to at least
   * -c, and the two sums cancel within eps.
   */
  ghost predicate Balanced(v: seq<real>, p: nat, c: real, eps: real)
  {
    p <= |v| && Sum(v[..p]) <= c && -c <= Sum(v[p..]) && Abs(Sum(v[..p]) + Sum(v[p..])) <= eps
  }

  /** Writes two blocks back to back over x. */
  method StoreBlocks(pos: array<real>, neg: array<real>, x: array<real>)
    requires x.Length == pos.Length + neg.Length && x != pos && x != neg
    modifies x
    ensures x[..] == pos[..] + neg[..]
  {
    var p := pos.Length;
    var i := 0;
    while i < x.Length
      invariant 0 <= i <= x.Length
      invariant forall j :: 0 <= j < i && j < p ==> x[j] == pos[j]
      invariant forall j :: p <= j < i ==> x[j] == neg[j - p]
    {
      x[i] := if i < p then pos[i] else neg[i - p];
      i := i + 1;
    }
    assert forall j :: 0 <= j < x.Length ==> x[..][j] == (pos[..] + neg[..])[j];
  }

  /**
   * Step 1 of the updates: x = a s + b v, then h - x on the positives and
   * x + h on the negatives (h = a / 2), copied out as two blocks.
   */
  method PrepareBlocks(v: array<real>, s: array<real>, p: nat, a: real, b: real)
      returns (pos: array<real>, neg: array<real>)
    requires v.Length == s.Length && Split(v.Length, p) && v != s
    modifies v
    ensures fresh(pos) && fresh(neg) && pos != neg && pos.Length == p
    ensures pos[..] + neg[..] == Prepared(Axpby(a, s[..], b, old(v[..])), p, a / 2.0)
  {
    AxpbyInPlace(a, s, b, v);
    Reflect(v, p, a / 2.0);
    pos, neg := CopyBlocks(v, p);
  }

  /** h - x on the positives and x + h on the negatives, in place. */
  method Reflect(x: array<real>, p: nat, h: real)
    requires p <= x.Length
    modifies x
    ensures x[..] == Prepared(old(x[..]), p, h)
  {
    Apply(x, 0, p, y => h - y);
    Apply(x, p, x.Length, y => y + h);
    assert forall i :: 0 <= i < x.Length ==> x[..][i] == Prepared(old(x[..]), p, h)[i];
  }

  /** Fresh copies of the positives' and the negatives' blocks. */
  method CopyBlocks(x: array<real>, p: nat) returns (pos: array<real>, neg: array<real>)
    requires p <= x.Length
    ensures fresh(pos) && fresh(neg) && pos != neg && pos.Length == p
    ensures pos[..] == x[..p] && neg[..] == x[p..] && pos[..] + neg[..] == x[..]
  {
    pos := new real[p];
    CopyInto(x, 0, p, pos);
    neg := new real[x.Length - p];
    CopyInto(x, p, x.Length, neg);
    assert pos[..] == pos[..p] && neg[..] == neg[..x.Length - p];
    assert x[..] == x[..p] + x[p..];
  }

  /** Two blocks laid back to back are the two halves of their concatenation. */
  lemma {:induction false} SplitBlocks(u: seq<real>, w: seq<real>, x: seq<real>)
    requires u + w == x
    ensures x[..|u|] == u && x[|u|..] == w
  {
  }

  /** Both blocks of a two-simplex projection land in the updated shape. */
  lemma {:induction false} RecoveredShape(x: seq<real>, y: seq<real>, thA: Thresholds, thB: Thresholds, c: real)
    requires thA.lo == 0.0 && thA.hi == c && thB.lo == 0.0 && thB.hi == c && c >= 0.0
    ensures UpdatedShape(Recovered(ProxSeq(x, thA), ProxSeq(y, thB)), |x|, c)
  {
    ProxSeqInBounds(x, thA);
    ProxSeqInBounds(y, thB);
    var v := Recovered(ProxSeq(x, thA), ProxSeq(y, thB));
    assert forall j :: |x| <= j < |v| ==> v[j] == -ProxSeq(y, thB)[j - |x|];
  }

  /**
   * The common body of both updates: the prepared blocks are projected by
   * `prox_two_simplex` with rhs = c, and the negatives' block is negated.
   * sa and sb are the reordered copies of the blocks the thresholds describe.
   */
  method TwoSimplexUpdate(v: array<real>, s: array<real>, p: nat, a: real, b: real, c: real,
                          machineEps: real)
      returns (thA: Thresholds, thB: Thresholds, ghost sa: seq<real>, ghost sb: seq<real>)
    requires v.Length == s.Length && Split(v.Length, p) && v != s
    requires c > 0.0 && machineEps >= 0.0
    modifies v
    ensures var x := Prepared(Axpby(a, s[..], b, old(v[..])), p, a / 2.0);
            v[..] == Recovered(ProxSeq(x[..p], thA), ProxSeq(x[p..], thB))
            && multiset(sa) == multiset(x[..p]) && multiset(sb) == multiset(x[p..])
    ensures thA.lo == 0.0 && thA.hi == c && thB.lo == 0.0 && thB.hi == c
    ensures TwoSimplexResult(sa, sb, c, KnapsackEps(machineEps, c), thA, thB)
    ensures UpdatedShape(v[..], p, c)
    ensures Balanced(v[..], p, c, KnapsackEps(machineEps, c))
  {
    ghost var x := Prepared(Axpby(a, s[..], b, v[..]), p, a / 2.0);
    var pos, neg := PrepareBlocks(v, s, p, a, b);
    SplitBlocks(pos[..], neg[..], x);
    thA, thB, sa, sb := ProxTwoSimplex(pos, neg, c, machineEps);
    ghost var pa, pb := pos[..], neg[..];
    StoreBlocks(pos, neg, v);
    ghost var w := v[..];
    assert w[..p] == pa && w[p..v.Length] == pb && w[v.Length..] == [];
    ScalRange(-1.0, v, p, v.Length);
    assert v[..] == Recovered(pa, pb);
    RecoveredShape(x[..p], x[p..], thA, thB, c);
    TwoSimplexBalanced(x[..p], x[p..], sa, sb, c, KnapsackEps(machineEps, c), thA, thB);
  }

  /**
   * `l2_multilabel_hinge::update_dual_variables`: x = s / norm2 - v is
   * prepared with h = 1 / (2 norm2) and projected onto the two-simplex with
   * rhs = c.
   */
  method MultilabelHingeUpdate(o: MultilabelObjective, p: nat, norm2: real, v: array<real>,
                               s: array<real>, machineEps: real)
      returns (thA: Thresholds, thB: Thresholds, ghost sa: seq<real>, ghost sb: seq<real>)
    requires o.MultilabelHinge? && o.Valid() && norm2 > 0.0 && machineEps >= 0.0
    requires v.Length == s.Length && Split(v.Length, p) && v != s
    modifies v
    ensures var x := Prepared(Axpby(1.0 / norm2, s[..], -1.0, old(v[..])), p, 1.0 / norm2 / 2.0);
            v[..] == Recovered(ProxSeq(x[..p], thA), ProxSeq(x[p..], thB))
            && multiset(sa) == multiset(x[..p]) && multiset(sb) == multiset(x[p..])
    ensures TwoSimplexResult(sa, sb, o.c, KnapsackEps(machineEps, o.c), thA, thB)
    ensures UpdatedShape(v[..], p, o.c)
    ensures Balanced(v[..], p, o.c, KnapsackEps(machineEps, o.c))
  {
    thA, thB, sa, sb := TwoSimplexUpdate(v, s, p, 1.0 / norm2, -1.0, o.c, machineEps);
  }

  /**
   * `l2_multilabel_hinge_smooth::update_dual_variables`: the same projection
   * of x = a s - b v with a = 1 / (norm2 + gamma / c) and
   * b = norm2 / (norm2 + gamma / c).
   */
  method MultilabelHingeSmoothUpdate(o: MultilabelObjective, p: nat, norm2: real, v: array<real>,
                                     s: array<real>, machineEps: real)
      returns (thA: Thresholds, thB: Thresholds, ghost sa: seq<real>, ghost sb: seq<real>)
    requires o.MultilabelHingeSmooth? && o.Valid() && norm2 > 0.0 && machineEps >= 0.0
    requires v.Length == s.Length && Split(v.Length, p) && v != s
    modifies v
    ensures var d := norm2 + o.gamma / o.c;
            var x := Prepared(Axpby(1.0 / d, s[..], -(norm2 / d), old(v[..])), p, 1.0 / d / 2.0);
            v[..] == Recovered(ProxSeq(x[..p], thA), ProxSeq(x[p..], thB))
            && multiset(sa) == multiset(x[..p]) && multiset(sb) == multiset(x[p..])
    ensures TwoSimplexResult(sa, sb, o.c, KnapsackEps(machineEps, o.c), thA, thB)
    ensures UpdatedShape(v[..], p, o.c)
    ensures Balanced(v[..], p, o.c, KnapsackEps(machineEps, o.c))
  {
    assert o.gamma / o.c > 0.0;
    var d := norm2 + o.gamma / o.c;
    thA, thB, sa, sb := TwoSimplexUpdate(v, s, p, 1.0 / d, -(norm2 / d), o.c, machineEps);
  }

  /**
   * When phase 1 of the two-simplex is feasible, the update balances the
   * variables: the positives' sum to c and the negatives' to -c, so the
   * dual loss after the step is c.
   */
  lemma {:induction false} Phase1Balanced(x: seq<real>, y: seq<real>, sa: seq<real>, sb: seq<real>, c: real, eps: real,
                       thA: Thresholds, thB: Thresholds)
    requires c > 0.0 && multiset(sa) == multiset(x) && multiset(sb) == multiset(y)
    requires TwoSimplexResult(sa, sb, c, eps, thA, thB)
    requires Phase1Result(sa, thA.t, thA.last, c) && Phase1Result(sb, thB.t, thB.last, c)
    ensures var v := Recovered(ProxSeq(x, thA), ProxSeq(y, thB));
            Sum(v[..|x|]) == c && Sum(v[|x|..]) == -c
            && LabelDualLoss(v, |x|) == c
  {
    Phase1Prox(sa, thA.t, thA.last, c);
    Phase1Prox(sb, thB.t, thB.last, c);
    assert thA == Thresholds(thA.t, 0.0, c, 0, thA.last);
    assert thB == Thresholds(thB.t, 0.0, c, 0, thB.last);
    SumProxPermutation(x, sa, thA);
    SumProxPermutation(y, sb, thB);
    var v := Recovered(ProxSeq(x, thA), ProxSeq(y, thB));
    assert v[..|x|] == ProxSeq(x, thA);
    assert v[|x|..] == Scal(-1.0, ProxSeq(y, thB));
    SumNegated(ProxSeq(y, thB));
  }

  /**
   * In either phase the update stays within the budget and balances the
   * variables up to eps: the positives' sum is at most c, the negatives' at
   * least -c, and the two sums cancel within eps.
   */
  lemma {:induction false} TwoSimplexBalanced(x: seq<real>, y: seq<real>, sa: seq<real>, sb: seq<real>, c: real,
                                              eps: real, thA: Thresholds, thB: Thresholds)
    requires c > 0.0 && eps >= 0.0 && multiset(sa) == multiset(x) && multiset(sb) == multiset(y)
    requires TwoSimplexResult(sa, sb, c, eps, thA, thB)
    ensures Balanced(Recovered(ProxSeq(x, thA), ProxSeq(y, thB)), |x|, c, eps)
  {
    TwoSimplexCopies(x, y, sa, sb, c, eps, thA, thB);
    var v := Recovered(ProxSeq(x, thA), ProxSeq(y, thB));
    assert v[..|x|] == ProxSeq(x, thA);
    assert v[|x|..] == Scal(-1.0, ProxSeq(y, thB));
    SumNegated(ProxSeq(y, thB));
  }

  // ---------------------------------------------------------------------
  // primal_loss
  // ---------------------------------------------------------------------

  /**
   * `l2_multilabel_hinge::primal_loss`: max{0, max_neg s - min_pos s + 1}.
   * It is the largest hinge 1 + s_j - s_i over the (positive i, negative j)
   * pairs, and zero exactly when every positive beats every negative by a
   * margin of 1.
   */
  function MultilabelHingeLoss(s: seq<real>, p: nat): (r: real)
    requires Split(|s|, p)
    ensures r >= 0.0
    ensures forall i, j :: 0 <= i < p <= j < |s| ==> s[j] - s[i] + 1.0 <= r
    ensures r > 0.0 ==> exists i, j :: 0 <= i < p <= j < |s| && r == s[j] - s[i] + 1.0
    ensures r == 0.0 <==> forall i, j :: 0 <= i < p <= j < |s| ==> s[i] >= s[j] + 1.0
  {
    var minPos := MinOf(s[..p]);
    var maxNeg := MaxOf(s[p..]);
    assert forall i :: 0 <= i < p ==> minPos <= s[..p][i] == s[i];
    assert forall j :: p <= j < |s| ==> s[p..][j - p] == s[j] <= maxNeg;
    var r := Max(0.0, maxNeg - minPos + 1.0);
    assert r > 0.0 ==> exists i, j :: 0 <= i < p <= j < |s| && r == s[j] - s[i] + 1.0 by {
      if r > 0.0 {
        var i :| 0 <= i < p && s[..p][i] == minPos;
        var j :| 0 <= j < |s| - p && s[p..][j] == maxNeg;
        assert r == s[p + j] - s[i] + 1.0;
      }
    }
    r
  }

  /**
   * The sum of the two blocks' smoothed losses, read off their threshold
   * folds.
   */
  function TwoBlockSmoothLoss(thA: Thresholds, thB: Thresholds, s: seq<real>, p: nat): real
    requires p <= |s| && thA.first <= thA.last <= p && thB.first <= thB.last <= |s| - p
  {
    SmoothLoss(thA, s[..p]) + SmoothLoss(thB, s[p..])
  }

  /**
   * `l2_multilabel_hinge_smooth::primal_loss`: the scores become 1/2 - s on
   * the positives and s + 1/2 on the negatives, both blocks are reordered by
   * `thresholds_two_simplex(gamma)`, and the loss is
   * (<h_A, p_A> + <h_B, p_B>) - 1/2 (<p_A, p_A> + <p_B, p_B>) read off the
   * thresholds. In both phases the blocks are consistent with their
   * thresholds, so the folds are the inner products themselves.
   */
  method MultilabelHingeSmoothPrimalLoss(o: MultilabelObjective, p: nat, s: array<real>,
                                         machineEps: real)
      returns (loss: real, thA: Thresholds, thB: Thresholds)
    requires o.MultilabelHingeSmooth? && o.Valid() && Split(s.Length, p) && machineEps >= 0.0
    modifies s
    ensures var x := Prepared(old(s[..]), p, 0.5);
            multiset(s[..p]) == multiset(x[..p]) && multiset(s[p..]) == multiset(x[p..])
    ensures TwoSimplexResult(s[..p], s[p..], o.gamma, KnapsackEps(machineEps, o.gamma), thA, thB)
    ensures thA.first <= thA.last <= p && thB.first <= thB.last <= s.Length - p
    ensures loss == TwoBlockSmoothLoss(thA, thB, s[..], p)
    ensures loss == Dot(s[..p], ProxSeq(s[..p], thA)) - 0.5 * SumSq(ProxSeq(s[..p], thA))
                        + (Dot(s[p..], ProxSeq(s[p..], thB)) - 0.5 * SumSq(ProxSeq(s[p..], thB)))
  {
    Reflect(s, p, 0.5);
    var pos, neg := CopyBlocks(s, p);
    thA, thB := ThresholdsTwoSimplex(pos, neg, o.gamma, machineEps);
    TwoSimplexFolds(pos[..], neg[..], o.gamma, KnapsackEps(machineEps, o.gamma), thA, thB);
    loss := SmoothLoss(thA, pos[..]) + SmoothLoss(thB, neg[..]);
    StoreBlocks(pos, neg, s);
    assert s[..p] == pos[..] && s[p..] == neg[..];
  }

  /**
   * The two-simplex thresholds index their blocks and match them in both
   * phases, so the smoothed loss of each block is <h, p> - 1/2 <p, p>.
   */
  lemma {:induction false} TwoSimplexFolds(sa: seq<real>, sb: seq<real>, rhs: real, eps: real,
                        thA: Thresholds, thB: Thresholds)
    requires rhs > 0.0 && eps >= 0.0 && TwoSimplexResult(sa, sb, rhs, eps, thA, thB)
    ensures thA.first <= thA.last <= |sa| && thB.first <= thB.last <= |sb|
    ensures SmoothLoss(thA, sa) == Dot(sa, ProxSeq(sa, thA)) - 0.5 * SumSq(ProxSeq(sa, thA))
    ensures SmoothLoss(thB, sb) == Dot(sb, ProxSeq(sb, thB)) - 0.5 * SumSq(ProxSeq(sb, thB))
  {
    TwoSimplexProx(sa, sb, rhs, eps, thA, thB);
    SmoothLossCorrect(thA, sa);
    SmoothLossCorrect(thB, sb);
  }

  // ---------------------------------------------------------------------
  // dual_loss
  // ---------------------------------------------------------------------

  /** `l2_multilabel_hinge::dual_loss`: the sum of the positives' variables. */
  function LabelDualLoss(v: seq<real>, p: nat): (r: real)
    requires p <= |v|
    ensures r == Sum(v[..p])
  {
    Sum(v[..p])
  }

  /** On variables of the updated shape the dual loss lies in [0, p c]. */
  lemma {:induction false} DualLossBounds(v: seq<real>, p: nat, c: real)
    requires UpdatedShape(v, p, c)
    ensures 0.0 <= LabelDualLoss(v, p) <= Times(p, c)
  {
    SumNonNegative(v[..p]);
    SumAtMostTimes(v[..p], c);
  }

  /**
   * The smoothed `dual_loss`: sum_pos v - gamma / (2 c) <v, v> over all the
   * variables. The smoothing term only lowers the default dual loss.
   */
  function SmoothDualLoss(o: MultilabelObjective, v: seq<real>, p: nat): (r: real)
    requires o.MultilabelHingeSmooth? && o.Valid() && p <= |v|
    ensures r == LabelDualLoss(v, p) - o.gamma / (2.0 * o.c) * SumSq(v)
    ensures r <= LabelDualLoss(v, p)
  {
    DotSelf(v);
    SumSqNonNegative(v);
    assert o.gamma / (2.0 * o.c) >= 0.0;
    Sum(v[..p]) - o.gamma / (2.0 * o.c) * Dot(v, v)
  }
}
