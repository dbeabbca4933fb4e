/**
 * Evaluation of a solution on one dataset: per-example accumulation of the
 * losses, of the multiclass top-k accuracy buckets and of the multilabel
 * rank loss, and the end-of-pass normalisation. The objective's losses are
 * parameters (`primalLoss` on a scores buffer, `dualLoss` on a variables
 * buffer), since every objective supplies its own.
 */
module Evaluation {
  import opened Numeric
  import opened Reorder
  import opened Labels
  import opened ObjectiveBase
  import opened Blas
  import opened SolverDef

  /**
   * An evaluation record (`eval_train` / `eval_test`): the objectives and
   * their terms, the multiclass accuracies and the multilabel rank loss.
   */
  datatype Eval = Eval(
    epoch: nat,
    primal: real,
    dual: real,
    primalLoss: real,
    dualLoss: real,
    regularizer: real,
    accuracy: seq<real>,
    rankLoss: real)

  const DefaultEval := Eval(0, 0.0, 0.0, 0.0, 0.0, 0.0, [], 0.0)

  /** A buffer of n zeros. */
  function Zeros(n: nat): (r: seq<real>)
    ensures |r| == n && forall j :: 0 <= j < n ==> r[j] == 0.0
  {
    seq(n, j => 0.0)
  }

  lemma {:induction false} SumZeros(n: nat)
    ensures Sum(Zeros(n)) == 0.0
  {
    SumConst(Zeros(n), 0.0);
    TimesZero(n);
  }

  // ---------------------------------------------------------------------
  // eval_begin
  // ---------------------------------------------------------------------

  /** `eval_begin`: one default evaluation is appended, and it is the one returned. */
  function EvalBegin(evals: seq<Eval>): (r: seq<Eval>)
    ensures |r| == |evals| + 1 && r[..|evals|] == evals && r[|evals|] == DefaultEval
  {
    evals + [DefaultEval]
  }

  /**
   * `eval_begin` for a multiclass dataset: the appended evaluation also has
   * one accuracy bucket per class, all empty.
   */
  function EvalBeginMulticlass(evals: seq<Eval>, numClasses: nat): (r: seq<Eval>)
    ensures |r| == |evals| + 1 && r[..|evals|] == evals
    ensures |r[|evals|].accuracy| == numClasses && Sum(r[|evals|].accuracy) == 0.0
    ensures r[|evals|] == DefaultEval.(accuracy := r[|evals|].accuracy)
  {
    SumZeros(numClasses);
    evals + [DefaultEval.(accuracy := Zeros(numClasses))]
  }

  // ---------------------------------------------------------------------
  // Counting scores
  // ---------------------------------------------------------------------

  /** The number of entries of s at least v. */
  function CountAtLeast(s: seq<real>, v: real): (r: nat)
    ensures r <= |s|
    decreases |s|
  {
    if |s| == 0 then 0
    else CountAtLeast(s[..|s| - 1], v) + (if s[|s| - 1] >= v then 1 else 0)
  }

  /** The count is the sum of the 0/1 indicators. */
  lemma {:induction false} CountAsSum(s: seq<real>, v: real)
    ensures CountAtLeast(s, v) as real == Sum(Map(s, x => if x >= v then 1.0 else 0.0))
    decreases |s|
  {
    if |s| > 0 {
      var f := x => if x >= v then 1.0 else 0.0;
      CountAsSum(s[..|s| - 1], v);
      assert Map(s, f)[..|s| - 1] == Map(s[..|s| - 1], f);
    }
  }

  /** The count does not depend on the order of the entries. */
  lemma {:induction false} CountPermutation(s: seq<real>, u: seq<real>, v: real)
    requires multiset(s) == multiset(u)
    ensures CountAtLeast(s, v) == CountAtLeast(u, v)
  {
    CountAsSum(s, v);
    CountAsSum(u, v);
    SumMapPermutation(s, u, x => if x >= v then 1.0 else 0.0);
  }

  /** A buffer partitioned at mid by "at least v" has mid such entries. */
  lemma {:induction false} CountPartitioned(s: seq<real>, mid: nat, v: real)
    requires mid <= |s|
    requires forall j :: 0 <= j < mid ==> s[j] >= v
    requires forall j :: mid <= j < |s| ==> s[j] < v
    ensures CountAtLeast(s, v) == mid
    decreases |s|
  {
    if |s| > 0 {
      if mid == |s| {
        CountPartitioned(s[..|s| - 1], mid - 1, v);
      } else {
        CountPartitioned(s[..|s| - 1], mid, v);
      }
    }
  }

  /** The scores of every class but l. */
  function Others(s: seq<real>, l: nat): (r: seq<real>)
    requires l < |s|
    ensures |r| == |s| - 1
  {
    s[..l] + s[l + 1..]
  }

  /**
   * The rank of class l: how many other classes score at least as high.
   * The ground truth is among the top k exactly when its rank is below k.
   */
  function Rank(s: seq<real>, l: nat): (r: nat)
    requires l < |s|
    ensures r < |s|
  {
    CountAtLeast(Others(s, l), s[l])
  }

  /** Swapping class l to the front leaves the other classes behind it. */
  lemma {:induction false} SwapOthers(s: seq<real>, l: nat)
    requires l < |s|
    ensures SwapAt(s, 0, l)[0] == s[l]
    ensures multiset(SwapAt(s, 0, l)[1..]) == multiset(Others(s, l))
  {
    var w := SwapAt(s, 0, l);
    if l > 0 {
      assert w[1..] == s[1..l] + [s[0]] + s[l + 1..];
      assert Others(s, l) == [s[0]] + s[1..l] + s[l + 1..];
    } else {
      assert w[1..] == Others(s, l);
    }
  }

  /**
   * The counting step of the accuracy bucket: `std::partition` moves the
   * scores past position 0 that are at least the score at position 0 to
   * the front of that range, and their number is returned.
   */
  method CountAbove(scores: array<real>) returns (b: nat)
    requires scores.Length > 0
    modifies scores
    ensures b == CountAtLeast(old(scores[1..]), old(scores[0])) && b < scores.Length
    ensures scores[0] == old(scores[0])
    ensures multiset(scores[1..]) == multiset(old(scores[1..]))
  {
    var v := scores[0];
    ghost var before := scores[1..];
    assert before == scores[..][1..scores.Length];
    var mid := Partition(scores, 1, scores.Length, x => x >= v);
    b := mid - 1;
    ghost var part := scores[1..];
    assert part == scores[..][1..scores.Length];
    assert scores[0] == scores[..][..1][0];
    CountPartitioned(part, b, v);
    CountPermutation(part, before, v);
  }

  /** After the ground truth is swapped to the front, the scores behind it at least as high number its rank. */
  lemma {:induction false} RankAfterSwap(s: seq<real>, l: nat)
    requires l < |s|
    ensures CountAtLeast(SwapAt(s, 0, l)[1..], SwapAt(s, 0, l)[0]) == Rank(s, l)
  {
    SwapOthers(s, l);
    CountPermutation(SwapAt(s, 0, l)[1..], Others(s, l), s[l]);
  }

  /**
   * The accuracy bucket of one multiclass example: the ground-truth score
   * is swapped to position 0, then the scores at least as high are
   * counted; the bucket is the rank of the ground truth.
   */
  method GroundTruthRank(scores: array<real>, truth: nat) returns (b: nat)
    requires truth < scores.Length
    modifies scores
    ensures b == Rank(old(scores[..]), truth) && b < scores.Length
    ensures scores[0] == old(scores[truth])
    ensures multiset(scores[1..]) == multiset(Others(old(scores[..]), truth))
  {
    ghost var orig := scores[..];
    SwapOthers(orig, truth);
    SwapEntries(scores, 0, truth);
    b := CountAbove(scores);
    RankAfterSwap(orig, truth);
  }

  // ---------------------------------------------------------------------
  // Top-k accuracies
  // ---------------------------------------------------------------------

  /** The accuracy buckets after one more example lands in bucket b. */
  function AddToBucket(acc: seq<real>, b: nat): (r: seq<real>)
    requires b < |acc|
    ensures |r| == |acc| && Sum(r) == Sum(acc) + 1.0
    ensures forall j :: 0 <= j < |acc| && j != b ==> r[j] == acc[j]
  {
    var r := acc[b := acc[b] + 1.0];
    assert acc == acc[..b] + [acc[b]] + acc[b + 1..];
    assert r == acc[..b] + [acc[b] + 1.0] + acc[b + 1..];
    SumConcat(acc[..b] + [acc[b]], acc[b + 1..]);
    SumConcat(acc[..b], [acc[b]]);
    SumConcat(acc[..b] + [acc[b] + 1.0], acc[b + 1..]);
    SumConcat(acc[..b], [acc[b] + 1.0]);
    r
  }

  /**
   * `std::partial_sum` followed by scaling with 1 / n: entry j becomes the
   * fraction of the n examples whose ground truth ranks within the top
   * j + 1.
   */
  method TopkAccuracies(counts: seq<real>, n: nat) returns (acc: seq<real>)
    requires n > 0
    ensures |acc| == |counts|
    ensures forall j :: 0 <= j < |counts| ==> acc[j] == Sum(counts[..j + 1]) / (n as real)
  {
    var partial: seq<real> := [];
    var running := 0.0;
    var j := 0;
    while j < |counts|
      invariant 0 <= j <= |counts| && |partial| == j
      invariant running == Sum(counts[..j])
      invariant forall q :: 0 <= q < j ==> partial[q] == Sum(counts[..q + 1])
    {
      assert counts[..j + 1][..j] == counts[..j];
      running := running + counts[j];
      partial := partial + [running];
      j := j + 1;
    }
    acc := Scal(1.0 / (n as real), partial);
  }

  /** With nonnegative counts the top-k accuracies never decrease in k. */
  lemma {:induction false} AccuraciesMonotone(counts: seq<real>, n: nat, i: nat, j: nat)
    requires n > 0 && i <= j < |counts|
    requires forall q :: 0 <= q < |counts| ==> counts[q] >= 0.0
    ensures Sum(counts[..i + 1]) / (n as real) <= Sum(counts[..j + 1]) / (n as real)
  {
    SumSplit(counts, 0, i + 1, j + 1);
    assert counts[..j + 1] == counts[0..j + 1] && counts[..i + 1] == counts[0..i + 1];
    SumNonNegative(counts[i + 1..j + 1]);
  }

  /** When each of the n examples landed in one bucket, the top-m accuracy is 1. */
  lemma {:induction false} AccuraciesEndAtOne(counts: seq<real>, n: nat)
    requires n > 0 && |counts| > 0 && Sum(counts) == n as real
    ensures Sum(counts[..|counts|]) / (n as real) == 1.0
  {
    assert counts[..|counts|] == counts;
  }

  // ---------------------------------------------------------------------
  // eval_primal_loss
  // ---------------------------------------------------------------------

  /**
   * The multiclass `eval_primal_loss`: the example lands in the bucket of
   * its ground truth's rank, and the objective's loss on the reordered
   * scores is added.
   */
  method EvalPrimalLossMulticlass(o: MulticlassOutput, i: nat, primalLoss: seq<real> -> real,
                                  scores: array<real>, e: Eval)
      returns (r: Eval)
    requires |e.accuracy| == o.numClasses == scores.Length
    requires i < |o.labels| && o.labels[i] < o.numClasses
    modifies scores
    ensures var b := Rank(old(scores[..]), o.labels[i]);
            b < |e.accuracy|
            && r == e.(accuracy := AddToBucket(e.accuracy, b),
                       primalLoss := e.primalLoss + primalLoss(scores[..]))
    ensures scores[0] == old(scores[o.labels[i]])
    ensures multiset(scores[1..]) == multiset(Others(old(scores[..]), o.labels[i]))
  {
    var b := GroundTruthRank(scores, o.labels[i]);
    var acc := e.accuracy[b := e.accuracy[b] + 1.0];
    r := e.(accuracy := acc, primalLoss := e.primalLoss + primalLoss(scores[..]));
  }

  /**
   * The pairs (positive i, negative j) ranked wrongly: the negative scores
   * at least as high as the positive.
   */
  function RankViolations(pos: seq<real>, neg: seq<real>): (r: nat)
    ensures r <= |pos| * |neg|
    decreases |pos|
  {
    if |pos| == 0 then 0
    else RankViolations(pos[..|pos| - 1], neg) + CountAtLeast(neg, pos[|pos| - 1])
  }

  /**
   * One step of the ranking loop: `std::partition` brings the negatives at
   * least v to the front of the negatives' block; their count is returned.
   */
  method CountNegativesAbove(scores: array<real>, p: nat, v: real) returns (count: nat)
    requires p <= scores.Length
    modifies scores
    ensures count == CountAtLeast(scores[p..], v) == CountAtLeast(old(scores[p..]), v)
    ensures scores[..p] == old(scores[..p])
    ensures multiset(scores[p..]) == multiset(old(scores[p..]))
  {
    ghost var whole := scores[..];
    ghost var before := scores[p..];
    assert before == whole[p..scores.Length];
    var mid := Partition(scores, p, scores.Length, x => x >= v);
    ghost var after := scores[p..];
    assert after == scores[..][p..scores.Length];
    assert scores[..p] == scores[..][..p];
    CountPartitioned(after, mid - p, v);
    CountPermutation(after, before, v);
    count := mid - p;
  }

  /**
   * The ranking loop of the multilabel `eval_primal_loss`: for every
   * positive score, `std::partition` moves the negatives at least as high
   * to the front of the negatives' block, and their number is added to
   * the running total.
   */
  method AddRankViolations(scores: array<real>, p: nat, total: real) returns (r: real)
    requires p <= scores.Length
    modifies scores
    ensures r == total + RankViolations(old(scores[..p]), old(scores[p..])) as real
    ensures scores[..p] == old(scores[..p])
    ensures multiset(scores[p..]) == multiset(old(scores[p..]))
  {
    ghost var pos := scores[..p];
    ghost var neg := scores[p..];
    r := total;
    var gt := 0;
    while gt < p
      invariant 0 <= gt <= p
      invariant scores[..p] == pos && multiset(scores[p..]) == multiset(neg)
      invariant r == total + RankViolations(pos[..gt], neg) as real
    {
      var v := scores[gt];
      assert v == pos[gt];
      var count := CountNegativesAbove(scores, p, v);
      CountPermutation(scores[p..], neg, v);
      assert pos[..gt + 1][..gt] == pos[..gt];
      r := r + count as real;
      gt := gt + 1;
    }
    assert pos[..p] == pos;
  }

  /**
   * The multilabel normaliser p (m - p), the number of (positive, negative)
   * pairs, is positive on a split layout.
   */
  lemma {:induction false} PairCountPositive(p: nat, m: nat)
    requires 1 <= p < m
    ensures p * (m - p) > 0
  {
  }

  /**
   * One example's share of the rank loss as the multilabel
   * `eval_primal_loss` writes it: the example's violations are added to the
   * running total, and then the whole total is divided by the example's
   * number of pairs.
   */
  function RankLossStepAsWritten(total: real, violations: nat, p: nat, m: nat): real
    requires 1 <= p < m
  {
    (total + violations as real) / ((p * (m - p)) as real)
  }

  /** A part over its whole lies in [0, 1]. */
  lemma FractionAtMostOne(part: real, whole: real)
    requires 0.0 <= part <= whole && whole > 0.0
    ensures 0.0 <= part / whole <= 1.0
  {
    assert part / whole * whole == part;
  }

  /**
   * The evidently intended step: only the example's own violations are
   * normalised by its number of pairs, giving a fraction in [0, 1].
   */
  function RankLossStep(total: real, violations: nat, p: nat, m: nat): (r: real)
    requires 1 <= p < m && violations <= p * (m - p)
    ensures total <= r <= total + 1.0
  {
    var pairs := (p * (m - p)) as real;
    FractionAtMostOne(violations as real, pairs);
    total + violations as real / pairs
  }

  /**
   * Two examples, each with one positive (score 0) and two negatives
   * (scores 1 and -1), each rank one pair wrongly: each example's
   * fraction is 1/2, so the rank loss should total 1, but the as-written
   * step carries the first half into the second division and totals 3/4.
   */
  lemma RankLossCounterexample()
    ensures RankViolations([0.0], [1.0, -1.0]) == 1
    ensures RankLossStepAsWritten(RankLossStepAsWritten(0.0, 1, 1, 3), 1, 1, 3) == 0.75
    ensures RankLossStep(RankLossStep(0.0, 1, 1, 3), 1, 1, 3) == 1.0
  {
    assert [0.0][..0] == [];
    assert CountAtLeast([1.0, -1.0], 0.0) == 1 by {
      assert [1.0, -1.0][..1] == [1.0];
      assert [1.0][..0] == [];
    }
  }

  /** The violations of a buffer after move_front, for example i's labels. */
  ghost function FrontViolations(o: MultilabelOutput, i: nat, s: seq<real>): nat
    requires OffsetsValid(o) && i < NumExamples(o)
    requires NumLabels(o, i) <= |s| && LabelsBelow(ExampleLabels(o, i), |s|)
  {
    var f := FrontSwaps(s, ExampleLabels(o, i), NumLabels(o, i));
    RankViolations(f[..NumLabels(o, i)], f[NumLabels(o, i)..])
  }

  /**
   * The multilabel `eval_primal_loss` as written: the labels' scores are
   * moved to the front, the violations are counted, the running rank loss
   * is divided by p (m - p), and the objective's loss is added.
   */
  method EvalPrimalLossMultilabelAsWritten(o: MultilabelOutput, i: nat,
                                           primalLoss: (seq<real>, nat) -> real,
                                           scores: array<real>, e: Eval)
      returns (r: Eval)
    requires OffsetsValid(o) && i < NumExamples(o) && o.numClasses == scores.Length
    requires 1 <= NumLabels(o, i) < scores.Length && LabelsBelow(ExampleLabels(o, i), scores.Length)
    modifies scores
    ensures r == e.(rankLoss := RankLossStepAsWritten(e.rankLoss, FrontViolations(o, i, old(scores[..])),
                                                      NumLabels(o, i), o.numClasses),
                    primalLoss := e.primalLoss + primalLoss(scores[..], NumLabels(o, i)))
  {
    var p := o.offsets[i + 1] - o.offsets[i];
    MultilabelMoveFront(o, i, scores);
    var total := AddRankViolations(scores, p, e.rankLoss);
    r := e.(rankLoss := total / ((p * (o.numClasses - p)) as real),
            primalLoss := e.primalLoss + primalLoss(scores[..], p));
  }

  /**
   * The multilabel `eval_primal_loss` with the evident intent: the
   * example's violations, normalised by its p (m - p) pairs, are added to
   * the running rank loss, which therefore grows by a fraction in [0, 1].
   */
  method EvalPrimalLossMultilabel(o: MultilabelOutput, i: nat, primalLoss: (seq<real>, nat) -> real,
                                  scores: array<real>, e: Eval)
      returns (r: Eval)
    requires OffsetsValid(o) && i < NumExamples(o) && o.numClasses == scores.Length
    requires 1 <= NumLabels(o, i) < scores.Length && LabelsBelow(ExampleLabels(o, i), scores.Length)
    modifies scores
    ensures r == e.(rankLoss := RankLossStep(e.rankLoss, FrontViolations(o, i, old(scores[..])),
                                             NumLabels(o, i), o.numClasses),
                    primalLoss := e.primalLoss + primalLoss(scores[..], NumLabels(o, i)))
    ensures e.rankLoss <= r.rankLoss <= e.rankLoss + 1.0
  {
    var p := o.offsets[i + 1] - o.offsets[i];
    MultilabelMoveFront(o, i, scores);
    var count := AddRankViolations(scores, p, 0.0);
    r := e.(rankLoss := e.rankLoss + count / ((p * (o.numClasses - p)) as real),
            primalLoss := e.primalLoss + primalLoss(scores[..], p));
  }

  // ---------------------------------------------------------------------
  // eval_dual_loss
  // ---------------------------------------------------------------------

  /**
   * The multiclass `eval_dual_loss`: the objective's dual loss is taken on
   * the ground-truth-first layout, and the variables are left exactly as
   * they were found.
   */
  method EvalDualLossMulticlass(o: MulticlassOutput, i: nat, dualLoss: seq<real> -> real,
                                v: array<real>, e: Eval)
      returns (r: Eval)
    requires i < |o.labels| && o.labels[i] < v.Length
    modifies v
    ensures v[..] == old(v[..])
    ensures r == e.(dualLoss := e.dualLoss + dualLoss(SwapAt(old(v[..]), 0, o.labels[i])))
  {
    MulticlassMoveFront(o, i, v);
    r := e.(dualLoss := e.dualLoss + dualLoss(v[..]));
    MulticlassMoveBack(o, i, v);
    MulticlassRoundTrip(o, i, old(v[..]));
  }

  /** The default dual loss on the ground-truth-first layout is the ground truth's variable. */
  lemma {:induction false} DefaultDualLossAtLabel(s: seq<real>, l: nat)
    requires l < |s|
    ensures DualLoss(SwapAt(s, 0, l)) == s[l]
  {
  }

  /**
   * The multilabel `eval_dual_loss`: the same with the labels moved to the
   * front (the example owns at least one label).
   */
  method EvalDualLossMultilabel(o: MultilabelOutput, i: nat, dualLoss: (seq<real>, nat) -> real,
                                v: array<real>, e: Eval)
      returns (r: Eval)
    requires OffsetsValid(o) && i < NumExamples(o) && 1 <= NumLabels(o, i) <= v.Length
    requires LabelsBelow(ExampleLabels(o, i), v.Length)
    modifies v
    ensures v[..] == old(v[..])
    ensures r == e.(dualLoss := e.dualLoss
                      + dualLoss(FrontSwaps(old(v[..]), ExampleLabels(o, i), NumLabels(o, i)),
                                 NumLabels(o, i)))
  {
    MultilabelMoveFront(o, i, v);
    r := e.(dualLoss := e.dualLoss + dualLoss(v[..], o.offsets[i + 1] - o.offsets[i]));
    MultilabelMoveBack(o, i, v);
    MultilabelRoundTrip(o, i, old(v[..]));
  }

  /**
   * With increasing labels, the multilabel dual loss on the labels-first
   * layout is the sum of the variables at the example's labels.
   */
  lemma {:induction false} LabelsFirstSum(o: MultilabelOutput, i: nat, s: seq<real>)
    requires OffsetsValid(o) && i < NumExamples(o)
    requires NumLabels(o, i) <= |s| && LabelsBelow(ExampleLabels(o, i), |s|)
    requires AdjacentIncreasing(ExampleLabels(o, i))
    ensures var ls := ExampleLabels(o, i);
            Sum(FrontSwaps(s, ls, |ls|)[..|ls|]) == Sum(seq(|ls|, j requires 0 <= j < |ls| => s[ls[j]]))
  {
    var ls := ExampleLabels(o, i);
    MoveFrontPlacesLabels(o, i, s);
    assert FrontSwaps(s, ls, |ls|)[..|ls|] == seq(|ls|, j requires 0 <= j < |ls| => s[ls[j]]);
  }

  // ---------------------------------------------------------------------
  // eval_end
  // ---------------------------------------------------------------------

  /**
   * `eval_end` on the training set of a multiclass problem: the epoch is
   * recorded, `update_all` forms the objectives, and the buckets become the
   * top-k accuracies.
   */
  method EvalEndTrainMulticlass(obj: Objective, epoch: nat, n: nat, e: Eval) returns (r: Eval)
    requires n > 0
    ensures r.epoch == epoch && r.rankLoss == e.rankLoss
    ensures r.primalLoss == obj.coeff * e.primalLoss && r.regularizer * 2.0 == e.regularizer
    ensures r.dualLoss == e.dualLoss
    ensures r.primal == PrimalObjective(obj.coeff, e.primalLoss, e.regularizer)
    ensures r.dual == DualObjective(e.dualLoss, e.regularizer)
    ensures |r.accuracy| == |e.accuracy|
    ensures forall j :: 0 <= j < |e.accuracy| ==> r.accuracy[j] == Sum(e.accuracy[..j + 1]) / (n as real)
  {
    var primal, dual, loss, regul := UpdateAll(obj, e.primalLoss, e.dualLoss, e.regularizer);
    var acc := TopkAccuracies(e.accuracy, n);
    r := e.(epoch := epoch, primal := primal, dual := dual, primalLoss := loss,
            regularizer := regul, accuracy := acc);
  }

  /** `eval_end` on the training set of a multilabel problem: the rank loss is averaged. */
  method EvalEndTrainMultilabel(obj: Objective, epoch: nat, n: nat, e: Eval) returns (r: Eval)
    requires n > 0
    ensures r.epoch == epoch && r.accuracy == e.accuracy && r.dualLoss == e.dualLoss
    ensures r.primalLoss == obj.coeff * e.primalLoss && r.regularizer * 2.0 == e.regularizer
    ensures r.primal == PrimalObjective(obj.coeff, e.primalLoss, e.regularizer)
    ensures r.dual == DualObjective(e.dualLoss, e.regularizer)
    ensures r.rankLoss * (n as real) == e.rankLoss
  {
    var primal, dual, loss, regul := UpdateAll(obj, e.primalLoss, e.dualLoss, e.regularizer);
    r := e.(epoch := epoch, primal := primal, dual := dual, primalLoss := loss,
            regularizer := regul, rankLoss := e.rankLoss / (n as real));
  }

  /** `eval_end` on a multiclass test set: the loss is rescaled, the buckets become accuracies. */
  method EvalEndTestMulticlass(obj: Objective, n: nat, e: Eval) returns (r: Eval)
    requires n > 0
    ensures r == e.(primalLoss := r.primalLoss, accuracy := r.accuracy)
    ensures r.primalLoss == obj.coeff * e.primalLoss
    ensures |r.accuracy| == |e.accuracy|
    ensures forall j :: 0 <= j < |e.accuracy| ==> r.accuracy[j] == Sum(e.accuracy[..j + 1]) / (n as real)
  {
    var loss := UpdatePrimalLoss(obj, e.primalLoss);
    var acc := TopkAccuracies(e.accuracy, n);
    r := e.(primalLoss := loss, accuracy := acc);
  }

  /** `eval_end` on a multilabel test set: the loss is rescaled, the rank loss averaged. */
  method EvalEndTestMultilabel(obj: Objective, n: nat, e: Eval) returns (r: Eval)
    requires n > 0
    ensures r == e.(primalLoss := r.primalLoss, rankLoss := r.rankLoss)
    ensures r.primalLoss == obj.coeff * e.primalLoss && r.rankLoss * (n as real) == e.rankLoss
  {
    var loss := UpdatePrimalLoss(obj, e.primalLoss);
    r := e.(primalLoss := loss, rankLoss := e.rankLoss / (n as real));
  }

  // ---------------------------------------------------------------------
  // evaluate_dataset
  // ---------------------------------------------------------------------

  /** Every one of the first n examples has m scores and a ground truth among them. */
  predicate ScoresFit(o: MulticlassOutput, scoresOf: nat -> seq<real>, n: nat)
  {
    n <= |o.labels|
    && forall j :: 0 <= j < n ==> |scoresOf(j)| == o.numClasses && o.labels[j] < o.numClasses
  }

  /** The examples of a prefix fit when the whole range does. */
  lemma {:induction false} ScoresFitPrefix(o: MulticlassOutput, scoresOf: nat -> seq<real>, n: nat, i: nat)
    requires ScoresFit(o, scoresOf, n) && i <= n
    ensures ScoresFit(o, scoresOf, i)
  {
  }

  /**
   * The accuracy buckets after the first i examples: bucket b counts the
   * examples whose ground truth has rank b. Every example lands in exactly
   * one bucket.
   */
  function RankCounts(o: MulticlassOutput, scoresOf: nat -> seq<real>, i: nat): (r: seq<real>)
    requires ScoresFit(o, scoresOf, i)
    ensures |r| == o.numClasses && Sum(r) == i as real
    ensures forall b :: 0 <= b < |r| ==> r[b] >= 0.0
  {
    if i == 0 then
      SumZeros(o.numClasses);
      Zeros(o.numClasses)
    else
      var acc := RankCounts(o, scoresOf, i - 1);
      var b := Rank(scoresOf(i - 1), o.labels[i - 1]);
      assert AddToBucket(acc, b)[b] == acc[b] + 1.0;
      AddToBucket(acc, b)
  }

  /** The dual variables of example i: the i-th block of m in the flat buffer. */
  function Block(v: seq<real>, m: nat, i: nat): (r: seq<real>)
    requires m * (i + 1) <= |v|
    ensures |r| == m
  {
    v[m * i..m * i + m]
  }

  /** Block i of n blocks of m fits in a buffer of m n entries. */
  lemma {:induction false} BlockFits(m: nat, n: nat, i: nat)
    requires i < n
    ensures m * (i + 1) == m * i + m <= m * n
  {
    assert m * n == m * (i + 1) + m * (n - i - 1);
  }

  /**
   * The dual losses of the first i examples, each taken on its block with
   * the ground truth's variable swapped to the front.
   */
  function DualLossTotal(o: MulticlassOutput, dualLoss: seq<real> -> real, v: seq<real>, i: nat): real
    requires i <= |o.labels| && |v| == o.numClasses * |o.labels|
    requires forall j :: 0 <= j < i ==> o.labels[j] < o.numClasses
  {
    if i == 0 then 0.0
    else
      BlockFits(o.numClasses, |o.labels|, i - 1);
      DualLossTotal(o, dualLoss, v, i - 1)
        + dualLoss(SwapAt(Block(v, o.numClasses, i - 1), 0, o.labels[i - 1]))
  }

  /** q is the arrangement `eval_primal_loss` leaves: ground truth first, the others after it. */
  ghost predicate GroundTruthFirst(s: seq<real>, l: nat, q: seq<real>)
    requires l < |s|
  {
    |q| == |s| && q[0] == s[l] && multiset(q[1..]) == multiset(Others(s, l))
  }

  /** Every arrangement in qs is the ground-truth-first one of its example. */
  ghost predicate AllGroundTruthFirst(o: MulticlassOutput, scoresOf: nat -> seq<real>, qs: seq<seq<real>>)
    requires ScoresFit(o, scoresOf, |qs|)
    decreases |qs|
  {
    |qs| == 0
    || (AllGroundTruthFirst(o, scoresOf, qs[..|qs| - 1])
        && GroundTruthFirst(scoresOf(|qs| - 1), o.labels[|qs| - 1], qs[|qs| - 1]))
  }

  /** The recursive form read entry by entry. */
  lemma {:induction false} AllGroundTruthFirstAt(o: MulticlassOutput, scoresOf: nat -> seq<real>,
                                                 qs: seq<seq<real>>, j: nat)
    requires ScoresFit(o, scoresOf, |qs|) && AllGroundTruthFirst(o, scoresOf, qs) && j < |qs|
    ensures GroundTruthFirst(scoresOf(j), o.labels[j], qs[j])
    decreases |qs|
  {
    if j < |qs| - 1 {
      AllGroundTruthFirstAt(o, scoresOf, qs[..|qs| - 1], j);
    }
  }

  lemma {:induction false} AllGroundTruthFirstEvery(o: MulticlassOutput, scoresOf: nat -> seq<real>,
                                                    qs: seq<seq<real>>)
    requires ScoresFit(o, scoresOf, |qs|) && AllGroundTruthFirst(o, scoresOf, qs)
    ensures forall j :: 0 <= j < |qs| ==> GroundTruthFirst(scoresOf(j), o.labels[j], qs[j])
  {
    forall j | 0 <= j < |qs|
      ensures GroundTruthFirst(scoresOf(j), o.labels[j], qs[j])
    {
      AllGroundTruthFirstAt(o, scoresOf, qs, j);
    }
  }

  /** The primal losses of the arrangements, accumulated in order. */
  function PrimalLossTotal(primalLoss: seq<real> -> real, qs: seq<seq<real>>): real
  {
    if |qs| == 0 then 0.0 else PrimalLossTotal(primalLoss, qs[..|qs| - 1]) + primalLoss(qs[|qs| - 1])
  }

  /**
   * The final accuracies of a multiclass evaluation are those of the rank
   * counts: they never decrease in k, and the top-m accuracy is 1.
   */
  lemma {:induction false} EvaluatedAccuracies(o: MulticlassOutput, scoresOf: nat -> seq<real>, n: nat,
                                               acc: seq<real>)
    requires n > 0 && o.numClasses > 0 && ScoresFit(o, scoresOf, n)
    requires |acc| == o.numClasses
    requires forall b :: 0 <= b < o.numClasses
               ==> acc[b] == Sum(RankCounts(o, scoresOf, n)[..b + 1]) / (n as real)
    ensures forall b, c :: 0 <= b <= c < o.numClasses ==> acc[b] <= acc[c]
    ensures acc[o.numClasses - 1] == 1.0
  {
    var counts := RankCounts(o, scoresOf, n);
    forall b, c | 0 <= b <= c < o.numClasses
      ensures acc[b] <= acc[c]
    {
      AccuraciesMonotone(counts, n, b, c);
    }
    AccuraciesEndAtOne(counts, n);
  }

  /**
   * One pass of the loop of `evaluate_dataset`: the scores of example i
   * land in the scratch buffer, the dual loss is taken on the example's
   * block of dual variables, then the primal loss and the accuracy bucket
   * on the scores. q is the arrangement the scores are left in.
   */
  method EvaluateExample(o: MulticlassOutput, i: nat, v: array<real>, scores: array<real>,
                         scoresOf: nat -> seq<real>, primalLoss: seq<real> -> real,
                         dualLoss: seq<real> -> real, e: Eval)
      returns (e': Eval, ghost q: seq<real>)
    requires i < |o.labels| && ScoresFit(o, scoresOf, i + 1)
    requires v.Length == o.numClasses * |o.labels| && scores.Length == o.numClasses
    requires |e.accuracy| == o.numClasses
    requires v != scores
    modifies scores
    ensures GroundTruthFirst(scoresOf(i), o.labels[i], q)
    ensures o.numClasses * (i + 1) <= v.Length
    ensures e' == e.(accuracy := AddToBucket(e.accuracy, Rank(scoresOf(i), o.labels[i])),
                     dualLoss := e.dualLoss
                       + dualLoss(SwapAt(Block(v[..], o.numClasses, i), 0, o.labels[i])),
                     primalLoss := e.primalLoss + primalLoss(q))
  {
    // eval_scores
    FillScores(scores, scoresOf(i));

    // eval_dual_loss, on a copy of the example's block of dual variables
    var variables := CopyBlock(v, o.numClasses, |o.labels|, i);
    e' := EvalDualLossMulticlass(o, i, dualLoss, variables, e);

    // eval_primal_loss
    e' := EvalPrimalLossMulticlass(o, i, primalLoss, scores, e');
    q := scores[..];
  }

  /** `eval_scores`: the scores of the example, computed outside this model, fill the buffer. */
  method FillScores(scores: array<real>, s: seq<real>)
    requires scores.Length == |s|
    modifies scores
    ensures scores[..] == s
  {
    forall j | 0 <= j < scores.Length {
      scores[j] := s[j];
    }
  }

  /** A fresh buffer holding block i of the dual variables. */
  method CopyBlock(v: array<real>, m: nat, n: nat, i: nat) returns (variables: array<real>)
    requires i < n && v.Length == m * n
    ensures fresh(variables)
    ensures m * (i + 1) <= v.Length && variables[..] == Block(v[..], m, i)
  {
    BlockFits(m, n, i);
    var off := m * i;
    variables := new real[m];
    forall j | 0 <= j < m {
      variables[j] := v[off + j];
    }
  }

  /**
   * The loop of `evaluate_dataset` over a fresh multiclass evaluation: after
   * it the buckets hold the rank counts, and the losses the sums over the
   * examples; every other field keeps its default.
   */
  method EvaluateExamples(o: MulticlassOutput, v: array<real>, scores: array<real>,
                          scoresOf: nat -> seq<real>, primalLoss: seq<real> -> real,
                          dualLoss: seq<real> -> real, e0: Eval)
      returns (e: Eval, ghost qs: seq<seq<real>>)
    requires ScoresFit(o, scoresOf, |o.labels|)
    requires v.Length == o.numClasses * |o.labels| && scores.Length == o.numClasses
    requires v != scores
    requires e0 == DefaultEval.(accuracy := Zeros(o.numClasses))
    modifies scores
    ensures e == DefaultEval.(accuracy := e.accuracy, dualLoss := e.dualLoss, primalLoss := e.primalLoss)
    ensures e.accuracy == RankCounts(o, scoresOf, |o.labels|)
    ensures e.dualLoss == DualLossTotal(o, dualLoss, v[..], |o.labels|)
    ensures |qs| == |o.labels| && e.primalLoss == PrimalLossTotal(primalLoss, qs)
    ensures AllGroundTruthFirst(o, scoresOf, qs)
  {
    var n := |o.labels|;
    e := e0;
    qs := [];
    var i := 0;
    while i < n
      invariant 0 <= i <= n && |qs| == i
      invariant e == DefaultEval.(accuracy := e.accuracy, dualLoss := e.dualLoss, primalLoss := e.primalLoss)
      invariant e.accuracy == RankCounts(o, scoresOf, i)
      invariant e.dualLoss == DualLossTotal(o, dualLoss, v[..], i)
      invariant e.primalLoss == PrimalLossTotal(primalLoss, qs)
      invariant ScoresFit(o, scoresOf, i) && AllGroundTruthFirst(o, scoresOf, qs)
    {
      ScoresFitPrefix(o, scoresOf, n, i + 1);
      ghost var q;
      e, q := EvaluateExample(o, i, v, scores, scoresOf, primalLoss, dualLoss, e);
      assert (qs + [q])[..i] == qs;
      assert PrimalLossTotal(primalLoss, qs + [q]) == PrimalLossTotal(primalLoss, qs) + primalLoss(q);
      qs := qs + [q];
      i := i + 1;
    }
  }

  /**
   * `evaluate_dataset` on a multiclass training set: a fresh evaluation is
   * appended, every example passes through the loop, and `eval_end`
   * finishes the record. The result holds the rank counts turned into
   * top-k accuracies, the summed dual losses and the summed primal losses
   * of the ground-truth-first arrangements; the dual variables are left
   * untouched.
   */
  method EvaluateDatasetMulticlass(o: MulticlassOutput, obj: Objective, epoch: nat, evals: seq<Eval>,
                                   v: array<real>, scores: array<real>, scoresOf: nat -> seq<real>,
                                   primalLoss: seq<real> -> real, dualLoss: seq<real> -> real)
      returns (evals': seq<Eval>, ghost qs: seq<seq<real>>)
    requires |o.labels| > 0 && ScoresFit(o, scoresOf, |o.labels|)
    requires v.Length == o.numClasses * |o.labels| && scores.Length == o.numClasses
    requires v != scores
    modifies scores
    ensures |evals'| == |evals| + 1 && evals'[..|evals|] == evals
    ensures |qs| == |o.labels|
    ensures forall j :: 0 <= j < |o.labels| ==> GroundTruthFirst(scoresOf(j), o.labels[j], qs[j])
    ensures TrainEvaluated(o, obj, epoch, v[..], scoresOf, primalLoss, dualLoss, qs, evals'[|evals|])
  {
    var begun := EvalBeginMulticlass(evals, o.numClasses);
    var e;
    e, qs := EvaluateExamples(o, v, scores, scoresOf, primalLoss, dualLoss, begun[|evals|]);
    var r := EvalEndTrainMulticlass(obj, epoch, |o.labels|, e);
    TrainEvaluatedEnd(o, obj, epoch, v[..], scoresOf, primalLoss, dualLoss, qs, e, r);
    evals' := begun[..|evals|] + [r];
    AllGroundTruthFirstEvery(o, scoresOf, qs);
  }

  /**
   * The record `evaluate_dataset` leaves for a multiclass training set: the
   * epoch, the rank counts turned into top-k accuracies, the summed dual
   * losses, the summed primal losses of the arrangements qs scaled by the
   * objective's coefficient, the objectives formed from them, and a zero
   * regularizer and rank loss.
   */
  ghost predicate TrainEvaluated(o: MulticlassOutput, obj: Objective, epoch: nat, v: seq<real>,
                                 scoresOf: nat -> seq<real>, primalLoss: seq<real> -> real,
                                 dualLoss: seq<real> -> real, qs: seq<seq<real>>, r: Eval)
    requires |o.labels| > 0 && ScoresFit(o, scoresOf, |o.labels|) && |v| == o.numClasses * |o.labels|
  {
    r.epoch == epoch && r.regularizer == 0.0 && r.rankLoss == 0.0
    && |r.accuracy| == o.numClasses
    && (forall b :: 0 <= b < o.numClasses
          ==> r.accuracy[b] == Sum(RankCounts(o, scoresOf, |o.labels|)[..b + 1]) / (|o.labels| as real))
    && r.dualLoss == DualLossTotal(o, dualLoss, v, |o.labels|)
    && r.primalLoss == obj.coeff * PrimalLossTotal(primalLoss, qs)
    && r.primal == PrimalObjective(obj.coeff, PrimalLossTotal(primalLoss, qs), 0.0)
    && r.dual == DualObjective(DualLossTotal(o, dualLoss, v, |o.labels|), 0.0)
  }

  /** `eval_end` turns the record the loop leaves into the evaluated one. */
  lemma {:induction false} TrainEvaluatedEnd(o: MulticlassOutput, obj: Objective, epoch: nat, v: seq<real>,
                                             scoresOf: nat -> seq<real>, primalLoss: seq<real> -> real,
                                             dualLoss: seq<real> -> real, qs: seq<seq<real>>, e: Eval, r: Eval)
    requires |o.labels| > 0 && ScoresFit(o, scoresOf, |o.labels|) && |v| == o.numClasses * |o.labels|
    requires e == DefaultEval.(accuracy := e.accuracy, dualLoss := e.dualLoss, primalLoss := e.primalLoss)
    requires e.accuracy == RankCounts(o, scoresOf, |o.labels|)
    requires e.dualLoss == DualLossTotal(o, dualLoss, v, |o.labels|)
    requires e.primalLoss == PrimalLossTotal(primalLoss, qs)
    requires r.epoch == epoch && r.rankLoss == e.rankLoss
    requires r.primalLoss == obj.coeff * e.primalLoss && r.regularizer * 2.0 == e.regularizer
    requires r.dualLoss == e.dualLoss
    requires r.primal == PrimalObjective(obj.coeff, e.primalLoss, e.regularizer)
    requires r.dual == DualObjective(e.dualLoss, e.regularizer)
    requires |r.accuracy| == |e.accuracy|
    requires forall j :: 0 <= j < |e.accuracy| ==> r.accuracy[j] == Sum(e.accuracy[..j + 1]) / (|o.labels| as real)
    ensures TrainEvaluated(o, obj, epoch, v, scoresOf, primalLoss, dualLoss, qs, r)
  {
    ghost var total := PrimalLossTotal(primalLoss, qs);
    assert r.primalLoss == obj.coeff * total;
  }

  // ---------------------------------------------------------------------
  // check_stopping_criteria
  // ---------------------------------------------------------------------

  /** The duality gap of an evaluation. */
  function Gap(e: Eval): real
  {
    e.primal - e.dual
  }

  /** The scale the gap is measured against: the larger objective magnitude. */
  function Scale(e: Eval): real
  {
    Max(Abs(e.primal), Abs(e.dual))
  }

  /** The round-off allowance: 64 max(1, scale) times the machine epsilon. */
  function RoundOff(e: Eval, machineEps: real): real
  {
    64.0 * Max(1.0, Scale(e)) * machineEps
  }

  /**
   * The duality-gap test on the latest evaluation: solved when the gap is
   * below epsilon relative to the scale (failed instead when it is
   * negative beyond round-off or the tolerance), otherwise no progress
   * when the dual fell since the previous evaluation. `Solving` means no
   * verdict.
   */
  function GapVerdict(evals: seq<Eval>, epsilon: real, machineEps: real): (r: SolverStatus)
    requires |evals| > 0
    ensures r in {Solving, Solved, Failed, NoProgress}
  {
    var e := evals[|evals| - 1];
    Verdict(Gap(e), Scale(e) * epsilon, RoundOff(e, machineEps),
            |evals| > 1 && e.dual + RoundOff(e, machineEps) * evals[|evals| - 2].dual < evals[|evals| - 2].dual)
  }

  /** The gap test on plain numbers: the gap, the tolerance, the round-off and the progress test. */
  function Verdict(gap: real, epsStop: real, eps: real, fellBack: bool): (r: SolverStatus)
    ensures r == Failed <==> gap < epsStop && (gap < -eps || gap <= -epsStop)
    ensures r == Solved <==> -eps <= gap && -epsStop < gap < epsStop
    ensures r == NoProgress <==> gap >= epsStop && fellBack
    ensures r == Solving <==> gap >= epsStop && !fellBack
  {
    if gap < epsStop then
      if gap < -eps || gap <= -epsStop then Failed else Solved
    else if fellBack then NoProgress
    else Solving
  }

  /**
   * `check_stopping_criteria`: the new status of the context. Nothing
   * changes unless the solver is running; the gap test on the latest
   * training evaluation comes first, and the runtime limits apply only
   * while it leaves the solver running. The clocks are read by the caller.
   */
  function CheckStoppingCriteria(status: SolverStatus, evals: seq<Eval>, criteria: StoppingCriteria,
                                 epoch: nat, cpuNow: real, wallNow: real, machineEps: real): (r: SolverStatus)
    ensures status != Solving ==> r == status
    ensures status == Solving && |evals| == 0 ==> r == LimitVerdict(criteria, epoch, cpuNow, wallNow)
    ensures status == Solving && |evals| > 0 && GapVerdict(evals, criteria.epsilon, machineEps) != Solving
            ==> r == GapVerdict(evals, criteria.epsilon, machineEps)
    ensures r == Solving ==> status == Solving && epoch < criteria.maxEpoch
                             && !(0.0 < criteria.maxCpuTime <= cpuNow) && !(0.0 < criteria.maxWallTime <= wallNow)
  {
    if status != Solving then status
    else
      var verdict := if |evals| > 0 then GapVerdict(evals, criteria.epsilon, machineEps) else Solving;
      if verdict != Solving then verdict else LimitVerdict(criteria, epoch, cpuNow, wallNow)
  }

  /**
   * A solver that is still running after the check has epochs left, so
   * re-checking after every epoch stops it after at most max_epoch epochs.
   */
  lemma {:induction false} StopsByMaxEpoch(status: SolverStatus, evals: seq<Eval>, criteria: StoppingCriteria,
                                           epoch: nat, cpuNow: real, wallNow: real, machineEps: real)
    requires status == Solving && epoch >= criteria.maxEpoch
    ensures CheckStoppingCriteria(status, evals, criteria, epoch, cpuNow, wallNow, machineEps) != Solving
    ensures |evals| == 0 ==> CheckStoppingCriteria(status, evals, criteria, epoch, cpuNow, wallNow, machineEps) == MaxEpoch
  {
  }

  /**
   * A solved verdict certifies the relative duality gap: it lies within
   * epsilon of zero relative to the scale, and is not negative beyond
   * round-off.
   */
  lemma {:induction false} SolvedGapSmall(status: SolverStatus, evals: seq<Eval>, criteria: StoppingCriteria,
                       epoch: nat, cpuNow: real, wallNow: real, machineEps: real)
    requires CheckStoppingCriteria(status, evals, criteria, epoch, cpuNow, wallNow, machineEps) == Solved
    requires status == Solving
    ensures |evals| > 0
    ensures var e := evals[|evals| - 1];
            Abs(Gap(e)) < Scale(e) * criteria.epsilon && Gap(e) >= -RoundOff(e, machineEps)
  {
  }
}
