/**
 * What the primal and the dual solver share (`multiset_solver`): one
 * evaluation list per dataset, the training set's first, the
 * ground-truth swaps on the scores buffer, and the per-example
 * evaluation loops that fill the top-k accuracy histogram and accumulate
 * the losses. The scores of every example are an input (`scoresOf`), since
 * each solver computes them its own way.
 */
module MultisetSolver {
  import opened Numeric
  import opened Labels
  import opened ObjectiveBase
  import opened Evaluation

  /** `test_point`: a loss and the top-k accuracies. */
  datatype TestPoint = TestPoint(loss: real, accuracy: seq<real>)

  /**
   * A primal loss that sees the ground-truth score at position 0 and the
   * other scores in any order; every objective's loss is of this kind,
   * and the evaluation loops reorder the other scores before calling it.
   */
  ghost predicate OrderFree(loss: seq<real> -> real)
  {
    forall s: seq<real>, u: seq<real> {:trigger Reordered(s, u)} :: Reordered(s, u) ==> loss(s) == loss(u)
  }

  /** The same ground-truth score first, and the same other scores in some order. */
  ghost predicate Reordered(s: seq<real>, u: seq<real>)
  {
    |s| == |u| > 0 && s[0] == u[0] && multiset(s[1..]) == multiset(u[1..])
  }

  /**
   * One dataset of the context: per example a feature vector (or, for the
   * dual solver, a kernel column) and a ground-truth label.
   */
  datatype Dataset = Dataset(features: seq<seq<real>>, labels: seq<nat>)

  /** Every example has `dim` features and a label below `m`; the set is not empty. */
  ghost predicate DatasetFits(d: Dataset, dim: nat, m: nat)
  {
    |d.features| == |d.labels| > 0
    && forall i :: 0 <= i < |d.labels| ==> |d.features[i]| == dim && d.labels[i] < m
  }

  /**
   * What a solver asks of its objective: the primal-loss coefficient, the
   * dual update `update_dual_variables(norm2, variables, scores)`, the
   * primal loss on the scores and the dual loss on the variables, all on
   * the ground-truth-first layout.
   */
  datatype ObjectiveOps = ObjectiveOps(
    base: Objective,
    update: (real, seq<real>, seq<real>) -> seq<real>,
    primalLoss: seq<real> -> real,
    dualLoss: seq<real> -> real)

  /** The dual update rewrites the variables in place, so it keeps their number. */
  ghost predicate KeepsLength(update: (real, seq<real>, seq<real>) -> seq<real>)
  {
    forall n: real, v: seq<real>, s: seq<real> {:trigger update(n, v, s)} :: |update(n, v, s)| == |v|
  }

  lemma {:induction false} UpdateLength(update: (real, seq<real>, seq<real>) -> seq<real>, n: real, v: seq<real>, s: seq<real>)
    requires KeepsLength(update)
    ensures |update(n, v, s)| == |v|
  {
  }

  ghost predicate Admissible(ops: ObjectiveOps)
  {
    KeepsLength(ops.update) && OrderFree(ops.primalLoss)
  }

  /**
   * The dual step on one example, bracketed by `swap_ground_truth`: the
   * update sees the ground truth at position 0, and its result is swapped
   * back, so the ground-truth variable ends at its label's index and every
   * other class keeps its own index.
   */
  function DualStep(update: (real, seq<real>, seq<real>) -> seq<real>, norm2: real,
                    variables: seq<real>, scores: seq<real>, truth: nat): (r: seq<real>)
    requires KeepsLength(update) && truth < |variables| == |scores|
    ensures |r| == |variables|
    ensures var u := update(norm2, SwapAt(variables, 0, truth), SwapAt(scores, 0, truth));
            r[truth] == u[0] && r[0] == u[truth]
            && forall j :: 0 <= j < |r| && j != 0 && j != truth ==> r[j] == u[j]
  {
    SwapAt(update(norm2, SwapAt(variables, 0, truth), SwapAt(scores, 0, truth)), 0, truth)
  }

  /** The entrywise products of two vectors. */
  function Products(a: seq<real>, b: seq<real>): (r: seq<real>)
    requires |a| == |b|
    ensures |r| == |a| && forall k :: 0 <= k < |a| ==> r[k] == a[k] * b[k]
  {
    seq(|a|, k requires 0 <= k < |a| => a[k] * b[k])
  }

  lemma {:induction false} DotAsSum(a: seq<real>, b: seq<real>)
    requires |a| == |b|
    ensures Dot(a, b) == Sum(Products(a, b))
    decreases |a|
  {
    if |a| > 0 {
      var n := |a| - 1;
      DotAsSum(a[..n], b[..n]);
      assert forall k :: 0 <= k < n ==> Products(a, b)[..n][k] == Products(a[..n], b[..n])[k];
      assert Products(a, b)[..n] == Products(a[..n], b[..n]);
    }
  }

  lemma {:induction false} ProductsSwap(a: seq<real>, b: seq<real>, truth: nat)
    requires truth < |a| == |b|
    ensures Products(SwapAt(a, 0, truth), SwapAt(b, 0, truth)) == SwapAt(Products(a, b), 0, truth)
  {
    var l := Products(SwapAt(a, 0, truth), SwapAt(b, 0, truth));
    var r := SwapAt(Products(a, b), 0, truth);
    forall k | 0 <= k < |a|
      ensures l[k] == r[k]
    {
      if k == truth {
      } else if k == 0 {
      }
    }
  }

  /**
   * The dual regularizer term does not see the ground-truth swap: taken
   * on the swapped buffers it is the inner product of the example's
   * variables and scores in their own order.
   */
  lemma {:induction false} RegularizerDualSwapped(variables: seq<real>, scores: seq<real>, truth: nat)
    requires truth < |variables| == |scores|
    ensures RegularizerDual(SwapAt(variables, 0, truth), SwapAt(scores, 0, truth)) == Dot(scores, variables)
  {
    var sv := SwapAt(variables, 0, truth);
    var ss := SwapAt(scores, 0, truth);
    var p := Products(scores, variables);
    ProductsSwap(scores, variables, truth);
    SwapMultiset(p, 0, truth);
    SumPermutation(Products(ss, sv), p);
    DotAsSum(ss, sv);
    DotAsSum(scores, variables);
  }

  /**
   * `evaluate_solution`: one evaluation is appended to every list, the
   * training evaluation to list 0 and the evaluation of test set i to
   * list i.
   */
  method AppendEvaluations(evals: seq<seq<TestPoint>>, train: TestPoint, tests: seq<TestPoint>)
      returns (r: seq<seq<TestPoint>>)
    requires |evals| == |tests| + 1
    ensures |r| == |evals| && r[0] == evals[0] + [train]
    ensures forall i :: 1 <= i < |evals| ==> r[i] == evals[i] + [tests[i - 1]]
    ensures forall i :: 0 <= i < |evals| ==> |r[i]| == |evals[i]| + 1 && r[i][..|evals[i]|] == evals[i]
  {
    r := evals[0 := evals[0] + [train]];
    assert r[0][..|evals[0]|] == evals[0];
    var i := 1;
    while i < |evals|
      invariant 1 <= i <= |evals| && |r| == |evals| && r[0] == evals[0] + [train]
      invariant forall q :: 1 <= q < i ==> r[q] == evals[q] + [tests[q - 1]]
      invariant forall q :: i <= q < |evals| ==> r[q] == evals[q]
      invariant forall q :: 0 <= q < i ==> |r[q]| == |evals[q]| + 1 && r[q][..|evals[q]|] == evals[q]
    {
      r := r[i := evals[i] + [tests[i - 1]]];
      assert r[i][..|evals[i]|] == evals[i];
      i := i + 1;
    }
  }

  /**
   * `swap_ground_truth(truth, variables)`: positions 0 and truth swap in
   * the variables and in the scores alike.
   */
  method SwapGroundTruth(truth: nat, variables: array<real>, scores: array<real>)
    requires truth < variables.Length && truth < scores.Length && variables != scores
    modifies variables, scores
    ensures variables[..] == SwapAt(old(variables[..]), 0, truth)
    ensures scores[..] == SwapAt(old(scores[..]), 0, truth)
  {
    SwapEntries(variables, 0, truth);
    SwapEntries(scores, 0, truth);
  }

  /** Swapping the ground truth twice restores both buffers. */
  lemma {:induction false} SwapGroundTruthTwice(truth: nat, variables: seq<real>, scores: seq<real>)
    requires truth < |variables| && truth < |scores|
    ensures SwapAt(SwapAt(variables, 0, truth), 0, truth) == variables
    ensures SwapAt(SwapAt(scores, 0, truth), 0, truth) == scores
  {
    SwapTwice(variables, 0, truth);
    SwapTwice(scores, 0, truth);
  }

  // ---------------------------------------------------------------------
  // The accuracy histogram
  // ---------------------------------------------------------------------

  /** How many of the ranks are at most j. */
  function CountAtMost(ranks: seq<nat>, j: nat): (r: nat)
    ensures r <= |ranks|
    decreases |ranks|
  {
    if |ranks| == 0 then 0
    else CountAtMost(ranks[..|ranks| - 1], j) + (if ranks[|ranks| - 1] <= j then 1 else 0)
  }

  predicate RanksBelow(ranks: seq<nat>, m: nat)
  {
    forall i :: 0 <= i < |ranks| ==> ranks[i] < m
  }

  /** The histogram after each example landed in the bucket of its rank, in order. */
  function Histogram(ranks: seq<nat>, m: nat): (h: seq<real>)
    requires RanksBelow(ranks, m)
    ensures |h| == m
    decreases |ranks|
  {
    if |ranks| == 0 then Zeros(m)
    else AddToBucket(Histogram(ranks[..|ranks| - 1], m), ranks[|ranks| - 1])
  }

  /** One more example in bucket b adds 1 to the prefix sums that cover b. */
  lemma {:induction false} AddToBucketPrefix(acc: seq<real>, b: nat, k: nat)
    requires b < |acc| && k <= |acc|
    ensures Sum(AddToBucket(acc, b)[..k]) == Sum(acc[..k]) + (if b < k then 1.0 else 0.0)
  {
    if b < k {
      assert AddToBucket(acc, b)[..k] == AddToBucket(acc[..k], b);
    } else {
      assert AddToBucket(acc, b)[..k] == acc[..k];
    }
  }

  /**
   * The prefix sums of the histogram count the examples: buckets 0..j
   * together hold the examples whose ground truth ranks at most j.
   */
  lemma {:induction false} HistogramPrefix(ranks: seq<nat>, m: nat, j: nat)
    requires RanksBelow(ranks, m) && j < m
    ensures Sum(Histogram(ranks, m)[..j + 1]) == CountAtMost(ranks, j) as real
    decreases |ranks|
  {
    if |ranks| == 0 {
      SumZeros(j + 1);
      assert Zeros(m)[..j + 1] == Zeros(j + 1);
    } else {
      var n := |ranks| - 1;
      HistogramPrefix(ranks[..n], m, j);
      AddToBucketPrefix(Histogram(ranks[..n], m), ranks[n], j + 1);
    }
  }

  /**
   * The top-k accuracies the evaluation reports: entry j is the fraction
   * of the n examples whose ground truth ranks within the top j + 1, and
   * the last entry is 1.
   */
  lemma {:induction false} TopkAccuracyMeaning(ranks: seq<nat>, m: nat, j: nat)
    requires RanksBelow(ranks, m) && j < m && |ranks| > 0
    ensures Sum(Histogram(ranks, m)[..j + 1]) / (|ranks| as real) == CountAtMost(ranks, j) as real / (|ranks| as real)
    ensures CountAtMost(ranks, m - 1) == |ranks|
  {
    HistogramPrefix(ranks, m, j);
    CountAllBelow(ranks, m);
  }

  lemma {:induction false} CountAllBelow(ranks: seq<nat>, m: nat)
    requires RanksBelow(ranks, m) && m > 0
    ensures CountAtMost(ranks, m - 1) == |ranks|
    decreases |ranks|
  {
    if |ranks| > 0 {
      CountAllBelow(ranks[..|ranks| - 1], m);
    }
  }

  // ---------------------------------------------------------------------
  // The evaluation loops
  // ---------------------------------------------------------------------

  /** Every example's scores and variables have one entry per class and its truth is a class. */
  ghost predicate ExamplesFit(scoresOf: seq<seq<real>>, labels: seq<nat>, m: nat)
  {
    |scoresOf| == |labels|
    && forall i :: 0 <= i < |labels| ==> labels[i] < m && |scoresOf[i]| == m
  }

  /** The rank of every example's ground truth among its scores. */
  ghost function Ranks(scoresOf: seq<seq<real>>, labels: seq<nat>, m: nat): (r: seq<nat>)
    requires ExamplesFit(scoresOf, labels, m)
    ensures |r| == |labels| && RanksBelow(r, m)
  {
    seq(|labels|, i requires 0 <= i < |labels| => Rank(scoresOf[i], labels[i]))
  }

  /**
   * A loss of every example on its ground-truth-first row: the primal loss
   * on the scores, the dual loss on the variables.
   */
  ghost function Losses(rows: seq<seq<real>>, labels: seq<nat>, m: nat, loss: seq<real> -> real): (r: seq<real>)
    requires ExamplesFit(rows, labels, m)
    ensures |r| == |labels|
  {
    seq(|labels|, i requires 0 <= i < |labels| => loss(SwapAt(rows[i], 0, labels[i])))
  }

  /**
   * The record `evaluate_test` appends for a set with these scores: the
   * rescaled primal loss, and accuracy j as the fraction of examples whose
   * ground truth ranks within the top j + 1.
   */
  ghost function SetRecord(obj: Objective, scoresOf: seq<seq<real>>, labels: seq<nat>, m: nat,
                           loss: seq<real> -> real): TestPoint
    requires ExamplesFit(scoresOf, labels, m) && |labels| > 0
  {
    TestPoint(Rescaled(obj, Sum(Losses(scoresOf, labels, m, loss))),
              seq(m, j requires 0 <= j < m => CountAtMost(Ranks(scoresOf, labels, m), j) as real / (|labels| as real)))
  }

  /** A record with that loss and those accuracies is the set's record. */
  lemma {:induction false} IsSetRecord(point: TestPoint, obj: Objective, scoresOf: seq<seq<real>>,
                                       labels: seq<nat>, m: nat, loss: seq<real> -> real)
    requires ExamplesFit(scoresOf, labels, m) && |labels| > 0
    requires point.loss == Rescaled(obj, Sum(Losses(scoresOf, labels, m, loss))) && |point.accuracy| == m
    requires forall j :: 0 <= j < m ==>
               point.accuracy[j] == CountAtMost(Ranks(scoresOf, labels, m), j) as real / (|labels| as real)
    ensures point == SetRecord(obj, scoresOf, labels, m, loss)
  {
    assert point.accuracy == SetRecord(obj, scoresOf, labels, m, loss).accuracy;
  }

  /** The dual regularizer terms <variables, scores> of every example. */
  ghost function DualRegularizers(variables: seq<seq<real>>, scoresOf: seq<seq<real>>, labels: seq<nat>, m: nat): (r: seq<real>)
    requires ExamplesFit(variables, labels, m) && ExamplesFit(scoresOf, labels, m)
    ensures |r| == |labels|
  {
    seq(|labels|, i requires 0 <= i < |labels| =>
      RegularizerDual(SwapAt(variables[i], 0, labels[i]), SwapAt(scoresOf[i], 0, labels[i])))
  }

  /** `scores_ = ...`: the scratch buffer receives an example's scores. */
  method Fill(scores: array<real>, s: seq<real>)
    requires scores.Length == |s|
    modifies scores
    ensures scores[..] == s
  {
    forall j | 0 <= j < scores.Length {
      scores[j] := s[j];
    }
  }

  lemma {:induction false} HistogramStep(ranks: seq<nat>, m: nat, i: nat)
    requires RanksBelow(ranks, m) && i < |ranks|
    ensures RanksBelow(ranks[..i], m) && RanksBelow(ranks[..i + 1], m)
    ensures Histogram(ranks[..i + 1], m) == AddToBucket(Histogram(ranks[..i], m), ranks[i])
  {
    assert ranks[..i + 1][..i] == ranks[..i];
  }

  /** The accumulators of the training loop after one more example. */
  lemma {:induction false} TrainStep(ranks: seq<nat>, pl: seq<real>, dl: seq<real>, rg: seq<real>, m: nat, i: nat, flag: bool,
                  counts: seq<real>, pLoss: real, dLoss: real, regul: real)
    requires RanksBelow(ranks, m) && i < |ranks| == |pl| == |dl| == |rg|
    requires counts == Histogram(ranks[..i], m)
    requires pLoss == Sum(pl[..i]) && dLoss == Sum(dl[..i])
    requires regul == if flag then Sum(rg[..i]) else 0.0
    ensures RanksBelow(ranks[..i + 1], m)
    ensures AddToBucket(counts, ranks[i]) == Histogram(ranks[..i + 1], m)
    ensures pLoss + pl[i] == Sum(pl[..i + 1]) && dLoss + dl[i] == Sum(dl[..i + 1])
    ensures (if flag then regul + rg[i] else regul) == if flag then Sum(rg[..i + 1]) else 0.0
  {
    HistogramStep(ranks, m, i);
    SumPrefixStep(pl, i);
    SumPrefixStep(dl, i);
    SumPrefixStep(rg, i);
  }

  lemma {:induction false} SumPrefixStep(s: seq<real>, i: nat)
    requires i < |s|
    ensures Sum(s[..i + 1]) == Sum(s[..i]) + s[i]
  {
    assert s[..i + 1][..i] == s[..i];
  }

  /**
   * One example of the accuracy loop: its scores enter the scratch
   * buffer, the ground truth is swapped to the front, the scores at least
   * as high are counted, and the primal loss is taken on the reordered
   * buffer; the result is the rank, the loss and the dual regularizer
   * term on the swapped buffers.
   */
  method EvaluateExample(scores: array<real>, s: seq<real>, v: seq<real>, truth: nat,
                         primalLoss: seq<real> -> real)
      returns (b: nat, loss: real, regul: real)
    requires scores.Length == |s| == |v| && truth < |s|
    requires OrderFree(primalLoss)
    modifies scores
    ensures b == Rank(s, truth)
    ensures loss == primalLoss(SwapAt(s, 0, truth))
    ensures regul == RegularizerDual(SwapAt(v, 0, truth), SwapAt(s, 0, truth))
  {
    Fill(scores, s);
    SwapEntries(scores, 0, truth);
    regul := RegularizerDual(SwapAt(v, 0, truth), scores[..]);
    ghost var swapped := scores[..];
    b := CountAbove(scores);
    RankAfterSwap(s, truth);
    loss := primalLoss(scores[..]);
    assert scores[..][1..] == scores[1..] && swapped[1..] == swapped[1..scores.Length];
    assert Reordered(scores[..], SwapAt(s, 0, truth));
  }

  /** One pass of the example loop of `evaluate_train`: example i joins the accumulators. */
  method TrainExample(scores: array<real>, scoresOf: seq<seq<real>>, variables: seq<seq<real>>,
                      labels: seq<nat>, primalLoss: seq<real> -> real, dualLoss: seq<real> -> real,
                      flag: bool, i: nat, counts: seq<real>, pLoss: real, dLoss: real, regul: real)
      returns (counts': seq<real>, pLoss': real, dLoss': real, regul': real)
    requires scores.Length > 0 && i < |labels|
    requires ExamplesFit(scoresOf, labels, scores.Length) && ExamplesFit(variables, labels, scores.Length)
    requires OrderFree(primalLoss)
    requires counts == Histogram(Ranks(scoresOf, labels, scores.Length)[..i], scores.Length)
    requires pLoss == Sum(Losses(scoresOf, labels, scores.Length, primalLoss)[..i])
    requires dLoss == Sum(Losses(variables, labels, scores.Length, dualLoss)[..i])
    requires regul == if flag then Sum(DualRegularizers(variables, scoresOf, labels, scores.Length)[..i]) else 0.0
    modifies scores
    ensures counts' == Histogram(Ranks(scoresOf, labels, scores.Length)[..i + 1], scores.Length)
    ensures pLoss' == Sum(Losses(scoresOf, labels, scores.Length, primalLoss)[..i + 1])
    ensures dLoss' == Sum(Losses(variables, labels, scores.Length, dualLoss)[..i + 1])
    ensures regul' == if flag then Sum(DualRegularizers(variables, scoresOf, labels, scores.Length)[..i + 1]) else 0.0
  {
    var m := scores.Length;
    ghost var ranks := Ranks(scoresOf, labels, m);
    ghost var pl := Losses(scoresOf, labels, m, primalLoss);
    ghost var dl := Losses(variables, labels, m, dualLoss);
    ghost var rg := DualRegularizers(variables, scoresOf, labels, m);
    var b, loss, r := EvaluateExample(scores, scoresOf[i], variables[i], labels[i], primalLoss);
    var dual := dualLoss(SwapAt(variables[i], 0, labels[i]));
    assert ranks[i] == b && pl[i] == loss && dl[i] == dual && rg[i] == r;
    TrainStep(ranks, pl, dl, rg, m, i, flag, counts, pLoss, dLoss, regul);
    counts' := AddToBucket(counts, b);
    pLoss', dLoss' := pLoss + loss, dLoss + dual;
    regul' := if flag then regul + r else regul;
  }

  /**
   * The example loop of `evaluate_train`: every example adds one count to
   * the bucket of its ground truth's rank, its primal loss and its dual
   * loss, and, for the dual solver, its dual regularizer term. The dual
   * variables are swapped and swapped back, so they are not changed.
   */
  method EvaluateTrainExamples(scores: array<real>, scoresOf: seq<seq<real>>, variables: seq<seq<real>>,
                               labels: seq<nat>, primalLoss: seq<real> -> real,
                               dualLoss: seq<real> -> real, dualRegularizer: bool)
      returns (counts: seq<real>, pLoss: real, dLoss: real, regul: real)
    requires scores.Length > 0
    requires ExamplesFit(scoresOf, labels, scores.Length) && ExamplesFit(variables, labels, scores.Length)
    requires OrderFree(primalLoss)
    modifies scores
    ensures counts == Histogram(Ranks(scoresOf, labels, scores.Length), scores.Length)
    ensures pLoss == Sum(Losses(scoresOf, labels, scores.Length, primalLoss))
    ensures dLoss == Sum(Losses(variables, labels, scores.Length, dualLoss))
    ensures regul == if dualRegularizer then Sum(DualRegularizers(variables, scoresOf, labels, scores.Length)) else 0.0
  {
    var m := scores.Length;
    ghost var ranks := Ranks(scoresOf, labels, m);
    ghost var pl := Losses(scoresOf, labels, m, primalLoss);
    ghost var dl := Losses(variables, labels, m, dualLoss);
    ghost var rg := DualRegularizers(variables, scoresOf, labels, m);
    counts := Zeros(m);
    pLoss, dLoss, regul := 0.0, 0.0, 0.0;
    var i := 0;
    while i < |labels|
      invariant 0 <= i <= |labels| && scores.Length == m
      invariant counts == Histogram(ranks[..i], m)
      invariant pLoss == Sum(pl[..i]) && dLoss == Sum(dl[..i])
      invariant regul == if dualRegularizer then Sum(rg[..i]) else 0.0
    {
      counts, pLoss, dLoss, regul :=
        TrainExample(scores, scoresOf, variables, labels, primalLoss, dualLoss, dualRegularizer,
                     i, counts, pLoss, dLoss, regul);
      i := i + 1;
    }
    assert ranks[..|labels|] == ranks && pl[..|labels|] == pl;
    assert dl[..|labels|] == dl && rg[..|labels|] == rg;
  }

  /**
   * The example loop of `evaluate_test`: the same histogram and primal
   * loss, with only the scores swapped.
   */
  method EvaluateTestExamples(scores: array<real>, scoresOf: seq<seq<real>>, labels: seq<nat>,
                              primalLoss: seq<real> -> real)
      returns (counts: seq<real>, pLoss: real)
    requires scores.Length > 0 && ExamplesFit(scoresOf, labels, scores.Length)
    requires OrderFree(primalLoss)
    modifies scores
    ensures counts == Histogram(Ranks(scoresOf, labels, scores.Length), scores.Length)
    ensures pLoss == Sum(Losses(scoresOf, labels, scores.Length, primalLoss))
  {
    var m := scores.Length;
    ghost var ranks := Ranks(scoresOf, labels, m);
    ghost var pl := Losses(scoresOf, labels, m, primalLoss);
    counts := Zeros(m);
    pLoss := 0.0;
    var i := 0;
    while i < |labels|
      invariant 0 <= i <= |labels| && scores.Length == m
      invariant counts == Histogram(ranks[..i], m)
      invariant pLoss == Sum(pl[..i])
    {
      var b, loss, _ := EvaluateExample(scores, scoresOf[i], scoresOf[i], labels[i], primalLoss);
      assert ranks[i] == b && pl[i] == loss;
      HistogramStep(ranks, m, i);
      SumPrefixStep(pl, i);
      counts := AddToBucket(counts, b);
      pLoss := pLoss + loss;
      i := i + 1;
    }
    assert ranks[..|labels|] == ranks && pl[..|labels|] == pl;
  }

  /**
   * `partial_sum` and `scal(1/n)` on the histogram: accuracy j is the
   * fraction of the n examples whose ground truth ranks within the top
   * j + 1.
   */
  method Accuracies(counts: seq<real>, ghost ranks: seq<nat>, n: nat) returns (acc: seq<real>)
    requires n == |ranks| > 0 && RanksBelow(ranks, |counts|) && counts == Histogram(ranks, |counts|)
    ensures |acc| == |counts|
    ensures forall j :: 0 <= j < |counts| ==> acc[j] == CountAtMost(ranks, j) as real / (n as real)
  {
    acc := TopkAccuracies(counts, n);
    forall j | 0 <= j < |counts|
      ensures acc[j] == CountAtMost(ranks, j) as real / (n as real)
    {
      HistogramPrefix(ranks, |counts|, j);
    }
  }

  /**
   * The end of `evaluate_train`: `update_all` forms the objectives and the
   * histogram becomes the top-k accuracies; the reported loss is the
   * scaled primal loss.
   */
  method FinishTrain(obj: Objective, counts: seq<real>, ghost ranks: seq<nat>, n: nat,
                     pLoss: real, dLoss: real, regul: real)
      returns (point: TestPoint, scaledLoss: real, halfRegul: real, primal: real, dual: real, gap: real)
    requires n == |ranks| > 0 && RanksBelow(ranks, |counts|) && counts == Histogram(ranks, |counts|)
    ensures point.loss == scaledLoss == Rescaled(obj, pLoss) && halfRegul * 2.0 == regul
    ensures gap == DualityGap(obj.coeff, pLoss, dLoss, regul) && primal - dual == gap
    ensures primal == PrimalObjective(obj.coeff, pLoss, regul) && dual == DualObjective(dLoss, regul)
    ensures |point.accuracy| == |counts|
    ensures forall j :: 0 <= j < |counts| ==> point.accuracy[j] == CountAtMost(ranks, j) as real / (n as real)
  {
    scaledLoss, halfRegul, primal, dual, gap := UpdateAllWithGap(obj, pLoss, dLoss, regul);
    var acc := Accuracies(counts, ranks, n);
    point := TestPoint(scaledLoss, acc);
  }

  /**
   * The primal loss as `update_primal_loss` reports it: the accumulated
   * loss times the objective's coefficient.
   */
  function Rescaled(obj: Objective, loss: real): real
  {
    obj.coeff * loss
  }

  /** The end of `evaluate_test`: the loss is rescaled, the histogram becomes accuracies. */
  method FinishTest(obj: Objective, counts: seq<real>, ghost ranks: seq<nat>, n: nat, pLoss: real)
      returns (point: TestPoint)
    requires n == |ranks| > 0 && RanksBelow(ranks, |counts|) && counts == Histogram(ranks, |counts|)
    ensures point.loss == Rescaled(obj, pLoss) && |point.accuracy| == |counts|
    ensures forall j :: 0 <= j < |counts| ==> point.accuracy[j] == CountAtMost(ranks, j) as real / (n as real)
  {
    var loss := UpdatePrimalLoss(obj, pLoss);
    var acc := Accuracies(counts, ranks, n);
    point := TestPoint(loss, acc);
  }
}
