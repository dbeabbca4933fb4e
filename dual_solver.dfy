/**
 * The dual SDCA solver (`dual_solver`): it works on the Gram matrix K of
 * the training examples (N columns of N entries) and keeps only the dual
 * variables A (T x N, one column per example); the scores of an example
 * with kernel column k are A k.
 */
module DualSolver {
  import opened Numeric
  import opened Labels
  import opened ObjectiveBase
  import opened Blas
  import opened Evaluation
  import opened SolverControl
  import opened MultisetSolver

  /** `compute_scores(K_i)` for every kernel column: the vectors A K_i. */
  function KernelScores(A: seq<seq<real>>, T: nat, ks: seq<seq<real>>): (r: seq<seq<real>>)
    requires forall j :: 0 <= j < |A| ==> |A[j]| == T
    requires forall i :: 0 <= i < |ks| ==> |ks[i]| == |A|
    ensures |r| == |ks| && forall i :: 0 <= i < |ks| ==> r[i] == Gemv(A, T, ks[i])
  {
    seq(|ks|, i requires 0 <= i < |ks| => Gemv(A, T, ks[i]))
  }

  /** The plain pairing <scores_i, variables_i> of every example. */
  function Pairings(scoresOf: seq<seq<real>>, variables: seq<seq<real>>): (r: seq<real>)
    requires |scoresOf| == |variables| && forall i :: 0 <= i < |scoresOf| ==> |scoresOf[i]| == |variables[i]|
    ensures |r| == |scoresOf| && forall i :: 0 <= i < |r| ==> r[i] == Dot(scoresOf[i], variables[i])
  {
    seq(|scoresOf|, i requires 0 <= i < |scoresOf| => Dot(scoresOf[i], variables[i]))
  }

  /**
   * The regularizer terms are taken on the ground-truth-first buffers, but
   * the swap moves the same entry of both vectors, so every term is the
   * plain <scores_i, variables_i>.
   */
  lemma {:induction false} DualRegularizersArePairings(variables: seq<seq<real>>, scoresOf: seq<seq<real>>, labels: seq<nat>, m: nat)
    requires ExamplesFit(variables, labels, m) && ExamplesFit(scoresOf, labels, m)
    ensures DualRegularizers(variables, scoresOf, labels, m) == Pairings(scoresOf, variables)
  {
    var lhs := DualRegularizers(variables, scoresOf, labels, m);
    forall i | 0 <= i < |labels|
      ensures lhs[i] == Dot(scoresOf[i], variables[i])
    {
      RegularizerDualSwapped(variables[i], scoresOf[i], labels[i]);
    }
  }

  class DualSolver {
    /** The number of training examples and of classes. */
    const N: nat
    const T: nat
    /** The Gram matrix of the training set, N columns of N entries, and its labels. */
    const K: seq<seq<real>>
    const labels: seq<nat>
    /** Every dataset of the context, the training set first; a set's features are its kernel columns against the training set. */
    const datasets: seq<Dataset>
    const ops: ObjectiveOps
    /** `scores_`: the scratch buffer of one example's scores. */
    const scores: array<real>

    /** The dual variables, N columns of T entries. */
    var A: seq<seq<real>>
    /** `evals_`: one evaluation list per dataset. */
    var evals: seq<seq<TestPoint>>

    /** What never changes: the shapes of the constants and the objective's admissibility. */
    ghost predicate Shaped()
    {
      T > 0 && |K| == |labels| == N && scores.Length == T
      && (forall i :: 0 <= i < N ==> |K[i]| == N && labels[i] < T)
      && |datasets| > 0 && datasets[0] == Dataset(K, labels)
      && (forall k :: 0 <= k < |datasets| ==> DatasetFits(datasets[k], N, T))
      && Admissible(ops)
    }

    /** N columns of T dual variables. */
    ghost predicate Fits(V: seq<seq<real>>)
    {
      |V| == N && forall i :: 0 <= i < N ==> |V[i]| == T
    }

    ghost predicate Valid()
      reads this
    {
      Shaped() && Fits(A) && |evals| == |datasets|
    }

    constructor(T: nat, datasets: seq<Dataset>, A: seq<seq<real>>, ops: ObjectiveOps)
      requires T > 0 && |datasets| > 0 && |A| == |datasets[0].labels|
      requires forall k :: 0 <= k < |datasets| ==> DatasetFits(datasets[k], |A|, T)
      requires forall i :: 0 <= i < |A| ==> |A[i]| == T
      requires Admissible(ops)
      ensures Valid()
      ensures this.T == T && N == |A| && this.datasets == datasets
      ensures K == datasets[0].features && labels == datasets[0].labels
      ensures this.A == A && this.ops == ops && fresh(scores)
      ensures forall k :: 0 <= k < |evals| ==> evals[k] == []
    {
      N := |A|;
      this.T := T;
      K := datasets[0].features;
      labels := datasets[0].labels;
      this.datasets := datasets;
      this.ops := ops;
      scores := new real[T];
      this.A := A;
      evals := seq(|datasets|, k => []);
    }

    /** `compute_scores(K_i)`: A K_i, one score per class. */
    function ScoresOf(k: seq<real>): (s: seq<real>)
      reads this
      requires Valid() && |k| == N
      ensures |s| == T && forall j :: 0 <= j < T ==> s[j] == Dot(Row(A, j), k)
    {
      Gemv(A, T, k)
    }

    /**
     * `solve_example(i)`: nothing happens to an example whose kernel
     * diagonal K_ii is not positive. Otherwise the dual step on the scores
     * A K_i replaces the example's variables, with the ground truth moved
     * to the front for the update and back afterwards; no other example's
     * variables change.
     */
    method SolveExample(i: nat)
      requires Valid() && i < N
      modifies this`A, scores
      ensures Valid() && evals == old(evals)
      ensures K[i][i] <= 0.0 ==> A == old(A)
      ensures K[i][i] > 0.0 ==>
                A == old(A)[i := DualStep(ops.update, K[i][i], old(A[i]), Gemv(old(A), T, K[i]), labels[i])]
    {
      if K[i][i] <= 0.0 {
        return;
      }
      var after := DualUpdate(i);
      A := A[i := after];
    }

    /**
     * The scores A K_i enter the scratch buffer with the ground truth
     * first, and the objective's update gives the new variables, swapped
     * back into class order.
     */
    method DualUpdate(i: nat) returns (after: seq<real>)
      requires Valid() && i < N
      modifies scores
      ensures after == DualStep(ops.update, K[i][i], A[i], Gemv(A, T, K[i]), labels[i])
    {
      var truth := labels[i];
      Fill(scores, ScoresOf(K[i]));
      SwapEntries(scores, 0, truth);
      UpdateLength(ops.update, K[i][i], SwapAt(A[i], 0, truth), scores[..]);
      after := SwapAt(ops.update(K[i][i], SwapAt(A[i], 0, truth), scores[..]), 0, truth);
    }

    /**
     * The variables after `solve_example(i)` from V: unchanged when K_ii is
     * not positive, otherwise column i takes the dual step on the scores V K_i.
     */
    ghost function Stepped(V: seq<seq<real>>, i: nat): (r: seq<seq<real>>)
      requires Shaped() && Fits(V) && i < N
      ensures Fits(r)
    {
      if K[i][i] <= 0.0 then V
      else V[i := DualStep(ops.update, K[i][i], V[i], Gemv(V, T, K[i]), labels[i])]
    }

    /** The variables after `solve_example` on every entry of `order`, first to last. */
    ghost function Epoch(V: seq<seq<real>>, order: seq<nat>): (r: seq<seq<real>>)
      requires Shaped() && Fits(V) && forall k :: 0 <= k < |order| ==> order[k] < N
      ensures Fits(r)
      decreases |order|
    {
      if |order| == 0 then V else Stepped(Epoch(V, order[..|order| - 1]), order[|order| - 1])
    }

    /**
     * The example loop of `solve`: one dual step per listed example, in the
     * order given; an example not in the order keeps its variables.
     */
    method RunEpoch(order: seq<nat>)
      requires Valid() && forall k :: 0 <= k < |order| ==> order[k] < N
      modifies this`A, scores
      ensures Valid() && evals == old(evals)
      ensures A == Epoch(old(A), order)
      ensures forall i :: 0 <= i < N && i !in order ==> A[i] == old(A[i])
    {
      ghost var visited: set<nat> := {};
      var k := 0;
      while k < |order|
        invariant 0 <= k <= |order| && Valid() && evals == old(evals)
        invariant A == Epoch(old(A), order[..k])
        invariant forall j :: j in visited ==> j in order
        invariant forall i :: 0 <= i < N && i !in visited ==> A[i] == old(A[i])
      {
        SolveExample(order[k]);
        assert order[..k + 1][..k] == order[..k];
        visited := visited + {order[k]};
        k := k + 1;
      }
      assert order[..k] == order;
    }

    /** The training scores A K_i of every example. */
    ghost function TrainScores(): (r: seq<seq<real>>)
      reads this
      requires Valid()
      ensures |r| == N && ExamplesFit(r, labels, T) && ExamplesFit(A, labels, T)
    {
      KernelScores(A, T, K)
    }

    /**
     * The objectives `evaluate_train` forms under the variables V: the
     * rescaled primal loss, the dual loss, half the regularizer
     * sum_i <V K_i, V_i>, the primal and dual objectives, and the gap as
     * their difference.
     */
    ghost predicate TrainObjectives(o: Objectives, V: seq<seq<real>>)
      requires Shaped() && Fits(V)
    {
      var ss := KernelScores(V, T, K);
      var pl := Sum(Losses(ss, labels, T, ops.primalLoss));
      var dl := Sum(Losses(V, labels, T, ops.dualLoss));
      var reg := Sum(Pairings(ss, V));
      o.primalLoss == Rescaled(ops.base, pl) && o.dualLoss == dl
      && o.regularizer * 2.0 == reg
      && o.primal == PrimalObjective(ops.base.coeff, pl, reg)
      && o.dual == DualObjective(dl, reg)
      && o.gap == DualityGap(ops.base.coeff, pl, dl, reg) == o.primal - o.dual
    }

    /** The record of every dataset under the variables V, the training set first. */
    ghost function Records(V: seq<seq<real>>): (r: seq<TestPoint>)
      requires Shaped() && Fits(V)
      ensures |r| == |datasets|
    {
      seq(|datasets|, k requires 0 <= k < |datasets| =>
        SetRecord(ops.base, KernelScores(V, T, datasets[k].features), datasets[k].labels, T, ops.primalLoss))
    }

    /**
     * `evaluate_train`: every example adds its dual regularizer term
     * <A K_i, A_i>, its primal loss, its dual loss and one count to the
     * bucket of its ground truth's rank; `update_all` forms the objectives
     * and the gap, and accuracy j is the fraction of examples whose ground
     * truth ranks within the top j + 1.
     */
    method EvaluateTrain() returns (point: TestPoint, o: Objectives)
      requires Valid()
      modifies scores
      ensures TrainObjectives(o, A) && point.loss == o.primalLoss
      ensures point == Records(A)[0]
      ensures |point.accuracy| == T
      ensures forall j :: 0 <= j < T ==>
                point.accuracy[j] == CountAtMost(Ranks(TrainScores(), labels, T), j) as real / (N as real)
    {
      assert DatasetFits(datasets[0], N, T);
      var ss := KernelScores(A, T, K);
      assert ss == TrainScores();
      var counts, pLoss, dLoss, regul := EvaluateTrainExamples(scores, ss, A, labels,
                                                               ops.primalLoss, ops.dualLoss, true);
      DualRegularizersArePairings(A, ss, labels, T);
      var scaled, half, primal, dual, gap;
      point, scaled, half, primal, dual, gap :=
        FinishTrain(ops.base, counts, Ranks(ss, labels, T), N, pLoss, dLoss, regul);
      o := Objectives(scaled, dLoss, half, primal, dual, gap);
      IsSetRecord(point, ops.base, ss, labels, T, ops.primalLoss);
    }

    /** The scores A k of every example of a dataset, from its kernel columns. */
    ghost function SetScores(d: Dataset): (r: seq<seq<real>>)
      reads this
      requires Valid() && DatasetFits(d, N, T)
      ensures ExamplesFit(r, d.labels, T)
    {
      KernelScores(A, T, d.features)
    }

    /** The rescaled primal loss of a dataset under the current variables. */
    ghost function SetLoss(d: Dataset): real
      reads this
      requires Valid() && DatasetFits(d, N, T)
    {
      Rescaled(ops.base, Sum(Losses(SetScores(d), d.labels, T, ops.primalLoss)))
    }

    /**
     * `evaluate_test(set)`: the rescaled primal loss over the set and its
     * top-k accuracies.
     */
    method EvaluateTest(d: Dataset) returns (point: TestPoint)
      requires Valid() && DatasetFits(d, N, T)
      modifies scores
      ensures point.loss == SetLoss(d) && |point.accuracy| == T
      ensures forall j :: 0 <= j < T ==>
                point.accuracy[j] == CountAtMost(Ranks(SetScores(d), d.labels, T), j) as real / (|d.labels| as real)
      ensures point == SetRecord(ops.base, SetScores(d), d.labels, T, ops.primalLoss)
    {
      var n := |d.labels|;
      var ss := KernelScores(A, T, d.features);
      assert ss == SetScores(d);
      assert ExamplesFit(ss, d.labels, T);
      var counts, pLoss := EvaluateTestExamples(scores, ss, d.labels, ops.primalLoss);
      ghost var ranks := Ranks(ss, d.labels, T);
      point := FinishTest(ops.base, counts, ranks, n, pLoss);
      IsSetRecord(point, ops.base, ss, d.labels, T, ops.primalLoss);
    }

    /** The test-set loop of `evaluate_solution`: every test set in order, each with its own record. */
    method EvaluateTests() returns (tests: seq<TestPoint>)
      requires Valid()
      modifies scores
      ensures |tests| == |datasets| - 1
      ensures forall k :: 1 <= k < |datasets| ==> tests[k - 1] == Records(A)[k]
    {
      tests := [];
      var k := 1;
      while k < |datasets|
        invariant 1 <= k <= |datasets| && |tests| == k - 1
        invariant forall q :: 1 <= q < k ==> tests[q - 1] == Records(A)[q]
      {
        var point := EvaluateTest(datasets[k]);
        tests := tests + [point];
        k := k + 1;
      }
    }

    /**
     * `evaluate_solution`: the training set and then every test set are
     * evaluated, and each list grows by one.
     */
    method EvaluateSolution() returns (o: Objectives)
      requires Valid()
      modifies this`evals, scores
      ensures Valid() && A == old(A) && TrainObjectives(o, A)
      ensures |evals| == |old(evals)|
      ensures forall k :: 0 <= k < |evals| ==> evals[k] == old(evals[k]) + [Records(A)[k]]
      ensures evals[0][|old(evals[0])|].loss == o.primalLoss
    {
      var train, tests;
      train, tests, o := EvaluateSets();
      evals := AppendEvaluations(evals, train, tests);
      assert evals[0] == old(evals[0]) + [train];
    }

    /** The training set's evaluation and objectives, then one evaluation per test set. */
    method EvaluateSets() returns (train: TestPoint, tests: seq<TestPoint>, o: Objectives)
      requires Valid()
      modifies scores
      ensures TrainObjectives(o, A) && train.loss == o.primalLoss && train == Records(A)[0]
      ensures |tests| == |datasets| - 1 && forall k :: 1 <= k < |datasets| ==> tests[k - 1] == Records(A)[k]
    {
      train, o := EvaluateTrain();
      tests := EvaluateTests();
    }
  }
}
