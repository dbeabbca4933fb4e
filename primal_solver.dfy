/**
 * The primal SDCA solver (`primal_solver`): it keeps the dual variables A
 * (T x N, one column per example) and the primal variables W = X A^T
 * (D x T, one column per class), computes an example's scores as W^T x_i,
 * and after each dual step corrects W by a rank-one update.
 */
module PrimalSolver {
  import opened Numeric
  import opened Labels
  import opened ObjectiveBase
  import opened Blas
  import opened Evaluation
  import opened SolverControl
  import opened MultisetSolver

  /** `compute_scores` for every example: the columns W^T x_i. */
  function AllScores(W: seq<seq<real>>, dim: nat, xs: seq<seq<real>>): (r: seq<seq<real>>)
    requires IsMatrix(W, dim, |W|) && forall i :: 0 <= i < |xs| ==> |xs[i]| == dim
    ensures |r| == |xs| && forall i :: 0 <= i < |xs| ==> r[i] == GemvTrans(W, xs[i])
  {
    seq(|xs|, i requires 0 <= i < |xs| => GemvTrans(W, xs[i]))
  }

  class PrimalSolver {
    /** The number of features, of examples and of classes. */
    const D: nat
    const N: nat
    const T: nat
    /** The training features, N columns of D entries, and their labels. */
    const X: seq<seq<real>>
    const labels: seq<nat>
    /** Every dataset of the context, the training set first. */
    const datasets: seq<Dataset>
    const ops: ObjectiveOps
    /** `diff_tolerance_`: the machine epsilon of the data type. */
    const diffTolerance: real
    /** `scores_`: the scratch buffer of one example's scores. */
    const scores: array<real>

    /** The primal variables, T columns of D entries. */
    var W: seq<seq<real>>
    /** The dual variables, N columns of T entries. */
    var A: seq<seq<real>>
    /** `norm2_`: the cached squared norm of every training example. */
    var norm2: seq<real>
    /** `evals_`: one evaluation list per dataset. */
    var evals: seq<seq<TestPoint>>

    /** What never changes: the shapes of the constants and the objective's admissibility. */
    ghost predicate Shaped()
    {
      T > 0 && |X| == |labels| == N && scores.Length == T
      && (forall i :: 0 <= i < N ==> |X[i]| == D && labels[i] < T)
      && |datasets| > 0 && datasets[0] == Dataset(X, labels)
      && (forall k :: 0 <= k < |datasets| ==> DatasetFits(datasets[k], D, T))
      && Admissible(ops)
    }

    /** N columns of T dual variables. */
    ghost predicate Fits(V: seq<seq<real>>)
    {
      |V| == N && forall i :: 0 <= i < N ==> |V[i]| == T
    }

    ghost predicate Valid()
      reads this
    {
      Shaped() && Fits(A) && |norm2| == N && IsMatrix(W, D, T) && |evals| == |datasets|
    }

    /** The primal variables agree with the dual ones: W = X A^T. */
    ghost predicate Consistent()
      reads this
      requires Valid()
    {
      W == GemmTrans(X, D, A, T)
    }

    constructor(D: nat, T: nat, datasets: seq<Dataset>, A: seq<seq<real>>, W: seq<seq<real>>,
                ops: ObjectiveOps, machineEps: real)
      requires T > 0 && |datasets| > 0 && |A| == |datasets[0].labels|
      requires forall k :: 0 <= k < |datasets| ==> DatasetFits(datasets[k], D, T)
      requires forall i :: 0 <= i < |A| ==> |A[i]| == T
      requires IsMatrix(W, D, T) && Admissible(ops)
      ensures Valid()
      ensures this.D == D && this.T == T && N == |A| && this.datasets == datasets
      ensures X == datasets[0].features && labels == datasets[0].labels
      ensures this.A == A && this.W == W && this.ops == ops && diffTolerance == machineEps
      ensures fresh(scores) && norm2 == Zeros(N)
      ensures forall k :: 0 <= k < |evals| ==> evals[k] == []
    {
      this.D := D;
      this.N := |A|;
      this.T := T;
      X := datasets[0].features;
      labels := datasets[0].labels;
      this.datasets := datasets;
      this.ops := ops;
      diffTolerance := machineEps;
      scores := new real[T];
      this.W := W;
      this.A := A;
      norm2 := Zeros(|A|);
      evals := seq(|datasets|, k => []);
    }

    /** `initialize`: the squared norm of every training example is cached. */
    method Initialize()
      requires Valid()
      modifies this
      ensures Valid() && A == old(A) && W == old(W) && evals == old(evals)
      ensures forall i :: 0 <= i < N ==> norm2[i] == Dot(X[i], X[i]) && norm2[i] >= 0.0
    {
      var i := 0;
      while i < N
        invariant 0 <= i <= N && Valid() && A == old(A) && W == old(W) && evals == old(evals)
        invariant forall q :: 0 <= q < i ==> norm2[q] == Dot(X[q], X[q]) && norm2[q] >= 0.0
      {
        DotSelf(X[i]);
        SumSqNonNegative(X[i]);
        norm2 := norm2[i := Dot(X[i], X[i])];
        i := i + 1;
      }
    }

    /** `compute_scores(x)`: W^T x, one score per class. */
    function ScoresOf(x: seq<real>): (s: seq<real>)
      reads this
      requires Valid() && |x| == D
      ensures |s| == T && forall j :: 0 <= j < T ==> s[j] == Dot(W[j], x)
    {
      GemvTrans(W, x)
    }

    /**
     * `solve_example(i)`: nothing happens to an example of norm 0.
     * Otherwise the dual step replaces the example's variables, and W is
     * corrected by the rank-one update x_i (new - old)^T only when the
     * variables moved by more than the tolerance (in the sum of magnitudes);
     * then W = X A^T is kept. With a tolerance of 0 no move is ever
     * skipped, so the step always keeps W = X A^T.
     */
    method SolveExample(i: nat)
      requires Valid() && i < N
      modifies this`A, this`W, scores
      ensures Valid() && norm2 == old(norm2) && evals == old(evals)
      ensures old(norm2[i]) <= 0.0 ==> A == old(A) && W == old(W)
      ensures old(norm2[i]) > 0.0 ==>
                A == old(A)[i := DualStep(ops.update, norm2[i], old(A[i]),
                                          GemvTrans(old(W), X[i]), labels[i])]
                && var diff := Axpby(-1.0, A[i], 1.0, old(A[i]));
                   W == if Asum(diff) > diffTolerance then Ger(-1.0, X[i], diff, old(W)) else old(W)
      ensures old(Consistent()) && Asum(Axpby(-1.0, A[i], 1.0, old(A[i]))) > diffTolerance ==> Consistent()
      ensures old(Consistent()) && diffTolerance <= 0.0 ==> Consistent()
    {
      if norm2[i] > 0.0 {
        StepExample(i);
      }
    }

    /** The dual step of an example with a positive norm, and the rank-one correction of W. */
    method StepExample(i: nat)
      requires Valid() && i < N && norm2[i] > 0.0
      modifies this`A, this`W, scores
      ensures Valid()
      ensures A == old(A)[i := DualStep(ops.update, norm2[i], old(A[i]), GemvTrans(old(W), X[i]), labels[i])]
      ensures var diff := Axpby(-1.0, A[i], 1.0, old(A[i]));
              W == if Asum(diff) > diffTolerance then Ger(-1.0, X[i], diff, old(W)) else old(W)
      ensures old(Consistent()) && Asum(Axpby(-1.0, A[i], 1.0, old(A[i]))) > diffTolerance ==> Consistent()
      ensures old(Consistent()) && diffTolerance <= 0.0 ==> Consistent()
    {
      var before := A[i];
      var after := DualUpdate(i);
      A := A[i := after];
      var diff := Axpby(-1.0, after, 1.0, before);
      if Asum(diff) > diffTolerance {
        RankOneUpdate(X, D, old(A), T, i, after);
        W := Ger(-1.0, X[i], diff, W);
      } else if diffTolerance <= 0.0 {
        NoDifference(after, before);
        assert A == old(A);
      }
    }

    /**
     * The scores of example i enter the scratch buffer with the ground
     * truth first, and the objective's update gives the new variables,
     * swapped back into class order.
     */
    method DualUpdate(i: nat) returns (after: seq<real>)
      requires Valid() && i < N
      modifies scores
      ensures after == DualStep(ops.update, norm2[i], A[i], GemvTrans(W, X[i]), labels[i])
    {
      var truth := labels[i];
      Fill(scores, ScoresOf(X[i]));
      SwapEntries(scores, 0, truth);
      UpdateLength(ops.update, norm2[i], SwapAt(A[i], 0, truth), scores[..]);
      after := SwapAt(ops.update(norm2[i], SwapAt(A[i], 0, truth), scores[..]), 0, truth);
    }

    /**
     * The dual and primal variables after `solve_example(i)` from (V, M)
     * with the cached norms: unchanged at norm 0; otherwise column i takes
     * the dual step on the scores M^T x_i, and M the rank-one correction
     * when the move exceeds the tolerance.
     */
    ghost function Stepped(V: seq<seq<real>>, M: seq<seq<real>>, norms: seq<real>, i: nat)
      : (r: (seq<seq<real>>, seq<seq<real>>))
      requires Shaped() && Fits(V) && IsMatrix(M, D, T) && |norms| == N && i < N
      ensures Fits(r.0) && IsMatrix(r.1, D, T)
    {
      if norms[i] <= 0.0 then (V, M)
      else
        var after := DualStep(ops.update, norms[i], V[i], GemvTrans(M, X[i]), labels[i]);
        var diff := Axpby(-1.0, after, 1.0, V[i]);
        (V[i := after], if Asum(diff) > diffTolerance then Ger(-1.0, X[i], diff, M) else M)
    }

    /** The variables after `solve_example` on every entry of `order`, first to last. */
    ghost function Epoch(V: seq<seq<real>>, M: seq<seq<real>>, norms: seq<real>, order: seq<nat>)
      : (r: (seq<seq<real>>, seq<seq<real>>))
      requires Shaped() && Fits(V) && IsMatrix(M, D, T) && |norms| == N
      requires forall k :: 0 <= k < |order| ==> order[k] < N
      ensures Fits(r.0) && IsMatrix(r.1, D, T)
      decreases |order|
    {
      if |order| == 0 then (V, M)
      else
        var prev := Epoch(V, M, norms, order[..|order| - 1]);
        Stepped(prev.0, prev.1, norms, order[|order| - 1])
    }

    /**
     * The example loop of `solve`: one dual step per listed example, in the
     * order given; an example not in the order keeps its variables.
     */
    method RunEpoch(order: seq<nat>)
      requires Valid() && forall k :: 0 <= k < |order| ==> order[k] < N
      modifies this`A, this`W, scores
      ensures Valid() && norm2 == old(norm2) && evals == old(evals)
      ensures (A, W) == Epoch(old(A), old(W), norm2, order)
      ensures forall i :: 0 <= i < N && i !in order ==> A[i] == old(A[i])
      ensures old(Consistent()) && diffTolerance <= 0.0 ==> Consistent()
    {
      ghost var consistent := Consistent();
      ghost var visited: set<nat> := {};
      var k := 0;
      while k < |order|
        invariant 0 <= k <= |order| && Valid() && norm2 == old(norm2) && evals == old(evals)
        invariant (A, W) == Epoch(old(A), old(W), norm2, order[..k])
        invariant forall j :: j in visited ==> j in order
        invariant forall i :: 0 <= i < N && i !in visited ==> A[i] == old(A[i])
        invariant consistent && diffTolerance <= 0.0 ==> Consistent()
      {
        SolveExample(order[k]);
        assert order[..k + 1][..k] == order[..k];
        visited := visited + {order[k]};
        k := k + 1;
      }
      assert order[..k] == order;
    }

    /** The training scores of every example under the current W. */
    ghost function TrainScores(): (r: seq<seq<real>>)
      reads this
      requires Valid()
      ensures |r| == N && ExamplesFit(r, labels, T)
    {
      AllScores(W, D, X)
    }

    /**
     * The objectives `evaluate_train` forms under the variables (V, M): the
     * rescaled primal loss on the scores M^T x_i, the dual loss, half the
     * regularizer <M, M>, the primal and dual objectives, and the gap as
     * their difference.
     */
    ghost predicate TrainObjectives(o: Objectives, V: seq<seq<real>>, M: seq<seq<real>>)
      requires Shaped() && Fits(V) && IsMatrix(M, D, T)
    {
      var pl := Sum(Losses(AllScores(M, D, X), labels, T, ops.primalLoss));
      var dl := Sum(Losses(V, labels, T, ops.dualLoss));
      var reg := RegularizerPrimal(Flat(M));
      o.primalLoss == Rescaled(ops.base, pl) && o.dualLoss == dl
      && o.regularizer * 2.0 == reg
      && o.primal == PrimalObjective(ops.base.coeff, pl, reg)
      && o.dual == DualObjective(dl, reg)
      && o.gap == DualityGap(ops.base.coeff, pl, dl, reg) == o.primal - o.dual
    }

    /** The record of every dataset under the primal variables M, the training set first. */
    ghost function Records(M: seq<seq<real>>): (r: seq<TestPoint>)
      requires Shaped() && IsMatrix(M, D, T)
      ensures |r| == |datasets|
    {
      seq(|datasets|, k requires 0 <= k < |datasets| =>
        SetRecord(ops.base, AllScores(M, D, datasets[k].features), datasets[k].labels, T, ops.primalLoss))
    }

    /**
     * `evaluate_train`: the regularizer is <W, W>; every example adds its
     * primal loss, its dual loss and one count to the bucket of its
     * ground truth's rank; `update_all` forms the objectives and the gap,
     * and accuracy j is the fraction of examples whose ground truth ranks
     * within the top j + 1.
     */
    method EvaluateTrain() returns (point: TestPoint, o: Objectives)
      requires Valid()
      modifies scores
      ensures TrainObjectives(o, A, W) && point.loss == o.primalLoss
      ensures point == Records(W)[0]
      ensures |point.accuracy| == T
      ensures forall j :: 0 <= j < T ==>
                point.accuracy[j] == CountAtMost(Ranks(TrainScores(), labels, T), j) as real / (N as real)
    {
      assert DatasetFits(datasets[0], D, T);
      var regul := RegularizerPrimal(Flat(W));
      var counts, pLoss, dLoss, _ := EvaluateTrainExamples(scores, AllScores(W, D, X),
                                                           A, labels, ops.primalLoss, ops.dualLoss, false);
      var scaled, half, primal, dual, gap;
      point, scaled, half, primal, dual, gap :=
        FinishTrain(ops.base, counts, Ranks(AllScores(W, D, X), labels, T), N, pLoss, dLoss, regul);
      o := Objectives(scaled, dLoss, half, primal, dual, gap);
      IsSetRecord(point, ops.base, AllScores(W, D, X), labels, T, ops.primalLoss);
    }

    /** The scores of every example of a dataset under the current W. */
    ghost function SetScores(d: Dataset): (r: seq<seq<real>>)
      reads this
      requires Valid() && DatasetFits(d, D, T)
      ensures ExamplesFit(r, d.labels, T)
    {
      AllScores(W, D, d.features)
    }

    /**
     * `evaluate_test(set)`: the rescaled primal loss over the set and its
     * top-k accuracies.
     */
    method EvaluateTest(d: Dataset) returns (point: TestPoint)
      requires Valid() && DatasetFits(d, D, T)
      modifies scores
      ensures point.loss == Rescaled(ops.base, Sum(Losses(SetScores(d), d.labels, T, ops.primalLoss)))
      ensures |point.accuracy| == T
      ensures forall j :: 0 <= j < T ==>
                point.accuracy[j] == CountAtMost(Ranks(SetScores(d), d.labels, T), j) as real / (|d.labels| as real)
      ensures point == SetRecord(ops.base, SetScores(d), d.labels, T, ops.primalLoss)
    {
      var n := |d.labels|;
      var ss := AllScores(W, D, d.features);
      assert ss == SetScores(d);
      assert ExamplesFit(ss, d.labels, T);
      var counts, pLoss := EvaluateTestExamples(scores, ss, d.labels, ops.primalLoss);
      ghost var ranks := Ranks(ss, d.labels, T);
      point := FinishTest(ops.base, counts, ranks, n, pLoss);
      IsSetRecord(point, ops.base, ss, d.labels, T, ops.primalLoss);
    }

    /**
     * `evaluate_solution`: W is recomputed as X A^T, then the training set
     * and every test set are evaluated and each list grows by one.
     */
    method EvaluateSolution() returns (o: Objectives)
      requires Valid()
      modifies this`W, this`evals, scores
      ensures Valid() && Consistent() && A == old(A) && norm2 == old(norm2)
      ensures TrainObjectives(o, A, W)
      ensures |evals| == |old(evals)|
      ensures forall k :: 0 <= k < |evals| ==> evals[k] == old(evals[k]) + [Records(W)[k]]
      ensures evals[0][|old(evals[0])|].loss == o.primalLoss
    {
      W := GemmTrans(X, D, A, T);
      var train;
      train, o := EvaluateTrain();
      var tests: seq<TestPoint> := [];
      var k := 1;
      while k < |datasets|
        invariant 1 <= k <= |datasets| && |tests| == k - 1
        invariant Valid() && Consistent() && A == old(A) && norm2 == old(norm2) && evals == old(evals)
        invariant forall q :: 1 <= q < k ==> tests[q - 1] == Records(W)[q]
      {
        var point := EvaluateTest(datasets[k]);
        tests := tests + [point];
        k := k + 1;
      }
      evals := AppendEvaluations(evals, train, tests);
      assert train.loss == o.primalLoss;
      assert evals[0] == old(evals[0]) + [train];
    }
  }
}
