/**
 * The control state of the stochastic dual coordinate ascent solver: the
 * status, the epoch counter, the objective values of the latest
 * evaluation, the example order and the progress log. Solving one
 * example and evaluating the current solution belong to the derived
 * solvers; here they are inputs: the order in which an epoch visits the
 * examples (a shuffle), the objectives an evaluation yields, and the
 * stopwatch readings.
 */
module SolverControl {
  import opened Numeric
  import opened Labels
  import opened SolverDef

  /** `train_point`: one row of the progress log. */
  datatype Record = Record(
    primal: real,
    dual: real,
    gap: real,
    primalLoss: real,
    dualLoss: real,
    regularizer: real,
    epoch: nat,
    cpuTime: real,
    wallTime: real,
    solveCpuTime: real,
    solveWallTime: real,
    evalCpuTime: real,
    evalWallTime: real)

  /** The objective terms an evaluation of the current solution produces. */
  datatype Objectives = Objectives(
    primalLoss: real,
    dualLoss: real,
    regularizer: real,
    primal: real,
    dual: real,
    gap: real)

  /** The four stopwatches at one reading; the totals add solving and evaluation. */
  datatype Clock = Clock(solveCpu: real, solveWall: real, evalCpu: real, evalWall: real)
  {
    function Cpu(): real { solveCpu + evalCpu }
    function Wall(): real { solveWall + evalWall }
  }

  /** `sufficient_increase`: 1 - 16 machine epsilon. */
  function SufficientIncrease(machineEps: real): real
  {
    1.0 - 16.0 * machineEps
  }

  /**
   * The dual objective fell short of a sufficient increase over its
   * previous value; before the first evaluation that value is minus
   * infinity, and nothing falls below it.
   */
  predicate DualFell(dual: real, before: XReal, machineEps: real)
  {
    match before
    case Fin(b) => dual < SufficientIncrease(machineEps) * b
    case NegInf => false
    case PosInf => true
  }

  /**
   * The status decision of `compute_duality_gap`, on the gap, the
   * tolerance max(|primal|, |dual|) epsilon, the round-off allowance
   * max(|primal|, |dual|) machine epsilon and the progress test: solved
   * within the tolerance unless negative beyond round-off (failed), else
   * no progress when the dual fell, else unchanged.
   */
  function GapStatus(status: SolverStatus, gap: real, tolerance: real, roundOff: real, fell: bool): (r: SolverStatus)
    ensures r == Failed <==> (gap <= tolerance && gap < -roundOff) || (status == Failed && gap > tolerance && !fell)
    ensures gap <= tolerance ==> r in {Solved, Failed}
    ensures gap > tolerance && fell ==> r == NoProgress
    ensures gap > tolerance && !fell ==> r == status
  {
    if gap <= tolerance then
      if gap < -roundOff then Failed else Solved
    else if fell then NoProgress
    else status
  }

  /** A factor of the larger magnitude of the two objectives: max(|primal|, |dual|) eps. */
  function Relative(primal: real, dual: real, eps: real): real
  {
    Max(Abs(primal), Abs(dual)) * eps
  }

  /** The larger magnitude of the two objectives. */
  function ScaleX(primal: XReal, dual: XReal): (r: XReal)
    ensures r.IsFinite() <==> primal.IsFinite() && dual.IsFinite()
    ensures r.IsFinite() ==> r.value == Max(Abs(primal.value), Abs(dual.value))
  {
    MaxX(primal.AbsX(), dual.AbsX())
  }

  /**
   * `relative_gap`: the gap over max(|primal|, |dual|); 0 when both
   * objectives are 0, and infinity while either is infinite.
   */
  function RelativeGap(primal: XReal, dual: XReal, gap: XReal): (r: XReal)
    ensures !(primal.IsFinite() && dual.IsFinite()) ==> r == PosInf
    ensures primal == Fin(0.0) && dual == Fin(0.0) ==> r == Fin(0.0)
    ensures primal.IsFinite() && dual.IsFinite() && gap.IsFinite() && ScaleX(primal, dual).value > 0.0
            ==> r.IsFinite() && r.value * ScaleX(primal, dual).value == gap.value
  {
    match ScaleX(primal, dual)
    case Fin(m) =>
      if m > 0.0 then
        match gap
        case Fin(g) => Fin(g / m)
        case _ => gap
      else Fin(0.0)
    case _ => PosInf
  }

  /**
   * The gap test of `compute_duality_gap` is a relative-gap test: with
   * finite, not both zero, objectives the gap is within the tolerance
   * exactly when the relative gap is at most epsilon.
   */
  lemma SolvedIffRelativeGapSmall(primal: real, dual: real, gap: real, epsilon: real)
    requires Max(Abs(primal), Abs(dual)) > 0.0
    ensures gap <= Relative(primal, dual, epsilon)
            <==> RelativeGap(Fin(primal), Fin(dual), Fin(gap)).value <= epsilon
  {
    var m := Max(Abs(primal), Abs(dual));
    var r := RelativeGap(Fin(primal), Fin(dual), Fin(gap)).value;
    assert ScaleX(Fin(primal), Fin(dual)).value == m;
    assert r * m == gap;
    assert Relative(primal, dual, epsilon) == m * epsilon;
    ScaledCompare(r, epsilon, m);
  }

  /** Multiplying both sides by a positive scale keeps their order. */
  lemma ScaledCompare(r: real, e: real, m: real)
    requires m > 0.0
    ensures r * m <= m * e <==> r <= e
  {
    if r <= e {
      assert r * m <= e * m;
    } else {
      assert r * m > e * m;
    }
  }

  /** `base_solver`. */
  class BaseSolver {
    const criteria: StoppingCriteria
    const numExamples: nat
    const numClasses: nat
    /** The machine epsilon of the result type. */
    const machineEps: real

    var status: SolverStatus
    var epoch: nat
    var primalLoss: real
    var dualLoss: real
    var regularizer: real
    var primal: XReal
    var dual: XReal
    var gap: XReal
    var recomputeGap: bool
    var examples: seq<nat>
    var records: seq<Record>

    /**
     * Every example appears exactly once in the visiting order, and a
     * running solver has epochs left.
     */
    ghost predicate Valid()
      reads this
    {
      multiset(examples) == multiset(Iota(numExamples))
      && (status == Solving ==> epoch < criteria.maxEpoch)
    }

    constructor(criteria: StoppingCriteria, numExamples: nat, numClasses: nat, machineEps: real)
      ensures this.criteria == criteria && this.numExamples == numExamples
      ensures this.numClasses == numClasses && this.machineEps == machineEps
      ensures status == NoStatus && epoch == 0
      ensures primalLoss == 0.0 && dualLoss == 0.0 && regularizer == 0.0
      ensures primal == Fin(0.0) && dual == Fin(0.0) && gap == Fin(0.0)
      ensures !recomputeGap && examples == [] && records == []
    {
      this.criteria := criteria;
      this.numExamples := numExamples;
      this.numClasses := numClasses;
      this.machineEps := machineEps;
      status := NoStatus;
      epoch := 0;
      primalLoss, dualLoss, regularizer := 0.0, 0.0, 0.0;
      primal, dual, gap := Fin(0.0), Fin(0.0), Fin(0.0);
      recomputeGap := false;
      examples := [];
      records := [];
    }

    /** `relative_gap()`. */
    function CurrentRelativeGap(): XReal
      reads this
    {
      RelativeGap(primal, dual, gap)
    }

    /**
     * `initialize`: running iff an epoch is allowed, epoch 0, objectives at
     * +inf / -inf with an infinite gap, and the examples in natural order.
     */
    method Initialize()
      modifies this
      ensures status == (if criteria.maxEpoch > 0 then Solving else MaxEpoch)
      ensures epoch == 0 && primalLoss == 0.0 && dualLoss == 0.0 && regularizer == 0.0
      ensures primal == PosInf && dual == NegInf && gap == PosInf
      ensures !recomputeGap && examples == Iota(numExamples) && records == old(records)
      ensures Valid()
    {
      status := if criteria.maxEpoch > 0 then Solving else MaxEpoch;
      epoch := 0;
      primalLoss, dualLoss, regularizer := 0.0, 0.0, 0.0;
      primal, dual, gap := PosInf, NegInf, PosInf;
      recomputeGap := false;
      examples := Iota(numExamples);
    }

    /** The status `compute_duality_gap` decides from status s, with d the dual of the previous evaluation. */
    function Verdict(o: Objectives, s: SolverStatus, d: XReal): SolverStatus
    {
      GapStatus(s, o.gap, Relative(o.primal, o.dual, criteria.epsilon),
                Relative(o.primal, o.dual, machineEps), DualFell(o.dual, d, machineEps))
    }

    /** The record `compute_duality_gap` logs for an evaluation at epoch e. */
    function LogEntry(o: Objectives, e: nat, clock: Clock): Record
    {
      Record(o.primal, o.dual, o.gap, o.primalLoss, o.dualLoss, o.regularizer,
             e, clock.Cpu(), clock.Wall(), clock.solveCpu, clock.solveWall, clock.evalCpu, clock.evalWall)
    }

    /** The solver holds the evaluation's objectives and no gap is pending. */
    ghost predicate Reports(o: Objectives)
      reads this
    {
      primalLoss == o.primalLoss && dualLoss == o.dualLoss && regularizer == o.regularizer
      && primal == Fin(o.primal) && dual == Fin(o.dual) && gap == Fin(o.gap) && !recomputeGap
    }

    /**
     * `compute_duality_gap`: the evaluation's objectives replace the
     * current ones, the status is decided by `GapStatus` against the dual
     * of the previous evaluation, and exactly one record is logged.
     */
    method ComputeDualityGap(o: Objectives, clock: Clock)
      modifies this
      ensures Reports(o) && epoch == old(epoch) && examples == old(examples)
      ensures status == Solving ==> old(status) == Solving
      ensures status == GapStatus(old(status), o.gap, Relative(o.primal, o.dual, criteria.epsilon),
                                  Relative(o.primal, o.dual, machineEps), DualFell(o.dual, old(dual), machineEps))
      ensures records == old(records) + [LogEntry(o, epoch, clock)]
      ensures old(Valid()) ==> Valid()
    {
      var dualBefore := dual;
      primalLoss, dualLoss, regularizer := o.primalLoss, o.dualLoss, o.regularizer;
      primal, dual, gap := Fin(o.primal), Fin(o.dual), Fin(o.gap);
      recomputeGap := false;
      if o.gap <= Relative(o.primal, o.dual, criteria.epsilon) {
        status := Solved;
        if o.gap < -Relative(o.primal, o.dual, machineEps) {
          status := Failed;
        }
      } else if DualFell(o.dual, dualBefore, machineEps) {
        status := NoProgress;
      }
      records := records + [LogEntry(o, epoch, clock)];
    }

    /** `begin_solve`: an evaluation before the first epoch when the criteria ask for one. */
    method BeginSolve(o: Objectives, clock: Clock)
      modifies this
      ensures !criteria.evalOnStart ==> unchanged(this)
      ensures criteria.evalOnStart ==>
                Reports(o) && status == Verdict(o, old(status), old(dual))
                && records == old(records) + [LogEntry(o, epoch, clock)]
      ensures epoch == old(epoch) && examples == old(examples)
      ensures old(Valid()) ==> Valid()
    {
      if criteria.evalOnStart {
        ComputeDualityGap(o, clock);
      }
    }

    /**
     * `begin_epoch`: the epoch's visiting order is a shuffle of the
     * current one (the shuffle is an input), and the gap becomes stale.
     */
    method BeginEpoch(shuffled: seq<nat>)
      requires multiset(shuffled) == multiset(examples)
      modifies this
      ensures examples == shuffled && recomputeGap
      ensures status == old(status) && epoch == old(epoch) && records == old(records)
      ensures primal == old(primal) && dual == old(dual) && gap == old(gap)
      ensures primalLoss == old(primalLoss) && dualLoss == old(dualLoss) && regularizer == old(regularizer)
      ensures old(Valid()) ==> Valid()
    {
      recomputeGap := true;
      examples := shuffled;
    }

    /** The epochs after which the gap is computed. */
    predicate GapDue(e: nat)
    {
      criteria.evalEpoch > 0 && e % criteria.evalEpoch == 0
    }

    /**
     * `end_epoch`: the epoch count grows by one; the gap is computed on the
     * epochs `GapDue` names; then, if still running, the runtime limits
     * apply in priority order.
     */
    method EndEpoch(o: Objectives, clock: Clock)
      requires Valid()
      modifies this
      ensures epoch == old(epoch) + 1 && examples == old(examples)
      ensures |records| == |old(records)| + (if GapDue(epoch) then 1 else 0)
      ensures records[..|old(records)|] == old(records)
      ensures GapDue(epoch) ==> Reports(o) && records == old(records) + [LogEntry(o, epoch, clock)]
      ensures !GapDue(epoch) ==>
                recomputeGap == old(recomputeGap) && records == old(records)
                && primal == old(primal) && dual == old(dual) && gap == old(gap)
                && primalLoss == old(primalLoss) && dualLoss == old(dualLoss) && regularizer == old(regularizer)
      ensures var afterGap := if GapDue(epoch) then Verdict(o, old(status), old(dual)) else old(status);
              status == (if afterGap == Solving then LimitVerdict(criteria, epoch, clock.Cpu(), clock.Wall())
                         else afterGap)
      ensures Valid()
    {
      epoch := epoch + 1;
      if criteria.evalEpoch > 0 && epoch % criteria.evalEpoch == 0 {
        ComputeDualityGap(o, clock);
      }
      if status == Solving {
        if epoch >= criteria.maxEpoch {
          status := MaxEpoch;
        } else if criteria.maxCpuTime > 0.0 && clock.Cpu() >= criteria.maxCpuTime {
          status := MaxCpuTime;
        } else if criteria.maxWallTime > 0.0 && clock.Wall() >= criteria.maxWallTime {
          status := MaxWallTime;
        }
      }
    }

    /** `end_solve`: a final evaluation iff an epoch ran since the last one. */
    method EndSolve(o: Objectives, clock: Clock)
      modifies this
      ensures old(recomputeGap) ==>
                Reports(o) && status == Verdict(o, old(status), old(dual))
                && records == old(records) + [LogEntry(o, epoch, clock)]
      ensures !old(recomputeGap) ==> unchanged(this)
      ensures status == Solving ==> old(status) == Solving
      ensures epoch == old(epoch) && examples == old(examples)
      ensures old(Valid()) ==> Valid()
    {
      if recomputeGap {
        ComputeDualityGap(o, clock);
      }
    }

    /**
     * `solve`: epochs run while the status is `Solving`, each visiting
     * every example exactly once in a freshly shuffled order (`visits`
     * logs the orders); the loop stops after at most max_epoch epochs.
     * The shuffles, the evaluations and the clock readings are inputs,
     * indexed by the epoch.
     */
    method Solve(shuffles: nat -> seq<nat>, evaluation: nat -> Objectives, clock: nat -> Clock)
        returns (ghost visits: seq<seq<nat>>)
      requires forall e :: multiset(shuffles(e)) == multiset(Iota(numExamples))
      modifies this
      ensures status != Solving && epoch <= criteria.maxEpoch
      ensures |visits| == epoch
      ensures forall e :: 0 <= e < |visits| ==> multiset(visits[e]) == multiset(Iota(numExamples))
      ensures Valid()
    {
      Initialize();
      BeginSolve(evaluation(0), clock(0));
      visits := [];
      while status == Solving
        invariant Valid() && epoch <= criteria.maxEpoch && |visits| == epoch
        invariant forall e :: 0 <= e < |visits| ==> multiset(visits[e]) == multiset(Iota(numExamples))
        decreases criteria.maxEpoch - epoch
      {
        BeginEpoch(shuffles(epoch));
        visits := visits + [examples];
        EndEpoch(evaluation(epoch + 1), clock(epoch + 1));
      }
      EndSolve(evaluation(epoch), clock(epoch));
    }
  }
}
