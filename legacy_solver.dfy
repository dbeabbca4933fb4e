/**
 * The older solver driver (`solvers/solver`): a fixed number of epochs over
 * a shuffled order of the examples, with a duality-gap test every few
 * epochs. The derived solver's example step and objective computation are
 * abstract there; here the objectives each gap computation finds, the
 * shuffled orders and the clock readings are inputs.
 */
module LegacySolver {
  import opened Numeric
  import opened Labels

  datatype Status = Solving | Solved | DualObjectiveDecreased | MaxNumEpoch

  /** `get_status_name`. */
  function StatusName(s: Status): (r: string)
    ensures |r| > 0
  {
    match s
    case Solved => "Solved"
    case Solving => "Solving"
    case MaxNumEpoch => "MaxNumEpoch"
    case DualObjectiveDecreased => "DualObjectiveDecreased"
  }

  /** Every status has its own name. */
  lemma StatusNamesDistinct(a: Status, b: Status)
    ensures StatusName(a) == StatusName(b) <==> a == b
  {
  }

  /** The primal and dual objectives a gap computation finds. */
  datatype Objectives = Objectives(primal: XReal, dual: XReal)

  /**
   * `get_relative_gap`: 0 when both objectives are 0, the larger magnitude
   * itself when it is infinite, and (primal - dual) / max(|primal|, |dual|)
   * otherwise.
   */
  function RelativeGap(primal: XReal, dual: XReal): (r: XReal)
    ensures MaxX(primal.AbsX(), dual.AbsX()) == PosInf <==> r == PosInf
    ensures primal.IsFinite() && dual.IsFinite() && Max(Abs(primal.value), Abs(dual.value)) > 0.0 ==>
              r.IsFinite() && r.value * Max(Abs(primal.value), Abs(dual.value)) == primal.value - dual.value
    ensures primal == Fin(0.0) && dual == Fin(0.0) ==> r == Fin(0.0)
  {
    var m := MaxX(primal.AbsX(), dual.AbsX());
    match m
    case Fin(v) => if v > 0.0 then Fin((primal.value - dual.value) / v) else Fin(0.0)
    case _ => m
  }

  /**
   * On finite objectives that are not both 0 the relative-gap test is the
   * test primal - dual <= epsilon max(|primal|, |dual|).
   */
  lemma RelativeGapTest(primal: real, dual: real, epsilon: real)
    requires Max(Abs(primal), Abs(dual)) > 0.0
    ensures RelativeGap(Fin(primal), Fin(dual)).Leq(Fin(epsilon))
            <==> primal - dual <= Max(Abs(primal), Abs(dual)) * epsilon
  {
    var m := Max(Abs(primal), Abs(dual));
    var r := RelativeGap(Fin(primal), Fin(dual));
    ScaledTest(r.value, m, primal - dual, epsilon);
  }

  /** Comparing a ratio with epsilon is comparing the numerator with epsilon times the positive denominator. */
  lemma ScaledTest(ratio: real, m: real, g: real, epsilon: real)
    requires m > 0.0 && ratio * m == g
    ensures ratio <= epsilon <==> g <= m * epsilon
  {
    if ratio <= epsilon {
      assert ratio * m <= epsilon * m;
    } else {
      assert ratio * m > epsilon * m;
    }
  }

  /** The dual objective after the round-off allowance `after += eps after`. */
  function Bumped(dual: XReal, machineEps: real): XReal
  {
    match dual
    case Fin(d) => Fin(d + machineEps * d)
    case _ => dual
  }

  /** The dual objective fell below its previous value, beyond round-off. */
  predicate DualDecreased(after: XReal, before: XReal, machineEps: real)
  {
    !before.Leq(Bumped(after, machineEps))
  }

  /** A dual objective that did not go down never counts as decreased. */
  lemma NoDecreaseWhenIncreasing(after: real, before: real, machineEps: real)
    requires machineEps >= 0.0 && 0.0 <= before <= after
    ensures !DualDecreased(Fin(after), Fin(before), machineEps)
  {
    assert machineEps * after >= 0.0;
  }

  /** `check_gap_frequency` f > 0 asks for a gap test in epochs f - 1, 2f - 1, ... */
  predicate CheckNow(frequency: nat, epoch: nat)
  {
    frequency > 0 && epoch % frequency == frequency - 1
  }

  /** Adding whole multiples of f leaves the remainder modulo f. */
  lemma {:induction false} ModMultiple(k: nat, f: nat, r: nat)
    requires r < f
    ensures (k * f + r) % f == r
  {
    var n := k * f + r;
    var q, m := n / f, n % f;
    assert q * f + m == k * f + r;
    assert q <= k by {
      assert (k + 1) * f == k * f + f;
      if q > k {
        MulMono(k + 1, q, f);
      }
    }
    assert q >= k by {
      assert (q + 1) * f == q * f + f;
      if q < k {
        MulMono(q + 1, k, f);
      }
    }
  }

  lemma {:induction false} MulMono(a: int, b: int, f: nat)
    requires a <= b
    ensures a * f <= b * f
  {
  }

  /** Every f-th epoch is tested, starting from epoch f - 1. */
  lemma {:induction false} CheckNowEvery(frequency: nat, k: nat)
    requires frequency > 0
    ensures CheckNow(frequency, k * frequency + frequency - 1)
    ensures forall e :: k * frequency <= e < k * frequency + frequency - 1 ==> !CheckNow(frequency, e)
  {
    ModMultiple(k, frequency, frequency - 1);
    forall e | k * frequency <= e < k * frequency + frequency - 1
      ensures !CheckNow(frequency, e)
    {
      ModMultiple(k, frequency, e - k * frequency);
    }
  }

  const DefaultName: string := "Solver"
  const DefaultCheckGapFrequency: nat := 10
  const DefaultMaxNumEpoch: nat := 100
  const DefaultSeed: nat := 1
  const DefaultEpsilon: real := 0.01

  /**
   * The status `ComputeDualityGap` decides from status s, with d the
   * previous dual: Solved when the relative gap is within epsilon, else
   * DualObjectiveDecreased when the new dual, plus its round-off
   * allowance, is below d, else s.
   */
  function GapVerdict(o: Objectives, epsilon: real, machineEps: real, s: Status, d: XReal): Status
  {
    if RelativeGap(o.primal, o.dual).Leq(Fin(epsilon)) then Solved
    else if DualDecreased(o.dual, d, machineEps) then DualObjectiveDecreased
    else s
  }

  class Solver {
    const numExamples: nat
    const numTasks: nat
    const solverName: string
    /** The machine epsilon of the real type. */
    const machineEps: real

    var checkGapFrequency: nat
    var maxNumEpoch: nat
    var seed: nat
    var epsilon: real
    var primal: XReal
    var dual: XReal
    var status: Status
    var epoch: nat
    var cpuStart: real
    var cpuEnd: real
    var wallStart: real
    var wallEnd: real
    var recomputeGap: bool
    var examples: seq<nat>

    /** The visiting order is always an order of all examples. */
    ghost predicate Valid()
      reads this
    {
      multiset(examples) == multiset(Iota(numExamples))
    }

    /**
     * The constructor: the parameters not given take the defaults
     * (frequency 10, 100 epochs, seed 1, epsilon 0.01); the objectives
     * start at 0, the status at Solved and the epoch at 0.
     */
    constructor(numExamples: nat, numTasks: nat, machineEps: real, solverName: string := DefaultName,
                checkGapFrequency: nat := DefaultCheckGapFrequency, maxNumEpoch: nat := DefaultMaxNumEpoch,
                seed: nat := DefaultSeed, epsilon: real := DefaultEpsilon)
      ensures this.numExamples == numExamples && this.numTasks == numTasks && this.machineEps == machineEps
      ensures this.solverName == solverName && this.checkGapFrequency == checkGapFrequency
      ensures this.maxNumEpoch == maxNumEpoch && this.seed == seed && this.epsilon == epsilon
      ensures primal == Fin(0.0) && dual == Fin(0.0) && status == Solved && epoch == 0
      ensures cpuStart == 0.0 && cpuEnd == 0.0 && !recomputeGap
      ensures Valid()
    {
      this.numExamples := numExamples;
      this.numTasks := numTasks;
      this.machineEps := machineEps;
      this.solverName := solverName;
      this.checkGapFrequency := checkGapFrequency;
      this.maxNumEpoch := maxNumEpoch;
      this.seed := seed;
      this.epsilon := epsilon;
      primal, dual := Fin(0.0), Fin(0.0);
      status := Solved;
      epoch := 0;
      cpuStart, cpuEnd, wallStart, wallEnd := 0.0, 0.0, 0.0, 0.0;
      recomputeGap := false;
      examples := Iota(numExamples);
    }

    method SetCheckGapFrequency(f: nat)
      modifies this`checkGapFrequency
      ensures checkGapFrequency == f
    {
      checkGapFrequency := f;
    }

    method SetMaxNumEpoch(n: nat)
      modifies this`maxNumEpoch
      ensures maxNumEpoch == n
    {
      maxNumEpoch := n;
    }

    method SetSeed(s: nat)
      modifies this`seed
      ensures seed == s
    {
      seed := s;
    }

    method SetEpsilon(e: real)
      modifies this`epsilon
      ensures epsilon == e
    {
      epsilon := e;
    }

    /** `get_num_epoch`: the count of epochs, one more than the index of the last one. */
    function NumEpoch(): (r: nat)
      reads this
      ensures r > epoch
    {
      epoch + 1
    }

    /** `get_cpu_time` and `get_wall_time`: from the start of the solve to its end. */
    function CpuTime(): real
      reads this
    {
      cpuEnd - cpuStart
    }

    function WallTime(): real
      reads this
    {
      wallEnd - wallStart
    }

    /** `get_absolute_gap`: primal - dual; inf - inf has no value. */
    function AbsoluteGap(): (r: XReal)
      reads this
      requires !(primal == PosInf && dual == PosInf) && !(primal == NegInf && dual == NegInf)
      ensures primal.IsFinite() && dual.IsFinite() ==> r == Fin(primal.value - dual.value)
    {
      SubX(primal, dual)
    }

    /**
     * `ComputeDualityGap`: the objectives are recomputed; the status is
     * Solved when the relative gap is within epsilon, else
     * DualObjectiveDecreased when the new dual, plus its round-off
     * allowance, is below the previous one, else it stays.
     */
    method ComputeDualityGap(o: Objectives)
      modifies this`recomputeGap, this`primal, this`dual, this`status
      ensures !recomputeGap && primal == o.primal && dual == o.dual
      ensures status == GapVerdict(o, epsilon, machineEps, old(status), old(dual))
    {
      recomputeGap := false;
      var before := dual;
      primal, dual := o.primal, o.dual;
      if RelativeGap(primal, dual).Leq(Fin(epsilon)) {
        status := Solved;
      } else {
        var after := Bumped(dual, machineEps);
        if !before.Leq(after) {
          status := DualObjectiveDecreased;
        }
      }
    }

    /**
     * `BeginSolve`: the clocks start, the status becomes Solving, no gap
     * is pending, and the order is reset to 0, 1, ..., n - 1.
     */
    method BeginSolve(cpuNow: real, wallNow: real)
      modifies this`cpuStart, this`cpuEnd, this`wallStart, this`wallEnd, this`status,
               this`recomputeGap, this`examples
      ensures cpuStart == cpuEnd == cpuNow && wallStart == wallEnd == wallNow
      ensures status == Solving && !recomputeGap && examples == Iota(numExamples)
      ensures Valid()
    {
      cpuStart := cpuNow;
      wallStart := wallNow;
      cpuEnd := cpuStart;
      wallEnd := wallStart;
      status := Solving;
      recomputeGap := false;
      examples := Iota(numExamples);
    }

    /** `BeginEpoch`: a gap becomes pending and the order is shuffled (the shuffle is an input). */
    method BeginEpoch(shuffled: seq<nat>)
      requires multiset(shuffled) == multiset(examples)
      modifies this`recomputeGap, this`examples
      ensures recomputeGap && examples == shuffled
      ensures old(Valid()) ==> Valid()
    {
      recomputeGap := true;
      examples := shuffled;
    }

    /**
     * `EndEpoch`: the gap is computed when the frequency asks for it in
     * this epoch; the solve stops when the status is no longer Solving.
     */
    method EndEpoch(o: Objectives) returns (stop: bool)
      modifies this`recomputeGap, this`primal, this`dual, this`status
      ensures CheckNow(checkGapFrequency, epoch) ==>
                !recomputeGap && primal == o.primal && dual == o.dual
                && status == GapVerdict(o, epsilon, machineEps, old(status), old(dual))
      ensures !CheckNow(checkGapFrequency, epoch) ==> unchanged(this)
      ensures old(status) != Solving && !CheckNow(checkGapFrequency, epoch) ==> stop
      ensures stop <==> status != Solving
    {
      if CheckNow(checkGapFrequency, epoch) {
        ComputeDualityGap(o);
      }
      stop := status != Solving;
    }

    /**
     * `EndSolve`: a solve that ran out of epochs while still Solving ends
     * as MaxNumEpoch, with the epoch moved back to the last one executed;
     * a pending gap is computed; the clocks stop.
     */
    method EndSolve(o: Objectives, cpuNow: real, wallNow: real)
      modifies this`status, this`epoch, this`recomputeGap, this`primal, this`dual, this`cpuEnd, this`wallEnd
      ensures var ranOut := old(status) == Solving && old(epoch) >= maxNumEpoch;
              epoch == (if ranOut && old(epoch) > 0 then old(epoch) - 1 else old(epoch))
              && (!old(recomputeGap) ==> status == if ranOut then MaxNumEpoch else old(status))
      ensures old(recomputeGap) ==>
                primal == o.primal && dual == o.dual && !recomputeGap
                && status == GapVerdict(o, epsilon, machineEps,
                                        if old(status) == Solving && old(epoch) >= maxNumEpoch then MaxNumEpoch
                                        else old(status),
                                        old(dual))
      ensures old(status) != Solving || old(epoch) >= maxNumEpoch ==> status != Solving
      ensures cpuEnd == cpuNow && wallEnd == wallNow
    {
      if status == Solving && epoch >= maxNumEpoch {
        status := MaxNumEpoch;
        if epoch > 0 {
          epoch := epoch - 1;
        }
      }
      if recomputeGap {
        ComputeDualityGap(o);
      }
      cpuEnd := cpuNow;
      wallEnd := wallNow;
    }

    /**
     * `Solve`: at most maxNumEpoch epochs, each visiting every example once
     * in a freshly shuffled order (`visits` logs the orders); the loop
     * stops early after the first epoch whose EndEpoch says stop. At the
     * end the status is settled and, when an epoch ran, `epoch` is the
     * index of the last one, so NumEpoch() counts the epochs run.
     */
    method Solve(shuffles: nat -> seq<nat>, objectives: nat -> Objectives, final: Objectives,
                 cpu: (real, real), wall: (real, real))
        returns (ghost visits: seq<seq<nat>>)
      requires forall e :: multiset(shuffles(e)) == multiset(Iota(numExamples))
      modifies this
      ensures |visits| <= maxNumEpoch
      ensures |visits| > 0 ==> NumEpoch() == |visits|
      ensures forall e :: 0 <= e < |visits| ==> multiset(visits[e]) == multiset(Iota(numExamples))
      ensures status != Solving
      ensures Valid()
    {
      BeginSolve(cpu.0, wall.0);
      visits := [];
      var stop := false;
      epoch := 0;
      while epoch < maxNumEpoch
        invariant Valid() && |visits| == epoch <= maxNumEpoch && status == Solving
        invariant forall e :: 0 <= e < |visits| ==> multiset(visits[e]) == multiset(Iota(numExamples))
        decreases maxNumEpoch - epoch
      {
        BeginEpoch(shuffles(epoch));
        visits := visits + [examples];
        stop := EndEpoch(objectives(epoch));
        if stop {
          break;
        }
        epoch := epoch + 1;
      }
      EndSolve(final, cpu.1, wall.1);
    }
  }
}
