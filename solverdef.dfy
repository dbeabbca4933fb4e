/**
 * The solver's status values and its stopping criteria.
 */
module SolverDef {

  /** `solver_status`. */
  datatype SolverStatus =
    | NoStatus
    | Solving
    | Solved
    | NoProgress
    | MaxEpoch
    | MaxCpuTime
    | MaxWallTime
    | Failed

  /** `solver_status_name`: the name every status is reported under. */
  function StatusName(s: SolverStatus): (r: string)
    ensures |r| > 0
  {
    match s
    case NoStatus => "none"
    case Solving => "solving"
    case Solved => "solved"
    case NoProgress => "no_progress"
    case MaxEpoch => "max_epoch"
    case MaxCpuTime => "max_cpu_time"
    case MaxWallTime => "max_wall_time"
    case Failed => "failed"
  }

  /** Distinct statuses are reported under distinct names. */
  lemma StatusNamesDistinct(s: SolverStatus, t: SolverStatus)
    ensures StatusName(s) == StatusName(t) ==> s == t
  {
  }

  /**
   * `stopping_criteria`: how often to evaluate, the epoch and time limits
   * (a time limit of 0 is no limit) and the relative gap to reach.
   */
  datatype StoppingCriteria = StoppingCriteria(
    evalEpoch: nat,
    maxEpoch: nat,
    epsilon: real,
    maxCpuTime: real,
    maxWallTime: real,
    evalOnStart: bool)

  /** The defaults: every 10 epochs, at most 1000 epochs, epsilon 1e-3, no time limits. */
  const DefaultCriteria := StoppingCriteria(10, 1000, 0.001, 0.0, 0.0, false)

  /**
   * The runtime limits in priority order: the epoch limit, then the CPU
   * time, then the wall time (a time limit of 0 is no limit).
   */
  function LimitVerdict(criteria: StoppingCriteria, epoch: nat, cpuNow: real, wallNow: real): (r: SolverStatus)
    ensures r in {Solving, MaxEpoch, MaxCpuTime, MaxWallTime}
    ensures r == MaxEpoch <==> epoch >= criteria.maxEpoch
    ensures r == MaxCpuTime <==> epoch < criteria.maxEpoch && 0.0 < criteria.maxCpuTime <= cpuNow
    ensures r == MaxWallTime <==> epoch < criteria.maxEpoch && !(0.0 < criteria.maxCpuTime <= cpuNow)
                                  && 0.0 < criteria.maxWallTime <= wallNow
  {
    if epoch >= criteria.maxEpoch then MaxEpoch
    else if criteria.maxCpuTime > 0.0 && cpuNow >= criteria.maxCpuTime then MaxCpuTime
    else if criteria.maxWallTime > 0.0 && wallNow >= criteria.maxWallTime then MaxWallTime
    else Solving
  }
}
