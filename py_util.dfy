/**
 * The option records the Python bindings receive, the logging options they
 * parse, and the solver context they fill in (`src/python/py_util.h`).
 */
module PyUtil {
  import opened SolverDef

  /** A value, or the message of the `runtime_error` the binding throws instead. */
  datatype Checked<T> = Accepted(value: T) | Rejected(message: string)

  /** `proxOpts`: the shape of the buffer and the projection's parameters, with their defaults. */
  datatype ProxOpts = ProxOpts(
    m: nat,
    n: nat,
    k: nat := 1,
    summation: string := "standard",
    prox: string := "knapsack",
    lo: real := 0.0,
    hi: real := 1.0,
    rhs: real := 0.0,
    rho: real := 0.0)

  /** Options that are not given take the defaults: k 1, standard summation, the knapsack onto [0, 1] summing to 0. */
  lemma {:induction false} ProxOptsDefaults(m: nat, n: nat)
    ensures var o := ProxOpts(m, n);
            o.m == m && o.n == n && o.k == 1 && o.summation == "standard" && o.prox == "knapsack"
            && o.lo == 0.0 && o.hi == 1.0 && o.rhs == 0.0 && o.rho == 0.0
  {
  }

  /** `solveOpts`: the training options, with their defaults. */
  datatype SolveOpts = SolveOpts(
    k: nat := 1,
    c: real := 1.0,
    isDual: bool := false,
    logLevel: string := "info",
    logFormat: string := "short_f",
    precision: string := "double",
    summation: string := "default",
    objective: string := "topk_svm",
    checkOnStart: bool := false,
    checkEpoch: nat := 10,
    maxEpoch: nat := 1000,
    maxCpuTime: real := 0.0,
    maxWallTime: real := 0.0,
    epsilon: real := 0.001,
    returnRecords: bool := false,
    returnEvals: bool := false)

  /**
   * The defaults: k 1, C 1, the primal solver, "info" logging in "short_f"
   * format, the top-k SVM, a gap check every 10 epochs up to 1000 epochs,
   * epsilon 1e-3, no time limits, and neither records nor evaluations returned.
   */
  lemma SolveOptsDefaults()
    ensures var o := SolveOpts();
            o.k == 1 && o.c == 1.0 && !o.isDual && o.logLevel == "info" && o.logFormat == "short_f"
            && o.precision == "double" && o.summation == "default" && o.objective == "topk_svm"
            && !o.checkOnStart && o.checkEpoch == 10 && o.maxEpoch == 1000
            && o.maxCpuTime == 0.0 && o.maxWallTime == 0.0 && o.epsilon == 0.001
            && !o.returnRecords && !o.returnEvals
  {
  }

  /** `logging::level` and its names. */
  datatype LogLevel = NoLogging | Info | Verbose | Debug

  function LevelName(l: LogLevel): string
  {
    match l
    case NoLogging => "none"
    case Info => "info"
    case Verbose => "verbose"
    case Debug => "debug"
  }

  /** `logging::format` and its names. */
  datatype LogFormat = ShortF | ShortE | LongF | LongE

  function FormatName(f: LogFormat): string
  {
    match f
    case ShortF => "short_f"
    case ShortE => "short_e"
    case LongF => "long_f"
    case LongE => "long_e"
  }

  /** The level a `log_level` string selects: exactly the four level names are accepted. */
  function ParseLevel(s: string): (r: Checked<LogLevel>)
    ensures r.Accepted? <==> s in {"none", "info", "verbose", "debug"}
    ensures r.Accepted? ==> LevelName(r.value) == s
  {
    if s == "none" then Accepted(NoLogging)
    else if s == "info" then Accepted(Info)
    else if s == "verbose" then Accepted(Verbose)
    else if s == "debug" then Accepted(Debug)
    else Rejected("invalid value passed to logging_options in opts.log_level")
  }

  /** The format a `log_format` string selects: exactly the four format names are accepted. */
  function ParseFormat(s: string): (r: Checked<LogFormat>)
    ensures r.Accepted? <==> s in {"short_f", "short_e", "long_f", "long_e"}
    ensures r.Accepted? ==> FormatName(r.value) == s
  {
    if s == "short_f" then Accepted(ShortF)
    else if s == "short_e" then Accepted(ShortE)
    else if s == "long_f" then Accepted(LongF)
    else if s == "long_e" then Accepted(LongE)
    else Rejected("Invalid value passed to logging_options in opts.log_format")
  }

  /** Every level is selected by its own name, and every format by its own. */
  lemma ParseNames(l: LogLevel, f: LogFormat)
    ensures ParseLevel(LevelName(l)) == Accepted(l)
    ensures ParseFormat(FormatName(f)) == Accepted(f)
  {
  }

  /** The library's global logging state. */
  class Logging {
    var level: LogLevel
    var format: LogFormat

    constructor(level: LogLevel, format: LogFormat)
      ensures this.level == level && this.format == format
    {
      this.level := level;
      this.format := format;
    }

    /**
     * `set_logging_options`: the level is parsed and set first, then the
     * format; an invalid level throws before the format is looked at, and an
     * invalid format throws after the level has already been set.
     */
    method SetLoggingOptions(opts: SolveOpts) returns (r: Checked<()>)
      modifies this
      ensures r.Accepted? <==> ParseLevel(opts.logLevel).Accepted? && ParseFormat(opts.logFormat).Accepted?
      ensures ParseLevel(opts.logLevel).Rejected? ==> level == old(level) && format == old(format)
      ensures ParseLevel(opts.logLevel).Accepted? ==> level == ParseLevel(opts.logLevel).value
      ensures format == if r.Accepted? then ParseFormat(opts.logFormat).value else old(format)
    {
      var l := ParseLevel(opts.logLevel);
      if l.Rejected? {
        return Rejected(l.message);
      }
      level := l.value;
      var f := ParseFormat(opts.logFormat);
      if f.Rejected? {
        return Rejected(f.message);
      }
      format := f.value;
      r := Accepted(());
    }
  }

  /** What the bindings read of a dataset: its dimensions, examples and classes. */
  datatype DatasetShape = DatasetShape(numDimensions: nat, numExamples: nat, numClasses: nat)

  /**
   * `solver_context`: the solver kind, the stopping criteria, the datasets
   * (the training set first) and the caller's buffers for the variables
   * (`null` until bound).
   */
  class Context {
    var isDual: bool
    var criteria: StoppingCriteria
    var datasets: seq<DatasetShape>
    var primalVariables: array?<real>
    var dualVariables: array?<real>

    /**
     * A fresh context: primal, no datasets, no buffers, and the criteria's
     * own defaults (a check every epoch, 1000 epochs, epsilon 1e-3).
     */
    constructor()
      ensures !isDual && datasets == [] && primalVariables == null && dualVariables == null
      ensures criteria == StoppingCriteria(1, 1000, 0.001, 0.0, 0.0, false)
    {
      isDual := false;
      criteria := StoppingCriteria(1, 1000, 0.001, 0.0, 0.0, false);
      datasets := [];
      primalVariables := null;
      dualVariables := null;
    }

    /** `set_datasets`: every given dataset is appended, in order. */
    method SetDatasets(given: seq<DatasetShape>)
      modifies this`datasets
      ensures datasets == old(datasets) + given
    {
      var i := 0;
      while i < |given|
        invariant i <= |given|
        invariant datasets == old(datasets) + given[..i]
      {
        datasets := datasets + [given[i]];
        assert given[..i + 1] == given[..i] + [given[i]];
        i := i + 1;
      }
      assert given[..i] == given;
    }

    /** `set_stopping_criteria`: the six stopping options are copied unchanged. */
    method SetStoppingCriteria(opts: SolveOpts)
      modifies this`criteria
      ensures criteria.evalOnStart == opts.checkOnStart && criteria.evalEpoch == opts.checkEpoch
      ensures criteria.maxEpoch == opts.maxEpoch && criteria.epsilon == opts.epsilon
      ensures criteria.maxCpuTime == opts.maxCpuTime && criteria.maxWallTime == opts.maxWallTime
    {
      criteria := criteria.(evalOnStart := opts.checkOnStart, evalEpoch := opts.checkEpoch,
                            maxEpoch := opts.maxEpoch, maxCpuTime := opts.maxCpuTime,
                            maxWallTime := opts.maxWallTime, epsilon := opts.epsilon);
    }
  }
}
