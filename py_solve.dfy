/**
 * The Python training entry point (`src/python/py_solve.h`): it builds the
 * solver context from the options, picks the objective, the summation and
 * the primal or dual solver by name, and copies the solver's results, its
 * progress records and its evaluations into flat buffers for the caller.
 */
module PySolve {
  import opened SolverDef
  import opened SolverControl
  import opened MultisetSolver
  import opened TopkObjectives
  import opened PyUtil

  /** The values of one progress record per row of the records buffer. */
  const RecordWidth: nat := 13

  /**
   * One record as a row: epoch, primal, dual, gap, primal loss, dual loss,
   * regularizer, wall time, CPU time, solve wall time, solve CPU time,
   * evaluation wall time, evaluation CPU time.
   */
  function RecordRow(r: Record): (row: seq<real>)
    ensures |row| == RecordWidth
  {
    [r.epoch as real, r.primal, r.dual, r.gap, r.primalLoss, r.dualLoss, r.regularizer,
     r.wallTime, r.cpuTime, r.solveWallTime, r.solveCpuTime, r.evalWallTime, r.evalCpuTime]
  }

  /** The record a row of the buffer holds. */
  function DecodeRecord(row: seq<real>): Record
    requires |row| == RecordWidth && row[0] >= 0.0
  {
    Record(row[1], row[2], row[3], row[4], row[5], row[6], row[0].Floor,
           row[8], row[7], row[10], row[9], row[12], row[11])
  }

  /** The records buffer: the rows of the records, one after the other. */
  function FlatRecords(rs: seq<Record>): (r: seq<real>)
    ensures |r| == RecordWidth * |rs|
  {
    if |rs| == 0 then [] else FlatRecords(rs[..|rs| - 1]) + RecordRow(rs[|rs| - 1])
  }

  /** Row i of the records buffer, at 13 i, is record i's row. */
  lemma {:induction false} RecordsRow(rs: seq<Record>, i: nat)
    requires i < |rs|
    ensures RecordWidth * i + RecordWidth <= |FlatRecords(rs)|
    ensures FlatRecords(rs)[RecordWidth * i..RecordWidth * i + RecordWidth] == RecordRow(rs[i])
  {
    var n := |rs| - 1;
    var prefix := FlatRecords(rs[..n]);
    assert FlatRecords(rs) == prefix + RecordRow(rs[n]);
    if i < n {
      RecordsRow(rs[..n], i);
      assert FlatRecords(rs)[RecordWidth * i..RecordWidth * i + RecordWidth]
          == prefix[RecordWidth * i..RecordWidth * i + RecordWidth];
    }
  }

  /**
   * Field f of record i sits at 13 i + f, and the row at 13 i reads back as
   * record i.
   */
  lemma {:induction false} RecordsReadBack(rs: seq<Record>, i: nat)
    requires i < |rs|
    ensures RecordWidth * i + RecordWidth <= |FlatRecords(rs)|
    ensures forall f :: 0 <= f < RecordWidth ==> FlatRecords(rs)[RecordWidth * i + f] == RecordRow(rs[i])[f]
    ensures FlatRecords(rs)[RecordWidth * i] == rs[i].epoch as real
    ensures DecodeRecord(FlatRecords(rs)[RecordWidth * i..RecordWidth * i + RecordWidth]) == rs[i]
  {
    RecordsRow(rs, i);
    var row := RecordRow(rs[i]);
    forall f | 0 <= f < RecordWidth
      ensures FlatRecords(rs)[RecordWidth * i + f] == row[f]
    {
      assert FlatRecords(rs)[RecordWidth * i..RecordWidth * i + RecordWidth][f] == row[f];
    }
    assert row[0].Floor == rs[i].epoch;
  }

  /** A dataset's evaluation as it is stored: the loss, then the accuracies. */
  function FlatPoint(p: TestPoint): (r: seq<real>)
    ensures |r| == 1 + |p.accuracy|
  {
    [p.loss] + p.accuracy
  }

  /** The evaluations of one dataset, one after the other. */
  function FlatPoints(ps: seq<TestPoint>): seq<real>
  {
    if |ps| == 0 then [] else FlatPoints(ps[..|ps| - 1]) + FlatPoint(ps[|ps| - 1])
  }

  /** The evaluations buffer: dataset by dataset, each with its evaluations in order. */
  function FlatEvals(es: seq<seq<TestPoint>>): seq<real>
  {
    if |es| == 0 then [] else FlatEvals(es[..|es| - 1]) + FlatPoints(es[|es| - 1])
  }

  /** Every evaluation has `numClasses` accuracies. */
  ghost predicate PointsFit(ps: seq<TestPoint>, numClasses: nat)
  {
    forall e :: 0 <= e < |ps| ==> |ps[e].accuracy| == numClasses
  }

  /**
   * The shape the evaluations buffer is sized for: at least one dataset,
   * every dataset with as many evaluations as the first, every evaluation
   * with `numClasses` accuracies.
   */
  ghost predicate EvalsFit(es: seq<seq<TestPoint>>, numClasses: nat)
  {
    |es| > 0
    && (forall d :: 0 <= d < |es| ==> |es[d]| == |es[0]|)
    && (forall d :: 0 <= d < |es| ==> PointsFit(es[d], numClasses))
  }

  lemma {:induction false} FlatPointsLength(ps: seq<TestPoint>, numClasses: nat)
    requires PointsFit(ps, numClasses)
    ensures |FlatPoints(ps)| == |ps| * (1 + numClasses)
  {
    if |ps| > 0 {
      var n := |ps| - 1;
      FlatPointsLength(ps[..n], numClasses);
      MulStep(|ps|, 1 + numClasses);
    }
  }

  /** d w is (d - 1) w plus w. */
  lemma {:induction false} MulStep(d: nat, w: nat)
    requires d > 0
    ensures d * w == (d - 1) * w + w
  {
  }

  /** The product of three, grouped from the right. */
  lemma {:induction false} MulAssoc(a: nat, b: nat, c: nat)
    ensures a * b * c == a * (b * c)
  {
  }

  /** A product grows with its first factor. */
  lemma {:induction false} MulMono(d: nat, n: nat, w: nat)
    requires d <= n
    ensures d * w <= n * w
  {
    assert n * w == d * w + (n - d) * w;
  }

  /**
   * The buffer of |es| datasets, each with |es[0]| evaluations of
   * 1 + numClasses values, holds |es| |es[0]| (1 + numClasses) values: the
   * size it is allocated with.
   */
  lemma {:induction false} FlatEvalsLength(es: seq<seq<TestPoint>>, numClasses: nat)
    requires EvalsFit(es, numClasses)
    ensures |FlatEvals(es)| == |es| * |es[0]| * (1 + numClasses)
  {
    FlatEvalsPrefix(es, |es|, numClasses);
    assert es[..|es|] == es;
    MulAssoc(|es|, |es[0]|, 1 + numClasses);
  }

  lemma {:induction false} FlatEvalsPrefix(es: seq<seq<TestPoint>>, d: nat, numClasses: nat)
    requires EvalsFit(es, numClasses) && d <= |es|
    ensures |FlatEvals(es[..d])| == d * (|es[0]| * (1 + numClasses))
  {
    if d > 0 {
      var w := |es[0]| * (1 + numClasses);
      FlatEvalsPrefix(es, d - 1, numClasses);
      assert es[..d][..d - 1] == es[..d - 1];
      assert FlatEvals(es[..d]) == FlatEvals(es[..d - 1]) + FlatPoints(es[d - 1]);
      FlatPointsLength(es[d - 1], numClasses);
      MulStep(d, w);
    }
  }

  /**
   * Evaluation e of a dataset whose evaluations all have numClasses
   * accuracies starts at e (1 + numClasses): its loss there, its
   * accuracies after it.
   */
  lemma {:induction false} FlatPointsReadBack(ps: seq<TestPoint>, e: nat, numClasses: nat)
    requires PointsFit(ps, numClasses) && e < |ps|
    ensures e * (1 + numClasses) + 1 + numClasses <= |FlatPoints(ps)|
    ensures FlatPoints(ps)[e * (1 + numClasses)..e * (1 + numClasses) + 1 + numClasses] == FlatPoint(ps[e])
    decreases |ps|, 1
  {
    if e < |ps| - 1 {
      ReadBackEarlier(ps, e, numClasses);
    } else {
      ReadBackLast(ps, numClasses);
    }
  }

  lemma {:induction false} ReadBackEarlier(ps: seq<TestPoint>, e: nat, numClasses: nat)
    requires PointsFit(ps, numClasses) && e < |ps| - 1
    ensures e * (1 + numClasses) + 1 + numClasses <= |FlatPoints(ps)|
    ensures FlatPoints(ps)[e * (1 + numClasses)..e * (1 + numClasses) + 1 + numClasses] == FlatPoint(ps[e])
    decreases |ps|, 0
  {
    var n := |ps| - 1;
    var w := 1 + numClasses;
    var prefix := FlatPoints(ps[..n]);
    assert FlatPoints(ps) == prefix + FlatPoint(ps[n]);
    FlatPointsReadBack(ps[..n], e, numClasses);
    SlicePrefix(prefix, FlatPoint(ps[n]), e * w, e * w + w);
  }

  lemma {:induction false} ReadBackLast(ps: seq<TestPoint>, numClasses: nat)
    requires PointsFit(ps, numClasses) && |ps| > 0
    ensures (|ps| - 1) * (1 + numClasses) + 1 + numClasses <= |FlatPoints(ps)|
    ensures FlatPoints(ps)[(|ps| - 1) * (1 + numClasses)..(|ps| - 1) * (1 + numClasses) + 1 + numClasses]
            == FlatPoint(ps[|ps| - 1])
  {
    var n := |ps| - 1;
    var prefix := FlatPoints(ps[..n]);
    assert FlatPoints(ps) == prefix + FlatPoint(ps[n]);
    FlatPointsLength(ps[..n], numClasses);
    SliceSuffix(prefix, FlatPoint(ps[n]));
  }

  /** A slice within the first part of a concatenation. */
  lemma {:induction false} SlicePrefix(x: seq<real>, y: seq<real>, i: nat, j: nat)
    requires i <= j <= |x|
    ensures (x + y)[i..j] == x[i..j]
  {
  }

  /** The second part of a concatenation, sliced out of it. */
  lemma {:induction false} SliceSuffix(x: seq<real>, y: seq<real>)
    ensures (x + y)[|x|..|x| + |y|] == y
  {
  }

  /** What a finished solver reports: status name, objectives, gaps, last epoch and timings. */
  datatype SolverReport = SolverReport(
    status: string,
    primal: real,
    dual: real,
    absoluteGap: real,
    relativeGap: real,
    epoch: nat,
    wallTime: real,
    cpuTime: real,
    solveWallTime: real,
    solveCpuTime: real,
    evalWallTime: real,
    evalCpuTime: real)

  /** The results the bindings copy out of a finished solver. */
  datatype SolveOutcome = SolveOutcome(
    report: SolverReport,
    records: seq<Record>,
    evaluations: seq<seq<TestPoint>>)

  /** `modelInfo`: what the binding hands back to Python. */
  class ModelInfo {
    var numExamples: nat
    var numDimensions: nat
    var numClasses: nat
    var k: nat
    /** The caller's buffers for the dual and the primal variables. */
    const a: array<real>
    const w: array<real>
    var numRecords: nat
    var records: array<real>
    var numDatasetEvals: nat
    var numEvals: nat
    var evals: array<real>
    var c: real
    var logLevel: string
    var logFormat: string
    var precision: string
    var summation: string
    var objective: string
    /** The stopping criteria in force: check_on_start, check_epoch, max_epoch, the time limits, epsilon. */
    var criteria: StoppingCriteria
    /** The solver's status, objectives, gaps, epoch and timings. */
    var report: SolverReport

    constructor(a: array<real>, w: array<real>)
      ensures this.a == a && this.w == w && numClasses == 0 && numRecords == 0 && numDatasetEvals == 0
    {
      this.a := a;
      this.w := w;
      numExamples, numDimensions, numClasses, k := 0, 0, 0, 0;
      numRecords, numDatasetEvals, numEvals := 0, 0, 0;
      records := new real[0];
      evals := new real[0];
      c := 0.0;
      logLevel, logFormat, precision, summation, objective := "", "", "", "", "";
      criteria := StoppingCriteria(0, 0, 0.0, 0.0, 0.0, false);
      report := SolverReport("", 0.0, 0.0, 0.0, 0.0, 0, 0.0, 0.0, 0.0, 0.0, 0.0, 0.0);
    }

    /**
     * `add_records`: nothing is written unless records are asked for;
     * otherwise a fresh buffer holds the records row by row.
     */
    method AddRecords(rs: seq<Record>, opts: SolveOpts)
      modifies this`numRecords, this`records
      ensures opts.returnRecords ==> numRecords == |rs| && fresh(records) && records[..] == FlatRecords(rs)
      ensures !opts.returnRecords ==> numRecords == old(numRecords) && records == old(records)
    {
      if opts.returnRecords {
        numRecords := |rs|;
        var buffer := new real[RecordWidth * numRecords];
        var i := 0;
        while i < |rs|
          modifies buffer
          invariant i <= |rs|
          invariant buffer[..RecordWidth * i] == FlatRecords(rs[..i])
        {
          WriteRecord(buffer, i, rs[i]);
          assert rs[..i + 1][..i] == rs[..i];
          i := i + 1;
        }
        assert rs[..i] == rs;
        assert buffer[..] == buffer[..RecordWidth * i];
        records := buffer;
      }
    }

    /**
     * `add_evaluations`: nothing is written unless evaluations are asked
     * for; otherwise a fresh buffer, sized for the first dataset's count of
     * evaluations with 1 + numClasses values each, holds them dataset by
     * dataset.
     */
    method AddEvaluations(es: seq<seq<TestPoint>>, opts: SolveOpts)
      requires opts.returnEvals ==> EvalsFit(es, numClasses)
      modifies this`numDatasetEvals, this`numEvals, this`evals
      ensures opts.returnEvals ==>
                numDatasetEvals == |es| && numEvals == |es[0]| && fresh(evals)
                && evals.Length == numDatasetEvals * numEvals * (1 + numClasses)
                && evals[..] == FlatEvals(es)
      ensures !opts.returnEvals ==>
                numDatasetEvals == old(numDatasetEvals) && numEvals == old(numEvals) && evals == old(evals)
    {
      if opts.returnEvals {
        numDatasetEvals := |es|;
        numEvals := |es[0]|;
        evals := FillEvals(es, numClasses);
      }
    }

    /**
     * `solve_objective_add_info`: the solver's status, objectives, gaps,
     * epoch and timings are copied, then its records and evaluations.
     */
    method AddInfo(o: SolveOutcome, opts: SolveOpts)
      requires opts.returnEvals ==> EvalsFit(o.evaluations, numClasses)
      modifies this`report, this`numRecords, this`records, this`numDatasetEvals, this`numEvals, this`evals
      ensures report == o.report
      ensures opts.returnRecords ==> numRecords == |o.records| && fresh(records) && records[..] == FlatRecords(o.records)
      ensures !opts.returnRecords ==> numRecords == old(numRecords) && records == old(records)
      ensures opts.returnEvals ==>
                numDatasetEvals == |o.evaluations| && numEvals == |o.evaluations[0]| && fresh(evals)
                && evals[..] == FlatEvals(o.evaluations)
      ensures !opts.returnEvals ==>
                numDatasetEvals == old(numDatasetEvals) && numEvals == old(numEvals) && evals == old(evals)
    {
      report := o.report;
      AddRecords(o.records, opts);
      AddEvaluations(o.evaluations, opts);
    }

    /**
     * The training set's shape (its dimensions only for the primal solver),
     * the objective's name and C, as `py_main` reports them before choosing
     * the objective.
     */
    method ReportShape(train: DatasetShape, isDual: bool, opts: SolveOpts)
      modifies this`numDimensions, this`numExamples, this`numClasses, this`objective, this`c
      ensures numDimensions == if isDual then old(numDimensions) else train.numDimensions
      ensures numExamples == train.numExamples && numClasses == train.numClasses
      ensures objective == opts.objective && c == opts.c
    {
      if !isDual {
        numDimensions := train.numDimensions;
      }
      numExamples := train.numExamples;
      numClasses := train.numClasses;
      objective := opts.objective;
      c := opts.c;
    }

    /** The criteria in force, the logging settings, the summation's name and the precision, reported after the solve. */
    method ReportSettings(criteria: StoppingCriteria, level: LogLevel, format: LogFormat, sum: Summation)
      modifies this`criteria, this`logLevel, this`logFormat, this`summation, this`precision
      ensures this.criteria == criteria && logLevel == LevelName(level) && logFormat == FormatName(format)
      ensures summation == SummationName(sum) && precision == "double"
    {
      this.criteria := criteria;
      logLevel := LevelName(level);
      logFormat := FormatName(format);
      summation := SummationName(sum);
      precision := "double";
    }
  }

  /** The first d datasets' evaluations fit in the buffer of all of them. */
  lemma {:induction false} FlatEvalsPrefixFits(es: seq<seq<TestPoint>>, d: nat, numClasses: nat)
    requires EvalsFit(es, numClasses) && 0 < d <= |es|
    ensures |FlatEvals(es[..d])| <= |es| * |es[0]| * (1 + numClasses)
    ensures FlatEvals(es[..d]) == FlatEvals(es[..d - 1]) + FlatPoints(es[d - 1])
  {
    var w := |es[0]| * (1 + numClasses);
    FlatEvalsPrefix(es, d, numClasses);
    assert es[..d][..d - 1] == es[..d - 1];
    MulMono(d, |es|, w);
    MulAssoc(|es|, |es[0]|, 1 + numClasses);
  }

  /** One row of the records buffer, written field by field: field f at 13 i + f. */
  method WriteRecord(buffer: array<real>, i: nat, r: Record)
    requires RecordWidth * i + RecordWidth <= buffer.Length
    modifies buffer
    ensures buffer[..RecordWidth * i + RecordWidth] == old(buffer[..RecordWidth * i]) + RecordRow(r)
  {
    var base := RecordWidth * i;
    var row := RecordRow(r);
    var f := 0;
    while f < RecordWidth
      invariant f <= RecordWidth
      invariant buffer[..base + f] == old(buffer[..base]) + row[..f]
    {
      buffer[base + f] := row[f];
      assert row[..f + 1] == row[..f] + [row[f]];
      f := f + 1;
    }
    assert row[..f] == row;
  }

  /** A new buffer holding the evaluations of every dataset, one after the other. */
  method FillEvals(es: seq<seq<TestPoint>>, numClasses: nat) returns (buffer: array<real>)
    requires EvalsFit(es, numClasses)
    ensures fresh(buffer) && buffer.Length == |es| * |es[0]| * (1 + numClasses)
    ensures buffer[..] == FlatEvals(es)
  {
    buffer := new real[|es| * |es[0]| * (1 + numClasses)];
    FlatEvalsLength(es, numClasses);
    var i := 0;
    var d := 0;
    while d < |es|
      invariant d <= |es| && i == |FlatEvals(es[..d])| <= buffer.Length
      invariant buffer[..i] == FlatEvals(es[..d])
    {
      assert es[..d + 1][..d] == es[..d];
      FlatEvalsPrefixFits(es, d + 1, numClasses);
      i := WritePoints(buffer, i, es[d]);
      d := d + 1;
    }
    assert es[..d] == es;
    assert buffer[..] == buffer[..i];
  }

  method WritePoints(buffer: array<real>, i: nat, ps: seq<TestPoint>) returns (next: nat)
    requires i + |FlatPoints(ps)| <= buffer.Length
    modifies buffer
    ensures next == i + |FlatPoints(ps)|
    ensures buffer[..next] == old(buffer[..i]) + FlatPoints(ps)
  {
    next := i;
    var e := 0;
    while e < |ps|
      invariant e <= |ps| && next == i + |FlatPoints(ps[..e])| <= buffer.Length
      invariant buffer[..next] == old(buffer[..i]) + FlatPoints(ps[..e])
    {
      assert ps[..e + 1][..e] == ps[..e];
      FlatPointsGrow(ps, e + 1, i, buffer.Length);
      next := WritePoint(buffer, next, ps[e]);
      e := e + 1;
    }
    assert ps[..e] == ps;
  }

  /** The written part only grows with each evaluation, up to the whole dataset's. */
  lemma {:induction false} FlatPointsGrow(ps: seq<TestPoint>, e: nat, i: nat, length: nat)
    requires 0 < e <= |ps| && i + |FlatPoints(ps)| <= length
    ensures FlatPoints(ps[..e]) == FlatPoints(ps[..e - 1]) + FlatPoint(ps[e - 1])
    ensures i + |FlatPoints(ps[..e])| <= length
  {
    assert ps[..e][..e - 1] == ps[..e - 1];
    FlatPointsPrefixShorter(ps, e);
  }

  lemma {:induction false} FlatPointsPrefixShorter(ps: seq<TestPoint>, e: nat)
    requires e <= |ps|
    ensures |FlatPoints(ps[..e])| <= |FlatPoints(ps)|
    decreases |ps|
  {
    if e < |ps| {
      var n := |ps| - 1;
      assert ps[..n][..e] == ps[..e];
      FlatPointsPrefixShorter(ps[..n], e);
    } else {
      assert ps[..e] == ps;
    }
  }

  /** One evaluation, written from index i: its loss, then its accuracies. */
  method WritePoint(buffer: array<real>, i: nat, p: TestPoint) returns (next: nat)
    requires i + 1 + |p.accuracy| <= buffer.Length
    modifies buffer
    ensures next == i + 1 + |p.accuracy|
    ensures buffer[..next] == old(buffer[..i]) + FlatPoint(p)
  {
    buffer[i] := p.loss;
    next := i + 1;
    var j := 0;
    while j < |p.accuracy|
      invariant j <= |p.accuracy| && next == i + 1 + j
      invariant buffer[..next] == old(buffer[..i]) + [p.loss] + p.accuracy[..j]
    {
      buffer[next] := p.accuracy[j];
      assert p.accuracy[..j + 1] == p.accuracy[..j] + [p.accuracy[j]];
      next := next + 1;
      j := j + 1;
    }
    assert p.accuracy[..j] == p.accuracy;
  }

  /** `std_sum` and `kahan_sum`; over the reals both add exactly. */
  datatype Summation = StdSum | KahanSum

  function SummationName(s: Summation): string
  {
    match s
    case StdSum => "standard"
    case KahanSum => "kahan"
  }

  /** The `summation` option: "standard" and "default" select std_sum, "kahan" kahan_sum, anything else throws. */
  function SelectSummation(name: string): (r: Checked<Summation>)
    ensures r.Accepted? <==> name in {"standard", "default", "kahan"}
    ensures r.Accepted? ==> (r.value == KahanSum <==> name == "kahan")
  {
    if name == "standard" || name == "default" then Accepted(StdSum)
    else if name == "kahan" then Accepted(KahanSum)
    else Rejected("Invalid value passed to py_solve in opts.summation.")
  }

  /** Each summation is selected by the name it reports. */
  lemma SummationNameSelects(s: Summation)
    ensures SelectSummation(SummationName(s)) == Accepted(s)
  {
  }

  /** The names of the top-k hinge objective `l2_topk_hinge`; "msvm" and "multi_svm" are its k-free aliases. */
  predicate TopkHingeName(name: string)
  {
    name in {"msvm", "multi_svm", "l2_topk_hinge", "topk_hinge_beta"}
  }

  /** The names of the hinge-of-top-k objective `l2_hinge_topk`. */
  predicate HingeTopkName(name: string)
  {
    name in {"l2_hinge_topk", "topk_hinge_alpha", "topk_svm"}
  }

  /**
   * The `objective` option: the seven names select one of the two
   * objectives with the options' k and C; anything else throws.
   */
  function SelectObjective(name: string, k: nat, c: real): (r: Checked<TopkObjective>)
    ensures r.Accepted? <==> TopkHingeName(name) || HingeTopkName(name)
    ensures r.Accepted? ==> r.value.c == c && r.value.k == k
    ensures r.Accepted? ==> (r.value.TopkHinge? <==> TopkHingeName(name))
    ensures r.Accepted? ==> (r.value.HingeTopk? <==> HingeTopkName(name))
  {
    if name == "msvm" || name == "multi_svm" then Accepted(TopkHinge(c, k))
    else if name == "l2_hinge_topk" || name == "topk_hinge_alpha" || name == "topk_svm" then Accepted(HingeTopk(c, k))
    else if name == "l2_topk_hinge" || name == "topk_hinge_beta" then Accepted(TopkHinge(c, k))
    else Rejected("Invalid value passed to py_solve in opts.objective.")
  }

  /** `info.k` is filled in for every accepted objective name except the two multiclass SVM aliases. */
  predicate RecordsK(name: string)
  {
    name in {"l2_hinge_topk", "topk_hinge_alpha", "topk_svm", "l2_topk_hinge", "topk_hinge_beta"}
  }

  /** The two solvers `make_solver_solve` chooses between. */
  datatype SolverKind = Primal | Dual

  /** `make_solver_solve`: the dual solver exactly when the context asks for it. */
  function KindOf(isDual: bool): (r: SolverKind)
    ensures r == Dual <==> isDual
  {
    if isDual then Dual else Primal
  }

  /** The variables' buffers a context binds: always the dual ones, the primal ones only for the primal solver. */
  method SetVariables(context: Context, info: ModelInfo)
    modifies context`dualVariables, context`primalVariables
    ensures context.dualVariables == info.a
    ensures context.primalVariables == if context.isDual then old(context.primalVariables) else info.w
  {
    context.dualVariables := info.a;
    if !context.isDual {
      context.primalVariables := info.w;
    }
  }

  /** The context `py_main` builds: the solver kind, the datasets in order, the stopping options. */
  method BuildContext(given: seq<DatasetShape>, opts: SolveOpts) returns (context: Context)
    ensures fresh(context)
    ensures context.isDual == opts.isDual && context.datasets == given
    ensures context.criteria.evalOnStart == opts.checkOnStart && context.criteria.evalEpoch == opts.checkEpoch
    ensures context.criteria.maxEpoch == opts.maxEpoch && context.criteria.epsilon == opts.epsilon
    ensures context.criteria.maxCpuTime == opts.maxCpuTime && context.criteria.maxWallTime == opts.maxWallTime
  {
    context := new Context();
    context.isDual := opts.isDual;
    context.SetDatasets(given);
    context.SetStoppingCriteria(opts);
  }

  /**
   * The rest of `py_main` once the objective is chosen and the solver has
   * run: k is reported for the named top-k objectives, the solver's results
   * are copied out, then the settings in force are reported.
   */
  method ReportOutcome(context: Context, info: ModelInfo, opts: SolveOpts, logging: Logging,
                       o: SolveOutcome, sum: Summation)
    requires opts.returnEvals ==> EvalsFit(o.evaluations, info.numClasses)
    modifies info`k, info`report, info`numRecords, info`records, info`numDatasetEvals, info`numEvals, info`evals
    modifies info`criteria, info`logLevel, info`logFormat, info`summation, info`precision
    ensures info.k == if RecordsK(opts.objective) then opts.k else old(info.k)
    ensures info.report == o.report
    ensures opts.returnRecords ==> info.records[..] == FlatRecords(o.records)
    ensures opts.returnEvals ==> info.evals[..] == FlatEvals(o.evaluations)
    ensures info.criteria == context.criteria
    ensures info.logLevel == LevelName(logging.level) && info.logFormat == FormatName(logging.format)
    ensures info.summation == SummationName(sum) && info.precision == "double"
  {
    if RecordsK(opts.objective) {
      info.k := opts.k;
    }
    info.AddInfo(o, opts);
    info.ReportSettings(context.criteria, logging.level, logging.format, sum);
  }

  /**
   * `py_main` with its summation chosen. The context is built from the
   * options and the datasets, the training set's shape is reported, and the
   * objective is chosen by name (an unknown name throws, after the shape,
   * the objective name and C have been written). The chosen solver runs
   * (the parameter `run` stands for the chosen solver's whole solve); the
   * dual solver exactly when `is_dual` is set. Its results, the criteria in
   * force, the logging settings, the summation and the precision are then
   * reported.
   */
  method PyMainWith(given: seq<DatasetShape>, info: ModelInfo, opts: SolveOpts, logging: Logging,
                    run: (SolverKind, TopkObjective) -> SolveOutcome, sum: Summation)
      returns (r: Checked<()>)
    requires |given| > 0
    requires opts.returnEvals && SelectObjective(opts.objective, opts.k, opts.c).Accepted? ==>
               EvalsFit(run(KindOf(opts.isDual), SelectObjective(opts.objective, opts.k, opts.c).value).evaluations,
                        given[0].numClasses)
    modifies info
    ensures info.numDimensions == if opts.isDual then old(info.numDimensions) else given[0].numDimensions
    ensures info.numExamples == given[0].numExamples && info.numClasses == given[0].numClasses
    ensures info.objective == opts.objective && info.c == opts.c
    ensures r.Accepted? <==> SelectObjective(opts.objective, opts.k, opts.c).Accepted?
    ensures r.Accepted? ==>
              var o := run(KindOf(opts.isDual), SelectObjective(opts.objective, opts.k, opts.c).value);
              info.report == o.report
              && (opts.returnRecords ==> info.records[..] == FlatRecords(o.records))
              && (opts.returnEvals ==> info.evals[..] == FlatEvals(o.evaluations))
    ensures r.Accepted? ==> info.k == if RecordsK(opts.objective) then opts.k else old(info.k)
    ensures r.Accepted? ==>
              info.criteria.evalOnStart == opts.checkOnStart && info.criteria.evalEpoch == opts.checkEpoch
              && info.criteria.maxEpoch == opts.maxEpoch && info.criteria.maxCpuTime == opts.maxCpuTime
              && info.criteria.maxWallTime == opts.maxWallTime && info.criteria.epsilon == opts.epsilon
    ensures r.Accepted? ==>
              info.logLevel == LevelName(logging.level) && info.logFormat == FormatName(logging.format)
              && info.summation == SummationName(sum) && info.precision == "double"
  {
    var context := BuildContext(given, opts);
    var train := context.datasets[0];
    SetVariables(context, info);
    info.ReportShape(train, context.isDual, opts);
    var objective := SelectObjective(opts.objective, opts.k, opts.c);
    if objective.Rejected? {
      return Rejected(objective.message);
    }
    ReportOutcome(context, info, opts, logging, run(KindOf(context.isDual), objective.value), sum);
    r := Accepted(());
  }

  /**
   * `py_main`: the summation is chosen by name first; an unknown name
   * throws before anything is written.
   */
  method PyMain(given: seq<DatasetShape>, info: ModelInfo, opts: SolveOpts, logging: Logging,
                run: (SolverKind, TopkObjective) -> SolveOutcome)
      returns (r: Checked<()>)
    requires |given| > 0
    requires opts.returnEvals && SelectObjective(opts.objective, opts.k, opts.c).Accepted? ==>
               EvalsFit(run(KindOf(opts.isDual), SelectObjective(opts.objective, opts.k, opts.c).value).evaluations,
                        given[0].numClasses)
    modifies info
    ensures SelectSummation(opts.summation).Rejected? ==> r.Rejected? && unchanged(info)
    ensures r.Accepted? <==>
              SelectSummation(opts.summation).Accepted? && SelectObjective(opts.objective, opts.k, opts.c).Accepted?
    ensures r.Accepted? ==>
              info.summation == SummationName(SelectSummation(opts.summation).value)
              && info.report == run(KindOf(opts.isDual),
                                    SelectObjective(opts.objective, opts.k, opts.c).value).report
  {
    var sum := SelectSummation(opts.summation);
    if sum.Rejected? {
      return Rejected(sum.message);
    }
    r := PyMainWith(given, info, opts, logging, run, sum.value);
  }
}
