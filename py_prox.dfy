/**
 * The Python projection entry points (`src/python/py_prox.h`): a buffer of
 * n consecutive columns of m entries is projected column by column onto the
 * set the `prox` option names, either into a copy or in place.
 */
module PyProx {
  import opened Numeric
  import opened ProxDef
  import opened KnapsackEq
  import opened KnapsackLe
  import opened KnapsackLeBiased
  import opened TopkSimplex
  import opened TopkSimplexBiased
  import opened TopkCone
  import opened TopkConeBiased
  import opened PyUtil
  import PySolve

  /** The seven projections the binding offers. */
  datatype ProxKind =
    | KnapsackEqProx
    | KnapsackLeProx
    | KnapsackLeBiasedProx
    | TopkSimplexProx
    | TopkSimplexBiasedProx
    | TopkConeProx
    | TopkConeBiasedProx

  /**
   * The `prox` option: "knapsack" and "knapsack_eq" both name the equality
   * knapsack, the six other names their own projection; anything else throws.
   */
  function SelectProx(name: string): (r: Checked<ProxKind>)
    ensures r.Accepted? <==> name in {"knapsack", "knapsack_eq", "knapsack_le", "knapsack_le_biased",
                                      "topk_simplex", "topk_simplex_biased", "topk_cone", "topk_cone_biased"}
    ensures r.Accepted? ==> (r.value == KnapsackEqProx <==> name in {"knapsack", "knapsack_eq"})
  {
    if name == "knapsack" || name == "knapsack_eq" then Accepted(KnapsackEqProx)
    else if name == "knapsack_le" then Accepted(KnapsackLeProx)
    else if name == "knapsack_le_biased" then Accepted(KnapsackLeBiasedProx)
    else if name == "topk_simplex" then Accepted(TopkSimplexProx)
    else if name == "topk_simplex_biased" then Accepted(TopkSimplexBiasedProx)
    else if name == "topk_cone" then Accepted(TopkConeProx)
    else if name == "topk_cone_biased" then Accepted(TopkConeBiasedProx)
    else Rejected("invalid value passed to py_prox in opts.prox")
  }

  /** The name each projection is reported under. */
  function ProxName(kind: ProxKind): string
  {
    match kind
    case KnapsackEqProx => "knapsack_eq"
    case KnapsackLeProx => "knapsack_le"
    case KnapsackLeBiasedProx => "knapsack_le_biased"
    case TopkSimplexProx => "topk_simplex"
    case TopkSimplexBiasedProx => "topk_simplex_biased"
    case TopkConeProx => "topk_cone"
    case TopkConeBiasedProx => "topk_cone_biased"
  }

  /** Each projection is selected by its name, so the seven are told apart. */
  lemma ProxNameSelects(kind: ProxKind)
    ensures SelectProx(ProxName(kind)) == Accepted(kind)
  {
  }

  /**
   * What the projections ask of their parameters: the top-k sets need
   * 1 <= k <= m, the biased ones a non-negative rho.
   */
  predicate KindFits(kind: ProxKind, opts: ProxOpts)
  {
    match kind
    case KnapsackEqProx => true
    case KnapsackLeProx => true
    case KnapsackLeBiasedProx => opts.rho >= 0.0
    case TopkSimplexProx => 1 <= opts.k <= opts.m
    case TopkSimplexBiasedProx => 1 <= opts.k <= opts.m && opts.rho >= 0.0
    case TopkConeProx => 1 <= opts.k <= opts.m
    case TopkConeBiasedProx => 1 <= opts.k <= opts.m && opts.rho >= 0.0
  }

  /** The options fit the projection they name (an empty buffer or an unknown name asks nothing). */
  predicate OptsFit(opts: ProxOpts)
  {
    opts.m == 0 || SelectProx(opts.prox).Rejected? || KindFits(SelectProx(opts.prox).value, opts)
  }

  /** Every entry lies in [lo, hi]. */
  ghost predicate InBox(x: seq<real>, lo: real, hi: real)
  {
    forall i :: 0 <= i < |x| ==> lo <= x[i] <= hi
  }

  /** Every entry equals c. */
  ghost predicate AllAt(x: seq<real>, c: real)
  {
    forall i :: 0 <= i < |x| ==> x[i] == c
  }

  /**
   * One column after its projection: clamped with its thresholds, and
   * meeting what the named projection promises of its result, with the
   * library's tolerances (eps = machine_eps max(1, |rhs|), and m times the
   * cone tolerance for the top-k sets):
   * - knapsack_eq: entries in [lo, hi], the sum at rhs within eps unless
   *   every entry sits at one bound;
   * - knapsack_le: entries in [lo, hi], the sum at most rhs + eps unless
   *   everything is at lo, t = 0 and the clamped sum when that fits, and
   *   the sum at rhs within eps (or everything at one bound) when it does not;
   * - knapsack_le_biased: bounds lo and hi (or all zeros), the sum within
   *   the biased budget unless everything is at lo or zero;
   * - the top-k sets: 0 <= x_i <= sum / k within the tolerance, exactly when
   *   machine_eps = 0; the simplices also the budget sum <= rhs, unless the
   *   cone search decided.
   */
  ghost predicate ColumnProxed(kind: ProxKind, opts: ProxOpts, machineEps: real,
                               before: seq<real>, after: seq<real>, th: Thresholds)
  {
    machineEps >= 0.0 && after == ProxSeq(before, th)
    && match kind
       case KnapsackEqProx => EqProxed(opts, KnapsackEps(machineEps, opts.rhs), after, th)
       case KnapsackLeProx => LeProxed(opts, KnapsackEps(machineEps, opts.rhs), before, after, th)
       case KnapsackLeBiasedProx => LeBiasedProxed(opts, KnapsackEps(machineEps, opts.rhs), after, th)
       case TopkSimplexProx =>
         SimplexProxed(opts, machineEps, after, th)
         && (0.0 <= opts.rhs ==>
               Sum(after) <= opts.rhs + KnapsackEps(machineEps, opts.rhs) + Times(|after|, ConeEps(machineEps))
               || ConeSearchedOn(before, opts.k, ConeEps(machineEps), th))
       case TopkSimplexBiasedProx =>
         SimplexProxed(opts, machineEps, after, th)
         && (0.0 <= opts.rhs ==>
               Sum(after) <= opts.rhs + KnapsackEps(machineEps, opts.rhs) + Times(|after|, ConeEps(machineEps))
               || BiasedConeSearchedOn(before, opts.k, opts.rho, ConeEps(machineEps), th))
       case TopkConeProx => ConeProxed(opts, machineEps, after, th)
       case TopkConeBiasedProx => ConeProxed(opts, machineEps, after, th)
  }

  /** knapsack_eq: the box, and the sum at rhs within eps unless every entry sits at one bound. */
  ghost predicate EqProxed(opts: ProxOpts, eps: real, after: seq<real>, th: Thresholds)
  {
    th.lo == opts.lo && th.hi == opts.hi
    && (opts.lo <= opts.hi ==>
          InBox(after, opts.lo, opts.hi)
          && (Abs(Sum(after) - opts.rhs) <= eps
              || (AllAt(after, opts.hi) && Sum(after) < opts.rhs)
              || (AllAt(after, opts.lo) && Sum(after) > opts.rhs)))
  }

  /**
   * knapsack_le: the box, the budget unless everything is at lo, the clamped
   * sum with t = 0 when that fits, and the sum at rhs (or everything at one
   * bound) when it does not.
   */
  ghost predicate LeProxed(opts: ProxOpts, eps: real, before: seq<real>, after: seq<real>, th: Thresholds)
  {
    opts.lo <= opts.hi ==>
      InBox(after, opts.lo, opts.hi)
      && (Sum(after) <= opts.rhs + eps || AllAt(after, opts.lo))
      && (ClampedSum(before, opts.lo, opts.hi) <= opts.rhs + eps
          ==> th.t == 0.0 && Sum(after) == ClampedSum(before, opts.lo, opts.hi))
      && (ClampedSum(before, opts.lo, opts.hi) > opts.rhs + eps
          ==> Abs(Sum(after) - opts.rhs) <= eps || AllAt(after, opts.hi) || AllAt(after, opts.lo))
  }

  /** knapsack_le_biased: bounds lo and hi (or all zeros), the budget with the biased slack. */
  ghost predicate LeBiasedProxed(opts: ProxOpts, eps: real, after: seq<real>, th: Thresholds)
  {
    opts.rho >= 0.0
    && ((th.lo == opts.lo && th.hi == opts.hi) || th == ZeroThresholds)
    && (opts.lo <= opts.hi ==>
          Sum(after) <= opts.rhs + BiasedSlack(eps, opts.rho, |after|)
          || AllAt(after, opts.lo) || th == ZeroThresholds)
  }

  /** The top-k simplices: in the top-k cone within eps plus m cone tolerances. */
  ghost predicate SimplexProxed(opts: ProxOpts, machineEps: real, after: seq<real>, th: Thresholds)
  {
    machineEps >= 0.0 && th.lo == 0.0
    && InTopkConeWithin(after, opts.k, KnapsackEps(machineEps, opts.rhs) + Times(|after|, ConeEps(machineEps)))
    && (machineEps == 0.0 ==> InTopkCone(after, opts.k))
  }

  /** The top-k cones: in the cone within m cone tolerances, exactly when machine_eps = 0. */
  ghost predicate ConeProxed(opts: ProxOpts, machineEps: real, after: seq<real>, th: Thresholds)
  {
    machineEps >= 0.0 && th.lo == 0.0
    && InTopkConeWithin(after, opts.k, Times(|after|, ConeEps(machineEps)))
    && (machineEps == 0.0 ==> InTopkCone(after, opts.k))
  }

  /** Consecutive columns of m entries, each projected with its own thresholds. */
  ghost predicate ColumnsProxed(kind: ProxKind, opts: ProxOpts, machineEps: real,
                                before: seq<real>, after: seq<real>, ths: seq<Thresholds>)
    decreases |ths|
  {
    if |ths| == 0 then before == [] && after == []
    else
      opts.m <= |before| && opts.m <= |after|
      && ColumnProxed(kind, opts, machineEps, before[..opts.m], after[..opts.m], ths[0])
      && ColumnsProxed(kind, opts, machineEps, before[opts.m..], after[opts.m..], ths[1..])
  }

  /** One more projected column extends the projected columns. */
  lemma {:induction false} ColumnsProxedSnoc(kind: ProxKind, opts: ProxOpts, machineEps: real,
                                             before: seq<real>, after: seq<real>, ths: seq<Thresholds>,
                                             column: seq<real>, projected: seq<real>, th: Thresholds)
    requires ColumnsProxed(kind, opts, machineEps, before, after, ths)
    requires |column| == |projected| == opts.m
    requires ColumnProxed(kind, opts, machineEps, column, projected, th)
    ensures ColumnsProxed(kind, opts, machineEps, before + column, after + projected, ths + [th])
    decreases |ths|
  {
    var m := opts.m;
    if |ths| == 0 {
      assert before + column == column && after + projected == projected;
      assert column[..m] == column && projected[..m] == projected;
      assert (ths + [th])[1..] == [];
    } else {
      ColumnsProxedSnoc(kind, opts, machineEps, before[m..], after[m..], ths[1..], column, projected, th);
      assert (before + column)[..m] == before[..m] && (after + projected)[..m] == after[..m];
      assert (before + column)[m..] == before[m..] + column;
      assert (after + projected)[m..] == after[m..] + projected;
      assert (ths + [th])[1..] == ths[1..] + [th];
    }
  }

  /** Column j of the buffer, entries j m to j m + m - 1, is projected with the j-th thresholds. */
  lemma {:induction false} ColumnsProxedAt(kind: ProxKind, opts: ProxOpts, machineEps: real,
                                           before: seq<real>, after: seq<real>, ths: seq<Thresholds>, j: nat)
    requires ColumnsProxed(kind, opts, machineEps, before, after, ths) && j < |ths|
    ensures j * opts.m + opts.m <= |before| && j * opts.m + opts.m <= |after|
    ensures ColumnProxed(kind, opts, machineEps, before[j * opts.m..j * opts.m + opts.m],
                         after[j * opts.m..j * opts.m + opts.m], ths[j])
    decreases j
  {
    var m := opts.m;
    if j > 0 {
      var lo := (j - 1) * m;
      ColumnsProxedAt(kind, opts, machineEps, before[m..], after[m..], ths[1..], j - 1);
      PySolve.MulStep(j, m);
      assert j * m == lo + m;
      SliceOfDrop(before, m, lo + m, lo + m + m);
      SliceOfDrop(after, m, lo + m, lo + m + m);
    }
  }

  /** The projection `kind` of one buffer, through the library's routine for it. */
  method ProxByKind(column: array<real>, opts: ProxOpts, kind: ProxKind, machineEps: real)
      returns (th: Thresholds)
    requires column.Length == opts.m > 0 && KindFits(kind, opts) && machineEps >= 0.0
    modifies column
    ensures ColumnProxed(kind, opts, machineEps, old(column[..]), column[..], th)
  {
    match kind
    case KnapsackEqProx =>
      th := ProxKnapsackEq(column, opts.lo, opts.hi, opts.rhs, machineEps);
      assert EqProxed(opts, KnapsackEps(machineEps, opts.rhs), column[..], th);
    case KnapsackLeProx =>
      th := ProxKnapsackLe(column, opts.lo, opts.hi, opts.rhs, machineEps);
      assert LeProxed(opts, KnapsackEps(machineEps, opts.rhs), old(column[..]), column[..], th);
    case KnapsackLeBiasedProx =>
      ghost var sorted;
      th, sorted := ProxKnapsackLeBiased(column, opts.lo, opts.hi, opts.rhs, opts.rho, machineEps);
      assert LeBiasedProxed(opts, KnapsackEps(machineEps, opts.rhs), column[..], th);
    case TopkSimplexProx =>
      th := ProxTopkSimplex(column, opts.k, opts.rhs, machineEps);
    case TopkSimplexBiasedProx =>
      th := ProxTopkSimplexBiased(column, opts.k, opts.rhs, opts.rho, machineEps);
    case TopkConeProx =>
      th := ProxTopkCone(column, opts.k, machineEps);
    case TopkConeBiasedProx =>
      th := ProxTopkConeBiased(column, opts.k, opts.rho, machineEps);
  }

  /** Copies `column` back into x from index `first` on. */
  method WriteBack(column: array<real>, x: array<real>, first: nat)
    requires first + column.Length <= x.Length && column != x
    modifies x
    ensures x[..first] == old(x[..first]) && x[first + column.Length..] == old(x[first + column.Length..])
    ensures x[first..first + column.Length] == column[..]
  {
    var i := 0;
    while i < column.Length
      invariant i <= column.Length
      invariant x[..first] == old(x[..first]) && x[first + column.Length..] == old(x[first + column.Length..])
      invariant x[first..first + i] == column[..i]
    {
      x[first + i] := column[i];
      i := i + 1;
    }
  }

  /** The column at `first` is projected through the scratch vector of length m. */
  method ProxColumn(x: array<real>, first: nat, opts: ProxOpts, kind: ProxKind, machineEps: real)
      returns (ghost th: Thresholds)
    requires 0 < opts.m && first + opts.m <= x.Length && KindFits(kind, opts) && machineEps >= 0.0
    modifies x
    ensures x[..first] == old(x[..first]) && x[first + opts.m..] == old(x[first + opts.m..])
    ensures ColumnProxed(kind, opts, machineEps, old(x[first..first + opts.m]), x[first..first + opts.m], th)
  {
    var column := new real[opts.m];
    CopyInto(x, first, first + opts.m, column);
    assert column[..] == column[..opts.m];
    th := ProxByKind(column, opts, kind, machineEps);
    WriteBack(column, x, first);
  }

  /** The size of `columns` columns of m entries, counted one column at a time. */
  function ColumnsSize(columns: nat, m: nat): (r: nat)
    ensures columns > 0 ==> r >= m
  {
    if columns == 0 then 0 else ColumnsSize(columns - 1, m) + m
  }

  lemma {:induction false} ColumnsSizeIsProduct(columns: nat, m: nat)
    ensures ColumnsSize(columns, m) == columns * m
  {
    if columns > 0 {
      ColumnsSizeIsProduct(columns - 1, m);
      PySolve.MulStep(columns, m);
    }
  }

  /** The loop step of the column sweep: the column at `first` joins the projected prefix. */
  lemma {:induction false} ColumnsProxedStep(kind: ProxKind, opts: ProxOpts, machineEps: real,
                          orig: seq<real>, pre: seq<real>, post: seq<real>,
                          ths: seq<Thresholds>, th: Thresholds, first: nat)
    requires |orig| == |pre| == |post| && first + opts.m <= |orig|
    requires ColumnsProxed(kind, opts, machineEps, orig[..first], pre[..first], ths)
    requires pre[first..] == orig[first..]
    requires post[..first] == pre[..first] && post[first + opts.m..] == pre[first + opts.m..]
    requires ColumnProxed(kind, opts, machineEps, pre[first..first + opts.m], post[first..first + opts.m], th)
    ensures post[first + opts.m..] == orig[first + opts.m..]
    ensures ColumnsProxed(kind, opts, machineEps, orig[..first + opts.m], post[..first + opts.m], ths + [th])
  {
    var m := opts.m;
    assert orig[..first + m] == orig[..first] + orig[first..first + m];
    assert post[..first + m] == post[..first] + post[first..first + m];
    assert pre[first..first + m] == orig[first..first + m] by {
      assert pre[first..][..m] == pre[first..first + m];
      assert orig[first..][..m] == orig[first..first + m];
    }
    assert post[first + m..] == orig[first + m..] by {
      assert pre[first..][m..] == pre[first + m..];
      assert orig[first..][m..] == orig[first + m..];
    }
    ColumnsProxedSnoc(kind, opts, machineEps, orig[..first], post[..first], ths,
                      orig[first..first + m], post[first..first + m], th);
  }

  /** The n columns of m entries, each projected in turn. */
  method ProxColumns(x: array<real>, opts: ProxOpts, kind: ProxKind, machineEps: real)
      returns (ghost ths: seq<Thresholds>)
    requires 0 < opts.m && x.Length == opts.m * opts.n && KindFits(kind, opts) && machineEps >= 0.0
    modifies x
    ensures |ths| == opts.n
    ensures ColumnsProxed(kind, opts, machineEps, old(x[..]), x[..], ths)
  {
    ghost var orig := x[..];
    ColumnsSizeIsProduct(opts.n, opts.m);
    ths := [];
    var first: nat := 0;
    var j := 0;
    while j < opts.n
      invariant j <= opts.n && first <= x.Length && |ths| == j
      invariant first + ColumnsSize(opts.n - j, opts.m) == x.Length
      invariant x[first..] == orig[first..]
      invariant ColumnsProxed(kind, opts, machineEps, orig[..first], x[..first], ths)
    {
      ghost var pre := x[..];
      ghost var th := ProxColumn(x, first, opts, kind, machineEps);
      ColumnsProxedStep(kind, opts, machineEps, orig, pre, x[..], ths, th, first);
      ths := ths + [th];
      first := first + opts.m;
      j := j + 1;
    }
    assert orig[..first] == orig && x[..first] == x[..];
  }

  /**
   * `py_main`: the projection is chosen by name (an unknown name throws and
   * leaves the buffer alone) and applied to every column; with m = 0 there
   * is nothing to project.
   */
  method PyProxMain(x: array<real>, opts: ProxOpts, machineEps: real)
      returns (r: Checked<()>, ghost ths: seq<Thresholds>)
    requires x.Length == opts.m * opts.n && OptsFit(opts) && machineEps >= 0.0
    modifies x
    ensures r.Accepted? <==> SelectProx(opts.prox).Accepted?
    ensures r.Rejected? || opts.m == 0 ==> x[..] == old(x[..])
    ensures r.Accepted? && opts.m > 0 ==>
              |ths| == opts.n && ColumnsProxed(SelectProx(opts.prox).value, opts, machineEps, old(x[..]), x[..], ths)
  {
    ths := [];
    var kind := SelectProx(opts.prox);
    if kind.Rejected? {
      r := Rejected(kind.message);
      return;
    }
    if opts.m > 0 {
      ths := ProxColumns(x, opts, kind.value, machineEps);
    }
    r := Accepted(());
  }

  /**
   * `py_prox(A, X, opts)`: the m n entries of A are copied into X, the
   * summation is chosen by name, and X is projected; A is left as it was.
   * The copy happens first, so X holds A's entries even when a name is
   * rejected.
   */
  method PyProxCopy(a: array<real>, x: array<real>, opts: ProxOpts, machineEps: real)
      returns (r: Checked<()>, ghost ths: seq<Thresholds>)
    requires a.Length == x.Length == opts.m * opts.n && a != x
    requires OptsFit(opts) && machineEps >= 0.0
    modifies x
    ensures r.Accepted? <==> PySolve.SelectSummation(opts.summation).Accepted? && SelectProx(opts.prox).Accepted?
    ensures r.Rejected? || opts.m == 0 ==> x[..] == a[..]
    ensures r.Accepted? && opts.m > 0 ==>
              |ths| == opts.n && ColumnsProxed(SelectProx(opts.prox).value, opts, machineEps, a[..], x[..], ths)
  {
    CopyInto(a, 0, a.Length, x);
    assert x[..] == x[..a.Length];
    ghost var copied := x[..];
    ths := [];
    var sum := PySolve.SelectSummation(opts.summation);
    if sum.Rejected? {
      r := Rejected(sum.message);
      return;
    }
    r, ths := PyProxMain(x, opts, machineEps);
    assert copied == a[..];
  }

  /** `py_prox_inplace(A, opts)`: as `py_prox`, with the result written over A itself. */
  method PyProxInplace(a: array<real>, opts: ProxOpts, machineEps: real)
      returns (r: Checked<()>, ghost ths: seq<Thresholds>)
    requires a.Length == opts.m * opts.n && OptsFit(opts) && machineEps >= 0.0
    modifies a
    ensures r.Accepted? <==> PySolve.SelectSummation(opts.summation).Accepted? && SelectProx(opts.prox).Accepted?
    ensures r.Rejected? || opts.m == 0 ==> a[..] == old(a[..])
    ensures r.Accepted? && opts.m > 0 ==>
              |ths| == opts.n && ColumnsProxed(SelectProx(opts.prox).value, opts, machineEps, old(a[..]), a[..], ths)
  {
    ths := [];
    var sum := PySolve.SelectSummation(opts.summation);
    if sum.Rejected? {
      r := Rejected(sum.message);
      return;
    }
    r, ths := PyProxMain(a, opts, machineEps);
  }
}
