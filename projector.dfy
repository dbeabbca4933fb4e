/**
 * The older `Projector` class: a subclass computes a threshold t and bounds
 * lo, hi (possibly infinite) from a private copy of the vector, and `Clamp`
 * rewrites every entry x of the caller's range as min(max(lo, x - t), hi),
 * with shortcuts for an empty range of bounds and for infinite bounds.
 */
module Projector {
  import opened Numeric
  import opened ProxDef

  /** What `ComputeThresholds` returns: t and the bounds lo, hi. */
  datatype Bounds = Bounds(t: real, lo: XReal, hi: XReal)

  /**
   * hi <= lo fills the range with lo, which a real entry can hold only when
   * lo is finite.
   */
  predicate Fillable(b: Bounds)
  {
    b.hi.Leq(b.lo) ==> b.lo.Fin?
  }

  /** The bounds a `ComputeThresholds` can hand to `Clamp`. */
  type ClampBounds = b: Bounds | Fillable(b) witness Bounds(0.0, NegInf, PosInf)

  /** The smaller of two extended reals. */
  function MinX(x: XReal, y: XReal): (r: XReal)
    ensures r.Leq(x) && r.Leq(y)
    ensures r == x || r == y
  {
    if x.Leq(y) then x else y
  }

  /** The clamp min(max(lo, x - t), hi) over the extended reals. */
  function XClamp(x: real, b: Bounds): XReal
  {
    MinX(MaxX(b.lo, Fin(x - b.t)), b.hi)
  }

  /** The value `Clamp` writes for the entry x: its four branches. */
  function ClampValue(x: real, b: ClampBounds): real
  {
    if b.hi.Leq(b.lo) then b.lo.value
    else if b.hi == PosInf then (if b.lo.Fin? then Max(b.lo.value, x - b.t) else x - b.t)
    else if b.lo == NegInf then Min(x - b.t, b.hi.value)
    else Min(Max(b.lo.value, x - b.t), b.hi.value)
  }

  /**
   * hi <= lo gives lo; otherwise the shortcuts for an infinite hi or lo agree
   * with the general clamp over the extended reals, so the value lies in
   * [lo, hi].
   */
  lemma ClampValueSpec(x: real, b: ClampBounds)
    ensures b.hi.Leq(b.lo) ==> ClampValue(x, b) == b.lo.value
    ensures !b.hi.Leq(b.lo) ==> Fin(ClampValue(x, b)) == XClamp(x, b)
    ensures !b.hi.Leq(b.lo) ==> b.lo.Leq(Fin(ClampValue(x, b))) && Fin(ClampValue(x, b)).Leq(b.hi)
  {
  }

  /**
   * With finite bounds the projector's clamp min(max(lo, x - t), hi) is the
   * threshold library's max(lo, min(x - t, hi)), including lo >= hi where both
   * give lo.
   */
  lemma ClampValueProx(x: real, th: Thresholds)
    ensures Fillable(Bounds(th.t, Fin(th.lo), Fin(th.hi)))
    ensures ClampValue(x, Bounds(th.t, Fin(th.lo), Fin(th.hi))) == Clamp(x, th)
  {
  }

  /** Every entry of s clamped with the same bounds. */
  function ClampSeq(s: seq<real>, b: ClampBounds): (r: seq<real>)
    ensures |r| == |s|
  {
    seq(|s|, i requires 0 <= i < |s| => ClampValue(s[i], b))
  }

  /**
   * `Clamp(first, last, t, lo, hi)`: fills with lo when hi <= lo, else one
   * pass per case, and writes nothing outside [first, last).
   */
  method ClampRange(a: array<real>, first: nat, last: nat, b: ClampBounds)
    requires first <= last <= a.Length
    modifies a
    ensures forall i :: first <= i < last ==> a[i] == ClampValue(old(a[i]), b)
    ensures forall i :: 0 <= i < a.Length && !(first <= i < last) ==> a[i] == old(a[i])
  {
    var i := first;
    if b.hi.Leq(b.lo) {
      while i < last
        invariant first <= i <= last
        invariant forall j :: first <= j < i ==> a[j] == ClampValue(old(a[j]), b)
        invariant forall j :: 0 <= j < a.Length && !(first <= j < i) ==> a[j] == old(a[j])
      {
        a[i] := b.lo.value;
        i := i + 1;
      }
    } else if b.hi == PosInf {
      while i < last
        invariant first <= i <= last
        invariant forall j :: first <= j < i ==> a[j] == ClampValue(old(a[j]), b)
        invariant forall j :: 0 <= j < a.Length && !(first <= j < i) ==> a[j] == old(a[j])
      {
        a[i] := if b.lo.Fin? then Max(b.lo.value, a[i] - b.t) else a[i] - b.t;
        i := i + 1;
      }
    } else if b.lo == NegInf {
      while i < last
        invariant first <= i <= last
        invariant forall j :: first <= j < i ==> a[j] == ClampValue(old(a[j]), b)
        invariant forall j :: 0 <= j < a.Length && !(first <= j < i) ==> a[j] == old(a[j])
      {
        a[i] := Min(a[i] - b.t, b.hi.value);
        i := i + 1;
      }
    } else {
      while i < last
        invariant first <= i <= last
        invariant forall j :: first <= j < i ==> a[j] == ClampValue(old(a[j]), b)
        invariant forall j :: 0 <= j < a.Length && !(first <= j < i) ==> a[j] == old(a[j])
      {
        a[i] := Min(Max(b.lo.value, a[i] - b.t), b.hi.value);
        i := i + 1;
      }
    }
  }

  /** Clamping a range in place, read as sequences. */
  lemma {:induction false} ClampRangeSeq(pre: seq<real>, post: seq<real>, first: nat, last: nat, b: ClampBounds)
    requires first <= last <= |pre| == |post|
    requires forall i :: first <= i < last ==> post[i] == ClampValue(pre[i], b)
    requires forall i :: 0 <= i < |pre| && !(first <= i < last) ==> post[i] == pre[i]
    ensures post[first..last] == ClampSeq(pre[first..last], b)
    ensures post[..first] == pre[..first] && post[last..] == pre[last..]
  {
    assert forall i :: 0 <= i < last - first ==> post[first..last][i] == post[first + i];
  }

  /**
   * `Project(first, last)`: the thresholds come from a private copy of the
   * range, so the caller's entries are only clamped, never reordered.
   */
  method Project(a: array<real>, first: nat, last: nat, compute: seq<real> -> ClampBounds)
    requires first <= last <= a.Length
    modifies a
    ensures a[first..last] == ClampSeq(old(a[first..last]), compute(old(a[first..last])))
    ensures a[..first] == old(a[..first]) && a[last..] == old(a[last..])
  {
    ghost var pre := a[..];
    var aux := a[first..last];
    var b := compute(aux);
    ClampRange(a, first, last, b);
    ClampRangeSeq(pre, a[..], first, last, b);
    assert pre[first..last] == aux;
  }

  /** `Project(n, first)` is `Project(first, first + n)`. */
  method ProjectN(a: array<real>, first: nat, n: nat, compute: seq<real> -> ClampBounds)
    requires first + n <= a.Length
    modifies a
    ensures a[first..first + n] == ClampSeq(old(a[first..first + n]), compute(old(a[first..first + n])))
    ensures a[..first] == old(a[..first]) && a[first + n..] == old(a[first + n..])
  {
    Project(a, first, first + n, compute);
  }

  /**
   * `Project(first, last, aux)`: the range is copied to the front of the
   * caller's aux, and the thresholds are computed from the whole of aux.
   */
  method ProjectAux(a: array<real>, first: nat, last: nat, aux: array<real>,
                    compute: seq<real> -> ClampBounds)
    requires first <= last <= a.Length && last - first <= aux.Length && a != aux
    modifies a, aux
    ensures aux[..last - first] == old(a[first..last]) && aux[last - first..] == old(aux[last - first..])
    ensures a[first..last] == ClampSeq(old(a[first..last]), compute(aux[..]))
    ensures a[..first] == old(a[..first]) && a[last..] == old(a[last..])
  {
    ghost var pre := a[..];
    CopyInto(a, first, last, aux);
    var b := compute(aux[..]);
    ClampRange(a, first, last, b);
    ClampRangeSeq(pre, a[..], first, last, b);
  }

  /** `Project(n, first, aux)` is `Project(first, first + n, aux)`. */
  method ProjectAuxN(a: array<real>, first: nat, n: nat, aux: array<real>,
                     compute: seq<real> -> ClampBounds)
    requires first + n <= a.Length && n <= aux.Length && a != aux
    modifies a, aux
    ensures aux[..n] == old(a[first..first + n]) && aux[n..] == old(aux[n..])
    ensures a[first..first + n] == ClampSeq(old(a[first..first + n]), compute(aux[..]))
    ensures a[..first] == old(a[..first]) && a[first + n..] == old(a[first + n..])
  {
    ProjectAux(a, first, first + n, aux, compute);
  }

  /**
   * A buffer of consecutive columns of numRow entries, each clamped with the
   * bounds computed from that column alone.
   */
  function ColumnsClamp(s: seq<real>, numRow: nat, compute: seq<real> -> ClampBounds): (r: seq<real>)
    requires numRow > 0 && MultipleOf(|s|, numRow)
    ensures |r| == |s|
    decreases |s|
  {
    if |s| == 0 then []
    else ClampSeq(s[..numRow], compute(s[..numRow])) + ColumnsClamp(s[numRow..], numRow, compute)
  }

  /** The column starting at any multiple lo of numRow is clamped with its own bounds. */
  lemma {:induction false} ColumnsClampColumn(s: seq<real>, numRow: nat,
                                              compute: seq<real> -> ClampBounds, lo: nat)
    requires numRow > 0 && MultipleOf(|s|, numRow) && MultipleOf(lo, numRow) && lo < |s|
    ensures lo + numRow <= |s|
    ensures ColumnsClamp(s, numRow, compute)[lo..lo + numRow]
         == ClampSeq(s[lo..lo + numRow], compute(s[lo..lo + numRow]))
    decreases lo
  {
    assert numRow <= |s| && MultipleOf(|s| - numRow, numRow);
    var rest := s[numRow..];
    var head := ClampSeq(s[..numRow], compute(s[..numRow]));
    var tail := ColumnsClamp(rest, numRow, compute);
    assert ColumnsClamp(s, numRow, compute) == head + tail;
    if lo == 0 {
      assert (head + tail)[..numRow] == head;
    } else {
      assert numRow <= lo && MultipleOf(lo - numRow, numRow);
      ColumnsClampColumn(rest, numRow, compute, lo - numRow);
      SliceOfConcat(head, tail, lo, lo + numRow);
      SliceOfDrop(s, numRow, lo, lo + numRow);
    }
  }

  /**
   * The invariant of the column loop: the columns before `first` hold their
   * clamped values, the rest of the buffer is still the input.
   */
  ghost predicate ColumnsDone(orig: seq<real>, cur: seq<real>, first: nat, numRow: nat,
                              compute: seq<real> -> ClampBounds)
  {
    numRow > 0 && first <= |cur| && MultipleOf(|cur| - first, numRow) && MultipleOf(|orig|, numRow)
    && cur[..first] + ColumnsClamp(cur[first..], numRow, compute) == ColumnsClamp(orig, numRow, compute)
  }

  /** The buffer after clamping the one column [first, first + numRow) in place. */
  function ColumnStep(s: seq<real>, first: nat, numRow: nat, compute: seq<real> -> ClampBounds)
    : (r: seq<real>)
    requires first + numRow <= |s|
    ensures |r| == |s|
  {
    s[..first] + ClampSeq(s[first..first + numRow], compute(s[first..first + numRow])) + s[first + numRow..]
  }

  /** A column step below end leaves the buffer past end alone. */
  lemma {:induction false} ColumnStepPrefix(s: seq<real>, first: nat, numRow: nat, end: nat, compute: seq<real> -> ClampBounds)
    requires first + numRow <= end <= |s|
    ensures ColumnStep(s, first, numRow, compute)[..end] == ColumnStep(s[..end], first, numRow, compute)
    ensures ColumnStep(s, first, numRow, compute)[end..] == s[end..]
  {
    var col := ClampSeq(s[first..first + numRow], compute(s[first..first + numRow]));
    assert s[..end][..first] == s[..first];
    assert s[..end][first..first + numRow] == s[first..first + numRow];
    assert s[first + numRow..] == s[first + numRow..end] + s[end..];
    assert s[..end][first + numRow..] == s[first + numRow..end];
    assert ColumnStep(s, first, numRow, compute) == (s[..first] + col + s[first + numRow..end]) + s[end..];
  }

  /** One column done: the loop invariant moves past it. */
  lemma {:induction false} ColumnsStep(orig: seq<real>, pre: seq<real>, first: nat, numRow: nat,
                    compute: seq<real> -> ClampBounds)
    requires ColumnsDone(orig, pre, first, numRow, compute) && first < |pre|
    ensures first + numRow <= |pre|
    ensures ColumnsDone(orig, ColumnStep(pre, first, numRow, compute), first + numRow, numRow, compute)
  {
    var post := ColumnStep(pre, first, numRow, compute);
    var todo := pre[first..];
    assert todo[..numRow] == pre[first..first + numRow] && todo[numRow..] == pre[first + numRow..];
    assert post[..first + numRow]
        == pre[..first] + ClampSeq(pre[first..first + numRow], compute(pre[first..first + numRow]));
    assert post[first + numRow..] == pre[first + numRow..];
  }

  /** One pass of the column loop: copy the column to aux, compute, clamp. */
  method ProjectColumn(x: array<real>, first: nat, numRow: nat, aux: array<real>,
                       compute: seq<real> -> ClampBounds)
    requires first + numRow <= x.Length && aux.Length == numRow && x != aux
    modifies x, aux
    ensures x[..] == ColumnStep(old(x[..]), first, numRow, compute)
  {
    ghost var pre := x[..];
    CopyInto(x, first, first + numRow, aux);
    assert aux[..] == aux[..numRow] == pre[first..first + numRow];
    var b := compute(aux[..]);
    ClampRange(x, first, first + numRow, b);
    ClampRangeSeq(pre, x[..], first, first + numRow, b);
    assert x[..] == x[..first] + x[first..first + numRow] + x[first + numRow..];
  }

  /**
   * `Project(num_row, num_col, x)`: x holds num_col columns of num_row
   * entries, each projected with its own bounds; nothing past them changes.
   */
  method ProjectColumns(numRow: nat, numCol: nat, x: array<real>, compute: seq<real> -> ClampBounds)
    requires numRow * numCol <= x.Length
    modifies x
    ensures numRow > 0 ==> MultipleOf(numRow * numCol, numRow)
    ensures numRow > 0 ==> x[..numRow * numCol] == ColumnsClamp(old(x[..numRow * numCol]), numRow, compute)
    ensures x[numRow * numCol..] == old(x[numRow * numCol..])
  {
    var end := numRow * numCol;
    if numRow == 0 {
      return;
    }
    ghost var orig := x[..end];
    ghost var rest := x[end..];
    MultipleOfCount(numCol, numRow);
    var aux := new real[numRow];
    assert ColumnsDone(orig, x[..end], 0, numRow, compute) by {
      assert x[..end][..0] == [] && x[..end][0..] == orig;
    }
    var first := 0;
    while first != end
      invariant first <= end
      invariant ColumnsDone(orig, x[..end], first, numRow, compute)
      invariant x[end..] == rest
      decreases end - first
    {
      ghost var pre := x[..];
      ColumnsStep(orig, x[..end], first, numRow, compute);
      ProjectColumn(x, first, numRow, aux, compute);
      ColumnStepPrefix(pre, first, numRow, end, compute);
      first := first + numRow;
    }
    assert x[..end][..first] == x[..end];
  }
}
