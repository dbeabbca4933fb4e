/**
 * Ground-truth label layouts. A multiclass output holds one label per
 * example; a multilabel output holds a flat label list plus n + 1 offsets,
 * example i owning labels[offsets[i] .. offsets[i + 1]] (the compressed
 * sparse column layout of a label matrix). Labels are normalised from
 * 1-based to 0-based, validated, and moved to the front of a score vector
 * (and back) by swaps.
 */
module Labels {

  /** The `std::invalid_argument` messages of the validators. */
  datatype LabelError =
    | InvalidRange            // "Invalid class labels range."
    | FirstOffsetNonZero      // "The first offset must be 0."
    | LabelCountOutOfRange    // "Each example must have between 1 and num_classes - 1 labels."
    | LabelsNotSortedDistinct // "All labels for every example must be distinct and sorted."

  datatype Result<T> = Success(value: T) | Failure(error: LabelError)

  datatype Option<T> = None | Some(value: T)

  datatype MulticlassOutput = MulticlassOutput(numClasses: nat, labels: seq<nat>)

  datatype MultilabelOutput = MultilabelOutput(numClasses: nat, labels: seq<nat>, offsets: seq<nat>)

  // ---------------------------------------------------------------------
  // Swaps

  /** `std::swap(x[i], x[j])` on the contents of a buffer. */
  function SwapAt<T>(s: seq<T>, i: nat, j: nat): (r: seq<T>)
    requires i < |s| && j < |s|
    ensures |r| == |s|
  {
    s[i := s[j]][j := s[i]]
  }

  lemma {:induction false} SwapTwice<T>(s: seq<T>, i: nat, j: nat)
    requires i < |s| && j < |s|
    ensures SwapAt(SwapAt(s, i, j), i, j) == s
  {
    var r := SwapAt(SwapAt(s, i, j), i, j);
    assert forall q :: 0 <= q < |s| ==> r[q] == s[q];
  }

  lemma {:induction false} SwapMultiset<T>(s: seq<T>, i: nat, j: nat)
    requires i < |s| && j < |s|
    ensures multiset(SwapAt(s, i, j)) == multiset(s)
  {
  }

  method SwapEntries<T>(x: array<T>, i: nat, j: nat)
    requires i < x.Length && j < x.Length
    modifies x
    ensures x[..] == SwapAt(old(x[..]), i, j)
  {
    x[i], x[j] := x[j], x[i];
  }

  // ---------------------------------------------------------------------
  // Multiclass layout

  /** `multiclass_output::num_labels`: one ground-truth label per example. */
  function MulticlassNumLabels(o: MulticlassOutput, i: nat): nat
  {
    1
  }

  /** `multiclass_output::move_front(i, x)`: swap x[0] with x[labels[i]]. */
  method MulticlassMoveFront<T>(o: MulticlassOutput, i: nat, x: array<T>)
    requires i < |o.labels| && o.labels[i] < x.Length
    modifies x
    ensures x[..] == SwapAt(old(x[..]), 0, o.labels[i])
    ensures x[0] == old(x[o.labels[i]])
  {
    SwapEntries(x, 0, o.labels[i]);
  }

  /** `multiclass_output::move_front(i, x, y)`: the same swap on two buffers. */
  method MulticlassMoveFrontPair<T>(o: MulticlassOutput, i: nat, x: array<T>, y: array<T>)
    requires i < |o.labels| && o.labels[i] < x.Length && o.labels[i] < y.Length
    requires x != y
    modifies x, y
    ensures x[..] == SwapAt(old(x[..]), 0, o.labels[i])
    ensures y[..] == SwapAt(old(y[..]), 0, o.labels[i])
  {
    SwapEntries(x, 0, o.labels[i]);
    SwapEntries(y, 0, o.labels[i]);
  }

  /** `multiclass_output::move_back(i, x)`: the very same swap, which undoes move_front. */
  method MulticlassMoveBack<T>(o: MulticlassOutput, i: nat, x: array<T>)
    requires i < |o.labels| && o.labels[i] < x.Length
    modifies x
    ensures x[..] == SwapAt(old(x[..]), 0, o.labels[i])
  {
    SwapEntries(x, 0, o.labels[i]);
  }

  /** move_back after move_front restores the buffer. */
  lemma {:induction false} MulticlassRoundTrip<T>(o: MulticlassOutput, i: nat, s: seq<T>)
    requires i < |o.labels| && o.labels[i] < |s|
    ensures SwapAt(SwapAt(s, 0, o.labels[i]), 0, o.labels[i]) == s
  {
    SwapTwice(s, 0, o.labels[i]);
  }

  // ---------------------------------------------------------------------
  // Multilabel layout

  /** Offsets that start a non-empty list, never decrease and stay within the labels. */
  predicate OffsetsValid(o: MultilabelOutput)
  {
    |o.offsets| >= 1
    && (forall i, j :: 0 <= i <= j < |o.offsets| ==> o.offsets[i] <= o.offsets[j])
    && o.offsets[|o.offsets| - 1] <= |o.labels|
  }

  function NumExamples(o: MultilabelOutput): nat
    requires |o.offsets| >= 1
  {
    |o.offsets| - 1
  }

  /** `multilabel_output::num_labels(i)`. */
  function NumLabels(o: MultilabelOutput, i: nat): nat
    requires OffsetsValid(o) && i < NumExamples(o)
  {
    o.offsets[i + 1] - o.offsets[i]
  }

  /** The range [`labels_cbegin(i)`, `labels_cend(i)`). */
  function ExampleLabels(o: MultilabelOutput, i: nat): (r: seq<nat>)
    requires OffsetsValid(o) && i < NumExamples(o)
    ensures |r| == NumLabels(o, i)
    ensures forall j :: 0 <= j < |r| ==> r[j] == o.labels[o.offsets[i] + j]
  {
    o.labels[o.offsets[i]..o.offsets[i + 1]]
  }

  predicate LabelsBelow(ls: seq<nat>, m: nat)
  {
    forall j :: 0 <= j < |ls| ==> ls[j] < m
  }

  /** The buffer after the swaps x[j] <-> x[ls[j]] for j = 0 .. n - 1, in this order. */
  function FrontSwaps<T>(s: seq<T>, ls: seq<nat>, n: nat): (r: seq<T>)
    requires n <= |ls| && |ls| <= |s| && LabelsBelow(ls, |s|)
    ensures |r| == |s|
  {
    if n == 0 then s else SwapAt(FrontSwaps(s, ls, n - 1), n - 1, ls[n - 1])
  }

  /** The buffer after the swaps x[j] <-> x[ls[j]] for j = hi - 1 down to lo. */
  function BackSwaps<T>(s: seq<T>, ls: seq<nat>, hi: nat, lo: nat): (r: seq<T>)
    requires lo <= hi <= |ls| && |ls| <= |s| && LabelsBelow(ls, |s|)
    ensures |r| == |s|
    decreases hi - lo
  {
    if lo == hi then s else SwapAt(BackSwaps(s, ls, hi, lo + 1), lo, ls[lo])
  }

  /** `multilabel_output::move_front(i, x)`. */
  method MultilabelMoveFront<T>(o: MultilabelOutput, i: nat, x: array<T>)
    requires OffsetsValid(o) && i < NumExamples(o)
    requires NumLabels(o, i) <= x.Length && LabelsBelow(ExampleLabels(o, i), x.Length)
    modifies x
    ensures x[..] == FrontSwaps(old(x[..]), ExampleLabels(o, i), NumLabels(o, i))
  {
    ghost var ls := ExampleLabels(o, i);
    var offset := o.offsets[i];
    var numLabels := o.offsets[i + 1] - offset;
    for j := 0 to numLabels
      invariant x[..] == FrontSwaps(old(x[..]), ls, j)
    {
      var target := o.labels[offset + j];
      SwapEntries(x, j, target);
    }
  }

  /** `multilabel_output::move_front(i, x, y)`: the same swaps on two buffers. */
  method MultilabelMoveFrontPair<T>(o: MultilabelOutput, i: nat, x: array<T>, y: array<T>)
    requires OffsetsValid(o) && i < NumExamples(o) && x != y
    requires NumLabels(o, i) <= x.Length && LabelsBelow(ExampleLabels(o, i), x.Length)
    requires NumLabels(o, i) <= y.Length && LabelsBelow(ExampleLabels(o, i), y.Length)
    modifies x, y
    ensures x[..] == FrontSwaps(old(x[..]), ExampleLabels(o, i), NumLabels(o, i))
    ensures y[..] == FrontSwaps(old(y[..]), ExampleLabels(o, i), NumLabels(o, i))
  {
    ghost var ls := ExampleLabels(o, i);
    var offset := o.offsets[i];
    var numLabels := o.offsets[i + 1] - offset;
    for j := 0 to numLabels
      invariant x[..] == FrontSwaps(old(x[..]), ls, j)
      invariant y[..] == FrontSwaps(old(y[..]), ls, j)
    {
      var target := o.labels[offset + j];
      SwapEntries(x, j, target);
      SwapEntries(y, j, target);
    }
  }

  /**
   * `multilabel_output::move_back(i, x)`: the swaps in reverse order. The
   * counter starts at num_labels - 1, so the example must own a label.
   */
  method MultilabelMoveBack<T>(o: MultilabelOutput, i: nat, x: array<T>)
    requires OffsetsValid(o) && i < NumExamples(o) && NumLabels(o, i) >= 1
    requires NumLabels(o, i) <= x.Length && LabelsBelow(ExampleLabels(o, i), x.Length)
    modifies x
    ensures x[..] == BackSwaps(old(x[..]), ExampleLabels(o, i), NumLabels(o, i), 0)
  {
    ghost var ls := ExampleLabels(o, i);
    var offset := o.offsets[i];
    var numLabels := o.offsets[i + 1] - offset;
    var j := numLabels;
    while j > 0
      invariant 0 <= j <= numLabels
      invariant x[..] == BackSwaps(old(x[..]), ls, numLabels, j)
    {
      j := j - 1;
      var target := o.labels[offset + j];
      SwapEntries(x, j, target);
    }
  }

  /** Undoing the first n front swaps in reverse order down to lo leaves the first lo of them. */
  lemma {:induction false} BackUndoesFront<T>(s: seq<T>, ls: seq<nat>, n: nat, lo: nat)
    requires lo <= n <= |ls| && |ls| <= |s| && LabelsBelow(ls, |s|)
    ensures BackSwaps(FrontSwaps(s, ls, n), ls, n, lo) == FrontSwaps(s, ls, lo)
    decreases n - lo
  {
    if lo < n {
      BackUndoesFront(s, ls, n, lo + 1);
      SwapTwice(FrontSwaps(s, ls, lo), lo, ls[lo]);
    }
  }

  /** move_back after move_front restores the buffer of a multilabel example. */
  lemma {:induction false} MultilabelRoundTrip<T>(o: MultilabelOutput, i: nat, s: seq<T>)
    requires OffsetsValid(o) && i < NumExamples(o)
    requires NumLabels(o, i) <= |s| && LabelsBelow(ExampleLabels(o, i), |s|)
    ensures BackSwaps(FrontSwaps(s, ExampleLabels(o, i), NumLabels(o, i)), ExampleLabels(o, i),
                      NumLabels(o, i), 0) == s
  {
    BackUndoesFront(s, ExampleLabels(o, i), NumLabels(o, i), 0);
  }

  /** Strictly increasing, as `is_sorted` with `less_equal` checks it: on adjacent pairs. */
  predicate AdjacentIncreasing(ls: seq<nat>)
  {
    forall j :: 0 <= j < |ls| - 1 ==> ls[j] < ls[j + 1]
  }

  predicate StrictlyIncreasing(ls: seq<nat>)
  {
    forall p, q :: 0 <= p < q < |ls| ==> ls[p] < ls[q]
  }

  lemma {:induction false} AdjacentToStrict(ls: seq<nat>)
    requires AdjacentIncreasing(ls)
    ensures StrictlyIncreasing(ls)
  {
    if |ls| > 1 {
      var init := ls[..|ls| - 1];
      assert AdjacentIncreasing(init);
      AdjacentToStrict(init);
      forall p, q | 0 <= p < q < |ls|
        ensures ls[p] < ls[q]
      {
        if q < |ls| - 1 {
          assert init[p] < init[q];
        } else if p < |ls| - 2 {
          assert init[p] < init[|ls| - 2];
        }
      }
    }
  }

  /** The j-th of strictly increasing labels is at least j. */
  lemma {:induction false} IncreasingAtLeastIndex(ls: seq<nat>, j: nat)
    requires StrictlyIncreasing(ls) && j < |ls|
    ensures ls[j] >= j
  {
    if j > 0 {
      IncreasingAtLeastIndex(ls, j - 1);
    }
  }

  /**
   * With strictly increasing labels the first n front swaps place the entry
   * at label q in position q for q < n, and leave every position past the
   * last label used untouched.
   */
  lemma {:induction false} FrontSwapsPlace<T>(s: seq<T>, ls: seq<nat>, n: nat)
    requires n <= |ls| && |ls| <= |s| && LabelsBelow(ls, |s|) && StrictlyIncreasing(ls)
    ensures forall q :: 0 <= q < n ==> FrontSwaps(s, ls, n)[q] == s[ls[q]]
    ensures n > 0 ==> forall r :: ls[n - 1] < r < |s| ==> FrontSwaps(s, ls, n)[r] == s[r]
  {
    if n > 0 {
      var prev := FrontSwaps(s, ls, n - 1);
      FrontSwapsPlace(s, ls, n - 1);
      IncreasingAtLeastIndex(ls, n - 1);
      assert prev[ls[n - 1]] == s[ls[n - 1]] by {
        if n - 1 > 0 {
          assert ls[n - 2] < ls[n - 1];
        }
      }
      forall r | ls[n - 1] < r < |s|
        ensures FrontSwaps(s, ls, n)[r] == s[r]
      {
        if n - 1 > 0 {
          assert ls[n - 2] < ls[n - 1];
        }
      }
    }
  }

  /**
   * After `move_front` on an example whose labels strictly increase,
   * position j < num_labels holds the entry that was at its j-th label.
   */
  lemma {:induction false} MoveFrontPlacesLabels<T>(o: MultilabelOutput, i: nat, s: seq<T>)
    requires OffsetsValid(o) && i < NumExamples(o)
    requires NumLabels(o, i) <= |s| && LabelsBelow(ExampleLabels(o, i), |s|)
    requires AdjacentIncreasing(ExampleLabels(o, i))
    ensures forall j :: 0 <= j < NumLabels(o, i) ==>
              FrontSwaps(s, ExampleLabels(o, i), NumLabels(o, i))[j] == s[ExampleLabels(o, i)[j]]
  {
    AdjacentToStrict(ExampleLabels(o, i));
    FrontSwapsPlace(s, ExampleLabels(o, i), NumLabels(o, i));
  }

  // ---------------------------------------------------------------------
  // validate_labels

  /** The smallest label, folding from the back as `std::minmax_element` scans. */
  function MinLabel(ls: seq<nat>): nat
    requires |ls| > 0
  {
    if |ls| == 1 then ls[0]
    else var m := MinLabel(ls[..|ls| - 1]); if ls[|ls| - 1] < m then ls[|ls| - 1] else m
  }

  /** The largest label. */
  function MaxLabel(ls: seq<nat>): nat
    requires |ls| > 0
  {
    if |ls| == 1 then ls[0]
    else var m := MaxLabel(ls[..|ls| - 1]); if ls[|ls| - 1] > m then ls[|ls| - 1] else m
  }

  /** MinLabel and MaxLabel are labels of the list, and bound every label. */
  lemma {:induction false} LabelBounds(ls: seq<nat>)
    requires |ls| > 0
    ensures exists j :: 0 <= j < |ls| && ls[j] == MinLabel(ls)
    ensures exists j :: 0 <= j < |ls| && ls[j] == MaxLabel(ls)
    ensures forall j :: 0 <= j < |ls| ==> MinLabel(ls) <= ls[j] <= MaxLabel(ls)
  {
    var jm := MinBound(ls);
    var jx := MaxBound(ls);
  }

  lemma {:induction false} MinBound(ls: seq<nat>) returns (w: nat)
    requires |ls| > 0
    ensures w < |ls| && ls[w] == MinLabel(ls)
    ensures forall j :: 0 <= j < |ls| ==> MinLabel(ls) <= ls[j]
  {
    if |ls| == 1 {
      w := 0;
    } else {
      var init := ls[..|ls| - 1];
      var wi := MinBound(init);
      w := if ls[|ls| - 1] < MinLabel(init) then |ls| - 1 else wi;
      forall j | 0 <= j < |ls|
        ensures MinLabel(ls) <= ls[j]
      {
        if j < |ls| - 1 {
          assert init[j] == ls[j];
        }
      }
    }
  }

  lemma {:induction false} MaxBound(ls: seq<nat>) returns (w: nat)
    requires |ls| > 0
    ensures w < |ls| && ls[w] == MaxLabel(ls)
    ensures forall j :: 0 <= j < |ls| ==> ls[j] <= MaxLabel(ls)
  {
    if |ls| == 1 {
      w := 0;
    } else {
      var init := ls[..|ls| - 1];
      var wi := MaxBound(init);
      w := if ls[|ls| - 1] > MaxLabel(init) then |ls| - 1 else wi;
      forall j | 0 <= j < |ls|
        ensures ls[j] <= MaxLabel(ls)
      {
        if j < |ls| - 1 {
          assert init[j] == ls[j];
        }
      }
    }
  }

  /** Every label lowered by d. */
  function Lowered(ls: seq<nat>, d: nat): (r: seq<nat>)
    requires forall j :: 0 <= j < |ls| ==> d <= ls[j]
    ensures |r| == |ls|
  {
    seq(|ls|, j requires 0 <= j < |ls| => ls[j] - d)
  }

  /**
   * The labels `validate_labels` leaves behind: 1-based labels (minimum 1)
   * become 0-based, 0-based ones stay, and any other minimum is an error.
   */
  function Normalize(ls: seq<nat>): (r: Result<seq<nat>>)
    requires |ls| > 0
    ensures r.Success? ==> |r.value| == |ls|
  {
    LabelBounds(ls);
    var lo := MinLabel(ls);
    if lo == 1 then Success(Lowered(ls, 1))
    else if lo != 0 then Failure(InvalidRange)
    else Success(ls)
  }

  /** Normalising succeeds iff the minimum is 0 or 1; otherwise the range is invalid. */
  lemma {:induction false} NormalizeAccepts(ls: seq<nat>)
    requires |ls| > 0
    ensures Normalize(ls).Success? <==> MinLabel(ls) <= 1
    ensures Normalize(ls).Failure? ==> Normalize(ls).error == InvalidRange
  {
  }

  /** Normalised labels are the labels lowered by their minimum, so they start at 0. */
  lemma {:induction false} NormalizeSpec(ls: seq<nat>, v: seq<nat>)
    requires |ls| > 0 && Normalize(ls) == Success(v)
    ensures |v| == |ls| && MinLabel(v) == 0 && MaxLabel(v) == MaxLabel(ls) - MinLabel(ls)
    ensures forall j :: 0 <= j < |ls| ==> v[j] == ls[j] - MinLabel(ls)
  {
    LabelBounds(ls);
    LabelBounds(v);
    var lo := MinLabel(ls);
    if lo == 1 {
      assert v == Lowered(ls, 1);
      var jm :| 0 <= jm < |ls| && ls[jm] == lo;
      var jx :| 0 <= jx < |ls| && ls[jx] == MaxLabel(ls);
      assert v[jm] == 0;
      assert v[jx] == MaxLabel(ls) - 1;
      assert MinLabel(v) <= v[jm];
      assert MaxLabel(v) >= v[jx];
      var jv :| 0 <= jv < |v| && v[jv] == MaxLabel(v);
      assert ls[jv] <= MaxLabel(ls);
    }
  }

  /**
   * `validate_labels(first, last)`: finds the minimum and maximum, lowers
   * every label by one when the minimum is 1, and fails (changing nothing)
   * when it is neither 0 nor 1. The pair it returns points into the range
   * after the shift, so it is the normalised minimum and maximum.
   */
  method ValidateLabels(v: array<nat>) returns (r: Result<(nat, nat)>)
    requires v.Length > 0
    modifies v
    ensures Normalize(old(v[..])).Success? <==> r.Success?
    ensures r.Failure? ==> r.error == InvalidRange && v[..] == old(v[..])
    ensures r.Success? ==> v[..] == Normalize(old(v[..])).value
                           && r.value == (MinLabel(v[..]), MaxLabel(v[..]))
  {
    var lo, hi := MinMaxElement(v);
    if lo == 1 {
      ghost var before := v[..];
      LabelBounds(before);
      DecrementAll(v);
      assert Normalize(before) == Success(v[..]);
      NormalizeSpec(before, v[..]);
      r := Success((0, hi - 1));
    } else if lo != 0 {
      r := Failure(InvalidRange);
    } else {
      r := Success((lo, hi));
    }
  }

  /** `std::minmax_element` read as the values it points at. */
  method MinMaxElement(v: array<nat>) returns (lo: nat, hi: nat)
    requires v.Length > 0
    ensures lo == MinLabel(v[..]) && hi == MaxLabel(v[..])
  {
    lo, hi := v[0], v[0];
    assert v[..1] == [v[0]];
    for j := 1 to v.Length
      invariant lo == MinLabel(v[..j]) && hi == MaxLabel(v[..j])
    {
      assert v[..j + 1][..j] == v[..j];
      if v[j] < lo { lo := v[j]; }
      if v[j] > hi { hi := v[j]; }
    }
    assert v[..v.Length] == v[..];
  }

  /** `std::for_each(first, last, [](size_type &x){ x -= 1; })` on labels that are all positive. */
  method DecrementAll(v: array<nat>)
    requires forall j :: 0 <= j < v.Length ==> v[j] >= 1
    modifies v
    ensures v[..] == Lowered(old(v[..]), 1)
  {
    for j := 0 to v.Length
      invariant forall q :: 0 <= q < j ==> v[q] == old(v[q]) - 1
      invariant forall q :: j <= q < v.Length ==> v[q] == old(v[q])
    {
      v[j] := v[j] - 1;
    }
  }

  // ---------------------------------------------------------------------
  // validate_labels_and_offsets

  /**
   * The label count of example i is in [1, num_classes). The source
   * subtracts unsigned offsets, so a decreasing pair wraps to a huge count
   * and fails the same check; the model rejects it directly.
   */
  predicate CountInRange(numClasses: nat, offsets: seq<nat>, i: nat)
    requires i + 1 < |offsets|
  {
    offsets[i] <= offsets[i + 1] && 1 <= offsets[i + 1] - offsets[i] < numClasses
  }

  /** What the loop of `validate_labels_and_offsets` reports for example i, if anything. */
  function ExampleError(numClasses: nat, labels: seq<nat>, offsets: seq<nat>, i: nat): Option<LabelError>
    requires i + 1 < |offsets| && offsets[i + 1] <= |labels|
  {
    if !CountInRange(numClasses, offsets, i) then Some(LabelCountOutOfRange)
    else if !AdjacentIncreasing(labels[offsets[i]..offsets[i + 1]]) then Some(LabelsNotSortedDistinct)
    else None
  }

  predicate OffsetsInLabels(labels: seq<nat>, offsets: seq<nat>)
  {
    forall i :: 0 <= i < |offsets| ==> offsets[i] <= |labels|
  }

  /**
   * A well-formed multilabel layout: the first offset is 0, and every
   * example owns between 1 and num_classes - 1 labels, strictly increasing.
   */
  predicate LayoutValid(numClasses: nat, labels: seq<nat>, offsets: seq<nat>)
    requires |offsets| >= 1 && OffsetsInLabels(labels, offsets)
  {
    offsets[0] == 0
    && forall i :: 0 <= i < |offsets| - 1 ==> ExampleError(numClasses, labels, offsets, i).None?
  }

  /**
   * `validate_labels_and_offsets(num_classes, labels, offsets)`: reports the
   * first offset's error, or else the error of the first bad example.
   */
  method ValidateLabelsAndOffsets(numClasses: nat, labels: seq<nat>, offsets: seq<nat>)
      returns (err: Option<LabelError>)
    requires numClasses > 0 && |offsets| >= 1 && OffsetsInLabels(labels, offsets)
    ensures err.None? <==> LayoutValid(numClasses, labels, offsets)
    ensures err == Some(FirstOffsetNonZero) <==> offsets[0] != 0
    ensures offsets[0] == 0 && err.Some? ==>
              exists i :: 0 <= i < |offsets| - 1 && ExampleError(numClasses, labels, offsets, i) == err
                          && forall q :: 0 <= q < i ==> ExampleError(numClasses, labels, offsets, q).None?
  {
    if offsets[0] != 0 {
      return Some(FirstOffsetNonZero);
    }
    for i := 0 to |offsets| - 1
      invariant forall q :: 0 <= q < i ==> ExampleError(numClasses, labels, offsets, q).None?
    {
      if offsets[i + 1] < offsets[i] {
        assert ExampleError(numClasses, labels, offsets, i) == Some(LabelCountOutOfRange);
        return Some(LabelCountOutOfRange);
      }
      var numLabels := offsets[i + 1] - offsets[i];
      if numLabels < 1 || numLabels >= numClasses {
        assert ExampleError(numClasses, labels, offsets, i) == Some(LabelCountOutOfRange);
        return Some(LabelCountOutOfRange);
      }
      if !AdjacentIncreasing(labels[offsets[i]..offsets[i + 1]]) {
        assert ExampleError(numClasses, labels, offsets, i) == Some(LabelsNotSortedDistinct);
        return Some(LabelsNotSortedDistinct);
      }
    }
    return None;
  }

  /** A valid layout has offsets that never decrease, so every example's labels can be sliced. */
  lemma {:induction false} LayoutOffsetsValid(numClasses: nat, labels: seq<nat>, offsets: seq<nat>)
    requires |offsets| >= 1 && OffsetsInLabels(labels, offsets)
    requires LayoutValid(numClasses, labels, offsets)
    ensures OffsetsValid(MultilabelOutput(numClasses, labels, offsets))
  {
    forall i, j | 0 <= i <= j < |offsets|
      ensures offsets[i] <= offsets[j]
    {
      OffsetsStep(numClasses, labels, offsets, i, j);
    }
  }

  lemma {:induction false} OffsetsStep(numClasses: nat, labels: seq<nat>, offsets: seq<nat>, i: nat, j: nat)
    requires |offsets| >= 1 && OffsetsInLabels(labels, offsets)
    requires LayoutValid(numClasses, labels, offsets)
    requires i <= j < |offsets|
    ensures offsets[i] <= offsets[j]
    decreases j - i
  {
    if i < j {
      assert ExampleError(numClasses, labels, offsets, i).None?;
      OffsetsStep(numClasses, labels, offsets, i + 1, j);
    }
  }

  // ---------------------------------------------------------------------
  // Builders

  /** The labels and offsets of a multilabel output are well formed. */
  predicate MultilabelValid(o: MultilabelOutput)
  {
    |o.offsets| >= 1 && OffsetsInLabels(o.labels, o.offsets)
    && LayoutValid(o.numClasses, o.labels, o.offsets)
    && LabelsBelow(o.labels, o.numClasses)
  }

  /** `make_output_multiclass`: normalised labels, and one class past the largest. */
  function MulticlassOf(ls: seq<nat>): Result<MulticlassOutput>
    requires |ls| > 0
  {
    match Normalize(ls)
    case Success(v) => Success(MulticlassOutput(MaxLabel(v) + 1, v))
    case Failure(e) => Failure(e)
  }

  /**
   * `make_output_multiclass(first, last)`: copies the labels, validates
   * them in the copy and counts num_classes as the largest label plus one.
   */
  method MakeOutputMulticlass(ls: seq<nat>) returns (r: Result<MulticlassOutput>)
    requires |ls| > 0
    ensures r == MulticlassOf(ls)
  {
    var v := new nat[|ls|](j requires 0 <= j < |ls| => ls[j]);
    assert v[..] == ls;
    var minmax := ValidateLabels(v);
    if minmax.Failure? {
      return Failure(minmax.error);
    }
    r := Success(MulticlassOutput(minmax.value.1 + 1, v[..]));
  }

  /** Building a multiclass output fails exactly when the minimum label is neither 0 nor 1. */
  lemma {:induction false} MulticlassOfAccepts(ls: seq<nat>)
    requires |ls| > 0
    ensures MulticlassOf(ls).Success? <==> MinLabel(ls) <= 1
    ensures MulticlassOf(ls).Failure? ==> MulticlassOf(ls).error == InvalidRange
  {
    NormalizeAccepts(ls);
  }

  /**
   * A multiclass output keeps one label per example, each lowered by the
   * minimum, all below num_classes = max - min + 1.
   */
  lemma {:induction false} MulticlassOfSpec(ls: seq<nat>, o: MulticlassOutput)
    requires |ls| > 0 && MulticlassOf(ls) == Success(o)
    ensures |o.labels| == |ls| && o.numClasses == MaxLabel(ls) - MinLabel(ls) + 1
    ensures LabelsBelow(o.labels, o.numClasses)
    ensures forall j :: 0 <= j < |ls| ==> o.labels[j] == ls[j] - MinLabel(ls)
  {
    NormalizeSpec(ls, o.labels);
    LabelBounds(o.labels);
  }

  /** `make_output_multilabel`: normalise, count classes, validate the layout. */
  function MultilabelOf(labels: seq<nat>, offsets: seq<nat>): Result<MultilabelOutput>
    requires |labels| > 0 && |offsets| >= 1 && OffsetsInLabels(labels, offsets)
  {
    match Normalize(labels)
    case Failure(e) => Failure(e)
    case Success(v) => LayoutOf(MaxLabel(v) + 1, v, offsets)
  }

  lemma {:induction false} MultilabelOfUnfold(labels: seq<nat>, offsets: seq<nat>)
    requires |labels| > 0 && |offsets| >= 1 && OffsetsInLabels(labels, offsets)
    requires Normalize(labels).Success?
    ensures MultilabelOf(labels, offsets)
            == LayoutOf(MaxLabel(Normalize(labels).value) + 1, Normalize(labels).value, offsets)
  {
  }

  /** `validate_labels_and_offsets` on normalised labels, then the output. */
  function LayoutOf(numClasses: nat, labels: seq<nat>, offsets: seq<nat>): Result<MultilabelOutput>
    requires |offsets| >= 1 && OffsetsInLabels(labels, offsets)
  {
    if offsets[0] != 0 then Failure(FirstOffsetNonZero)
    else if LayoutValid(numClasses, labels, offsets) then Success(MultilabelOutput(numClasses, labels, offsets))
    else Failure(FirstExampleError(numClasses, labels, offsets, 0))
  }

  /** The error of the first bad example at or after i. */
  function FirstExampleError(numClasses: nat, labels: seq<nat>, offsets: seq<nat>, i: nat): LabelError
    requires |offsets| >= 1 && OffsetsInLabels(labels, offsets) && i <= |offsets| - 1
    decreases |offsets| - i
  {
    if i == |offsets| - 1 then LabelCountOutOfRange
    else match ExampleError(numClasses, labels, offsets, i)
      case Some(e) => e
      case None => FirstExampleError(numClasses, labels, offsets, i + 1)
  }

  lemma {:induction false} FirstExampleErrorIs(numClasses: nat, labels: seq<nat>, offsets: seq<nat>,
                                               i: nat, k: nat)
    requires |offsets| >= 1 && OffsetsInLabels(labels, offsets)
    requires i <= k < |offsets| - 1 && ExampleError(numClasses, labels, offsets, k).Some?
    requires forall q :: i <= q < k ==> ExampleError(numClasses, labels, offsets, q).None?
    ensures FirstExampleError(numClasses, labels, offsets, i) == ExampleError(numClasses, labels, offsets, k).value
    decreases k - i
  {
    if i < k {
      FirstExampleErrorIs(numClasses, labels, offsets, i + 1, k);
    }
  }

  /** A validated output is exactly what the multilabel builders return. */
  method ValidateMultilabel(labels: seq<nat>, offsets: seq<nat>) returns (r: Result<MultilabelOutput>)
    requires |labels| > 0 && |offsets| >= 1 && OffsetsInLabels(labels, offsets)
    ensures r == MultilabelOf(labels, offsets)
  {
    var v := new nat[|labels|](j requires 0 <= j < |labels| => labels[j]);
    assert v[..] == labels;
    var minmax := ValidateLabels(v);
    if minmax.Failure? {
      return Failure(minmax.error);
    }
    var numClasses := minmax.value.1 + 1;
    var err := ValidateLabelsAndOffsets(numClasses, v[..], offsets);
    if err.Some? {
      if err.value != FirstOffsetNonZero {
        var k :| 0 <= k < |offsets| - 1 && ExampleError(numClasses, v[..], offsets, k) == err
                 && forall q :: 0 <= q < k ==> ExampleError(numClasses, v[..], offsets, q).None?;
        FirstExampleErrorIs(numClasses, v[..], offsets, 0, k);
      }
      return Failure(err.value);
    }
    r := Success(MultilabelOutput(numClasses, v[..], offsets));
  }

  /**
   * `make_output_multilabel(label_first, label_last, offset_first,
   * offset_last)`: copies both ranges, then validates labels, then the
   * layout.
   */
  method MakeOutputMultilabel(labels: seq<nat>, offsets: seq<nat>) returns (r: Result<MultilabelOutput>)
    requires |labels| > 0 && |offsets| >= 1 && OffsetsInLabels(labels, offsets)
    ensures r == MultilabelOf(labels, offsets)
  {
    r := ValidateMultilabel(labels, offsets);
  }

  /**
   * A multilabel output is well formed: its offsets are the given ones and
   * never decrease, every example owns 1 to num_classes - 1 strictly
   * increasing labels, and all labels are below num_classes = max - min + 1.
   */
  lemma {:induction false} MultilabelOfSpec(labels: seq<nat>, offsets: seq<nat>, o: MultilabelOutput)
    requires |labels| > 0 && |offsets| >= 1 && OffsetsInLabels(labels, offsets)
    requires MultilabelOf(labels, offsets) == Success(o)
    ensures MultilabelValid(o) && OffsetsValid(o) && o.offsets == offsets
    ensures o.numClasses == MaxLabel(labels) - MinLabel(labels) + 1
    ensures forall i :: 0 <= i < NumExamples(o) ==>
              1 <= NumLabels(o, i) < o.numClasses && StrictlyIncreasing(ExampleLabels(o, i))
  {
    var v := Normalize(labels).value;
    MultilabelOfUnfold(labels, offsets);
    assert LayoutOf(MaxLabel(v) + 1, v, offsets) == Success(o);
    assert o == MultilabelOutput(MaxLabel(v) + 1, v, offsets);
    ValidOutputFacts(o);
    NormalizeSpec(labels, v);
    LabelBounds(v);
  }

  /** Labels whose minimum is neither 0 nor 1 are rejected whatever the offsets. */
  lemma {:induction false} MultilabelOfRejects(labels: seq<nat>, offsets: seq<nat>)
    requires |labels| > 0 && |offsets| >= 1 && OffsetsInLabels(labels, offsets)
    requires MinLabel(labels) > 1
    ensures MultilabelOf(labels, offsets) == Failure(InvalidRange)
  {
  }

  lemma ValidOutputFacts(o: MultilabelOutput)
    requires |o.offsets| >= 1 && OffsetsInLabels(o.labels, o.offsets)
    requires LayoutValid(o.numClasses, o.labels, o.offsets)
    ensures OffsetsValid(o)
    ensures forall i :: 0 <= i < NumExamples(o) ==>
              1 <= NumLabels(o, i) < o.numClasses && StrictlyIncreasing(ExampleLabels(o, i))
  {
    LayoutOffsetsValid(o.numClasses, o.labels, o.offsets);
    forall i | 0 <= i < NumExamples(o)
      ensures 1 <= NumLabels(o, i) < o.numClasses && StrictlyIncreasing(ExampleLabels(o, i))
    {
      assert ExampleError(o.numClasses, o.labels, o.offsets, i).None?;
      AdjacentToStrict(ExampleLabels(o, i));
    }
  }

  /** The concatenation of every example's labels. */
  function Flatten(yss: seq<seq<nat>>): (r: seq<nat>)
  {
    if |yss| == 0 then [] else Flatten(yss[..|yss| - 1]) + yss[|yss| - 1]
  }

  /** 0, |y0|, |y0| + |y1|, ...: the running label counts. */
  function PrefixOffsets(yss: seq<seq<nat>>): (r: seq<nat>)
    ensures |r| == |yss| + 1
  {
    if |yss| == 0 then [0] else PrefixOffsets(yss[..|yss| - 1]) + [|Flatten(yss)|]
  }

  /**
   * The layout built from a vector of label vectors gives every example
   * back: offsets start at 0, end at the total label count, and slicing
   * the flat list between consecutive offsets returns example i's labels.
   */
  lemma {:induction false} FlattenSlices(yss: seq<seq<nat>>)
    ensures PrefixOffsets(yss)[0] == 0 && PrefixOffsets(yss)[|yss|] == |Flatten(yss)|
    ensures OffsetsInLabels(Flatten(yss), PrefixOffsets(yss))
    ensures forall i :: 0 <= i < |yss| ==>
              PrefixOffsets(yss)[i] <= PrefixOffsets(yss)[i + 1]
              && Flatten(yss)[PrefixOffsets(yss)[i]..PrefixOffsets(yss)[i + 1]] == yss[i]
  {
    if |yss| > 0 {
      var init := yss[..|yss| - 1];
      FlattenSlices(init);
      var f, u := Flatten(yss), PrefixOffsets(yss);
      assert f == Flatten(init) + yss[|yss| - 1];
      assert u == PrefixOffsets(init) + [|f|];
      forall i | 0 <= i < |yss|
        ensures u[i] <= u[i + 1] && f[u[i]..u[i + 1]] == yss[i]
      {
        if i < |yss| - 1 {
          assert init[i] == yss[i];
          assert f[u[i]..u[i + 1]] == Flatten(init)[u[i]..u[i + 1]];
        } else {
          assert f[u[i]..u[i + 1]] == f[|Flatten(init)|..];
        }
      }
    }
  }

  /**
   * `make_output_multilabel(labels)` for a vector of label vectors: appends
   * each example's labels and its running total, then validates.
   */
  method MakeOutputMultilabelNested(yss: seq<seq<nat>>) returns (r: Result<MultilabelOutput>)
    requires |Flatten(yss)| > 0
    ensures OffsetsInLabels(Flatten(yss), PrefixOffsets(yss))
            && r == MultilabelOf(Flatten(yss), PrefixOffsets(yss))
  {
    var v: seq<nat> := [];
    var u: seq<nat> := [0];
    for i := 0 to |yss|
      invariant v == Flatten(yss[..i]) && u == PrefixOffsets(yss[..i])
    {
      assert yss[..i + 1][..i] == yss[..i];
      v := v + yss[i];
      u := u + [u[|u| - 1] + |yss[i]|];
      FlattenLength(yss[..i + 1]);
    }
    assert yss[..|yss|] == yss;
    FlattenSlices(yss);
    r := ValidateMultilabel(v, u);
  }

  lemma {:induction false} FlattenLength(yss: seq<seq<nat>>)
    ensures PrefixOffsets(yss)[|yss|] == |Flatten(yss)|
  {
  }

  /** 0, 1, ..., n: `std::iota` over n + 1 offsets. */
  function Iota(n: nat): (r: seq<nat>)
    ensures |r| == n
    ensures forall j :: 0 <= j < n ==> r[j] == j
  {
    seq(n, j requires 0 <= j < n => j)
  }

  /**
   * `make_output_multilabel(first, last)` for one label per example: the
   * offsets 0, 1, ..., n.
   */
  method MakeOutputMultilabelSingle(ls: seq<nat>) returns (r: Result<MultilabelOutput>)
    requires |ls| > 0
    ensures r == MultilabelOf(ls, Iota(|ls| + 1))
  {
    var u := new nat[|ls| + 1];
    for j := 0 to |ls| + 1
      invariant forall q :: 0 <= q < j ==> u[q] == q
    {
      u[j] := j;
    }
    assert u[..] == Iota(|ls| + 1);
    r := ValidateMultilabel(ls, u[..]);
  }

  /**
   * One label per example as a multilabel layout is accepted iff the labels
   * are 0- or 1-based and span at least two classes: each example owns one
   * label, and an example may not carry every class.
   */
  lemma {:induction false} MultilabelSingleAccepts(ls: seq<nat>)
    requires |ls| > 0
    ensures OffsetsInLabels(ls, Iota(|ls| + 1))
    ensures MultilabelOf(ls, Iota(|ls| + 1)).Success? <==> MinLabel(ls) <= 1 && MaxLabel(ls) > MinLabel(ls)
  {
    var u := Iota(|ls| + 1);
    NormalizeAccepts(ls);
    if MinLabel(ls) <= 1 {
      var v := Normalize(ls).value;
      NormalizeSpec(ls, v);
      SingleLayout(MaxLabel(v) + 1, v);
      MultilabelOfUnfold(ls, u);
    } else {
      assert MultilabelOf(ls, u).Failure?;
    }
  }

  lemma {:induction false} SingleLayout(numClasses: nat, v: seq<nat>)
    requires |v| > 0
    ensures OffsetsInLabels(v, Iota(|v| + 1))
    ensures LayoutOf(numClasses, v, Iota(|v| + 1)).Success? <==> numClasses > 1
  {
    var u := Iota(|v| + 1);
    forall q | 0 <= q < |u| - 1
      ensures ExampleError(numClasses, v, u, q) == (if numClasses > 1 then None else Some(LabelCountOutOfRange))
    {
      assert |v[u[q]..u[q + 1]]| == 1;
    }
    if numClasses <= 1 {
      assert ExampleError(numClasses, v, u, 0).Some?;
    }
  }

  /** Each example of that layout owns exactly one label, as multiclass `num_labels` says. */
  lemma {:induction false} MultilabelSingleOneLabel(ls: seq<nat>, o: MultilabelOutput, i: nat)
    requires |ls| > 0 && i < |ls| && OffsetsInLabels(ls, Iota(|ls| + 1))
    requires MultilabelOf(ls, Iota(|ls| + 1)) == Success(o)
    ensures OffsetsValid(o) && i < NumExamples(o) && MulticlassOf(ls).Success?
    ensures NumLabels(o, i) == MulticlassNumLabels(MulticlassOf(ls).value, i)
  {
    MultilabelOfSpec(ls, Iota(|ls| + 1), o);
  }

  // ---------------------------------------------------------------------
  // Kernel input

  /** A kernel matrix input: num_train_examples columns of num_examples entries. */
  datatype KernelInput = KernelInput(numTrainExamples: nat, numExamples: nat, kernel: seq<real>)

  /** `make_input_kernel(num_examples, kernel)`: the square training kernel. */
  function MakeInputKernel(n: nat, kernel: seq<real>): (r: KernelInput)
    ensures r.numTrainExamples == r.numExamples == n && r.kernel == kernel
  {
    KernelInput(n, n, kernel)
  }
}
