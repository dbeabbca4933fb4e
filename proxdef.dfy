/**
 * Threshold records and the clamp that every proximal operator of the library
 * ends with: x becomes max(lo, min(x - t, hi)). A threshold algorithm returns
 * (t, lo, hi) together with the indices [first, last) of the "middle" block in
 * the buffer it reordered: entries before `first` are clamped to hi, entries
 * from `last` on are clamped to lo.
 */
module ProxDef {
  import opened Numeric
  import opened Reorder

  datatype Thresholds = Thresholds(t: real, lo: real, hi: real, first: nat, last: nat)

  /** The zero thresholds (0, 0, 0) with an empty upper and middle block. */
  const ZeroThresholds := Thresholds(0.0, 0.0, 0.0, 0, 0)

  /** The clamp of one entry. */
  function Clamp(x: real, th: Thresholds): real
  {
    Max(th.lo, Min(x - th.t, th.hi))
  }

  /**
   * The clamp lands in [lo, hi], takes one of the values lo, hi, x - t, and
   * leaves x - t alone exactly when it already lies within the bounds.
   */
  lemma ClampSpec(x: real, th: Thresholds)
    ensures th.lo <= th.hi ==> th.lo <= Clamp(x, th) <= th.hi
    ensures Clamp(x, th) == th.lo || Clamp(x, th) == th.hi || Clamp(x, th) == x - th.t
    ensures th.lo <= x - th.t <= th.hi ==> Clamp(x, th) == x - th.t
    ensures th.lo <= th.hi <= x - th.t ==> Clamp(x, th) == th.hi
    ensures x - th.t <= th.lo ==> Clamp(x, th) == th.lo
  {
  }

  /** The clamp after a mapping of x - t, for `generalized_thresholds`. */
  function ClampMapped(x: real, th: Thresholds, mapping: real -> real): (r: real)
    ensures th.lo <= th.hi ==> th.lo <= r <= th.hi
    ensures r == th.lo || r == th.hi || r == mapping(x - th.t)
  {
    Max(th.lo, Min(mapping(x - th.t), th.hi))
  }

  /** The projected vector prox(s). */
  function ProxSeq(s: seq<real>, th: Thresholds): (r: seq<real>)
    ensures |r| == |s|
  {
    seq(|s|, i requires 0 <= i < |s| => Clamp(s[i], th))
  }

  /** Every projected entry lies in [lo, hi] when lo <= hi. */
  lemma {:induction false} ProxSeqInBounds(s: seq<real>, th: Thresholds)
    requires th.lo <= th.hi
    ensures forall i :: 0 <= i < |s| ==> th.lo <= ProxSeq(s, th)[i] <= th.hi
  {
    forall i | 0 <= i < |s| {
      ClampSpec(s[i], th);
    }
  }

  /** The projection commutes with slicing: each output depends on its own input only. */
  lemma {:induction false} ProxSeqSlice(s: seq<real>, th: Thresholds, i: nat, j: nat)
    requires i <= j <= |s|
    ensures ProxSeq(s, th)[i..j] == ProxSeq(s[i..j], th)
  {
  }

  lemma {:induction false} ProxSeqConcat(s: seq<real>, u: seq<real>, th: Thresholds)
    ensures ProxSeq(s + u, th) == ProxSeq(s, th) + ProxSeq(u, th)
  {
  }

  /** Projecting a sequence with entry j removed removes the clamp of that entry. */
  lemma {:induction false} ProxSeqRemove(u: seq<real>, j: nat, th: Thresholds)
    requires j < |u|
    ensures multiset(ProxSeq(u, th))
         == multiset(ProxSeq(u[..j] + u[j + 1..], th)) + multiset{Clamp(u[j], th)}
  {
    var u1, u2 := u[..j], u[j + 1..];
    assert u == u1 + [u[j]] + u2;
    ProxSeqConcat(u1 + [u[j]], u2, th);
    ProxSeqConcat(u1, [u[j]], th);
    ProxSeqConcat(u1, u2, th);
  }

  /** The projection commutes with reordering. */
  lemma {:induction false} ProxSeqPermutation(s: seq<real>, u: seq<real>, th: Thresholds)
    requires multiset(s) == multiset(u)
    ensures multiset(ProxSeq(s, th)) == multiset(ProxSeq(u, th))
    decreases |s|
  {
    if |s| > 0 {
      var n := |s| - 1;
      assert s[n] in multiset(u);
      var j :| 0 <= j < |u| && u[j] == s[n];
      MultisetRemove(s, n);
      MultisetRemove(u, j);
      assert s[..n] + s[n + 1..] == s[..n];
      ProxSeqPermutation(s[..n], u[..j] + u[j + 1..], th);
      ProxSeqRemove(s, n, th);
      ProxSeqRemove(u, j, th);
    }
  }

  /** `prox(thresholds, first, last)`: clamps the range [first, last) of `a` in place. */
  method Prox(th: Thresholds, a: array<real>, first: nat, last: nat)
    requires first <= last <= a.Length
    modifies a
    ensures forall i :: first <= i < last ==> a[i] == Clamp(old(a[i]), th)
    ensures forall i :: 0 <= i < a.Length && !(first <= i < last) ==> a[i] == old(a[i])
  {
    var i := first;
    while i < last
      invariant first <= i <= last
      invariant forall j :: first <= j < i ==> a[j] == Clamp(old(a[j]), th)
      invariant forall j :: 0 <= j < a.Length && !(first <= j < i) ==> a[j] == old(a[j])
    {
      a[i] := Max(th.lo, Min(a[i] - th.t, th.hi));
      i := i + 1;
    }
  }

  /**
   * The bounds of the blocks U = s[..f], M = s[f..l] and L = s[l..] of a
   * buffer sorted in descending order, as the threshold searches track them:
   * an empty block has bound +infinity (for a minimum) or -infinity (for a
   * maximum).
   */
  function MinU(s: seq<real>, f: nat): XReal
    requires f <= |s|
  {
    if f == 0 then PosInf else Fin(s[f - 1])
  }

  function MaxM(s: seq<real>, f: nat, l: nat): XReal
    requires f <= l <= |s|
  {
    if f == l then NegInf else Fin(s[f])
  }

  function MinM(s: seq<real>, f: nat, l: nat): XReal
    requires f <= l <= |s|
  {
    if f == l then PosInf else Fin(s[l - 1])
  }

  function MaxL(s: seq<real>, l: nat): XReal
    requires l <= |s|
  {
    if l == |s| then NegInf else Fin(s[l])
  }

  /** Prox over the whole buffer, stated on its contents. */
  method ProxWhole(th: Thresholds, a: array<real>)
    modifies a
    ensures a[..] == ProxSeq(old(a[..]), th)
  {
    Prox(th, a, 0, a.Length);
    assert forall i :: 0 <= i < a.Length ==> a[..][i] == ProxSeq(old(a[..]), th)[i];
  }

  /** A fresh copy of the buffer, the `aux` of the prox wrappers. */
  method Copy(a: array<real>) returns (aux: array<real>)
    ensures fresh(aux) && aux[..] == a[..]
  {
    aux := new real[a.Length];
    CopyInto(a, 0, a.Length, aux);
    assert aux[..] == aux[..a.Length];
  }

  /** `prox(generalized_thresholds, first, last)`: clamps map(x - t) in place. */
  method ProxGeneralized(th: Thresholds, mapping: real -> real, a: array<real>, first: nat, last: nat)
    requires first <= last <= a.Length
    modifies a
    ensures forall i :: first <= i < last ==> a[i] == ClampMapped(old(a[i]), th, mapping)
    ensures forall i :: 0 <= i < a.Length && !(first <= i < last) ==> a[i] == old(a[i])
  {
    var i := first;
    while i < last
      invariant first <= i <= last
      invariant forall j :: first <= j < i ==> a[j] == ClampMapped(old(a[j]), th, mapping)
      invariant forall j :: 0 <= j < a.Length && !(first <= j < i) ==> a[j] == old(a[j])
    {
      a[i] := Max(th.lo, Min(mapping(a[i] - th.t), th.hi));
      i := i + 1;
    }
  }

  /** Copies a[lo..hi) into aux[0..hi-lo). */
  method CopyInto(a: array<real>, lo: nat, hi: nat, aux: array<real>)
    requires lo <= hi <= a.Length && hi - lo <= aux.Length && a != aux
    modifies aux
    ensures aux[..hi - lo] == a[lo..hi]
    ensures aux[hi - lo..] == old(aux[hi - lo..])
  {
    var i := 0;
    while i < hi - lo
      invariant 0 <= i <= hi - lo
      invariant aux[..i] == a[lo..lo + i]
      invariant aux[hi - lo..] == old(aux[hi - lo..])
    {
      aux[i] := a[lo + i];
      i := i + 1;
    }
  }

  /**
   * `prox(first, last, compute, ...)`: the thresholds are computed on a private
   * copy, so the caller's buffer is never reordered, only clamped.
   */
  method ProxCopy(a: array<real>, compute: seq<real> -> Thresholds)
    modifies a
    ensures a[..] == ProxSeq(old(a[..]), compute(old(a[..])))
  {
    ghost var orig := a[..];
    var aux := new real[a.Length];
    CopyInto(a, 0, a.Length, aux);
    assert aux[..] == orig;
    var th := compute(aux[..]);
    Prox(th, a, 0, a.Length);
    assert forall i :: 0 <= i < a.Length ==> a[..][i] == ProxSeq(orig, th)[i];
  }

  /** `prox(first, last, aux, compute, ...)`: as ProxCopy, with the copy in `aux`. */
  method ProxAux(a: array<real>, aux: array<real>, compute: seq<real> -> Thresholds)
    requires a.Length <= aux.Length && a != aux
    modifies a, aux
    ensures a[..] == ProxSeq(old(a[..]), compute(old(a[..])))
    ensures aux[..a.Length] == old(a[..])
  {
    ghost var orig := a[..];
    CopyInto(a, 0, a.Length, aux);
    assert aux[..a.Length] == orig;
    var th := compute(aux[..a.Length]);
    Prox(th, a, 0, a.Length);
    assert forall i :: 0 <= i < a.Length ==> a[..][i] == ProxSeq(orig, th)[i];
  }

  /**
   * The two-block `prox`: thresholds for both blocks come from one computation
   * on copies; the first clamps block a, the second clamps block b.
   */
  method ProxTwoBlock(a: array<real>, b: array<real>,
                      compute: (seq<real>, seq<real>) -> (Thresholds, Thresholds))
    requires a != b
    modifies a, b
    ensures a[..] == ProxSeq(old(a[..]), compute(old(a[..]), old(b[..])).0)
    ensures b[..] == ProxSeq(old(b[..]), compute(old(a[..]), old(b[..])).1)
  {
    ghost var origA, origB := a[..], b[..];
    var aAux := new real[a.Length];
    var bAux := new real[b.Length];
    CopyInto(a, 0, a.Length, aAux);
    CopyInto(b, 0, b.Length, bAux);
    assert aAux[..] == origA && bAux[..] == origB;
    var th := compute(aAux[..], bAux[..]);
    Prox(th.0, a, 0, a.Length);
    Prox(th.1, b, 0, b.Length);
    assert forall i :: 0 <= i < a.Length ==> a[..][i] == ProxSeq(origA, th.0)[i];
    assert forall i :: 0 <= i < b.Length ==> b[..][i] == ProxSeq(origB, th.1)[i];
  }

  /** The two-block `prox` with caller-supplied scratch buffers. */
  method ProxTwoBlockAux(a: array<real>, b: array<real>, aAux: array<real>, bAux: array<real>,
                         compute: (seq<real>, seq<real>) -> (Thresholds, Thresholds))
    requires a.Length <= aAux.Length && b.Length <= bAux.Length
    requires a != b && aAux != bAux && a != aAux && a != bAux && b != aAux && b != bAux
    modifies a, b, aAux, bAux
    ensures a[..] == ProxSeq(old(a[..]), compute(old(a[..]), old(b[..])).0)
    ensures b[..] == ProxSeq(old(b[..]), compute(old(a[..]), old(b[..])).1)
    ensures aAux[..a.Length] == old(a[..]) && bAux[..b.Length] == old(b[..])
  {
    ghost var origA, origB := a[..], b[..];
    CopyInto(a, 0, a.Length, aAux);
    CopyInto(b, 0, b.Length, bAux);
    assert aAux[..a.Length] == origA && bAux[..b.Length] == origB;
    var th := compute(aAux[..a.Length], bAux[..b.Length]);
    Prox(th.0, a, 0, a.Length);
    Prox(th.1, b, 0, b.Length);
    assert forall i :: 0 <= i < a.Length ==> a[..][i] == ProxSeq(origA, th.0)[i];
    assert forall i :: 0 <= i < b.Length ==> b[..][i] == ProxSeq(origB, th.1)[i];
  }

  /** n is a whole number of blocks of length d, counted one block at a time. */
  ghost predicate MultipleOf(n: nat, d: nat)
    requires d > 0
    decreases n
  {
    n == 0 || (d <= n && MultipleOf(n - d, d))
  }

  lemma {:induction false} MultipleOfCount(q: nat, d: nat)
    requires d > 0
    ensures MultipleOf(q * d, d)
    decreases q
  {
    if q > 0 {
      assert q * d == (q - 1) * d + d;
      MultipleOfCount(q - 1, d);
    }
  }

  /** A length divisible by d, as the library's block loops assume, is a whole number of blocks. */
  lemma {:induction false} MultipleOfMod(n: nat, d: nat)
    requires d > 0 && n % d == 0
    ensures MultipleOf(n, d)
  {
    assert n == (n / d) * d;
    MultipleOfCount(n / d, d);
  }

  /**
   * The projection of a buffer holding consecutive vectors of length dim, each
   * with the thresholds computed from that vector alone.
   */
  function BlockwiseProx(s: seq<real>, dim: nat, compute: seq<real> -> Thresholds): (r: seq<real>)
    requires dim > 0 && MultipleOf(|s|, dim)
    ensures |r| == |s|
    decreases |s|
  {
    if |s| == 0 then []
    else ProxSeq(s[..dim], compute(s[..dim])) + BlockwiseProx(s[dim..], dim, compute)
  }

  /** A slice lying past the first part of a concatenation. */
  lemma {:induction false} SliceOfConcat(x: seq<real>, y: seq<real>, i: nat, j: nat)
    requires |x| <= i <= j <= |x| + |y|
    ensures (x + y)[i..j] == y[i - |x|..j - |x|]
  {
  }

  lemma {:induction false} SliceOfDrop(s: seq<real>, d: nat, i: nat, j: nat)
    requires d <= i <= j <= |s|
    ensures s[i..j] == s[d..][i - d..j - d]
  {
  }

  /**
   * The block starting at any multiple lo of dim is the projection of that
   * block with its own thresholds.
   */
  lemma {:induction false} BlockwiseProxBlock(s: seq<real>, dim: nat,
                                              compute: seq<real> -> Thresholds, lo: nat)
    requires dim > 0 && MultipleOf(|s|, dim) && MultipleOf(lo, dim) && lo < |s|
    ensures lo + dim <= |s|
    ensures BlockwiseProx(s, dim, compute)[lo..lo + dim]
         == ProxSeq(s[lo..lo + dim], compute(s[lo..lo + dim]))
    decreases lo
  {
    assert dim <= |s| && MultipleOf(|s| - dim, dim);
    var rest := s[dim..];
    var head := ProxSeq(s[..dim], compute(s[..dim]));
    var tail := BlockwiseProx(rest, dim, compute);
    assert BlockwiseProx(s, dim, compute) == head + tail;
    if lo == 0 {
      assert (head + tail)[..dim] == head;
    } else {
      assert dim <= lo && MultipleOf(lo - dim, dim);
      BlockwiseProxBlock(rest, dim, compute, lo - dim);
      SliceOfConcat(head, tail, lo, lo + dim);
      SliceOfDrop(s, dim, lo, lo + dim);
    }
  }

  /**
   * The loop invariant of ProxBlockwise: the blocks before `first` hold their
   * projections, the rest of cur is still the input, and together they make up
   * the block-wise projection of orig.
   */
  ghost predicate BlockwiseDone(orig: seq<real>, cur: seq<real>, first: nat, dim: nat,
                                compute: seq<real> -> Thresholds)
  {
    dim > 0 && first <= |cur| && MultipleOf(|cur| - first, dim) && MultipleOf(|orig|, dim)
    && cur[..first] + BlockwiseProx(cur[first..], dim, compute) == BlockwiseProx(orig, dim, compute)
  }

  lemma {:induction false} BlockwiseDoneNext(orig: seq<real>, cur: seq<real>, first: nat, dim: nat,
                          compute: seq<real> -> Thresholds)
    requires BlockwiseDone(orig, cur, first, dim, compute) && first < |cur|
    ensures first + dim <= |cur|
  {
  }

  lemma {:induction false} BlockwiseDoneEnd(orig: seq<real>, cur: seq<real>, first: nat, dim: nat,
                         compute: seq<real> -> Thresholds)
    requires BlockwiseDone(orig, cur, first, dim, compute) && first == |cur|
    ensures cur == BlockwiseProx(orig, dim, compute)
  {
    assert cur[..first] == cur;
  }

  /** The buffer after projecting the one block [first, first + dim) in place. */
  function BlockStep(s: seq<real>, first: nat, dim: nat, compute: seq<real> -> Thresholds)
    : (r: seq<real>)
    requires first + dim <= |s|
    ensures |r| == |s|
  {
    s[..first] + ProxSeq(s[first..first + dim], compute(s[first..first + dim])) + s[first + dim..]
  }

  /** One block done: the loop invariant of ProxBlockwise moves past it. */
  lemma {:induction false} BlockwiseProxStep(orig: seq<real>, pre: seq<real>, first: nat, dim: nat,
                          compute: seq<real> -> Thresholds)
    requires BlockwiseDone(orig, pre, first, dim, compute) && first + dim <= |pre|
    ensures BlockwiseDone(orig, BlockStep(pre, first, dim, compute), first + dim, dim, compute)
  {
    var post := BlockStep(pre, first, dim, compute);
    var todo := pre[first..];
    assert todo[..dim] == pre[first..first + dim] && todo[dim..] == pre[first + dim..];
    assert post[..first + dim]
        == pre[..first] + ProxSeq(pre[first..first + dim], compute(pre[first..first + dim]));
    assert post[first + dim..] == pre[first + dim..];
  }

  /** One step of the block-wise loop: copy block [lo, lo + dim) to aux, compute, clamp. */
  method ProxOneBlock(a: array<real>, lo: nat, dim: nat, aux: array<real>,
                      compute: seq<real> -> Thresholds)
    requires lo + dim <= a.Length && dim <= aux.Length && a != aux
    modifies a, aux
    ensures a[..] == BlockStep(old(a[..]), lo, dim, compute)
  {
    ghost var pre := a[..];
    ghost var blk := a[lo..lo + dim];
    CopyInto(a, lo, lo + dim, aux);
    assert aux[..dim] == blk;
    var th := compute(aux[..dim]);
    Prox(th, a, lo, lo + dim);
    ghost var want := BlockStep(pre, lo, dim, compute);
    forall i | 0 <= i < a.Length
      ensures a[i] == want[i]
    {
      if lo <= i < lo + dim {
        assert blk[i - lo] == pre[i];
      }
    }
    assert a[..] == want;
  }

  /** A suffix splits at any inner point. */
  lemma {:induction false} SuffixSplit(s: seq<real>, i: nat, j: nat)
    requires i <= j <= |s|
    ensures s[i..] == s[i..j] + s[j..]
  {
  }

  /**
   * The block-wise `prox(dim, first, last, aux, compute, ...)`: the buffer holds
   * consecutive vectors of length dim, each projected with its own thresholds.
   */
  method ProxBlockwise(dim: nat, a: array<real>, aux: array<real>,
                       compute: seq<real> -> Thresholds)
    requires dim > 0 && a.Length % dim == 0 && dim <= aux.Length && a != aux
    modifies a, aux
    ensures MultipleOf(a.Length, dim)
    ensures a[..] == BlockwiseProx(old(a[..]), dim, compute)
  {
    ghost var orig := a[..];
    MultipleOfMod(a.Length, dim);
    assert BlockwiseDone(orig, a[..], 0, dim, compute) by {
      assert a[..][..0] == [] && a[..][0..] == orig;
    }
    var first := 0;
    while first < a.Length
      invariant BlockwiseDone(orig, a[..], first, dim, compute)
      decreases a.Length - first
    {
      BlockwiseDoneNext(orig, a[..], first, dim, compute);
      BlockwiseProxStep(orig, a[..], first, dim, compute);
      ProxOneBlock(a, first, dim, aux, compute);
      first := first + dim;
    }
    BlockwiseDoneEnd(orig, a[..], first, dim, compute);
  }

  /**
   * `dot_prox_prox`: hi^2 |upper| + t^2 |middle| + lo^2 |lower|
   * + sum_M x^2 - 2 t sum_M x, computed on the reordered buffer.
   */
  function DotProxProx(th: Thresholds, s: seq<real>): real
    requires th.first <= th.last <= |s|
  {
    var numHi := th.first as real;
    var numMi := (th.last - th.first) as real;
    var numLo := (|s| - th.last) as real;
    th.hi * th.hi * numHi + th.t * th.t * numMi + th.lo * th.lo * numLo
      + SumSq(s[th.first..th.last]) - 2.0 * (th.t * Sum(s[th.first..th.last]))
  }

  /** `dot_x_prox`: hi sum_upper x - t sum_M x + lo sum_lower x + sum_M x^2. */
  function DotXProx(th: Thresholds, s: seq<real>): real
    requires th.first <= th.last <= |s|
  {
    th.hi * Sum(s[..th.first]) - th.t * Sum(s[th.first..th.last])
      + th.lo * Sum(s[th.last..]) + SumSq(s[th.first..th.last])
  }

  /**
   * The reordered buffer agrees with the thresholds: upper entries are clamped
   * to hi, middle entries lie within the bounds, lower entries are clamped to lo.
   */
  ghost predicate Consistent(s: seq<real>, th: Thresholds)
  {
    th.first <= th.last <= |s| && th.lo <= th.hi
    && (forall i :: 0 <= i < th.first ==> s[i] - th.t >= th.hi)
    && (forall i :: th.first <= i < th.last ==> th.lo <= s[i] - th.t <= th.hi)
    && (forall i :: th.last <= i < |s| ==> s[i] - th.t <= th.lo)
  }

  lemma {:induction false} SumSqConstant(s: seq<real>, c: real)
    requires forall i :: 0 <= i < |s| ==> s[i] == c
    ensures SumSq(s) == c * c * (|s| as real)
    decreases |s|
  {
    if |s| > 0 {
      SumSqConstant(s[..|s| - 1], c);
      assert c * c * (|s| as real) == c * c * ((|s| - 1) as real) + c * c;
    }
  }

  /** Shifting every entry by -t expands the sum of squares. */
  lemma {:induction false} SumSqShift(s: seq<real>, u: seq<real>, t: real)
    requires |u| == |s| && forall i :: 0 <= i < |s| ==> u[i] == s[i] - t
    ensures SumSq(u) == t * t * (|s| as real) + SumSq(s) - 2.0 * (t * Sum(s))
  {
    DotShift(s, u, t);
    SumSqAsDot(s, u, t);
    SumShift(s, u, t);
    TimesMul(|s|, t);
    ShiftCombine(s, u, t);
  }

  /** The three expansions of SumSqShift, added up. */
  lemma {:induction false} ShiftCombine(s: seq<real>, u: seq<real>, t: real)
    requires |u| == |s|
    requires Dot(s, u) == SumSq(s) - t * Sum(s) && SumSq(u) == Dot(s, u) - t * Sum(u)
    requires Sum(u) == Sum(s) - Times(|s|, t) && Times(|s|, t) == (|s| as real) * t
    ensures SumSq(u) == t * t * (|s| as real) + SumSq(s) - 2.0 * (t * Sum(s))
  {
    ShiftAlgebra(t, |s| as real, SumSq(u), Dot(s, u), SumSq(s), Sum(s), Sum(u));
  }

  /** Each (s_i - t)^2 is s_i (s_i - t) - t (s_i - t). */
  lemma {:induction false} SumSqAsDot(s: seq<real>, u: seq<real>, t: real)
    requires |u| == |s| && forall i :: 0 <= i < |s| ==> u[i] == s[i] - t
    ensures SumSq(u) == Dot(s, u) - t * Sum(u)
    decreases |s|
  {
    if |s| > 0 {
      SumSqAsDot(s[..|s| - 1], u[..|u| - 1], t);
    }
  }

  lemma ShiftAlgebra(t: real, n: real, sqU: real, dot: real, sqS: real, sumS: real, sumU: real)
    requires dot == sqS - t * sumS && sqU == dot - t * sumU && sumU == sumS - n * t
    ensures sqU == t * t * n + sqS - 2.0 * (t * sumS)
  {
  }

  lemma {:induction false} DotConstant(s: seq<real>, u: seq<real>, c: real)
    requires |u| == |s| && forall i :: 0 <= i < |s| ==> u[i] == c
    ensures Dot(s, u) == c * Sum(s)
    decreases |s|
  {
    if |s| > 0 {
      DotConstant(s[..|s| - 1], u[..|u| - 1], c);
    }
  }

  lemma {:induction false} DotShift(s: seq<real>, u: seq<real>, t: real)
    requires |u| == |s| && forall i :: 0 <= i < |s| ==> u[i] == s[i] - t
    ensures Dot(s, u) == SumSq(s) - t * Sum(s)
    decreases |s|
  {
    if |s| > 0 {
      DotShift(s[..|s| - 1], u[..|u| - 1], t);
    }
  }

  /**
   * p has the block shape of a projection with thresholds th: hi on the upper
   * block, x - t on the middle block, lo on the lower block.
   */
  ghost predicate BlockShaped(s: seq<real>, p: seq<real>, th: Thresholds)
  {
    |p| == |s| && th.first <= th.last <= |s|
    && (forall i :: 0 <= i < th.first ==> p[i] == th.hi)
    && (forall i :: th.first <= i < th.last ==> p[i] == s[i] - th.t)
    && (forall i :: th.last <= i < |s| ==> p[i] == th.lo)
  }

  /** On a consistent buffer prox(x) has the block shape of its thresholds. */
  lemma {:induction false} ConsistentShaped(th: Thresholds, s: seq<real>)
    requires Consistent(s, th)
    ensures BlockShaped(s, ProxSeq(s, th), th)
  {
    forall i | 0 <= i < |s| {
      ClampSpec(s[i], th);
    }
  }

  /** The sum of squares of a block-shaped p, block by block. */
  lemma {:induction false} SumSqShapedParts(s: seq<real>, p: seq<real>, th: Thresholds)
    requires BlockShaped(s, p, th)
    ensures SumSq(p) == SumSq(p[..th.first]) + SumSq(p[th.first..th.last]) + SumSq(p[th.last..])
  {
    var f, l := th.first, th.last;
    assert p == p[..f] + p[f..l] + p[l..];
    SumSqConcat(p[..f] + p[f..l], p[l..]);
    SumSqConcat(p[..f], p[f..l]);
    assert (p[..f] + p[f..l])[..f] == p[..f];
  }

  lemma {:induction false} SumSqShapedUpper(s: seq<real>, p: seq<real>, th: Thresholds)
    requires BlockShaped(s, p, th)
    ensures SumSq(p[..th.first]) == th.hi * th.hi * (th.first as real)
  {
    SumSqConstant(p[..th.first], th.hi);
  }

  lemma {:induction false} SumSqShapedMiddle(s: seq<real>, p: seq<real>, th: Thresholds)
    requires BlockShaped(s, p, th)
    ensures SumSq(p[th.first..th.last]) == th.t * th.t * ((th.last - th.first) as real)
      + SumSq(s[th.first..th.last]) - 2.0 * (th.t * Sum(s[th.first..th.last]))
  {
    SumSqShift(s[th.first..th.last], p[th.first..th.last], th.t);
  }

  lemma {:induction false} SumSqShapedLower(s: seq<real>, p: seq<real>, th: Thresholds)
    requires BlockShaped(s, p, th)
    ensures SumSq(p[th.last..]) == th.lo * th.lo * ((|s| - th.last) as real)
  {
    SumSqConstant(p[th.last..], th.lo);
  }

  lemma {:induction false} DotProxProxUnfold(th: Thresholds, s: seq<real>, v: real)
    requires th.first <= th.last <= |s|
    requires v == th.hi * th.hi * (th.first as real) + th.t * th.t * ((th.last - th.first) as real)
      + th.lo * th.lo * ((|s| - th.last) as real)
      + SumSq(s[th.first..th.last]) - 2.0 * (th.t * Sum(s[th.first..th.last]))
    ensures v == DotProxProx(th, s)
  {
  }

  lemma {:induction false} SumSqShaped(s: seq<real>, p: seq<real>, th: Thresholds)
    requires BlockShaped(s, p, th)
    ensures SumSq(p) == DotProxProx(th, s)
  {
    SumSqShapedParts(s, p, th);
    SumSqShapedUpper(s, p, th);
    SumSqShapedMiddle(s, p, th);
    SumSqShapedLower(s, p, th);
    DotProxProxUnfold(th, s, SumSq(p));
  }

  lemma {:induction false} DotShapedParts(s: seq<real>, p: seq<real>, th: Thresholds)
    requires BlockShaped(s, p, th)
    ensures Dot(s, p) == Dot(s[..th.first], p[..th.first])
      + Dot(s[th.first..th.last], p[th.first..th.last]) + Dot(s[th.last..], p[th.last..])
  {
    var f, l := th.first, th.last;
    assert p == p[..f] + p[f..l] + p[l..];
    assert s == s[..f] + s[f..l] + s[l..];
    DotConcat(s[..f] + s[f..l], s[l..], p[..f] + p[f..l], p[l..]);
    DotConcat(s[..f], s[f..l], p[..f], p[f..l]);
  }

  lemma {:induction false} DotShapedUpper(s: seq<real>, p: seq<real>, th: Thresholds)
    requires BlockShaped(s, p, th)
    ensures Dot(s[..th.first], p[..th.first]) == th.hi * Sum(s[..th.first])
  {
    DotConstant(s[..th.first], p[..th.first], th.hi);
  }

  lemma {:induction false} DotShapedMiddle(s: seq<real>, p: seq<real>, th: Thresholds)
    requires BlockShaped(s, p, th)
    ensures Dot(s[th.first..th.last], p[th.first..th.last])
      == SumSq(s[th.first..th.last]) - th.t * Sum(s[th.first..th.last])
  {
    DotShift(s[th.first..th.last], p[th.first..th.last], th.t);
  }

  lemma {:induction false} DotShapedLower(s: seq<real>, p: seq<real>, th: Thresholds)
    requires BlockShaped(s, p, th)
    ensures Dot(s[th.last..], p[th.last..]) == th.lo * Sum(s[th.last..])
  {
    DotConstant(s[th.last..], p[th.last..], th.lo);
  }

  lemma {:induction false} DotXProxUnfold(th: Thresholds, s: seq<real>, v: real)
    requires th.first <= th.last <= |s|
    requires v == th.hi * Sum(s[..th.first]) + (SumSq(s[th.first..th.last]) - th.t * Sum(s[th.first..th.last]))
      + th.lo * Sum(s[th.last..])
    ensures v == DotXProx(th, s)
  {
  }

  lemma {:induction false} DotShaped(s: seq<real>, p: seq<real>, th: Thresholds)
    requires BlockShaped(s, p, th)
    ensures Dot(s, p) == DotXProx(th, s)
  {
    DotShapedParts(s, p, th);
    DotShapedUpper(s, p, th);
    DotShapedMiddle(s, p, th);
    DotShapedLower(s, p, th);
    DotXProxUnfold(th, s, Dot(s, p));
  }

  /** dot_prox_prox is <prox(x), prox(x)> when the buffer is consistent. */
  lemma {:induction false} DotProxProxCorrect(th: Thresholds, s: seq<real>)
    requires Consistent(s, th)
    ensures DotProxProx(th, s) == SumSq(ProxSeq(s, th))
  {
    ConsistentShaped(th, s);
    SumSqShaped(s, ProxSeq(s, th), th);
  }

  /** dot_x_prox is <x, prox(x)> when the buffer is consistent. */
  lemma {:induction false} DotXProxCorrect(th: Thresholds, s: seq<real>)
    requires Consistent(s, th)
    ensures DotXProx(th, s) == Dot(s, ProxSeq(s, th))
  {
    ConsistentShaped(th, s);
    DotShaped(s, ProxSeq(s, th), th);
  }

  /** The smoothed losses' value <h, p> - 1/2 <p, p>, read off the two threshold folds. */
  function SmoothLoss(th: Thresholds, h: seq<real>): real
    requires th.first <= th.last <= |h|
  {
    DotXProx(th, h) - 0.5 * DotProxProx(th, h)
  }

  /** On a buffer consistent with its thresholds the folds are <h, p> - 1/2 <p, p>, p = prox(h). */
  lemma {:induction false} SmoothLossCorrect(th: Thresholds, h: seq<real>)
    requires Consistent(h, th)
    ensures SmoothLoss(th, h) == Dot(h, ProxSeq(h, th)) - 0.5 * SumSq(ProxSeq(h, th))
  {
    DotXProxCorrect(th, h);
    DotProxProxCorrect(th, h);
  }
  /**
   * The zero thresholds project every entry to 0, and both folds vanish, so
   * the smoothed loss is <h, p> - 1/2 <p, p> = 0 on any buffer.
   */
  lemma {:induction false} ZeroThresholdsLoss(h: seq<real>)
    ensures SmoothLoss(ZeroThresholds, h) == Dot(h, ProxSeq(h, ZeroThresholds)) - 0.5 * SumSq(ProxSeq(h, ZeroThresholds))
    ensures SmoothLoss(ZeroThresholds, h) == 0.0
  {
    var p := ProxSeq(h, ZeroThresholds);
    DotConstant(h, p, 0.0);
    SumSqConstant(p, 0.0);
    assert h[0..0] == [];
  }


  /** SmoothLossCorrect, read as an implication. */
  lemma {:induction false} ConsistentSmoothLoss(th: Thresholds, h: seq<real>)
    requires th.first <= th.last <= |h|
    ensures Consistent(h, th)
            ==> SmoothLoss(th, h) == Dot(h, ProxSeq(h, th)) - 0.5 * SumSq(ProxSeq(h, th))
  {
    if Consistent(h, th) {
      SmoothLossCorrect(th, h);
    }
  }

  /**
   * The sum of a block-shaped projection, read off the thresholds:
   * hi |upper| + (sum_M x - t |M|) + lo |lower| (each count times a value
   * written with Times, see Numeric).
   */
  ghost function ShapedSum(th: Thresholds, s: seq<real>): real
    requires th.first <= th.last <= |s|
  {
    Times(th.first, th.hi)
      + (Sum(s[th.first..th.last]) - Times(th.last - th.first, th.t))
      + Times(|s| - th.last, th.lo)
  }

  lemma {:induction false} SumShift(s: seq<real>, u: seq<real>, t: real)
    requires |u| == |s| && forall i :: 0 <= i < |s| ==> u[i] == s[i] - t
    ensures Sum(u) == Sum(s) - Times(|s|, t)
    decreases |s|
  {
    if |s| > 0 {
      SumShift(s[..|s| - 1], u[..|u| - 1], t);
    }
  }

  lemma {:induction false} SumShapedParts(s: seq<real>, p: seq<real>, th: Thresholds)
    requires BlockShaped(s, p, th)
    ensures Sum(p) == Sum(p[..th.first]) + Sum(p[th.first..th.last]) + Sum(p[th.last..])
  {
    var f, l := th.first, th.last;
    assert p == p[..f] + p[f..l] + p[l..];
    SumConcat(p[..f] + p[f..l], p[l..]);
    SumConcat(p[..f], p[f..l]);
  }

  lemma {:induction false} SumShapedUpper(s: seq<real>, p: seq<real>, th: Thresholds)
    requires BlockShaped(s, p, th)
    ensures Sum(p[..th.first]) == Times(th.first, th.hi)
  {
    SumConst(p[..th.first], th.hi);
  }

  lemma {:induction false} SumShapedMiddle(s: seq<real>, p: seq<real>, th: Thresholds)
    requires BlockShaped(s, p, th)
    ensures Sum(p[th.first..th.last])
      == Sum(s[th.first..th.last]) - Times(th.last - th.first, th.t)
  {
    SumShift(s[th.first..th.last], p[th.first..th.last], th.t);
  }

  lemma {:induction false} SumShapedLower(s: seq<real>, p: seq<real>, th: Thresholds)
    requires BlockShaped(s, p, th)
    ensures Sum(p[th.last..]) == Times(|s| - th.last, th.lo)
  {
    SumConst(p[th.last..], th.lo);
  }

  lemma {:induction false} ShapedSumUnfold(th: Thresholds, s: seq<real>, v: real)
    requires th.first <= th.last <= |s|
    requires v == Times(th.first, th.hi)
      + (Sum(s[th.first..th.last]) - Times(th.last - th.first, th.t))
      + Times(|s| - th.last, th.lo)
    ensures v == ShapedSum(th, s)
  {
  }

  lemma {:induction false} SumShaped(s: seq<real>, p: seq<real>, th: Thresholds)
    requires BlockShaped(s, p, th)
    ensures Sum(p) == ShapedSum(th, s)
  {
    SumShapedParts(s, p, th);
    SumShapedUpper(s, p, th);
    SumShapedMiddle(s, p, th);
    SumShapedLower(s, p, th);
    ShapedSumUnfold(th, s, Sum(p));
  }

  /**
   * The buffer agrees with the thresholds up to eps, as a search with
   * tolerance eps leaves it: upper entries reach hi - eps after the shift,
   * middle entries lie in [lo - eps, hi + eps], lower entries stay below
   * lo + eps.
   */
  ghost predicate NearlyConsistent(s: seq<real>, th: Thresholds, eps: real)
  {
    th.first <= th.last <= |s|
    && (forall i :: 0 <= i < th.first ==> s[i] - th.t >= th.hi - eps)
    && (forall i :: th.first <= i < th.last ==> th.lo - eps <= s[i] - th.t <= th.hi + eps)
    && (forall i :: th.last <= i < |s| ==> s[i] - th.t <= th.lo + eps)
  }

  /** The shape's own values: hi on the upper block, x - t in the middle, lo below. */
  function ShapeOf(s: seq<real>, th: Thresholds): (q: seq<real>)
    requires th.first <= th.last <= |s|
    ensures BlockShaped(s, q, th)
  {
    seq(|s|, i requires 0 <= i < |s| =>
      if i < th.first then th.hi else if i < th.last then s[i] - th.t else th.lo)
  }

  /** Each projected entry of a nearly consistent buffer is within eps of the shape. */
  lemma ClampNear(s: seq<real>, th: Thresholds, eps: real, i: nat)
    requires NearlyConsistent(s, th, eps) && eps >= 0.0 && i < |s|
    ensures ShapeOf(s, th)[i] - eps <= Clamp(s[i], th)
    ensures th.lo <= th.hi ==> Clamp(s[i], th) <= ShapeOf(s, th)[i] + eps
  {
  }

  /**
   * On a nearly consistent buffer each projected entry is within eps of the
   * shape, so the projection's sum is within |s| eps of ShapedSum (from
   * above only when lo <= hi, since an upper entry is clamped to hi).
   */
  lemma {:induction false} SumProxNear(th: Thresholds, s: seq<real>, eps: real)
    requires NearlyConsistent(s, th, eps) && eps >= 0.0
    ensures ShapedSum(th, s) - Times(|s|, eps) <= Sum(ProxSeq(s, th))
    ensures th.lo <= th.hi ==> Sum(ProxSeq(s, th)) <= ShapedSum(th, s) + Times(|s|, eps)
  {
    SumProxNearBelow(th, s, eps);
    if th.lo <= th.hi {
      SumProxNearAbove(th, s, eps);
    }
  }

  lemma {:induction false} SumProxNearBelow(th: Thresholds, s: seq<real>, eps: real)
    requires NearlyConsistent(s, th, eps) && eps >= 0.0
    ensures ShapedSum(th, s) - Times(|s|, eps) <= Sum(ProxSeq(s, th))
  {
    var p, q := ProxSeq(s, th), ShapeOf(s, th);
    SumShaped(s, q, th);
    var below := seq(|s|, i requires 0 <= i < |s| => q[i] - eps);
    SumShift(q, below, eps);
    forall i | 0 <= i < |s|
      ensures below[i] <= p[i]
    {
      ClampNear(s, th, eps, i);
    }
    SumMonotone(below, p);
  }

  lemma {:induction false} SumProxNearAbove(th: Thresholds, s: seq<real>, eps: real)
    requires NearlyConsistent(s, th, eps) && eps >= 0.0 && th.lo <= th.hi
    ensures Sum(ProxSeq(s, th)) <= ShapedSum(th, s) + Times(|s|, eps)
  {
    var p, q := ProxSeq(s, th), ShapeOf(s, th);
    SumShaped(s, q, th);
    var above := seq(|s|, i requires 0 <= i < |s| => q[i] - (-eps));
    SumShift(q, above, -eps);
    forall i | 0 <= i < |s|
      ensures p[i] <= above[i]
    {
      ClampNear(s, th, eps, i);
    }
    SumMonotone(p, above);
    TimesMul(|s|, eps);
    TimesMul(|s|, -eps);
  }

  /** With an empty middle at either end, the shape is all hi or all lo. */
  lemma {:induction false} ShapedSumEnds(th: Thresholds, s: seq<real>)
    requires th.first <= th.last <= |s|
    ensures th.first == th.last == |s| ==> ShapedSum(th, s) == Times(|s|, th.hi)
    ensures th.first == th.last == 0 ==> ShapedSum(th, s) == Times(|s|, th.lo)
  {
    assert s[th.first..th.first] == [];
  }

  /** On a consistent buffer the projection sums to ShapedSum. */
  lemma {:induction false} SumProxCorrect(th: Thresholds, s: seq<real>)
    requires Consistent(s, th)
    ensures Sum(ProxSeq(s, th)) == ShapedSum(th, s)
  {
    ConsistentShaped(th, s);
    SumShaped(s, ProxSeq(s, th), th);
  }

  /** `apply(first, last, functor)`: replaces every entry x by functor(x). */
  method Apply(a: array<real>, lo: nat, hi: nat, f: real -> real)
    requires lo <= hi <= a.Length
    modifies a
    ensures forall i :: lo <= i < hi ==> a[i] == f(old(a[i]))
    ensures forall i :: 0 <= i < a.Length && !(lo <= i < hi) ==> a[i] == old(a[i])
  {
    var i := lo;
    while i < hi
      invariant lo <= i <= hi
      invariant forall j :: lo <= j < i ==> a[j] == f(old(a[j]))
      invariant forall j :: 0 <= j < a.Length && !(lo <= j < i) ==> a[j] == old(a[j])
    {
      a[i] := f(a[i]);
      i := i + 1;
    }
  }

  /** The block-wise `apply(dim, ...)`: the same map, one block of length dim at a time. */
  method ApplyBlockwise(dim: nat, a: array<real>, f: real -> real)
    requires dim > 0 && a.Length % dim == 0
    modifies a
    ensures forall i :: 0 <= i < a.Length ==> a[i] == f(old(a[i]))
  {
    MultipleOfMod(a.Length, dim);
    var first := 0;
    while first < a.Length
      invariant first <= a.Length && MultipleOf(a.Length - first, dim)
      invariant forall i :: 0 <= i < first ==> a[i] == f(old(a[i]))
      invariant forall i :: first <= i < a.Length ==> a[i] == old(a[i])
      decreases a.Length - first
    {
      Apply(a, first, first + dim, f);
      first := first + dim;
    }
  }
}
