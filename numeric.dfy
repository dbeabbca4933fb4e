/**
 * Exact-arithmetic building blocks shared by the whole model: finite sums of
 * reals (the `std::accumulate` and Kahan/standard summation of the library,
 * which coincide over exact reals), min/max/abs, and the extended reals the
 * solvers use for their +/- infinity initial values.
 */
module Numeric {

  function Max(x: real, y: real): real { if x >= y then x else y }
  function Min(x: real, y: real): real { if x <= y then x else y }
  function Abs(x: real): real { if x >= 0.0 then x else -x }

  /** Left-to-right sum, the order in which `std::accumulate` adds. */
  function Sum(s: seq<real>): real
    decreases |s|
  {
    if |s| == 0 then 0.0 else Sum(s[..|s| - 1]) + s[|s| - 1]
  }

  /** Sum of squares, the `dot(x, x)` of the library. */
  function SumSq(s: seq<real>): real
    decreases |s|
  {
    if |s| == 0 then 0.0 else SumSq(s[..|s| - 1]) + s[|s| - 1] * s[|s| - 1]
  }

  lemma {:induction false} SumConcat(a: seq<real>, b: seq<real>)
    ensures Sum(a + b) == Sum(a) + Sum(b)
    decreases |b|
  {
    if |b| == 0 {
      assert a + b == a;
    } else {
      assert (a + b)[..|a + b| - 1] == a + b[..|b| - 1];
      SumConcat(a, b[..|b| - 1]);
    }
  }

  lemma {:induction false} SumSqConcat(a: seq<real>, b: seq<real>)
    ensures SumSq(a + b) == SumSq(a) + SumSq(b)
    decreases |b|
  {
    if |b| == 0 {
      assert a + b == a;
    } else {
      assert (a + b)[..|a + b| - 1] == a + b[..|b| - 1];
      SumSqConcat(a, b[..|b| - 1]);
    }
  }

  /** Splitting a range at an inner point splits its sum. */
  lemma {:induction false} SumSplit(s: seq<real>, i: nat, j: nat, k: nat)
    requires i <= j <= k <= |s|
    ensures Sum(s[i..k]) == Sum(s[i..j]) + Sum(s[j..k])
  {
    assert s[i..k] == s[i..j] + s[j..k];
    SumConcat(s[i..j], s[j..k]);
  }

  lemma {:induction false} SumSqSplit(s: seq<real>, i: nat, j: nat, k: nat)
    requires i <= j <= k <= |s|
    ensures SumSq(s[i..k]) == SumSq(s[i..j]) + SumSq(s[j..k])
  {
    assert s[i..k] == s[i..j] + s[j..k];
    SumSqConcat(s[i..j], s[j..k]);
  }

  /** Extending a prefix sum by one element, the step of every accumulating loop. */
  lemma {:induction false} SumStep(s: seq<real>, i: nat, j: nat)
    requires i <= j < |s|
    ensures Sum(s[i..j + 1]) == Sum(s[i..j]) + s[j]
  {
    assert s[i..j + 1][..j - i] == s[i..j];
  }

  /** A sum is invariant under permutation: partition and sort never change it. */
  lemma {:induction false} SumPermutation(a: seq<real>, b: seq<real>)
    requires multiset(a) == multiset(b)
    ensures Sum(a) == Sum(b)
    decreases |a|
  {
    if |a| == 0 {
      assert |b| == |multiset(b)| == 0;
    } else {
      var x := a[|a| - 1];
      assert x in multiset(b);
      var j :| 0 <= j < |b| && b[j] == x;
      var b' := b[..j] + b[j + 1..];
      assert b == b[..j] + [x] + b[j + 1..];
      assert a == a[..|a| - 1] + [x];
      calc {
        multiset(a[..|a| - 1]) + multiset{x};
        multiset(a);
        multiset(b);
        multiset(b[..j]) + multiset{x} + multiset(b[j + 1..]);
        multiset(b') + multiset{x};
      }
      assert multiset(a[..|a| - 1]) == multiset(a) - multiset{x};
      assert multiset(b') == multiset(b) - multiset{x};
      SumPermutation(a[..|a| - 1], b');
      SumConcat(b[..j] + [x], b[j + 1..]);
      SumConcat(b[..j], [x]);
      SumConcat(b[..j], b[j + 1..]);
      assert Sum([x]) == x by { assert [x][..0] == []; }
    }
  }

  /**
   * n copies of c added up, i.e. n * c. Proofs that combine several such
   * counts stay linear when they are written with Times.
   */
  function Times(n: nat, c: real): real
  {
    if n == 0 then 0.0 else Times(n - 1, c) + c
  }

  lemma {:induction false} TimesMul(n: nat, c: real)
    ensures Times(n, c) == (n as real) * c
  {
    if n > 0 {
      TimesMul(n - 1, c);
    }
  }

  lemma {:induction false} TimesAdd(m: nat, n: nat, c: real)
    ensures Times(m + n, c) == Times(m, c) + Times(n, c)
    decreases n
  {
    if n > 0 {
      TimesAdd(m, n - 1, c);
    }
  }

  /** Any number of zeros adds up to zero. */
  lemma {:induction false} TimesZero(n: nat)
    ensures Times(n, 0.0) == 0.0
  {
    if n > 0 {
      TimesZero(n - 1);
    }
  }

  /** Times over a count split at m. */
  lemma {:induction false} TimesSplit(m: nat, n: nat, c: real)
    requires m <= n
    ensures Times(n, c) == Times(m, c) + Times(n - m, c)
  {
    TimesAdd(m, n - m, c);
  }

  /** Times over a count k = m + n. */
  lemma {:induction false} TimesSum(m: nat, n: nat, k: nat, c: real)
    requires m + n == k
    ensures Times(k, c) == Times(m, c) + Times(n, c)
  {
    TimesAdd(m, n, c);
  }

  /** A product of a count and a value, read as Times. */
  lemma {:induction false} MulTimes(k: nat, c: real, v: real)
    requires (k as real) * c == v
    ensures Times(k, c) == v
  {
    TimesMul(k, c);
  }

  /** One more copy: the step of every loop that adds c once per element. */
  lemma {:induction false} MulSucc(n: nat, c: real)
    ensures ((n + 1) as real) * c == (n as real) * c + c
  {
  }

  /** Scaling by a non-negative factor keeps an inequality. */
  lemma MulMono(c: real, x: real, y: real)
    requires c >= 0.0 && x <= y
    ensures c * x <= c * y
  {
  }

  /** Dividing by a positive count and multiplying back. */
  lemma {:induction false} DivMul(x: real, k: nat)
    requires k > 0
    ensures (k as real) * (x / (k as real)) == x
  {
  }

  /** A sum of a constant sequence. */
  lemma {:induction false} SumConst(s: seq<real>, c: real)
    requires forall i :: 0 <= i < |s| ==> s[i] == c
    ensures Sum(s) == Times(|s|, c)
    decreases |s|
  {
    if |s| > 0 {
      SumConst(s[..|s| - 1], c);
    }
  }

  /** Every entry at least c: the sum is at least |s| c. */
  lemma {:induction false} SumAtLeast(s: seq<real>, c: real)
    requires forall i :: 0 <= i < |s| ==> c <= s[i]
    ensures (|s| as real) * c <= Sum(s)
    decreases |s|
  {
    if |s| > 0 {
      SumAtLeast(s[..|s| - 1], c);
      assert (|s| as real) * c == ((|s| - 1) as real) * c + c;
    }
  }

  /** Non-negative entries have a non-negative sum. */
  lemma {:induction false} SumNonNegative(s: seq<real>)
    requires forall i :: 0 <= i < |s| ==> 0.0 <= s[i]
    ensures 0.0 <= Sum(s)
    decreases |s|
  {
    if |s| > 0 {
      SumNonNegative(s[..|s| - 1]);
    }
  }

  /** Every entry at most c: the sum is at most |s| c. */
  lemma {:induction false} SumAtMost(s: seq<real>, c: real)
    requires forall i :: 0 <= i < |s| ==> s[i] <= c
    ensures Sum(s) <= (|s| as real) * c
    decreases |s|
  {
    if |s| > 0 {
      SumAtMost(s[..|s| - 1], c);
      assert (|s| as real) * c == ((|s| - 1) as real) * c + c;
    }
  }

  /** Pointwise comparison lifts to sums. */
  lemma {:induction false} SumMonotone(s: seq<real>, t: seq<real>)
    requires |s| == |t|
    requires forall i :: 0 <= i < |s| ==> s[i] <= t[i]
    ensures Sum(s) <= Sum(t)
    decreases |s|
  {
    if |s| > 0 {
      SumMonotone(s[..|s| - 1], t[..|t| - 1]);
    }
  }

  /** Inner product, the `dot(x, y)` of the library, accumulated left to right. */
  function Dot(a: seq<real>, b: seq<real>): real
    requires |a| == |b|
    decreases |a|
  {
    if |a| == 0 then 0.0 else Dot(a[..|a| - 1], b[..|b| - 1]) + a[|a| - 1] * b[|b| - 1]
  }

  lemma {:induction false} DotConcat(a: seq<real>, b: seq<real>, c: seq<real>, d: seq<real>)
    requires |a| == |c| && |b| == |d|
    ensures Dot(a + b, c + d) == Dot(a, c) + Dot(b, d)
    decreases |b|
  {
    if |b| == 0 {
      assert a + b == a;
      assert c + d == c;
    } else {
      assert (a + b)[..|a + b| - 1] == a + b[..|b| - 1];
      assert (c + d)[..|c + d| - 1] == c + d[..|d| - 1];
      DotConcat(a, b[..|b| - 1], c, d[..|d| - 1]);
    }
  }

  /** The inner product of a vector with itself is its sum of squares. */
  lemma {:induction false} DotSelf(a: seq<real>)
    ensures Dot(a, a) == SumSq(a)
    decreases |a|
  {
    if |a| > 0 {
      DotSelf(a[..|a| - 1]);
    }
  }

  /**
   * Extended reals: the solvers start from primal = +inf, dual = -inf and
   * report an infinite relative gap, which `real` cannot hold.
   */
  datatype XReal = Fin(value: real) | PosInf | NegInf
  {
    predicate IsFinite() { Fin? }

    function Neg(): XReal
    {
      match this
      case Fin(v) => Fin(-v)
      case PosInf => NegInf
      case NegInf => PosInf
    }

    function AbsX(): XReal
    {
      match this
      case Fin(v) => Fin(Abs(v))
      case _ => PosInf
    }

    predicate Leq(y: XReal)
    {
      match (this, y)
      case (NegInf, _) => true
      case (_, PosInf) => true
      case (Fin(u), Fin(v)) => u <= v
      case _ => false
    }
  }

  /** x + c for a finite c: infinities absorb it. */
  function XAdd(x: XReal, c: real): (r: XReal)
    ensures r.IsFinite() <==> x.IsFinite()
  {
    match x
    case Fin(v) => Fin(v + c)
    case _ => x
  }

  function MaxX(x: XReal, y: XReal): (r: XReal)
    ensures x.Leq(r) && y.Leq(r)
    ensures r == x || r == y
  {
    if y.Leq(x) then x else y
  }

  /** x - y with the IEEE rules for infinities; inf - inf has no value (None-like). */
  function SubX(x: XReal, y: XReal): XReal
    requires !(x == PosInf && y == PosInf) && !(x == NegInf && y == NegInf)
  {
    match (x, y)
    case (Fin(u), Fin(v)) => Fin(u - v)
    case (PosInf, _) => PosInf
    case (_, NegInf) => PosInf
    case (NegInf, _) => NegInf
    case (_, PosInf) => NegInf
  }

  /** Entries from k on that are at most c add at most c each to the head's total. */
  lemma {:induction false} SumTailAtMost(p: seq<real>, k: nat, c: real)
    requires k <= |p| && c >= 0.0
    requires forall i :: k <= i < |p| ==> p[i] <= c
    ensures Sum(p) <= Sum(p[..k]) + Times(|p|, c)
  {
    var tail := p[k..];
    assert p == p[..k] + tail;
    SumConcat(p[..k], tail);
    SumAtMost(tail, c);
    TimesMul(|p|, c);
    MulMono(c, |tail| as real, |p| as real);
  }

  /** Non-negative entries from k on never take from the head's total. */
  lemma {:induction false} SumTailNonNegative(p: seq<real>, k: nat)
    requires k <= |p|
    requires forall i :: k <= i < |p| ==> 0.0 <= p[i]
    ensures Sum(p[..k]) <= Sum(p)
  {
    var tail := p[k..];
    assert p == p[..k] + tail;
    SumConcat(p[..k], tail);
    SumNonNegative(tail);
  }
}
