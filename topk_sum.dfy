/**
 * Sums over the k largest entries of a vector, as the top-k hinge losses
 * compute them: `std::nth_element` with `std::greater` brings some k largest
 * entries to the front, in an unspecified order and with ties broken
 * arbitrarily. The lemmas here show that any such arrangement yields the same
 * multiset of top entries, so every sum over them is a function of the input.
 */
module TopkSum {
  import opened Numeric
  import opened Reorder

  /** Every entry of the first k is at least every entry after them. */
  ghost predicate TopBlock(p: seq<real>, k: nat)
  {
    k <= |p| && forall i, j :: 0 <= i < k <= j < |p| ==> p[i] >= p[j]
  }

  /** p is a reordering of h with some k largest entries of h in front. */
  ghost predicate IsTopkArrangement(h: seq<real>, p: seq<real>, k: nat)
  {
    |p| == |h| && multiset(p) == multiset(h) && TopBlock(p, k)
  }

  /** The positive part max{0, x}. */
  function Pos(x: real): (r: real)
    ensures r >= 0.0 && r >= x
    ensures r == 0.0 || r == x
  {
    if x > 0.0 then x else 0.0
  }

  /** A multiset contained in another of the same size is equal to it. */
  lemma {:induction false} MultisetLeSameSize(a: multiset<real>, b: multiset<real>)
    requires a <= b && |a| == |b|
    ensures a == b
  {
    assert b == a + (b - a);
    assert |b - a| == 0;
  }

  /** Of two different multisets of the same size, the first has more of some element. */
  lemma {:induction false} MultisetExcess(a: multiset<real>, b: multiset<real>)
    requires |a| == |b| && a != b
    ensures exists z :: a[z] > b[z]
  {
    if forall z :: a[z] <= b[z] {
      MultisetLeSameSize(a, b);
    }
  }

  /** Two multisets of the same size that differ have an element each has more of. */
  lemma {:induction false} MultisetImbalance(mp: multiset<real>, mq: multiset<real>) returns (x: real, y: real)
    requires |mp| == |mq| && mp != mq
    ensures mp[x] > mq[x] && mq[y] > mp[y]
  {
    MultisetExcess(mp, mq);
    MultisetExcess(mq, mp);
    x :| mp[x] > mq[x];
    y :| mq[y] > mp[y];
  }

  /** An entry of the top block is at least an entry of the rest. */
  lemma {:induction false} TopAtLeastRest(p: seq<real>, k: nat, x: real, y: real)
    requires TopBlock(p, k)
    requires x in multiset(p[..k]) && y in multiset(p[k..])
    ensures x >= y
  {
    assert x in p[..k];
    assert y in p[k..];
    var i :| 0 <= i < k && p[i] == x;
    var j :| 0 <= j < |p[k..]| && p[k..][j] == y;
    assert p[k + j] == y;
  }

  /**
   * The top block is determined: two arrangements of the same entries with
   * k largest in front have the same multiset of front entries.
   */
  lemma {:induction false} TopBlockUnique(p: seq<real>, q: seq<real>, k: nat)
    requires multiset(p) == multiset(q) && TopBlock(p, k) && TopBlock(q, k)
    ensures multiset(p[..k]) == multiset(q[..k])
  {
    assert p == p[..k] + p[k..];
    assert q == q[..k] + q[k..];
    var mp, mq := multiset(p[..k]), multiset(q[..k]);
    var rp, rq := multiset(p[k..]), multiset(q[k..]);
    assert mp + rp == mq + rq;
    if mp != mq {
      var x, y := MultisetImbalance(mp, mq);
      assert (mp + rp)[x] == (mq + rq)[x] && (mp + rp)[y] == (mq + rq)[y];
      assert rq[x] > rp[x];
      assert rp[y] > rq[y];
      TopAtLeastRest(p, k, x, y);
      TopAtLeastRest(q, k, y, x);
      assert false;
    }
  }

  /** Any sum of mapped top entries is the same for every top-k arrangement of h. */
  lemma {:induction false} TopSumUnique(h: seq<real>, p: seq<real>, q: seq<real>, k: nat, f: real -> real)
    requires IsTopkArrangement(h, p, k) && IsTopkArrangement(h, q, k)
    ensures Sum(Map(p[..k], f)) == Sum(Map(q[..k], f))
  {
    TopBlockUnique(p, q, k);
    SumMapPermutation(p[..k], q[..k], f);
  }

  /** Permuting only the top block keeps it a top block. */
  lemma {:induction false} TopBlockPermuteFront(p: seq<real>, q: seq<real>, k: nat)
    requires TopBlock(p, k) && PermutedWithin(p, q, 0, k)
    ensures TopBlock(q, k)
  {
    forall i, j | 0 <= i < k <= j < |q|
      ensures q[i] >= q[j]
    {
      assert q[i] in multiset(q[..k]);
      assert q[i] in multiset(p[..k]);
      assert q[j] == p[j];
      TopAtLeastRest(p, k, q[i], p[j]) by {
        assert p[j] == p[k..][j - k];
      }
    }
  }

  /** A descending sort puts k largest entries in front, for every k. */
  lemma {:induction false} SortedTopBlock(p: seq<real>, k: nat)
    requires SortedDesc(p) && k <= |p|
    ensures TopBlock(p, k)
  {
  }

  /** Mapping the identity changes nothing. */
  lemma {:induction false} MapIdentity(s: seq<real>)
    ensures Map(s, x => x) == s
  {
  }

  /** A range split at mid into positive entries and non-positive ones sums its positive parts. */
  lemma {:induction false} PositivePrefixSum(s: seq<real>, mid: nat)
    requires mid <= |s|
    requires forall i :: 0 <= i < mid ==> s[i] > 0.0
    requires forall i :: mid <= i < |s| ==> s[i] <= 0.0
    ensures Sum(s[..mid]) == Sum(Map(s, Pos))
    decreases |s|
  {
    if |s| == mid {
      assert s[..mid] == s;
      forall i | 0 <= i < |s|
        ensures Map(s, Pos)[i] == s[i]
      {
        assert Map(s, Pos)[i] == Pos(s[i]);
      }
      assert Map(s, Pos) == s;
    } else {
      var n := |s| - 1;
      PositivePrefixSum(s[..n], mid);
      assert s[..n][..mid] == s[..mid];
      var m := Map(s, Pos);
      assert m[..n] == Map(s[..n], Pos);
      assert m[n] == Pos(s[n]) == 0.0;
      assert Sum(m) == Sum(m[..n]) + m[n];
    }
  }

  /** The positive parts of a block sum to at least the block and at least 0. */
  lemma {:induction false} PosSumBounds(s: seq<real>)
    ensures Sum(s) <= Sum(Map(s, Pos))
    ensures 0.0 <= Sum(Map(s, Pos))
  {
    SumMonotone(s, Map(s, Pos));
    SumNonNegative(Map(s, Pos));
  }
}
