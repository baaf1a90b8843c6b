/**
 * Sums of integer lists, the meaning of Python's `a + b + ...` over a fixed
 * list of fields and of JavaScript's `reduce((acc, v) => acc + v, 0)`.
 */
module Sums {

  /** Left-to-right sum, as reduce computes it. */
  function Sum(s: seq<int>): int {
    if s == [] then 0 else Sum(s[..|s| - 1]) + s[|s| - 1]
  }

  lemma {:induction false} SumAppend(s: seq<int>, t: seq<int>)
    ensures Sum(s + t) == Sum(s) + Sum(t)
    decreases |t|
  {
    if t == [] {
      assert s + t == s;
    } else {
      assert (s + t)[..|s + t| - 1] == s + t[..|t| - 1];
      assert (s + t)[|s + t| - 1] == t[|t| - 1];
      SumAppend(s, t[..|t| - 1]);
    }
  }

  /** Removing one element takes exactly that element out of the sum. */
  lemma {:induction false} SumRemove(s: seq<int>, i: nat)
    requires i < |s|
    ensures Sum(s) == s[i] + Sum(s[..i] + s[i + 1..])
  {
    assert s == s[..i] + [s[i]] + s[i + 1..];
    SumAppend(s[..i] + [s[i]], s[i + 1..]);
    SumAppend(s[..i], [s[i]]);
    SumAppend(s[..i], s[i + 1..]);
    assert Sum([s[i]]) == s[i] by {
      assert [s[i]][..0] == [];
    }
  }

  /** The sum does not depend on the order of the elements. */
  lemma {:induction false} SumPermutation(s: seq<int>, t: seq<int>)
    requires multiset(s) == multiset(t)
    ensures Sum(s) == Sum(t)
    decreases |s|
  {
    if s != [] {
      var x := s[|s| - 1];
      assert x in multiset(t);
      var i :| 0 <= i < |t| && t[i] == x;
      var s', t' := s[..|s| - 1], t[..i] + t[i + 1..];
      assert s == s' + [x];
      assert t == t[..i] + [x] + t[i + 1..];
      assert multiset(s) == multiset(s') + multiset{x};
      assert multiset(t) == multiset(t[..i]) + multiset{x} + multiset(t[i + 1..]);
      assert multiset(t') == multiset(t[..i]) + multiset(t[i + 1..]);
      assert multiset(s') == multiset(s) - multiset{x};
      assert multiset(t') == multiset(t) - multiset{x};
      SumPermutation(s', t');
      SumRemove(t, i);
    } else {
      assert |t| == |multiset(t)|;
    }
  }

  /** Each element lies between lo and hi. */
  predicate AllWithin(s: seq<int>, lo: int, hi: int) {
    forall i :: 0 <= i < |s| ==> lo <= s[i] <= hi
  }

  /** Bounded elements give a sum between |s| * lo and |s| * hi. */
  lemma {:induction false} SumBounds(s: seq<int>, lo: int, hi: int)
    requires AllWithin(s, lo, hi)
    ensures |s| * lo <= Sum(s) <= |s| * hi
  {
    if s != [] {
      var n := |s| - 1;
      assert AllWithin(s[..n], lo, hi);
      SumBounds(s[..n], lo, hi);
      assert lo <= s[n] <= hi;
      assert |s| * lo == n * lo + lo && |s| * hi == n * hi + hi;
    }
  }

  /** A list of one repeated value v sums to |s| * v. */
  lemma {:induction false} SumConstant(s: seq<int>, v: int)
    requires AllWithin(s, v, v)
    ensures Sum(s) == |s| * v
  {
    SumBounds(s, v, v);
  }

  /** Left-to-right sum of reals. */
  function RealSum(s: seq<real>): real {
    if s == [] then 0.0 else RealSum(s[..|s| - 1]) + s[|s| - 1]
  }

  predicate AllRealsWithin(s: seq<real>, lo: real, hi: real) {
    forall i :: 0 <= i < |s| ==> lo <= s[i] <= hi
  }

  /** Bounded elements give a sum between |s| * lo and |s| * hi. */
  lemma {:induction false} RealSumBounds(s: seq<real>, lo: real, hi: real)
    requires AllRealsWithin(s, lo, hi)
    ensures |s| as real * lo <= RealSum(s) <= |s| as real * hi
  {
    if s != [] {
      var n := |s| - 1;
      assert AllRealsWithin(s[..n], lo, hi);
      RealSumBounds(s[..n], lo, hi);
      assert lo <= s[n] <= hi;
      assert |s| as real * lo == n as real * lo + lo && |s| as real * hi == n as real * hi + hi;
    }
  }

  /** Integers summed as reals give the integer sum. */
  lemma {:induction false} RealSumOfInts(s: seq<int>, r: seq<real>)
    requires |r| == |s| && forall i :: 0 <= i < |s| ==> r[i] == s[i] as real
    ensures RealSum(r) == Sum(s) as real
  {
    if s != [] {
      RealSumOfInts(s[..|s| - 1], r[..|r| - 1]);
    }
  }
}
