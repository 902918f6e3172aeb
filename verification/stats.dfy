/** Sums, means and extremes of price lists (Python's sum, min and max builtins). */
module Stats {

  function Sum(s: seq<real>): real
  {
    if s == [] then 0.0 else s[0] + Sum(s[1..])
  }

  function Mean(s: seq<real>): real
    requires s != []
  {
    Sum(s) / |s| as real
  }

  /** Smallest element, as Python's min. */
  function Min(s: seq<real>): (m: real)
    requires s != []
    ensures m in s
    ensures forall x :: x in s ==> m <= x
  {
    if |s| == 1 then s[0]
    else
      var rest := Min(s[1..]);
      assert s == [s[0]] + s[1..];
      if s[0] <= rest then s[0] else rest
  }

  /** Largest element, as Python's max. */
  function Max(s: seq<real>): (m: real)
    requires s != []
    ensures m in s
    ensures forall x :: x in s ==> x <= m
  {
    if |s| == 1 then s[0]
    else
      var rest := Max(s[1..]);
      assert s == [s[0]] + s[1..];
      if s[0] >= rest then s[0] else rest
  }

  /** The last min(k, |s|) elements, as Python's s[-k:] for k >= 1. */
  function LastN(s: seq<real>, k: nat): (t: seq<real>)
    ensures |t| == if |s| < k then |s| else k
  {
    if |s| <= k then s else s[|s| - k..]
  }

  /** Every element shifted by d. */
  function Shift(s: seq<real>, d: real): (t: seq<real>)
    ensures |t| == |s|
    ensures forall i :: 0 <= i < |s| ==> t[i] == s[i] + d
  {
    seq(|s|, i requires 0 <= i < |s| => s[i] + d)
  }

  /** All elements equal c. */
  predicate Flat(s: seq<real>, c: real)
  {
    forall i :: 0 <= i < |s| ==> s[i] == c
  }

  /** A sum of values in [lo, hi] lies in [n*lo, n*hi]. */
  lemma {:induction false} SumBetween(s: seq<real>, lo: real, hi: real)
    requires forall i :: 0 <= i < |s| ==> lo <= s[i] <= hi
    ensures |s| as real * lo <= Sum(s) <= |s| as real * hi
  {
    if s != [] {
      SumBetween(s[1..], lo, hi);
    }
  }

  /** The mean lies between the smallest and the largest element. */
  lemma MeanBetween(s: seq<real>)
    requires s != []
    ensures Min(s) <= Mean(s) <= Max(s)
  {
    var lo, hi := Min(s), Max(s);
    forall i | 0 <= i < |s| ensures lo <= s[i] <= hi {
      assert s[i] in s;
    }
    SumBetween(s, lo, hi);
    DivideBetween(Sum(s), |s| as real, lo, hi);
  }

  /** From n*lo <= x <= n*hi with n > 0 follows lo <= x/n <= hi. */
  lemma DivideBetween(x: real, n: real, lo: real, hi: real)
    requires n > 0.0 && n * lo <= x <= n * hi
    ensures lo <= x / n <= hi
  {
    assert x / n * n == x;
  }

  /** The sum of a flat list is its length times the value. */
  lemma {:induction false} SumFlat(s: seq<real>, c: real)
    requires Flat(s, c)
    ensures Sum(s) == |s| as real * c
  {
    if s != [] {
      SumFlat(s[1..], c);
    }
  }

  /** Comparing a quotient with a constant is comparing the numerator with
      the scaled constant, when the divisor is positive. */
  lemma QuotientCompare(x: real, w: real, c: real)
    requires w > 0.0
    ensures x / w > c <==> x > c * w
    ensures x / w < c <==> x < c * w
    ensures x / w == c <==> x == c * w
  {
    var q := x / w;
    assert q * w == x;
    if q > c {
      assert (q - c) * w > 0.0;
    } else if q < c {
      assert (c - q) * w > 0.0;
    }
  }
}
