/** Support and resistance levels (calculate_support_levels and
    calculate_resistance_levels). Both scan the last 50 prices for points that
    no neighbour within the window goes beyond, add the overall extreme, sort
    the distinct values with the most extreme first and keep the last three,
    i.e. the three least extreme levels. The two source functions differ only
    in the direction of every comparison, so the scan is written once for a
    Side. */
module Levels {
  import opened Stats

  datatype Side = Support | Resistance

  /** a lies strictly beyond b: below it for support, above it for resistance. */
  predicate Beyond(side: Side, a: real, b: real)
  {
    if side == Support then a < b else a > b
  }

  /** The overall minimum (support) or maximum (resistance). */
  function Extreme(side: Side, s: seq<real>): (e: real)
    requires s != []
    ensures e in s
    ensures forall x :: x in s ==> !Beyond(side, x, e)
  {
    if side == Support then Min(s) else Max(s)
  }

  /** The slice the scan looks at: the last 50 prices, or all of them. */
  function Recent(prices: seq<real>): (r: seq<real>)
    ensures |r| == if |prices| >= 50 then 50 else |prices|
    ensures forall x :: x in r ==> x in prices
  {
    if |prices| >= 50 then prices[|prices| - 50..] else prices
  }

  /** No point of r in [i - w, i + w) other than i itself lies beyond r[i]. */
  ghost predicate LocalExtreme(side: Side, r: seq<real>, i: int, w: nat)
    requires w <= i < |r| - w
  {
    forall j :: i - w <= j < i + w && j != i ==> !Beyond(side, r[j], r[i])
  }

  /** x is a level the scan can report: the overall extreme of r, or the value
      of a local extreme at an index the scan visits. */
  ghost predicate Candidate(side: Side, r: seq<real>, w: nat, x: real)
    requires r != []
  {
    x == Extreme(side, r) || exists i :: w <= i < |r| - w && r[i] == x && LocalExtreme(side, r, i, w)
  }

  /** Strictly ordered with the most extreme first: ascending for support,
      descending for resistance. */
  ghost predicate Ordered(side: Side, s: seq<real>)
  {
    forall i, j :: 0 <= i < j < |s| ==> Beyond(side, s[i], s[j])
  }

  /** Inserts x into an ordered list unless it is already there. */
  function Insert(side: Side, s: seq<real>, x: real): (t: seq<real>)
    requires Ordered(side, s)
    ensures Ordered(side, t)
    ensures forall y :: y in t <==> y in s || y == x
  {
    if s == [] then [x]
    else if s[0] == x then s
    else if Beyond(side, x, s[0]) then [x] + s
    else
      var rest := Insert(side, s[1..], x);
      assert forall y :: y in rest ==> Beyond(side, s[0], y) by {
        forall y | y in rest ensures Beyond(side, s[0], y) {
          if y != x {
            var k :| 0 < k < |s| && s[k] == y;
          }
        }
      }
      [s[0]] + rest
  }

  /** Python's sorted(set(xs)) in the order of the side. */
  method SortDistinct(side: Side, xs: seq<real>) returns (s: seq<real>)
    ensures Ordered(side, s)
    ensures forall x :: x in s <==> x in xs
  {
    s := [];
    var i := 0;
    while i < |xs|
      invariant 0 <= i <= |xs|
      invariant Ordered(side, s)
      invariant forall x :: x in s <==> x in xs[..i]
    {
      assert xs[..i + 1] == xs[..i] + [xs[i]];
      s := Insert(side, s, xs[i]);
      i := i + 1;
    }
    assert xs[..i] == xs;
  }

  /** The inner loop: no neighbour of r[i] within the window lies beyond it.
      The loop stops at the first neighbour that does. */
  method IsLocalExtreme(side: Side, r: seq<real>, i: int, w: nat) returns (isExtreme: bool)
    requires w <= i < |r| - w
    ensures isExtreme <==> LocalExtreme(side, r, i, w)
  {
    var current := r[i];
    isExtreme := true;
    var j := i - w;
    while j < i + w
      invariant i - w <= j <= i + w
      invariant forall m :: i - w <= m < j && m != i ==> !Beyond(side, r[m], current)
    {
      if j != i && Beyond(side, r[j], current) {
        isExtreme := false;
        break;
      }
      j := j + 1;
    }
  }

  /** The outer loop: the values of the local extremes of r, for every index
      at least a window away from both ends, in index order. */
  method LocalExtremes(side: Side, r: seq<real>, w: nat) returns (found: seq<real>)
    ensures forall x :: x in found ==> exists i :: w <= i < |r| - w && r[i] == x && LocalExtreme(side, r, i, w)
    ensures forall k :: w <= k < |r| - w && LocalExtreme(side, r, k, w) ==> r[k] in found
  {
    found := [];
    var i := w;
    while i < |r| - w
      invariant w <= i
      invariant forall x :: x in found ==> exists k :: w <= k < |r| - w && r[k] == x && LocalExtreme(side, r, k, w)
      invariant forall k :: w <= k < i && k < |r| - w && LocalExtreme(side, r, k, w) ==> r[k] in found
    {
      var isExtreme := IsLocalExtreme(side, r, i, w);
      if isExtreme {
        found := found + [r[i]];
      }
      i := i + 1;
    }
  }

  /** Keeping the last three of the ordered distinct candidates keeps only
      candidates, and every candidate dropped lies beyond all kept ones. */
  lemma KeepsLeastExtreme(side: Side, r: seq<real>, w: nat, found: seq<real>, sorted: seq<real>, levels: seq<real>)
    requires r != []
    requires forall x :: x in found ==> Candidate(side, r, w, x) && x in r
    requires forall x :: Candidate(side, r, w, x) ==> x in found
    requires Ordered(side, sorted) && forall x :: x in sorted <==> x in found
    requires levels == if |sorted| > 3 then sorted[|sorted| - 3..] else sorted
    ensures forall x :: x in levels ==> x in r && Candidate(side, r, w, x)
    ensures forall x :: Candidate(side, r, w, x) && x !in levels ==> |levels| == 3 && Beyond(side, x, levels[0])
  {
    forall x | x in levels ensures x in r && Candidate(side, r, w, x) {
      assert x in sorted;
    }
    forall x | Candidate(side, r, w, x) && x !in levels
      ensures |levels| == 3 && Beyond(side, x, levels[0])
    {
      var k :| 0 <= k < |sorted| && sorted[k] == x;
      assert k < |sorted| - 3;
    }
  }

  /** The scan shared by both source functions. No prices give [0]; fewer
      prices than the window give the overall extreme alone. Otherwise the
      result holds one to three candidates of the last-50 slice, ordered most
      extreme first, and every candidate left out lies beyond all of them, so
      the result is exactly the three least extreme candidates (or all of
      them when there are fewer). */
  method KeyLevels(side: Side, prices: seq<real>, window: nat) returns (levels: seq<real>)
    ensures prices == [] ==> levels == [0.0]
    ensures 0 < |prices| < window ==> levels == [Extreme(side, prices)]
    ensures prices != [] && |prices| >= window ==>
      var r := Recent(prices);
      && 1 <= |levels| <= 3
      && Ordered(side, levels)
      && (forall x :: x in levels ==> x in r && Candidate(side, r, window, x))
      && (forall x :: Candidate(side, r, window, x) && x !in levels ==> |levels| == 3 && Beyond(side, x, levels[0]))
  {
    if prices == [] {
      return [0.0];
    }
    if |prices| < window {
      return [Extreme(side, prices)];
    }
    var recent := Recent(prices);
    var found := LocalExtremes(side, recent, window);
    found := found + [Extreme(side, recent)];
    var sorted := SortDistinct(side, found);
    levels := if |sorted| > 3 then sorted[|sorted| - 3..] else sorted;
    KeepsLeastExtreme(side, recent, window, found, sorted, levels);
  }

  /** Support levels: strictly ascending, one to three of them, each a local
      low or the minimum of the last 50 prices; a local low is left out only
      when three levels are kept, and then lies below all of them. */
  method SupportLevels(prices: seq<real>, window: nat) returns (levels: seq<real>)
    ensures prices == [] ==> levels == [0.0]
    ensures 0 < |prices| < window ==> levels == [Min(prices)]
    ensures prices != [] && |prices| >= window ==>
      && 1 <= |levels| <= 3
      && (forall i, j :: 0 <= i < j < |levels| ==> levels[i] < levels[j])
      && (forall x :: x in levels ==> x in Recent(prices))
      && (forall x :: x in levels ==> Min(Recent(prices)) <= x)
      && (forall x :: x in levels ==> Candidate(Support, Recent(prices), window, x))
      && (forall x :: Candidate(Support, Recent(prices), window, x) && x !in levels ==> |levels| == 3 && x < levels[0])
  {
    levels := KeyLevels(Support, prices, window);
    if prices != [] && |prices| >= window {
      forall x | x in levels ensures Min(Recent(prices)) <= x {
        assert x in Recent(prices);
      }
    }
  }

  /** Resistance levels: strictly descending, one to three of them, each a
      local high or the maximum of the last 50 prices; a local high is left
      out only when three levels are kept, and then lies above all of them. */
  method ResistanceLevels(prices: seq<real>, window: nat) returns (levels: seq<real>)
    ensures prices == [] ==> levels == [0.0]
    ensures 0 < |prices| < window ==> levels == [Max(prices)]
    ensures prices != [] && |prices| >= window ==>
      && 1 <= |levels| <= 3
      && (forall i, j :: 0 <= i < j < |levels| ==> levels[i] > levels[j])
      && (forall x :: x in levels ==> x in Recent(prices))
      && (forall x :: x in levels ==> x <= Max(Recent(prices)))
      && (forall x :: x in levels ==> Candidate(Resistance, Recent(prices), window, x))
      && (forall x :: Candidate(Resistance, Recent(prices), window, x) && x !in levels ==> |levels| == 3 && x > levels[0])
  {
    levels := KeyLevels(Resistance, prices, window);
    if prices != [] && |prices| >= window {
      forall x | x in levels ensures x <= Max(Recent(prices)) {
        assert x in Recent(prices);
      }
    }
  }
}
