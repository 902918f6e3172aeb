/** Volume trend (analyze_volume_trend) and stochastic oscillator
    (calculate_stochastic). */
module Oscillators {
  import opened Common
  import opened Stats

  datatype VolumeTrend = Increasing | Decreasing | Stable | InsufficientData

  /** Absolute price changes between consecutive points. */
  function AbsChanges(prices: seq<real>): (c: seq<real>)
    ensures |c| == if prices == [] then 0 else |prices| - 1
    ensures forall i :: 0 <= i < |c| ==> c[i] == Abs(prices[i + 1] - prices[i])
  {
    if prices == [] then []
    else seq(|prices| - 1, i requires 0 <= i < |prices| - 1 => Abs(prices[i + 1] - prices[i]))
  }

  /** Compares recent volatility against the longer average with the 1.2 and
      0.8 bands of the source. */
  function ClassifyVolatility(recent: real, average: real): VolumeTrend
  {
    if recent > average * 1.2 then Increasing
    else if recent < average * 0.8 then Decreasing
    else Stable
  }

  /** Mean absolute change of the last 5 points against that of the last 10,
      used as a proxy for volume; fewer than 10 prices is insufficient. */
  function AnalyzeVolumeTrend(prices: seq<real>): (t: VolumeTrend)
    ensures t == InsufficientData <==> |prices| < 10
  {
    if |prices| < 10 then InsufficientData
    else
      var changes := AbsChanges(prices);
      ClassifyVolatility(MeanOfLast(changes, 5), MeanOfLast(changes, 10))
  }

  /** sum(changes[-n:]) / min(n, len(changes)) for a non-empty list. */
  function MeanOfLast(changes: seq<real>, n: nat): real
    requires changes != [] && n > 0
  {
    Sum(LastN(changes, n)) / (if |changes| < n then |changes| else n) as real
  }

  /** The trend does not depend on the price level: adding a constant to every
      price leaves the classification unchanged. */
  lemma VolumeTrendShiftInvariant(prices: seq<real>, d: real)
    ensures AnalyzeVolumeTrend(Shift(prices, d)) == AnalyzeVolumeTrend(prices)
  {
    var a, b := AbsChanges(Shift(prices, d)), AbsChanges(prices);
    forall i | 0 <= i < |a| ensures a[i] == b[i] {
      assert Shift(prices, d)[i + 1] - Shift(prices, d)[i] == prices[i + 1] - prices[i];
    }
    assert a == b;
  }

  /** A constant series (of at least 10 points) has a stable volume trend. */
  lemma FlatVolumeIsStable(prices: seq<real>, c: real)
    requires |prices| >= 10 && Flat(prices, c)
    ensures AnalyzeVolumeTrend(prices) == Stable
  {
    var changes := AbsChanges(prices);
    forall i | 0 <= i < |changes| ensures changes[i] == 0.0 {
      assert prices[i + 1] == c && prices[i] == c;
    }
    MeanOfLastFlat(changes, 5);
    MeanOfLastFlat(changes, 10);
  }

  lemma MeanOfLastFlat(changes: seq<real>, n: nat)
    requires changes != [] && n > 0 && Flat(changes, 0.0)
    ensures MeanOfLast(changes, n) == 0.0
  {
    var last := LastN(changes, n);
    assert Flat(last, 0.0);
    SumFlat(last, 0.0);
  }

  datatype Stochastic = Stochastic(k: real, d: real)

  /** Returned when there is nothing to measure. */
  const Neutral := Stochastic(50.0, 50.0)

  /** The last `period` prices, as Python's prices[-period:]; period 0 gives
      prices[-0:], the whole list. */
  function StochasticWindow(prices: seq<real>, period: nat): (w: seq<real>)
    requires |prices| >= period
    ensures prices != [] ==> w != [] && prices[|prices| - 1] in w
  {
    if period == 0 then prices else prices[|prices| - period..]
  }

  /** %K places the latest price within the high-low range of the window on a
      0-100 scale; %D is the simplified 0.7 * %K. A short or empty list gives
      (50, 50); a flat window gives %K = 50 and so %D = 35. */
  function StochasticOscillator(prices: seq<real>, period: nat): (r: Stochastic)
    ensures 0.0 <= r.k <= 100.0
    ensures r.d == 0.7 * r.k || r == Neutral
    ensures |prices| < period || prices == [] ==> r == Neutral
    ensures |prices| >= period && prices != [] ==>
      var w := StochasticWindow(prices, period);
      var current := prices[|prices| - 1];
      && (Max(w) == Min(w) ==> r == Stochastic(50.0, 35.0))
      && (Max(w) != Min(w) ==> r.d == 0.7 * r.k)
      && (Max(w) != Min(w) ==> (r.k == 100.0 <==> current == Max(w)))
      && (Max(w) != Min(w) ==> (r.k == 0.0 <==> current == Min(w)))
  {
    if |prices| < period || prices == [] then Neutral
    else
      var w := StochasticWindow(prices, period);
      var highest, lowest := Max(w), Min(w);
      var current := prices[|prices| - 1];
      var k := if highest == lowest then 50.0 else (current - lowest) / (highest - lowest) * 100.0;
      if highest != lowest then
        FractionOfRange(current, lowest, highest);
        Stochastic(k, k * 0.7)
      else
        Stochastic(k, k * 0.7)
  }

  /** Where x lies in [lo, hi] as a fraction: in [0, 1], and exactly 1 at hi
      and 0 at lo. */
  lemma FractionOfRange(x: real, lo: real, hi: real)
    requires lo <= x <= hi && lo < hi
    ensures 0.0 <= (x - lo) / (hi - lo) <= 1.0
    ensures (x - lo) / (hi - lo) * 100.0 == 100.0 <==> x == hi
    ensures (x - lo) / (hi - lo) * 100.0 == 0.0 <==> x == lo
  {
    var f := (x - lo) / (hi - lo);
    QuotientCompare(x - lo, hi - lo, 0.0);
    QuotientCompare(x - lo, hi - lo, 1.0);
    assert f * 100.0 == 100.0 <==> f == 1.0;
    assert f * 100.0 == 0.0 <==> f == 0.0;
  }
}
