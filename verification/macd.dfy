/** MACD in the two variants of TechnicalAnalyzer.calculate_macd: a simplified
    one whose signal line is 0.8 times the MACD line, and one whose signal line
    is an EMA of the MACD values of every prefix. */
module Macd {
  import opened Stats
  import opened MovingAverage

  datatype MacdValues = MacdValues(line: real, signal: real, histogram: real)

  const Zero := MacdValues(0.0, 0.0, 0.0)

  /** MACD line of a price list: fast EMA minus slow EMA. */
  function MacdLine(prices: seq<real>, fast: int, slow: int): real
  {
    Ema(prices, fast) - Ema(prices, slow)
  }

  /** Simplified variant: fewer prices than the slow period give all zeros;
      otherwise the signal is 0.8 times the line, so the histogram is the
      remaining fifth of the line and has the line's sign. */
  function SimplifiedMacd(prices: seq<real>, fast: int, slow: int): (r: MacdValues)
    ensures |prices| < slow ==> r == Zero
    ensures |prices| >= slow ==> r.line == MacdLine(prices, fast, slow)
    ensures r.histogram == r.line - r.signal
    ensures r.histogram == 0.2 * r.line
    ensures r.histogram > 0.0 <==> r.line > 0.0
  {
    if |prices| < slow then Zero
    else
      var line := MacdLine(prices, fast, slow);
      var signal := line * 0.8;
      MacdValues(line, signal, line - signal)
  }

  /** The MACD values the loop of the EMA variant collects: one per prefix
      prices[..i+1] for slow <= i < |prices|, oldest first (see MacdSeriesAt). */
  function MacdSeries(prices: seq<real>, fast: int, slow: nat): (s: seq<real>)
    ensures |s| == if |prices| <= slow then 0 else |prices| - slow
    decreases |prices|
  {
    if |prices| <= slow then []
    else MacdSeries(prices[..|prices| - 1], fast, slow) + [MacdLine(prices, fast, slow)]
  }

  /** The k-th MACD value is the MACD line of the prefix ending at index
      slow + k; the last one is the MACD line of the whole list. */
  lemma {:induction false} MacdSeriesAt(prices: seq<real>, fast: int, slow: nat, k: nat)
    requires k < |MacdSeries(prices, fast, slow)|
    ensures MacdSeries(prices, fast, slow)[k] == MacdLine(prices[..slow + k + 1], fast, slow)
    decreases |prices|
  {
    var init := prices[..|prices| - 1];
    if k < |prices| - 1 - slow {
      MacdSeriesAt(init, fast, slow, k);
      assert init[..slow + k + 1] == prices[..slow + k + 1];
    } else {
      assert prices[..slow + k + 1] == prices;
    }
  }

  /** EMA variant. Fewer prices than the slow period give all zeros. Otherwise
      the line is the MACD of the whole list, and the signal is the EMA over
      the signal period of the per-prefix MACD series when that series has at
      least `signal` values, else the line itself. */
  method CalculateMacd(prices: seq<real>, fast: int, slow: nat, signal: int) returns (r: MacdValues)
    ensures |prices| < slow ==> r == Zero
    ensures |prices| >= slow ==> r.line == MacdLine(prices, fast, slow)
    ensures |prices| >= slow && |prices| - slow >= signal ==>
      r.signal == Ema(MacdSeries(prices, fast, slow), signal)
    ensures |prices| >= slow && |prices| - slow < signal ==> r.signal == r.line && r.histogram == 0.0
    ensures r.histogram == r.line - r.signal
  {
    if |prices| < slow {
      return Zero;
    }
    var emaFast := CalculateEma(prices, fast);
    var emaSlow := CalculateEma(prices, slow);
    var line := emaFast - emaSlow;

    var values: seq<real> := [];
    var i := slow;
    while i < |prices|
      invariant slow <= i <= |prices|
      invariant values == MacdSeries(prices[..i], fast, slow)
    {
      var subset := prices[..i + 1];
      var f := CalculateEma(subset, fast);
      var s := CalculateEma(subset, slow);
      assert subset[..i] == prices[..i];
      values := values + [f - s];
      i := i + 1;
    }
    assert prices[..i] == prices;

    var signalLine;
    if |values| >= signal {
      signalLine := CalculateEma(values, signal);
    } else {
      signalLine := line;
    }
    r := MacdValues(line, signalLine, line - signalLine);
  }

  /** On a constant series the MACD series is all zeros. */
  lemma FlatSeriesIsZero(prices: seq<real>, c: real, fast: int, slow: nat)
    requires Flat(prices, c)
    requires fast != -1
    ensures Flat(MacdSeries(prices, fast, slow), 0.0)
  {
    var s := MacdSeries(prices, fast, slow);
    forall k | 0 <= k < |s| ensures s[k] == 0.0 {
      MacdSeriesAt(prices, fast, slow, k);
      var prefix := prices[..slow + k + 1];
      EmaOfFlat(prefix, fast, c);
      EmaOfFlat(prefix, slow, c);
    }
  }

  /** A flat market has no momentum: both variants report a zero line, and
      the EMA variant's signal line is zero too. */
  lemma FlatMarketHasNoMomentum(prices: seq<real>, c: real, fast: int, slow: nat, signal: int)
    requires prices != [] && Flat(prices, c)
    requires fast != -1
    ensures SimplifiedMacd(prices, fast, slow) == Zero
    ensures MacdLine(prices, fast, slow) == 0.0
    ensures Ema(MacdSeries(prices, fast, slow), signal) == 0.0
  {
    EmaOfFlat(prices, fast, c);
    EmaOfFlat(prices, slow, c);
    FlatSeriesIsZero(prices, c, fast, slow);
    EmaOfZeros(MacdSeries(prices, fast, slow), signal);
  }
}
