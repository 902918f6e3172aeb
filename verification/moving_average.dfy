/** Exponential moving average (TechnicalAnalyzer.calculate_ema). */
module MovingAverage {
  import opened Stats

  /** Smoothing factor 2 / (period + 1). Undefined for period = -1, where the
      source divides by zero. */
  function Alpha(period: int): real
    requires period != -1
  {
    2.0 / (period + 1) as real
  }

  /** One step of the recurrence: ema' = price * alpha + ema * (1 - alpha). */
  function Step(ema: real, price: real, alpha: real): real
  {
    price * alpha + ema * (1.0 - alpha)
  }

  /** Left fold of Step over ps starting from seed: the value the loop holds
      after consuming ps in order. */
  function Smooth(seed: real, ps: seq<real>, alpha: real): real
    decreases |ps|
  {
    if ps == [] then seed else Step(Smooth(seed, ps[..|ps| - 1], alpha), ps[|ps| - 1], alpha)
  }

  /** The EMA of prices for a period, with the fallbacks of the source:
      fewer prices than the period gives their mean (0 for none); a period of
      -1 (division by zero) and an empty list (no first price) give 0. */
  function Ema(prices: seq<real>, period: int): real
  {
    if |prices| < period then
      (if prices == [] then 0.0 else Mean(prices))
    else if period == -1 || prices == [] then 0.0
    else Smooth(prices[0], prices[1..], Alpha(period))
  }

  /** The loop of the source: seed with the first price, then fold every
      later price into the running value. */
  method CalculateEma(prices: seq<real>, period: int) returns (ema: real)
    ensures ema == Ema(prices, period)
  {
    if |prices| < period {
      return if prices == [] then 0.0 else Mean(prices);
    }
    if period == -1 || prices == [] {
      return 0.0;
    }
    var multiplier := 2.0 / (period + 1) as real;
    ema := prices[0];
    var i := 1;
    while i < |prices|
      invariant 1 <= i <= |prices|
      invariant ema == Smooth(prices[0], prices[1..i], multiplier)
    {
      assert prices[1..i + 1][..i - 1] == prices[1..i];
      ema := prices[i] * multiplier + ema * (1.0 - multiplier);
      i := i + 1;
    }
    assert prices[1..i] == prices[1..];
  }

  /** A step with 0 <= alpha <= 1 is a convex combination, so it stays
      within any interval holding both the old value and the new price. */
  lemma StepBetween(ema: real, price: real, alpha: real, lo: real, hi: real)
    requires 0.0 <= alpha <= 1.0
    requires lo <= ema <= hi && lo <= price <= hi
    ensures lo <= Step(ema, price, alpha) <= hi
  {
    // The step moves ema towards price by the fraction alpha of the gap.
    var gap := price - ema;
    assert Step(ema, price, alpha) == ema + alpha * gap;
    if gap >= 0.0 {
      assert 0.0 <= alpha * gap <= gap;
    } else {
      assert gap <= alpha * gap <= 0.0;
    }
  }

  lemma {:induction false} SmoothBetween(seed: real, ps: seq<real>, alpha: real, lo: real, hi: real)
    requires 0.0 <= alpha <= 1.0
    requires lo <= seed <= hi
    requires forall i :: 0 <= i < |ps| ==> lo <= ps[i] <= hi
    ensures lo <= Smooth(seed, ps, alpha) <= hi
    decreases |ps|
  {
    if ps != [] {
      SmoothBetween(seed, ps[..|ps| - 1], alpha, lo, hi);
      StepBetween(Smooth(seed, ps[..|ps| - 1], alpha), ps[|ps| - 1], alpha, lo, hi);
    }
  }

  /** For a period of at least 1 the EMA never leaves the range of the
      prices: both the mean fallback and the fold stay in [min, max]. */
  lemma EmaWithinRange(prices: seq<real>, period: int)
    requires period >= 1 && prices != []
    ensures Min(prices) <= Ema(prices, period) <= Max(prices)
  {
    var lo, hi := Min(prices), Max(prices);
    if |prices| < period {
      MeanBetween(prices);
    } else {
      var a := Alpha(period);
      assert 0.0 < a <= 1.0 by {
        assert (period + 1) as real >= 2.0;
      }
      assert prices[0] in prices;
      forall i | 0 <= i < |prices| - 1 ensures lo <= prices[1..][i] <= hi {
        assert prices[1..][i] in prices;
      }
      SmoothBetween(prices[0], prices[1..], a, lo, hi);
    }
  }

  lemma {:induction false} SmoothFlat(c: real, ps: seq<real>, alpha: real)
    requires Flat(ps, c)
    ensures Smooth(c, ps, alpha) == c
    decreases |ps|
  {
    if ps != [] {
      SmoothFlat(c, ps[..|ps| - 1], alpha);
      assert Step(c, c, alpha) == c * (alpha + (1.0 - alpha));
    }
  }

  /** A constant series has that constant as its EMA, for every period the
      source does not divide by zero on. */
  lemma EmaOfFlat(prices: seq<real>, period: int, c: real)
    requires prices != [] && Flat(prices, c)
    requires period != -1
    ensures Ema(prices, period) == c
  {
    if |prices| < period {
      SumFlat(prices, c);
    } else {
      SmoothFlat(c, prices[1..], Alpha(period));
    }
  }

  /** The EMA of an all-zero series is zero for every period, including the
      fallbacks. */
  lemma EmaOfZeros(s: seq<real>, period: int)
    requires Flat(s, 0.0)
    ensures Ema(s, period) == 0.0
  {
    if s != [] && period != -1 {
      EmaOfFlat(s, period, 0.0);
    }
  }
}
