/** The second entry/exit decision engine (analyze_entry_exit_points, second
    version): every firing rule adds a weighted signal, the difference of
    the entry and exit scores picks one of five actions, and a buy or sell
    action comes with a stop-loss and target ladder. */
module EntryExitScore {
  import opened Common
  import Stats

  datatype EntryKind = RsiOversold | BbLowerTouch | EmaGoldenCross | MacdBullish | SupportBounce

  datatype ExitKind = RsiOverbought | BbUpperTouch | EmaDeathCross | MacdBearish | ResistanceRejection

  datatype EntrySignal = EntrySignal(kind: EntryKind, strength: Strength,
                                     entryPrice: real, stopLoss: real, target: real)

  datatype ExitSignal = ExitSignal(kind: ExitKind, strength: Strength, exitPrice: real)

  datatype Action = StrongBuy | Buy | Hold | Sell | StrongSell
  {
    predicate Buys() { this == StrongBuy || this == Buy }
    predicate Sells() { this == StrongSell || this == Sell }
    predicate Strong() { this == StrongBuy || this == StrongSell }
  }

  datatype RiskLevel = LowRisk | MediumRisk

  datatype StopKind = AtrStop | SupportStop | ResistanceStop

  datatype StopLevel = StopLevel(kind: StopKind, level: real)

  /** A target "T<tier> (<percent>%)" at `level`, reached with the given
      probability in percent. */
  datatype TargetLevel = TargetLevel(tier: nat, percent: nat, level: real, probability: nat)

  /** The result dictionary. */
  datatype Signals = Signals(entries: seq<EntrySignal>, exits: seq<ExitSignal>,
                             stopLosses: seq<StopLevel>, targets: seq<TargetLevel>,
                             action: Action, confidence: int, risk: RiskLevel)

  /** The trend label. The rules only compare it with "bullish" and
      "bearish"; every other label behaves alike and is Sideways. */
  datatype Trend = Bullish | Bearish | Sideways

  /** The indicator readings passed in. */
  datatype Readings = Readings(current: real, rsi: real, ema9: real, ema21: real,
                               bbUpper: real, bbLower: real, macd: real, macdSignal: real,
                               trend: Trend)

  /** Score each entry rule adds. */
  function EntryWeight(k: EntryKind): (w: int)
    ensures 15 <= w <= 35
  {
    match k
    case RsiOversold => 30
    case BbLowerTouch => 20
    case EmaGoldenCross => 35
    case MacdBullish => 25
    case SupportBounce => 15
  }

  /** Score each exit rule adds. */
  function ExitWeight(k: ExitKind): (w: int)
    ensures 15 <= w <= 35
  {
    match k
    case RsiOverbought => 30
    case BbUpperTouch => 20
    case EmaDeathCross => 35
    case MacdBearish => 20
    case ResistanceRejection => 15
  }

  function EntryScore(entries: seq<EntrySignal>): int
  {
    if entries == [] then 0
    else EntryScore(entries[..|entries| - 1]) + EntryWeight(entries[|entries| - 1].kind)
  }

  function ExitScore(exits: seq<ExitSignal>): int
  {
    if exits == [] then 0
    else ExitScore(exits[..|exits| - 1]) + ExitWeight(exits[|exits| - 1].kind)
  }

  lemma EntryScoreAppend(entries: seq<EntrySignal>, s: EntrySignal)
    ensures EntryScore(entries + [s]) == EntryScore(entries) + EntryWeight(s.kind)
  {
    assert (entries + [s])[..|entries|] == entries;
  }

  lemma ExitScoreAppend(exits: seq<ExitSignal>, s: ExitSignal)
    ensures ExitScore(exits + [s]) == ExitScore(exits) + ExitWeight(s.kind)
  {
    assert (exits + [s])[..|exits|] == exits;
  }

  // ---------------------------------------------------------------------
  // The fixed rules

  predicate Oversold(r: Readings) { r.rsi < 30.0 }
  /** Within 0.5% above the lower band, or below it. */
  predicate TouchesLower(r: Readings) { r.current <= r.bbLower * 1.005 }
  predicate GoldenCross(r: Readings) { r.ema9 > r.ema21 && r.trend == Bullish }
  /** A zero MACD or signal value is falsy and disables the MACD rules. */
  predicate BullishMacd(r: Readings)
  {
    r.macd != 0.0 && r.macdSignal != 0.0 && r.macd > r.macdSignal && r.macd > 0.0
  }

  predicate Overbought(r: Readings) { r.rsi > 70.0 }
  /** Within 0.5% below the upper band, or above it. */
  predicate TouchesUpper(r: Readings) { r.current >= r.bbUpper * 0.995 }
  predicate DeathCross(r: Readings) { r.ema9 < r.ema21 && r.trend == Bearish }
  predicate BearishMacd(r: Readings)
  {
    r.macd != 0.0 && r.macdSignal != 0.0 && r.macd < r.macdSignal
  }

  /** The entry signal each rule adds: its strength, stop loss and target. */
  function EntryOf(k: EntryKind, r: Readings, support: real): (s: EntrySignal)
    ensures s.kind == k && s.entryPrice == r.current
  {
    match k
    case RsiOversold => EntrySignal(k, Strong, r.current, r.current * 0.97, r.current * 1.05)
    case BbLowerTouch => EntrySignal(k, Medium, r.current, r.bbLower * 0.98, (r.bbUpper + r.bbLower) / 2.0)
    case EmaGoldenCross => EntrySignal(k, Strong, r.current, r.ema21 * 0.98, r.current * 1.08)
    case MacdBullish => EntrySignal(k, Strong, r.current, r.current * 0.96, r.current * 1.06)
    case SupportBounce => EntrySignal(k, Medium, r.current, support * 0.98, r.current * 1.04)
  }

  /** The exit signal each rule adds. */
  function ExitOf(k: ExitKind, r: Readings): (s: ExitSignal)
    ensures s.kind == k && s.exitPrice == r.current
  {
    match k
    case RsiOverbought => ExitSignal(k, Strong, r.current)
    case BbUpperTouch => ExitSignal(k, Medium, r.current)
    case EmaDeathCross => ExitSignal(k, Strong, r.current)
    case MacdBearish => ExitSignal(k, Medium, r.current)
    case ResistanceRejection => ExitSignal(k, Medium, r.current)
  }

  /** Reference definition: the entries of the four indicator rules, in order. */
  function IndicatorEntries(r: Readings): seq<EntrySignal>
  {
    When(Oversold(r), EntryOf(RsiOversold, r, 0.0))
    + When(TouchesLower(r), EntryOf(BbLowerTouch, r, 0.0))
    + When(GoldenCross(r), EntryOf(EmaGoldenCross, r, 0.0))
    + When(BullishMacd(r), EntryOf(MacdBullish, r, 0.0))
  }

  /** Reference definition: the exits of the four indicator rules, in order. */
  function IndicatorExits(r: Readings): seq<ExitSignal>
  {
    When(Overbought(r), ExitOf(RsiOverbought, r))
    + When(TouchesUpper(r), ExitOf(BbUpperTouch, r))
    + When(DeathCross(r), ExitOf(EmaDeathCross, r))
    + When(BearishMacd(r), ExitOf(MacdBearish, r))
  }

  function Points(fires: bool, w: int): int
  {
    if fires then w else 0
  }

  lemma EntryWhenScore(entries: seq<EntrySignal>, fires: bool, s: EntrySignal)
    ensures EntryScore(entries + When(fires, s)) == EntryScore(entries) + Points(fires, EntryWeight(s.kind))
  {
    if fires {
      EntryScoreAppend(entries, s);
    } else {
      assert entries + When(fires, s) == entries;
    }
  }

  lemma ExitWhenScore(exits: seq<ExitSignal>, fires: bool, s: ExitSignal)
    ensures ExitScore(exits + When(fires, s)) == ExitScore(exits) + Points(fires, ExitWeight(s.kind))
  {
    if fires {
      ExitScoreAppend(exits, s);
    } else {
      assert exits + When(fires, s) == exits;
    }
  }

  /** The indicator entry score is the sum of the weights of the firing rules. */
  lemma IndicatorEntryScore(r: Readings)
    ensures EntryScore(IndicatorEntries(r)) ==
      Points(Oversold(r), 30) + Points(TouchesLower(r), 20) + Points(GoldenCross(r), 35) + Points(BullishMacd(r), 25)
  {
    var a, b, c, d := EntryOf(RsiOversold, r, 0.0), EntryOf(BbLowerTouch, r, 0.0),
                      EntryOf(EmaGoldenCross, r, 0.0), EntryOf(MacdBullish, r, 0.0);
    var e1 := When(Oversold(r), a);
    var e2 := e1 + When(TouchesLower(r), b);
    var e3 := e2 + When(GoldenCross(r), c);
    assert IndicatorEntries(r) == e3 + When(BullishMacd(r), d);
    EntryWhenScore([], Oversold(r), a);
    assert [] + e1 == e1;
    EntryWhenScore(e1, TouchesLower(r), b);
    EntryWhenScore(e2, GoldenCross(r), c);
    EntryWhenScore(e3, BullishMacd(r), d);
  }

  /** The indicator exit score is the sum of the weights of the firing rules. */
  lemma IndicatorExitScore(r: Readings)
    ensures ExitScore(IndicatorExits(r)) ==
      Points(Overbought(r), 30) + Points(TouchesUpper(r), 20) + Points(DeathCross(r), 35) + Points(BearishMacd(r), 20)
  {
    var x1 := When(Overbought(r), ExitOf(RsiOverbought, r));
    var x2 := x1 + When(TouchesUpper(r), ExitOf(BbUpperTouch, r));
    var x3 := x2 + When(DeathCross(r), ExitOf(EmaDeathCross, r));
    ExitWhenScore([], Overbought(r), ExitOf(RsiOverbought, r));
    assert [] + x1 == x1;
    ExitWhenScore(x1, TouchesUpper(r), ExitOf(BbUpperTouch, r));
    ExitWhenScore(x2, DeathCross(r), ExitOf(EmaDeathCross, r));
    ExitWhenScore(x3, BearishMacd(r), ExitOf(MacdBearish, r));
  }

  /** One entry rule: when it fires, append its signal and add its weight
      to the running score, which stays the score of the list. */
  method AddEntry(fires: bool, s: EntrySignal, entries: seq<EntrySignal>, score: int)
    returns (entries': seq<EntrySignal>, score': int)
    requires score == EntryScore(entries)
    ensures entries' == entries + When(fires, s)
    ensures score' == EntryScore(entries') == score + Points(fires, EntryWeight(s.kind))
  {
    entries', score' := entries, score;
    EntryWhenScore(entries, fires, s);
    if fires {
      entries' := entries + [s];
      score' := score + EntryWeight(s.kind);
    }
  }

  /** One exit rule, likewise. */
  method AddExit(fires: bool, s: ExitSignal, exits: seq<ExitSignal>, score: int)
    returns (exits': seq<ExitSignal>, score': int)
    requires score == ExitScore(exits)
    ensures exits' == exits + When(fires, s)
    ensures score' == ExitScore(exits') == score + Points(fires, ExitWeight(s.kind))
  {
    exits', score' := exits, score;
    ExitWhenScore(exits, fires, s);
    if fires {
      exits' := exits + [s];
      score' := score + ExitWeight(s.kind);
    }
  }

  /** The four indicator entry rules in order (RSI oversold 30, lower band
      20, golden cross 35, bullish MACD 25), with the running score. */
  method IndicatorEntryRules(r: Readings) returns (entries: seq<EntrySignal>, score: int)
    ensures entries == IndicatorEntries(r)
    ensures score == EntryScore(entries)
    ensures score == Points(Oversold(r), 30) + Points(TouchesLower(r), 20)
                     + Points(GoldenCross(r), 35) + Points(BullishMacd(r), 25)
  {
    entries, score := [], 0;
    entries, score := AddEntry(r.rsi < 30.0, EntryOf(RsiOversold, r, 0.0), entries, score);
    assert entries == When(Oversold(r), EntryOf(RsiOversold, r, 0.0));
    entries, score := AddEntry(r.current <= r.bbLower * 1.005, EntryOf(BbLowerTouch, r, 0.0), entries, score);
    entries, score := AddEntry(r.ema9 > r.ema21 && r.trend == Bullish, EntryOf(EmaGoldenCross, r, 0.0), entries, score);
    entries, score := AddEntry(r.macd != 0.0 && r.macdSignal != 0.0 && r.macd > r.macdSignal && r.macd > 0.0,
                               EntryOf(MacdBullish, r, 0.0), entries, score);
  }

  /** The four indicator exit rules in order (RSI overbought 30, upper band
      20, death cross 35, bearish MACD 20), with the running score. */
  method IndicatorExitRules(r: Readings) returns (exits: seq<ExitSignal>, score: int)
    ensures exits == IndicatorExits(r)
    ensures score == ExitScore(exits)
    ensures score == Points(Overbought(r), 30) + Points(TouchesUpper(r), 20)
                     + Points(DeathCross(r), 35) + Points(BearishMacd(r), 20)
  {
    exits, score := [], 0;
    exits, score := AddExit(r.rsi > 70.0, ExitOf(RsiOverbought, r), exits, score);
    assert exits == When(Overbought(r), ExitOf(RsiOverbought, r));
    exits, score := AddExit(r.current >= r.bbUpper * 0.995, ExitOf(BbUpperTouch, r), exits, score);
    exits, score := AddExit(r.ema9 < r.ema21 && r.trend == Bearish, ExitOf(EmaDeathCross, r), exits, score);
    exits, score := AddExit(r.macd != 0.0 && r.macdSignal != 0.0 && r.macd < r.macdSignal,
                            ExitOf(MacdBearish, r), exits, score);
  }

  // ---------------------------------------------------------------------
  // Support and resistance scans

  /** The outcome of scanning a level list: the first level within 1% of the
      price, no such level, or a zero level reached first (the division by
      zero that aborts the analysis). */
  datatype LevelScan = Touched(level: real) | Missed | DivisionByZero

  /** Reference definition of the scan loop, front to back. */
  function ScanLevels(current: real, levels: seq<real>): LevelScan
  {
    if levels == [] then Missed
    else if levels[0] == 0.0 then DivisionByZero
    else if Near(current, levels[0]) then Touched(levels[0])
    else ScanLevels(current, levels[1..])
  }

  /** None of the first `n` levels is zero or near the price. */
  predicate PassedOver(current: real, levels: seq<real>, n: int)
    requires 0 <= n <= |levels|
  {
    forall j :: 0 <= j < n ==> levels[j] != 0.0 && !Near(current, levels[j])
  }

  /** The loop of the source: the first level within 1% of the price stops
      the scan; a zero level reached before that raises. */
  method FindNearLevel(current: real, levels: seq<real>) returns (scan: LevelScan)
    ensures scan == ScanLevels(current, levels)
  {
    var i := 0;
    while i < |levels|
      invariant 0 <= i <= |levels|
      invariant ScanLevels(current, levels) == ScanLevels(current, levels[i..])
    {
      assert levels[i..][1..] == levels[i + 1..];
      if levels[i] == 0.0 {
        return DivisionByZero;
      }
      if Near(current, levels[i]) {
        return Touched(levels[i]);
      }
      i := i + 1;
    }
    return Missed;
  }

  /** A scan touches the first near level when every level before it is
      nonzero and not near. */
  lemma {:induction false} ScanFindsFirstNear(current: real, levels: seq<real>, i: int)
    requires 0 <= i < |levels| && PassedOver(current, levels, i)
    requires levels[i] != 0.0 && Near(current, levels[i])
    ensures ScanLevels(current, levels) == Touched(levels[i])
    decreases i
  {
    if i > 0 {
      ScanFindsFirstNear(current, levels[1..], i - 1);
    }
  }

  /** A scan raises at the first zero level when every level before it is
      nonzero and not near. */
  lemma {:induction false} ScanStopsAtZero(current: real, levels: seq<real>, i: int)
    requires 0 <= i < |levels| && PassedOver(current, levels, i)
    requires levels[i] == 0.0
    ensures ScanLevels(current, levels) == DivisionByZero
    decreases i
  {
    if i > 0 {
      ScanStopsAtZero(current, levels[1..], i - 1);
    }
  }

  /** A scan misses exactly when no level is zero or near. */
  lemma {:induction false} ScanMisses(current: real, levels: seq<real>)
    ensures ScanLevels(current, levels) == Missed <==> PassedOver(current, levels, |levels|)
    decreases |levels|
  {
    if levels != [] {
      ScanMisses(current, levels[1..]);
      if levels[0] != 0.0 && !Near(current, levels[0]) {
        assert PassedOver(current, levels, |levels|) <==> PassedOver(current, levels[1..], |levels| - 1) by {
          forall j | 1 <= j < |levels| ensures levels[j] == levels[1..][j - 1] {}
        }
      }
    }
  }

  /** A touched level is one of the levels, nonzero and near the price. */
  lemma {:induction false} ScanTouchesMember(current: real, levels: seq<real>)
    ensures ScanLevels(current, levels).Touched? ==>
      var l := ScanLevels(current, levels).level;
      l in levels && l != 0.0 && Near(current, l)
    ensures ScanLevels(current, levels) == DivisionByZero ==> 0.0 in levels
    decreases |levels|
  {
    if levels != [] && levels[0] != 0.0 && !Near(current, levels[0]) {
      ScanTouchesMember(current, levels[1..]);
    }
  }

  // ---------------------------------------------------------------------
  // Decision and ladders

  datatype Decision = Decision(action: Action, confidence: int, risk: RiskLevel)

  function AbsInt(n: int): int { if n < 0 then -n else n }

  function MinInt(a: int, b: int): int { if a < b then a else b }

  /** The action, confidence and risk for a net score (entry minus exit). */
  function Decide(net: int): (d: Decision)
    ensures 40 <= d.confidence <= 90
    ensures d.action == Hold <==> -20 <= net <= 20
    ensures d.action == Hold ==> d.confidence == 40
    ensures d.action.Buys() <==> net > 20
    ensures d.action.Sells() <==> net < -20
    ensures d.action == StrongBuy <==> net > 40
    ensures d.action == StrongSell <==> net < -40
    ensures d.risk == LowRisk <==> d.action.Strong()
  {
    if net > 40 then Decision(StrongBuy, MinInt(90, 60 + net), LowRisk)
    else if net > 20 then Decision(Buy, MinInt(80, 50 + net), MediumRisk)
    else if net < -40 then Decision(StrongSell, MinInt(90, 60 + AbsInt(net)), LowRisk)
    else if net < -20 then Decision(Sell, MinInt(80, 50 + AbsInt(net)), MediumRisk)
    else Decision(Hold, 40, MediumRisk)
  }

  /** Position of an action on the scale from strong sell to strong buy. */
  function Rank(a: Action): int
  {
    match a
    case StrongSell => 0
    case Sell => 1
    case Hold => 2
    case Buy => 3
    case StrongBuy => 4
  }

  /** A higher net score never yields a more bearish action. */
  lemma DecideMonotone(net: int, net': int)
    requires net <= net'
    ensures Rank(Decide(net).action) <= Rank(Decide(net').action)
  {
  }

  /** Buying and selling are mirror images: negating the net score swaps
      the side and keeps the confidence and the risk. */
  lemma DecideSymmetric(net: int)
    ensures Decide(-net).confidence == Decide(net).confidence
    ensures Decide(-net).risk == Decide(net).risk
    ensures Rank(Decide(-net).action) == 4 - Rank(Decide(net).action)
  {
  }

  /** A strong action always has confidence 90 (its uncapped value is above
      100), and a plain buy or sell between 71 and 80. */
  lemma DecideConfidenceBands(net: int)
    ensures Decide(net).action.Strong() ==> Decide(net).confidence == 90
    ensures (Decide(net).action == Buy || Decide(net).action == Sell) ==> 71 <= Decide(net).confidence <= 80
  {
  }

  /** Stop-loss levels for an action: for a buy, 3% under the price and 1%
      under the lowest support (5% under the price without supports); for a
      sell, 3% over the price and 1% over the highest resistance (5% over
      the price without resistances); none for a hold. */
  function StopLadder(a: Action, current: real, supports: seq<real>, resistances: seq<real>): (s: seq<StopLevel>)
    ensures |s| == if a == Hold then 0 else 2
    ensures a.Buys() ==> s[0] == StopLevel(AtrStop, current * 0.97) && s[1].kind == SupportStop
    ensures a.Buys() && supports == [] ==> s[1].level == current * 0.95
    ensures a.Buys() && supports != [] ==>
      s[1].level / 0.99 in supports && forall x :: x in supports ==> s[1].level <= x * 0.99
    ensures a.Sells() ==> s[0] == StopLevel(AtrStop, current * 1.03) && s[1].kind == ResistanceStop
    ensures a.Sells() && resistances == [] ==> s[1].level == current * 1.05
    ensures a.Sells() && resistances != [] ==>
      s[1].level / 1.01 in resistances && forall x :: x in resistances ==> x * 1.01 <= s[1].level
  {
    if a.Buys() then
      [StopLevel(AtrStop, current * 0.97),
       StopLevel(SupportStop, if supports != [] then Stats.Min(supports) * 0.99 else current * 0.95)]
    else if a.Sells() then
      [StopLevel(AtrStop, current * 1.03),
       StopLevel(ResistanceStop, if resistances != [] then Stats.Max(resistances) * 1.01 else current * 1.05)]
    else []
  }

  /** Target levels for an action: 3%, 5% and 8% in the trade's direction,
      with falling probabilities 70, 50 and 30; none for a hold. */
  function TargetLadder(a: Action, current: real): (t: seq<TargetLevel>)
    ensures |t| == if a == Hold then 0 else 3
  {
    if a.Buys() then
      [TargetLevel(1, 3, current * 1.03, 70), TargetLevel(2, 5, current * 1.05, 50), TargetLevel(3, 8, current * 1.08, 30)]
    else if a.Sells() then
      [TargetLevel(1, 3, current * 0.97, 70), TargetLevel(2, 5, current * 0.95, 50), TargetLevel(3, 8, current * 0.92, 30)]
    else []
  }

  /** At a positive price, a buy's targets lie above the price in increasing
      order and its first stop below it; a sell's targets lie below the price
      in decreasing order and its first stop above it. Probabilities fall as
      the targets get further away. */
  lemma LadderDirection(a: Action, current: real, supports: seq<real>, resistances: seq<real>)
    requires current > 0.0 && a != Hold
    ensures var t := TargetLadder(a, current);
      && (forall i :: 0 <= i < |t| - 1 ==> t[i].probability > t[i + 1].probability)
      && (a.Buys() ==>
            current < t[0].level < t[1].level < t[2].level
            && StopLadder(a, current, supports, resistances)[0].level < current)
      && (a.Sells() ==>
            current > t[0].level > t[1].level > t[2].level
            && StopLadder(a, current, supports, resistances)[0].level > current)
  {
  }

  /** Where the second stop lies. A level at or beyond the price on the
      protective side (a support at or below the price for a buy, a
      resistance at or above it for a sell) keeps the stop on that side; so
      does having no levels. The stop is placed from the levels alone,
      though: a buy whose lowest support exceeds price / 0.99 gets a support
      stop above the price (see BuyStopAboveEntry), and a sell whose highest
      resistance is below price / 1.01 gets a resistance stop below it. */
  lemma SecondStopSide(a: Action, current: real, supports: seq<real>, resistances: seq<real>)
    requires current > 0.0
    ensures var s := StopLadder(a, current, supports, resistances);
      && (a.Buys() && supports == [] ==> s[1].level < current)
      && (a.Buys() && (exists x :: x in supports && x <= current) ==> s[1].level < current)
      && (a.Sells() && resistances == [] ==> s[1].level > current)
      && (a.Sells() && (exists x :: x in resistances && x >= current) ==> s[1].level > current)
  {
    if a.Buys() && exists x :: x in supports && x <= current {
      var x :| x in supports && x <= current;
      assert Stats.Min(supports) <= x;
    }
    if a.Sells() && exists x :: x in resistances && x >= current {
      var x :| x in resistances && x >= current;
      assert Stats.Max(resistances) >= x;
    }
  }

  /** A buy at 100 with a support level at 200 gets a support stop at 198,
      above the entry price: the stop would be hit at once. A support at
      100.5, also above the price but by less than 1%, gives a stop at
      99.495, below it. */
  lemma BuyStopAboveEntry()
    ensures StopLadder(Buy, 100.0, [200.0], [])[1].level == 198.0
    ensures StopLadder(Buy, 100.0, [100.5], [])[1].level == 99.495
  {
    assert Stats.Min([200.0]) == 200.0;
    assert Stats.Min([100.5]) == 100.5;
  }

  // ---------------------------------------------------------------------
  // The whole analysis

  /** What the analysis reports when a scan raises: the signals appended
      so far, a hold at confidence 0, and no ladders. */
  function Aborted(entries: seq<EntrySignal>, exits: seq<ExitSignal>): Signals
  {
    Signals(entries, exits, [], [], Hold, 0, MediumRisk)
  }

  /** The entries after the support scan: the indicator entries, then a
      support bounce at the touched level. */
  function Entries(r: Readings, support: LevelScan): seq<EntrySignal>
  {
    IndicatorEntries(r)
    + When(support.Touched?, EntryOf(SupportBounce, r, if support.Touched? then support.level else 0.0))
  }

  /** The exits after the resistance scan: the indicator exits, then a
      resistance rejection. */
  function Exits(r: Readings, resistance: LevelScan): seq<ExitSignal>
  {
    IndicatorExits(r) + When(resistance.Touched?, ExitOf(ResistanceRejection, r))
  }

  /** The report once both scans completed: decide on the net score and
      place the ladders. */
  function Decided(entries: seq<EntrySignal>, exits: seq<ExitSignal>, net: int, current: real,
                   supports: seq<real>, resistances: seq<real>): Signals
  {
    var d := Decide(net);
    Signals(entries, exits, StopLadder(d.action, current, supports, resistances),
            TargetLadder(d.action, current), d.action, d.confidence, d.risk)
  }

  /** Reference definition of the analysis. */
  function Expected(r: Readings, supports: seq<real>, resistances: seq<real>): Signals
  {
    var support := ScanLevels(r.current, supports);
    var resistance := ScanLevels(r.current, resistances);
    if support == DivisionByZero then Aborted(IndicatorEntries(r), [])
    else if resistance == DivisionByZero then Aborted(Entries(r, support), IndicatorExits(r))
    else
      var entries, exits := Entries(r, support), Exits(r, resistance);
      Decided(entries, exits, EntryScore(entries) - ExitScore(exits), r.current, supports, resistances)
  }

  /** The entry section: the four indicator rules, then the support scan.
      `raised` reports a zero support level reached by the scan. */
  method EntrySection(r: Readings, supports: seq<real>)
    returns (raised: bool, entries: seq<EntrySignal>, score: int)
    ensures raised <==> ScanLevels(r.current, supports) == DivisionByZero
    ensures entries == if raised then IndicatorEntries(r) else Entries(r, ScanLevels(r.current, supports))
    ensures score == EntryScore(entries)
  {
    entries, score := IndicatorEntryRules(r);
    var support := FindNearLevel(r.current, supports);
    if support == DivisionByZero {
      return true, entries, score;
    }
    raised := false;
    entries, score := AddEntry(support.Touched?,
                               EntryOf(SupportBounce, r, if support.Touched? then support.level else 0.0),
                               entries, score);
  }

  /** The exit section: the four indicator rules, then the resistance scan. */
  method ExitSection(r: Readings, resistances: seq<real>)
    returns (raised: bool, exits: seq<ExitSignal>, score: int)
    ensures raised <==> ScanLevels(r.current, resistances) == DivisionByZero
    ensures exits == if raised then IndicatorExits(r) else Exits(r, ScanLevels(r.current, resistances))
    ensures score == ExitScore(exits)
  {
    exits, score := IndicatorExitRules(r);
    var resistance := FindNearLevel(r.current, resistances);
    if resistance == DivisionByZero {
      return true, exits, score;
    }
    raised := false;
    exits, score := AddExit(resistance.Touched?, ExitOf(ResistanceRejection, r), exits, score);
  }

  /** Runs the entry section and the exit section, each keeping a running
      score, then decides on the net score and places the ladders. A zero
      level met by a scan ends the analysis with what was collected so far. */
  method AnalyzeEntryExit(r: Readings, supports: seq<real>, resistances: seq<real>) returns (signals: Signals)
    ensures signals == Expected(r, supports, resistances)
  {
    var raised, entries, entryScore := EntrySection(r, supports);
    if raised {
      return Aborted(entries, []);
    }
    var raised', exits, exitScore := ExitSection(r, resistances);
    if raised' {
      return Aborted(entries, exits);
    }
    var d := Decide(entryScore - exitScore);
    signals := Signals(entries, exits, StopLadder(d.action, r.current, supports, resistances),
                       TargetLadder(d.action, r.current), d.action, d.confidence, d.risk);
    assert signals == Decided(entries, exits, entryScore - exitScore, r.current, supports, resistances);
  }

  /** A scan that raises leaves a hold at confidence 0 and no ladders. */
  lemma AnalysisAborts(r: Readings, supports: seq<real>, resistances: seq<real>)
    requires ScanLevels(r.current, supports) == DivisionByZero
             || ScanLevels(r.current, resistances) == DivisionByZero
    ensures var s := Expected(r, supports, resistances);
      s.confidence == 0 && s.action == Hold && s.stopLosses == [] && s.targets == []
  {
  }

  /** Without price history the level functions return [0], so the support
      scan divides by zero at once: only the indicator entries are reported,
      with a hold at confidence 0, whatever the indicators say. */
  lemma EmptyHistoryAborts(r: Readings, resistances: seq<real>)
    ensures Expected(r, [0.0], resistances) == Aborted(IndicatorEntries(r), [])
  {
    assert ScanLevels(r.current, [0.0]) == DivisionByZero;
  }

  /** When both scans complete, the confidence lies between 40 and 90, so a
      confidence of 0 always means a scan raised. */
  lemma AnalysisDecides(r: Readings, supports: seq<real>, resistances: seq<real>)
    requires ScanLevels(r.current, supports) != DivisionByZero
    requires ScanLevels(r.current, resistances) != DivisionByZero
    ensures 40 <= Expected(r, supports, resistances).confidence <= 90
  {
  }

  /** Stop-loss and target ladders are present exactly for a buy or sell. */
  lemma AnalysisLadders(r: Readings, supports: seq<real>, resistances: seq<real>)
    ensures var s := Expected(r, supports, resistances);
      && (|s.stopLosses| == 2 <==> s.action != Hold)
      && (|s.targets| == 3 <==> s.action != Hold)
  {
    var support := ScanLevels(r.current, supports);
    var resistance := ScanLevels(r.current, resistances);
    if support != DivisionByZero && resistance != DivisionByZero {
      var entries, exits := Entries(r, support), Exits(r, resistance);
      DecidedOutcome(entries, exits, EntryScore(entries) - ExitScore(exits), r.current, supports, resistances);
    }
  }

  /** A decided report carries the decision for its net score, and ladders
      exactly when that decision is to buy or sell. */
  lemma DecidedOutcome(entries: seq<EntrySignal>, exits: seq<ExitSignal>, net: int, current: real,
                       supports: seq<real>, resistances: seq<real>)
    ensures var s := Decided(entries, exits, net, current, supports, resistances);
      && s.entries == entries && s.exits == exits
      && 40 <= s.confidence <= 90
      && s.action == Decide(net).action
      && (|s.stopLosses| == 2 <==> s.action != Hold)
      && (|s.targets| == 3 <==> s.action != Hold)
  {
  }

  lemma EntriesScoreBound(r: Readings, support: LevelScan)
    ensures 0 <= EntryScore(Entries(r, support)) <= 125
  {
    IndicatorEntryScore(r);
    EntryWhenScore(IndicatorEntries(r), support.Touched?,
                   EntryOf(SupportBounce, r, if support.Touched? then support.level else 0.0));
  }

  lemma ExitsScoreBound(r: Readings, resistance: LevelScan)
    ensures 0 <= ExitScore(Exits(r, resistance)) <= 120
  {
    IndicatorExitScore(r);
    ExitWhenScore(IndicatorExits(r), resistance.Touched?, ExitOf(ResistanceRejection, r));
  }

  /** The signal lists of the report, by the outcome of the two scans. */
  lemma ExpectedLists(r: Readings, supports: seq<real>, resistances: seq<real>)
    ensures var s := Expected(r, supports, resistances);
      var support := ScanLevels(r.current, supports);
      var resistance := ScanLevels(r.current, resistances);
      && s.entries == (if support == DivisionByZero then IndicatorEntries(r) else Entries(r, support))
      && s.exits == (if support == DivisionByZero then []
                     else if resistance == DivisionByZero then IndicatorExits(r)
                     else Exits(r, resistance))
  {
  }

  /** The entry and exit scores of any report stay within the sums of all
      weights, so the net score lies between -120 and 125. */
  lemma AnalysisScoreBounds(r: Readings, supports: seq<real>, resistances: seq<real>)
    ensures var s := Expected(r, supports, resistances);
      0 <= EntryScore(s.entries) <= 125 && 0 <= ExitScore(s.exits) <= 120
  {
    ExpectedLists(r, supports, resistances);
    IndicatorEntryScore(r);
    IndicatorExitScore(r);
    EntriesScoreBound(r, ScanLevels(r.current, supports));
    ExitsScoreBound(r, ScanLevels(r.current, resistances));
  }
}
