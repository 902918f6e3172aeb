/** The first entry/exit decision engine (analyze_entry_exit_points, first
    version): each indicator rule adds at most one entry (BUY) or exit (SELL)
    signal, and the verdict goes to the side with more signals. */
module EntryExitCount {
  import opened Common
  import RiskReward

  datatype Direction = Buy | Sell | Hold

  datatype Reason =
    | RsiOversold | GoldenCross | BbLowerBounce | MacdBullishCrossover | NearSupport
    | RsiOverbought | DeathCross | BbUpperResistance | MacdBearishCrossover | NearResistance
  {
    predicate IsEntry() {
      this in {RsiOversold, GoldenCross, BbLowerBounce, MacdBullishCrossover, NearSupport}
    }
  }

  datatype Signal = Signal(direction: Direction, reason: Reason, strength: Strength,
                           priceLevel: real, confidence: nat)

  /** The inputs of one analysis. */
  datatype Indicators = Indicators(current: real, rsi: real, sma20: real, sma50: real,
                                   bbUpper: real, bbLower: real, macdLine: real, macdSignal: real,
                                   support: real, resistance: real)

  /** The result dictionary. Fallback is what the error handler returns: no
      signals, a HOLD verdict and strength 0. The stop-loss and target lists
      are de-duplicated through a Python set, so their order is unspecified:
      they are sets here. */
  datatype Report =
    | Report(entries: seq<Signal>, exits: seq<Signal>,
             stopLosses: set<real>, targets: set<real>,
             bestEntry: Option<Signal>, bestExit: Option<Signal>,
             overall: Direction, strength: nat, totalSignals: nat, riskReward: real)
    | Fallback

  /** The analysis raises a division by zero: the support level is 0, or the
      price is not near support and the resistance level is 0. */
  predicate Raises(x: Indicators)
  {
    x.support == 0.0 || (!Near(x.current, x.support) && x.resistance == 0.0)
  }

  // Conditions of the rules, in the order the source evaluates them. Each
  // exit condition holds only when its entry counterpart (the `if` of the
  // same `if`/`elif`) does not.

  predicate Oversold(x: Indicators) { x.rsi < 30.0 }
  predicate Overbought(x: Indicators) { !Oversold(x) && x.rsi > 70.0 }
  /** A zero SMA-50 is falsy in the source and disables both crossovers. */
  predicate GoldenCrossing(x: Indicators) { x.sma50 != 0.0 && x.current > x.sma20 > x.sma50 }
  predicate DeathCrossing(x: Indicators) { !GoldenCrossing(x) && x.sma50 != 0.0 && x.current < x.sma20 < x.sma50 }
  predicate AtLowerBand(x: Indicators) { x.current <= x.bbLower }
  predicate AtUpperBand(x: Indicators) { !AtLowerBand(x) && x.current >= x.bbUpper }
  predicate MacdBullish(x: Indicators) { x.macdLine > x.macdSignal && x.macdLine > 0.0 }
  predicate MacdBearish(x: Indicators) { !MacdBullish(x) && x.macdLine < x.macdSignal && x.macdLine < 0.0 }
  predicate AtSupport(x: Indicators) requires !Raises(x) { Near(x.current, x.support) }
  predicate AtResistance(x: Indicators) requires !Raises(x)
  {
    !Near(x.current, x.support) && Near(x.current, x.resistance)
  }

  /** The signal each rule adds when it fires: its side, strength, price
      level and confidence. */
  function SignalOf(r: Reason, x: Indicators): (s: Signal)
    ensures s.reason == r
    ensures s.direction == (if r.IsEntry() then Buy else Sell)
    ensures 70 <= s.confidence <= 85
  {
    match r
    case RsiOversold => Signal(Buy, r, Strong, x.current, 85)
    case GoldenCross => Signal(Buy, r, Medium, x.current, 75)
    case BbLowerBounce => Signal(Buy, r, Medium, x.bbLower, 70)
    case MacdBullishCrossover => Signal(Buy, r, Medium, x.current, 70)
    case NearSupport => Signal(Buy, r, Strong, x.support, 80)
    case RsiOverbought => Signal(Sell, r, Strong, x.current, 85)
    case DeathCross => Signal(Sell, r, Medium, x.current, 75)
    case BbUpperResistance => Signal(Sell, r, Medium, x.bbUpper, 70)
    case MacdBearishCrossover => Signal(Sell, r, Medium, x.current, 70)
    case NearResistance => Signal(Sell, r, Strong, x.resistance, 80)
  }

  /** Reference definition: the entry signals in the order the rules append them. */
  function EntrySignals(x: Indicators): seq<Signal>
    requires !Raises(x)
  {
    When(Oversold(x), SignalOf(RsiOversold, x))
    + When(GoldenCrossing(x), SignalOf(GoldenCross, x))
    + When(AtLowerBand(x), SignalOf(BbLowerBounce, x))
    + When(MacdBullish(x), SignalOf(MacdBullishCrossover, x))
    + When(AtSupport(x), SignalOf(NearSupport, x))
  }

  /** Reference definition: the exit signals in the order the rules append them. */
  function ExitSignals(x: Indicators): seq<Signal>
    requires !Raises(x)
  {
    When(Overbought(x), SignalOf(RsiOverbought, x))
    + When(DeathCrossing(x), SignalOf(DeathCross, x))
    + When(AtUpperBand(x), SignalOf(BbUpperResistance, x))
    + When(MacdBearish(x), SignalOf(MacdBearishCrossover, x))
    + When(AtResistance(x), SignalOf(NearResistance, x))
  }

  /** Reference definition: targets appended by the RSI, band and support rules. */
  function TargetList(x: Indicators): seq<real>
    requires !Raises(x)
  {
    (if Oversold(x) then [x.current * 1.02] else [])
    + (if AtLowerBand(x) then [x.bbUpper] else [])
    + (if AtSupport(x) then [x.resistance] else [])
  }

  /** Reference definition: stop losses appended by the same three rules. */
  function StopList(x: Indicators): seq<real>
    requires !Raises(x)
  {
    (if Oversold(x) then [x.current * 0.985] else [])
    + (if AtLowerBand(x) then [x.bbLower * 0.995] else [])
    + (if AtSupport(x) then [x.support * 0.98] else [])
  }

  /** The reasons of the signals in a list. */
  function Reasons(signals: seq<Signal>): set<Reason>
  {
    set s | s in signals :: s.reason
  }

  lemma ReasonsOfConcat(a: seq<Signal>, b: seq<Signal>)
    ensures Reasons(a + b) == Reasons(a) + Reasons(b)
  {
    assert forall s :: s in a + b <==> s in a || s in b;
  }

  lemma ReasonsWhen(fires: bool, s: Signal)
    ensures Reasons(When(fires, s)) == if fires then {s.reason} else {}
  {
    if fires {
      assert forall t :: t in [s] <==> t == s;
    }
  }

  function Count(fires: bool): nat
  {
    if fires then 1 else 0
  }

  /** Every entry signal is a BUY. */
  lemma EntryDirections(x: Indicators)
    requires !Raises(x)
    ensures forall s :: s in EntrySignals(x) ==> s.direction == Buy
  {
  }

  /** An entry with a given reason is present exactly when that rule fires,
      and there are as many entries as firing rules. */
  lemma EntryRules(x: Indicators)
    requires !Raises(x)
    ensures Reasons(EntrySignals(x)) ==
      (if Oversold(x) then {RsiOversold} else {})
      + (if GoldenCrossing(x) then {GoldenCross} else {})
      + (if AtLowerBand(x) then {BbLowerBounce} else {})
      + (if MacdBullish(x) then {MacdBullishCrossover} else {})
      + (if AtSupport(x) then {NearSupport} else {})
    ensures |EntrySignals(x)| == Count(Oversold(x)) + Count(GoldenCrossing(x)) + Count(AtLowerBand(x))
                                 + Count(MacdBullish(x)) + Count(AtSupport(x))
  {
    var a := When(Oversold(x), SignalOf(RsiOversold, x));
    var b := When(GoldenCrossing(x), SignalOf(GoldenCross, x));
    var c := When(AtLowerBand(x), SignalOf(BbLowerBounce, x));
    var d := When(MacdBullish(x), SignalOf(MacdBullishCrossover, x));
    var e := When(AtSupport(x), SignalOf(NearSupport, x));
    assert EntrySignals(x) == a + b + c + d + e;
    ReasonsWhen(Oversold(x), SignalOf(RsiOversold, x));
    ReasonsWhen(GoldenCrossing(x), SignalOf(GoldenCross, x));
    ReasonsWhen(AtLowerBand(x), SignalOf(BbLowerBounce, x));
    ReasonsWhen(MacdBullish(x), SignalOf(MacdBullishCrossover, x));
    ReasonsWhen(AtSupport(x), SignalOf(NearSupport, x));
    ReasonsOfConcat(a, b);
    ReasonsOfConcat(a + b, c);
    ReasonsOfConcat(a + b + c, d);
    ReasonsOfConcat(a + b + c + d, e);
  }

  /** Every exit signal is a SELL. */
  lemma ExitDirections(x: Indicators)
    requires !Raises(x)
    ensures forall s :: s in ExitSignals(x) ==> s.direction == Sell
  {
  }

  /** The same for exits: an exit is present exactly when its rule fires,
      one per firing rule. */
  lemma ExitRules(x: Indicators)
    requires !Raises(x)
    ensures Reasons(ExitSignals(x)) ==
      (if Overbought(x) then {RsiOverbought} else {})
      + (if DeathCrossing(x) then {DeathCross} else {})
      + (if AtUpperBand(x) then {BbUpperResistance} else {})
      + (if MacdBearish(x) then {MacdBearishCrossover} else {})
      + (if AtResistance(x) then {NearResistance} else {})
    ensures |ExitSignals(x)| == Count(Overbought(x)) + Count(DeathCrossing(x)) + Count(AtUpperBand(x))
                                + Count(MacdBearish(x)) + Count(AtResistance(x))
  {
    var a := When(Overbought(x), SignalOf(RsiOverbought, x));
    var b := When(DeathCrossing(x), SignalOf(DeathCross, x));
    var c := When(AtUpperBand(x), SignalOf(BbUpperResistance, x));
    var d := When(MacdBearish(x), SignalOf(MacdBearishCrossover, x));
    var e := When(AtResistance(x), SignalOf(NearResistance, x));
    assert ExitSignals(x) == a + b + c + d + e;
    ReasonsWhen(Overbought(x), SignalOf(RsiOverbought, x));
    ReasonsWhen(DeathCrossing(x), SignalOf(DeathCross, x));
    ReasonsWhen(AtUpperBand(x), SignalOf(BbUpperResistance, x));
    ReasonsWhen(MacdBearish(x), SignalOf(MacdBearishCrossover, x));
    ReasonsWhen(AtResistance(x), SignalOf(NearResistance, x));
    ReasonsOfConcat(a, b);
    ReasonsOfConcat(a + b, c);
    ReasonsOfConcat(a + b + c, d);
    ReasonsOfConcat(a + b + c + d, e);
  }

  /** The `elif` of the RSI, crossover and MACD rules never suppresses an
      exit: each of those exits fires exactly on its own condition, which
      already excludes the entry condition. The band rule's `elif` does
      matter: on an inverted band (upper at or below lower) a price between
      the two meets both raw conditions and only the entry fires. */
  lemma ExitConditions(x: Indicators)
    ensures Overbought(x) <==> x.rsi > 70.0
    ensures DeathCrossing(x) <==> x.sma50 != 0.0 && x.current < x.sma20 < x.sma50
    ensures MacdBearish(x) <==> x.macdLine < x.macdSignal && x.macdLine < 0.0
    ensures x.bbUpper <= x.current <= x.bbLower ==> AtLowerBand(x) && !AtUpperBand(x)
  {
  }

  /** b is what Python's max(signals, key=confidence) returns: the first
      signal of the highest confidence. */
  ghost predicate IsBest(b: Signal, signals: seq<Signal>)
  {
    exists k :: 0 <= k < |signals| && signals[k] == b
      && (forall j :: 0 <= j < k ==> signals[j].confidence < b.confidence)
      && (forall j :: k < j < |signals| ==> signals[j].confidence <= b.confidence)
  }

  method BestSignal(signals: seq<Signal>) returns (best: Option<Signal>)
    ensures best == None <==> signals == []
    ensures best.Some? ==> IsBest(best.value, signals)
  {
    if signals == [] {
      return None;
    }
    var k := 0;
    var i := 1;
    while i < |signals|
      invariant 1 <= i <= |signals|
      invariant 0 <= k < i
      invariant forall j :: 0 <= j < k ==> signals[j].confidence < signals[k].confidence
      invariant forall j :: k < j < i ==> signals[j].confidence <= signals[k].confidence
    {
      if signals[i].confidence > signals[k].confidence {
        k := i;
      }
      i := i + 1;
    }
    return Some(signals[k]);
  }

  /** The RSI rule, which starts the lists: oversold adds an entry with a
      target 2% up and a stop 1.5% down, else overbought adds an exit. */
  method RsiRule(x: Indicators)
    returns (entries: seq<Signal>, exits: seq<Signal>, targets: seq<real>, stops: seq<real>)
    ensures entries == When(Oversold(x), SignalOf(RsiOversold, x))
    ensures exits == When(Overbought(x), SignalOf(RsiOverbought, x))
    ensures targets == (if Oversold(x) then [x.current * 1.02] else [])
    ensures stops == (if Oversold(x) then [x.current * 0.985] else [])
  {
    entries, exits, targets, stops := [], [], [], [];
    if x.rsi < 30.0 {
      entries := entries + [SignalOf(RsiOversold, x)];
      targets := targets + [x.current * 1.02];
      stops := stops + [x.current * 0.985];
    } else if x.rsi > 70.0 {
      exits := exits + [SignalOf(RsiOverbought, x)];
    }
  }

  /** The moving-average crossover rule. */
  method CrossoverRule(x: Indicators, entries: seq<Signal>, exits: seq<Signal>)
    returns (entries': seq<Signal>, exits': seq<Signal>)
    ensures entries' == entries + When(GoldenCrossing(x), SignalOf(GoldenCross, x))
    ensures exits' == exits + When(DeathCrossing(x), SignalOf(DeathCross, x))
  {
    entries', exits' := entries, exits;
    if x.sma50 != 0.0 && x.current > x.sma20 > x.sma50 {
      entries' := entries' + [SignalOf(GoldenCross, x)];
    } else if x.sma50 != 0.0 && x.current < x.sma20 < x.sma50 {
      exits' := exits' + [SignalOf(DeathCross, x)];
    }
  }

  /** The Bollinger band rule: at or below the lower band adds an entry
      targeting the upper band with a stop 0.5% under the lower band, else at
      or above the upper band adds an exit. */
  method BandRule(x: Indicators, entries: seq<Signal>, exits: seq<Signal>, targets: seq<real>, stops: seq<real>)
    returns (entries': seq<Signal>, exits': seq<Signal>, targets': seq<real>, stops': seq<real>)
    ensures entries' == entries + When(AtLowerBand(x), SignalOf(BbLowerBounce, x))
    ensures exits' == exits + When(AtUpperBand(x), SignalOf(BbUpperResistance, x))
    ensures targets' == targets + (if AtLowerBand(x) then [x.bbUpper] else [])
    ensures stops' == stops + (if AtLowerBand(x) then [x.bbLower * 0.995] else [])
  {
    entries', exits', targets', stops' := entries, exits, targets, stops;
    if x.current <= x.bbLower {
      entries' := entries' + [SignalOf(BbLowerBounce, x)];
      targets' := targets' + [x.bbUpper];
      stops' := stops' + [x.bbLower * 0.995];
    } else if x.current >= x.bbUpper {
      exits' := exits' + [SignalOf(BbUpperResistance, x)];
    }
  }

  /** The MACD rule. */
  method MacdRule(x: Indicators, entries: seq<Signal>, exits: seq<Signal>)
    returns (entries': seq<Signal>, exits': seq<Signal>)
    ensures entries' == entries + When(MacdBullish(x), SignalOf(MacdBullishCrossover, x))
    ensures exits' == exits + When(MacdBearish(x), SignalOf(MacdBearishCrossover, x))
  {
    entries', exits' := entries, exits;
    if x.macdLine > x.macdSignal && x.macdLine > 0.0 {
      entries' := entries' + [SignalOf(MacdBullishCrossover, x)];
    } else if x.macdLine < x.macdSignal && x.macdLine < 0.0 {
      exits' := exits' + [SignalOf(MacdBearishCrossover, x)];
    }
  }

  /** The support/resistance rule: within 1% of support adds an entry
      targeting resistance with a stop 2% under support, else within 1% of
      resistance adds an exit. Dividing by a zero level raises. */
  method LevelRule(x: Indicators, entries: seq<Signal>, exits: seq<Signal>, targets: seq<real>, stops: seq<real>)
    returns (raised: bool, entries': seq<Signal>, exits': seq<Signal>, targets': seq<real>, stops': seq<real>)
    ensures raised <==> Raises(x)
    ensures !raised ==> entries' == entries + When(AtSupport(x), SignalOf(NearSupport, x))
    ensures !raised ==> exits' == exits + When(AtResistance(x), SignalOf(NearResistance, x))
    ensures !raised ==> targets' == targets + (if AtSupport(x) then [x.resistance] else [])
    ensures !raised ==> stops' == stops + (if AtSupport(x) then [x.support * 0.98] else [])
  {
    entries', exits', targets', stops' := entries, exits, targets, stops;
    if x.support == 0.0 {
      return true, entries', exits', targets', stops';
    }
    if Near(x.current, x.support) {
      entries' := entries' + [SignalOf(NearSupport, x)];
      stops' := stops' + [x.support * 0.98];
      targets' := targets' + [x.resistance];
    } else {
      if x.resistance == 0.0 {
        return true, entries', exits', targets', stops';
      }
      if Near(x.current, x.resistance) {
        exits' := exits' + [SignalOf(NearResistance, x)];
      }
    }
    raised := false;
  }

  /** The rules of the source, in order, appending to the signal, target and
      stop-loss lists. `raised` reports the division by zero of the
      support/resistance rule; otherwise the lists are the reference ones. */
  method CollectSignals(x: Indicators)
    returns (raised: bool, entries: seq<Signal>, exits: seq<Signal>, targets: seq<real>, stops: seq<real>)
    ensures raised <==> Raises(x)
    ensures !raised ==> entries == EntrySignals(x) && exits == ExitSignals(x)
    ensures !raised ==> targets == TargetList(x) && stops == StopList(x)
  {
    entries, exits, targets, stops := RsiRule(x);
    entries, exits := CrossoverRule(x, entries, exits);
    entries, exits, targets, stops := BandRule(x, entries, exits, targets, stops);
    entries, exits := MacdRule(x, entries, exits);
    raised, entries, exits, targets, stops := LevelRule(x, entries, exits, targets, stops);
  }

  function Larger(a: nat, b: nat): nat { if a < b then b else a }

  function Smaller(a: nat, b: nat): nat { if a < b then a else b }

  /** The overall recommendation and its strength for the given numbers of
      entry and exit signals: the side with more signals wins, with strength
      20 per signal capped at 100; a tie is a HOLD of strength 50. */
  function Verdict(buys: nat, sells: nat): (v: (Direction, nat))
    ensures v.0 == Buy <==> buys > sells
    ensures v.0 == Sell <==> sells > buys
    ensures v.0 == Hold ==> v.1 == 50
    ensures v.0 != Hold ==> v.1 == Smaller(100, 20 * Larger(buys, sells))
    ensures 20 <= v.1 <= 100
  {
    var (overall, strength) :=
      if buys > sells then (Buy, buys * 20)
      else if sells > buys then (Sell, sells * 20)
      else (Hold, 50);
    (overall, Smaller(100, strength))
  }

  /** One more entry signal never weakens a BUY verdict, and one more exit
      signal never weakens a SELL verdict. */
  lemma VerdictMonotone(buys: nat, sells: nat)
    ensures Verdict(buys, sells).0 == Buy ==>
      Verdict(buys + 1, sells).0 == Buy && Verdict(buys, sells).1 <= Verdict(buys + 1, sells).1
    ensures Verdict(buys, sells).0 == Sell ==>
      Verdict(buys, sells + 1).0 == Sell && Verdict(buys, sells).1 <= Verdict(buys, sells + 1).1
  {
  }

  /** Runs every rule, then decides. On the raising inputs the result is the
      fallback. Otherwise the signals are the reference ones (see EntryRules
      and ExitRules), the verdict follows the signal counts, the best signals
      are those of highest confidence, the stop-loss and target sets hold the
      elements of the reference lists, and the risk/reward ratio is taken over
      those lists before de-duplication. */
  method AnalyzeEntryExit(x: Indicators) returns (report: Report)
    ensures report.Fallback? <==> Raises(x)
    ensures report.Report? ==>
      && report.entries == EntrySignals(x) && report.exits == ExitSignals(x)
      && (forall t :: t in report.targets <==> t in TargetList(x))
      && (forall t :: t in report.stopLosses <==> t in StopList(x))
      && report.riskReward == RiskReward.Ratio(x.current, TargetList(x), StopList(x))
    ensures report.Report? ==>
      && (report.overall, report.strength) == Verdict(|report.entries|, |report.exits|)
      && report.totalSignals == |report.entries| + |report.exits|
      && (report.bestEntry == None <==> report.entries == [])
      && (report.bestEntry.Some? ==> IsBest(report.bestEntry.value, report.entries))
      && (report.bestExit == None <==> report.exits == [])
      && (report.bestExit.Some? ==> IsBest(report.bestExit.value, report.exits))
  {
    var raised, entries, exits, targets, stops := CollectSignals(x);
    if raised {
      return Fallback;
    }

    var bestEntry := BestSignal(entries);
    var bestExit := BestSignal(exits);

    var overall: Direction;
    var strength: nat;
    if |entries| > |exits| {
      overall, strength := Buy, |entries| * 20;
    } else if |exits| > |entries| {
      overall, strength := Sell, |exits| * 20;
    } else {
      overall, strength := Hold, 50;
    }

    var stopSet := set t | t in stops;
    var targetSet := set t | t in targets;
    report := Report(entries, exits, stopSet, targetSet,
                     bestEntry, bestExit,
                     overall, Smaller(100, strength), |entries| + |exits|,
                     RiskReward.Ratio(x.current, targets, stops));
  }
}
