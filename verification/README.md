# Technical-analysis core of the market bot

The bot (`app.py`) answers Telegram commands with market commentary. Behind
the messages sits a small technical-analysis engine, and this project models
that engine:

- the indicators of `TechnicalAnalyzer`:
  - exponential moving average;
  - MACD in its two variants;
  - a volume-trend proxy;
  - the stochastic oscillator;
  - support and resistance levels;
- the Bollinger-band position;
- the risk/reward ratio;
- the two entry/exit decision engines:
  - the first counts BUY and SELL signals;
  - the second weighs signals into a net score, picks one of five actions
    and attaches stop-loss and target ladders.

Every module is a set of reference functions and, where the source loops,
methods whose loops are proved against those functions. Lemmas then state
what the indicators and decisions promise.

Modules:

- `Common`: `Option`, signal strength, `Abs`, the "within 1% of a level" test.
- `Stats`: sum, mean, min, max, last-n and the lemmas bounding them.
- `MovingAverage`: `calculate_ema`.
- `Macd`: both `calculate_macd` variants.
- `Oscillators`: `analyze_volume_trend` and `calculate_stochastic`.
- `Bands`: `get_bb_position`.
- `RiskReward`: `calculate_risk_reward`.
- `Levels`: `calculate_support_levels` and `calculate_resistance_levels`, as one scan over a `Side`.
- `EntryExitCount`: the first `analyze_entry_exit_points`.
- `EntryExitScore`: the second `analyze_entry_exit_points`.

Prices are exact `real`s. Each `try`/`except` of the source is modelled as
the value its handler returns:

- The first engine returns the `Fallback` report when the support/resistance
  test divides by a zero level.
- The second engine keeps the signals collected up to a zero level met in
  its level scan and reports a hold at confidence 0 with no ladders.
- The indicator functions return their documented fallback values.

The support stop of a buy is placed from the support levels alone, 1% under
the lowest one, not from the price. It lies above the price exactly when the
lowest support exceeds price / 0.99, that is, lies more than about 1% above
the price (`BuyStopAboveEntry`: a support at 200 puts the stop of a buy at
100 at 198). The resistance stop of a sell mirrors this: it lies below the
price exactly when the highest resistance is below price / 1.01. A support
at or below the price, or a resistance at or above it, keeps the stop on the
protective side (`SecondStopSide`).

## Model

| member | source | states |
|---|---|---|
| MovingAverage.CalculateEma | app.py:607-621 | the loop yields `Ema`: with fewer prices than the period, their mean (0 for none); a period of -1 or an empty list give 0; otherwise the first price folded with every later price through `price*a + ema*(1-a)`, `a = 2/(period+1)` |
| MovingAverage.SmoothBetween | app.py:614-617 | every step of the recurrence with `0 <= a <= 1` stays within any interval holding the seed and all prices |
| MovingAverage.EmaWithinRange | app.py:607-621 | for a period of at least 1 and a non-empty list, the EMA lies between the minimum and the maximum price |
| MovingAverage.EmaOfFlat | app.py:607-621 | a constant series has that constant as its EMA, for every period except -1 |
| MovingAverage.EmaOfZeros | app.py:607-621 | an all-zero series has EMA 0 for every period, fallbacks included |
| Macd.SimplifiedMacd | app.py:582-604 | fewer prices than the slow period give (0, 0, 0); otherwise the line is fast EMA minus slow EMA, the histogram is line minus signal and equals a fifth of the line, and the histogram is positive exactly when the line is |
| Macd.MacdSeries | app.py:1334-1339 | the per-prefix MACD list has one value per index from `slow` to the end |
| Macd.MacdSeriesAt | app.py:1334-1339 | the k-th collected value is the MACD line of the prefix ending at index `slow + k` |
| Macd.CalculateMacd | app.py:1324-1352 | fewer prices than the slow period give (0, 0, 0); otherwise the line is the MACD of the whole list; the signal is the EMA over the signal period of the per-prefix MACD series when it has at least `signal` values, else the line itself with histogram 0; histogram = line - signal |
| Macd.FlatSeriesIsZero | app.py:1334-1339 | on a constant price series, for a fast period other than -1, every collected MACD value is 0 |
| Macd.FlatMarketHasNoMomentum | app.py:1324-1352 | on a non-empty constant series, for a fast period other than -1, the simplified MACD is all zeros, the MACD line is 0 and the EMA-variant signal line is 0 |
| Oscillators.AbsChanges | app.py:631 | one absolute change per consecutive pair of prices |
| Oscillators.AnalyzeVolumeTrend | app.py:624-642 | the result is "insufficient data" exactly when there are fewer than 10 prices |
| Oscillators.VolumeTrendShiftInvariant | app.py:624-642 | adding a constant to every price leaves the volume trend unchanged |
| Oscillators.FlatVolumeIsStable | app.py:624-642 | a constant series of at least 10 prices is "stable" |
| Oscillators.StochasticWindow | app.py:651 | the window `prices[-period:]` is non-empty and holds the latest price |
| Oscillators.StochasticOscillator | app.py:645-666 | %K lies in [0, 100]; %D is 0.7 %K or the pair is (50, 50); a short or empty list gives (50, 50); a flat window gives (50, 35); otherwise %K is 100 exactly at the window high and 0 exactly at the window low |
| Oscillators.FractionOfRange | app.py:656-659 | the position of a price within a high-low range is a fraction in [0, 1], 1 only at the high and 0 only at the low |
| Bands.BandPosition | app.py:988-1005 | above the upper band iff price > upper; below the lower band iff price < lower (and not above); otherwise the relative position picks upper (> 0.7), lower (< 0.3) or middle zone; unknown exactly when the band has zero width at the price |
| Bands.BandPositionMonotone | app.py:988-1005 | on a band of positive width, a higher price never lands in a lower zone |
| RiskReward.Ratio | app.py:822-840 | 0 without targets or stops, or when the mean stop is at or above the price; otherwise ratio × (price - mean stop) = mean target - price; positive iff mean stop < price < mean target, negative iff both means are below the price |
| Levels.Extreme | app.py:1378 | the overall minimum (support) or maximum (resistance) is in the list and nothing in the list lies beyond it |
| Levels.Recent | app.py:1362 | the scanned slice is the last 50 prices, or all of them when fewer |
| Levels.Insert | app.py:1381 | inserting into an ordered distinct list keeps it ordered and adds exactly the new value |
| Levels.SortDistinct | app.py:1381 | `sorted(set(xs))`: strictly ordered (ascending for support, descending for resistance) with exactly the elements of the input |
| Levels.IsLocalExtreme | app.py:1366-1372 | the inner loop answers true exactly when no neighbour within the window lies beyond the point |
| Levels.LocalExtremes | app.py:1365-1375 | the outer loop collects exactly the values of the local extremes at indices at least a window from either end |
| Levels.KeepsLeastExtreme | app.py:1380-1382 | keeping the last three of the ordered candidates keeps only candidates, and every dropped candidate lies beyond all kept ones |
| Levels.KeyLevels | app.py:1355-1416 | no prices give [0]; fewer prices than the window give the overall extreme; otherwise one to three candidates of the last-50 slice, strictly ordered, every omitted candidate lying beyond all of them |
| Levels.SupportLevels | app.py:1355-1384 | no prices give [0]; fewer than the window give [min]; otherwise one to three strictly ascending prices of the last-50 slice, none below its minimum, each a local low or that minimum; a local low is left out only when three levels are kept, and then lies below them all |
| Levels.ResistanceLevels | app.py:1387-1416 | no prices give [0]; fewer than the window give [max]; otherwise one to three strictly descending prices of the last-50 slice, none above its maximum, each a local high or that maximum; a local high is left out only when three levels are kept, and then lies above them all |
| EntryExitCount.SignalOf | app.py:679-775 | each rule's signal carries its reason, is a BUY for the five entry reasons and a SELL for the five exit reasons, with confidence between 70 and 85 |
| EntryExitCount.RsiRule | app.py:679-697 | RSI below 30 adds an entry with a 2% target and a 1.5% stop; otherwise RSI above 70 adds an exit |
| EntryExitCount.CrossoverRule | app.py:699-715 | a non-zero SMA-50 with price > SMA-20 > SMA-50 adds a golden-cross entry; otherwise the mirror ordering adds a death-cross exit |
| EntryExitCount.BandRule | app.py:717-736 | a price at or below the lower band adds an entry targeting the upper band with a stop 0.5% under the lower band; otherwise at or above the upper band adds an exit |
| EntryExitCount.MacdRule | app.py:738-754 | a positive MACD over its signal adds an entry; otherwise a negative MACD under its signal adds an exit |
| EntryExitCount.LevelRule | app.py:756-775 | reports a division by zero exactly for a zero support, or a zero resistance when the price is not near support; otherwise, near support, adds an entry targeting resistance with a 2% stop under support; otherwise, near resistance, adds an exit |
| EntryExitCount.CollectSignals | app.py:673-775 | the rules in order raise exactly on the zero-level inputs; otherwise they produce the reference entry, exit, target and stop-loss lists |
| EntryExitCount.EntryDirections | app.py:679-775 | every entry signal is a BUY |
| EntryExitCount.ExitDirections | app.py:679-775 | every exit signal is a SELL |
| EntryExitCount.EntryRules | app.py:679-775 | an entry with a given reason is present exactly when its rule fires, and there are as many entries as firing rules |
| EntryExitCount.ExitRules | app.py:679-775 | an exit with a given reason is present exactly when its rule fires, one per firing rule |
| EntryExitCount.ExitConditions | app.py:679-754 | the RSI, crossover and MACD exits fire exactly on their own conditions, so their `elif` never suppresses an exit; on an inverted band a price between the bands meets both band conditions and only the entry fires |
| EntryExitCount.BestSignal | app.py:778-785 | no best signal iff the list is empty; otherwise the first signal of highest confidence, as `max(..., key=confidence)` |
| EntryExitCount.Verdict | app.py:787-796 | BUY iff more entries than exits, SELL iff more exits than entries; a tie is HOLD at 50; otherwise strength is 20 per signal of the winning side, capped at 100, so always in [20, 100] |
| EntryExitCount.VerdictMonotone | app.py:787-796 | one more entry never weakens a BUY verdict, and one more exit never weakens a SELL verdict |
| EntryExitCount.AnalyzeEntryExit | app.py:667-820 | the fallback report exactly on a division by zero; otherwise the reference signals, target and stop sets with the elements of the reference lists, the risk/reward of those lists, the verdict of the signal counts, the total count, and the best entry and exit |
| EntryExitScore.EntryWeight | app.py:1037-1087 | each entry rule adds 15 to 35 points |
| EntryExitScore.ExitWeight | app.py:1101-1147 | each exit rule adds 15 to 35 points |
| EntryExitScore.EntryOf | app.py:1029-1086 | each entry signal has its rule's kind and enters at the current price |
| EntryExitScore.ExitOf | app.py:1094-1146 | each exit signal has its rule's kind and exits at the current price |
| EntryExitScore.IndicatorEntryScore | app.py:1027-1073 | the score of the indicator entries is the sum of the weights of the firing rules (30, 20, 35, 25) |
| EntryExitScore.IndicatorExitScore | app.py:1092-1134 | the score of the indicator exits is the sum of the weights of the firing rules (30, 20, 35, 20) |
| EntryExitScore.AddEntry | app.py:1028-1087 | a firing entry rule appends its signal and keeps the running score equal to the score of the list |
| EntryExitScore.AddExit | app.py:1093-1147 | a firing exit rule appends its signal and keeps the running score equal to the score of the list |
| EntryExitScore.IndicatorEntryRules | app.py:1027-1073 | the four indicator entry rules produce the reference list, and the running score is its score: the weights of the firing rules |
| EntryExitScore.IndicatorExitRules | app.py:1092-1134 | the four indicator exit rules produce the reference list, and the running score is its score: the weights of the firing rules |
| EntryExitScore.FindNearLevel | app.py:1077-1088 | the level loop with `break` yields the scan outcome: the first level within 1% of the price, no such level, or a zero level reached first |
| EntryExitScore.ScanFindsFirstNear | app.py:1077-1088 | when every earlier level is non-zero and not near, the scan touches the first near level |
| EntryExitScore.ScanStopsAtZero | app.py:1077-1088 | when every earlier level is non-zero and not near, the scan raises at the first zero level |
| EntryExitScore.ScanMisses | app.py:1138-1148 | the scan finds nothing exactly when no level is zero or near the price |
| EntryExitScore.ScanTouchesMember | app.py:1138-1148 | a touched level is one of the levels, non-zero and near the price; a raising scan met a zero level |
| EntryExitScore.EntrySection | app.py:1025-1088 | the entry half raises exactly when the support scan does; otherwise the indicator entries followed by a support bounce at the touched level; the score is the list's score |
| EntryExitScore.ExitSection | app.py:1090-1148 | the exit half raises exactly when the resistance scan does; otherwise the indicator exits followed by a resistance rejection; the score is the list's score |
| EntryExitScore.Decide | app.py:1150-1172 | confidence in [40, 90]; hold iff net score in [-20, 20], at confidence 40; buy or strong buy iff net > 20; sell or strong sell iff net < -20; strong buy iff net > 40; strong sell iff net < -40; low risk iff the action is strong |
| EntryExitScore.DecideMonotone | app.py:1150-1172 | a higher net score never yields a more bearish action |
| EntryExitScore.DecideSymmetric | app.py:1150-1172 | negating the net score mirrors the action and keeps confidence and risk |
| EntryExitScore.DecideConfidenceBands | app.py:1150-1172 | a strong action always has confidence 90; a plain buy or sell has 71 to 80 |
| EntryExitScore.StopLadder | app.py:1174-1197 | none for a hold; for a buy, an ATR stop 3% under the price, then a support stop 1% under the lowest support (no support lies below it), or 5% under the price without supports; for a sell, an ATR stop 3% over the price, then a resistance stop 1% over the highest resistance, or 5% over the price without resistances |
| EntryExitScore.SecondStopSide | app.py:1174-1197 | at a positive price, a buy's second stop lies under the price when there are no supports or some support is at or below the price; a sell's second stop lies over the price when there are no resistances or some resistance is at or above the price |
| EntryExitScore.BuyStopAboveEntry | app.py:1178 | a buy at 100 with a support at 200 gets a support stop at 198, above the entry price; a support at 100.5 gives 99.495, below it |
| EntryExitScore.TargetLadder | app.py:1185-1203 | three target levels for a buy or a sell, none for a hold |
| EntryExitScore.LadderDirection | app.py:1174-1203 | at a positive price, buy targets rise above the price and the ATR stop is below it; sell targets fall below the price and the ATR stop is above it; probabilities fall with distance |
| EntryExitScore.AnalyzeEntryExit | app.py:1007-1208 | the analysis yields the reference result: both sections, then the decision on entry score minus exit score with its ladders, or the partial result when a scan meets a zero level |
| EntryExitScore.AnalysisAborts | app.py:1205-1208 | when a level scan raises, the report is a hold at confidence 0 with no ladders |
| EntryExitScore.EmptyHistoryAborts | app.py:1076-1078 | with the `[0]` support list of an empty price history, the report holds only the indicator entries, whatever the readings |
| EntryExitScore.AnalysisDecides | app.py:1150-1172 | when both scans complete, the confidence lies in [40, 90], so 0 always signals an aborted analysis |
| EntryExitScore.AnalysisLadders | app.py:1174-1203 | the report has two stop levels, and three targets, exactly when its action is not a hold |
| EntryExitScore.DecidedOutcome | app.py:1150-1203 | a completed report keeps its signal lists, carries the decision for its net score, and has ladders exactly for a buy or sell |
| EntryExitScore.EntriesScoreBound | app.py:1022-1088 | the entry score lies between 0 and 125 |
| EntryExitScore.ExitsScoreBound | app.py:1023-1148 | the exit score lies between 0 and 120 |
| EntryExitScore.ExpectedLists | app.py:1025-1148 | the reported entries and exits by the outcome of the two scans: a raising support scan leaves no exits, and a raising resistance scan leaves the indicator exits |
| EntryExitScore.AnalysisScoreBounds | app.py:1022-1151 | in every report the entry score is in [0, 125] and the exit score in [0, 120] |

## Left out

- Everything around the engine is not part of this model: the Telegram
  webhook, message sending and formatting, background tasks, price
  fetching and logging.
- Description strings, signal "type" labels and "reason" texts are not
  modelled. Each becomes a datatype constructor (`Reason`, `EntryKind`,
  `ExitKind`, `StopKind`, the target tier and percent).
- Floating point is not modelled. Prices are exact reals, so IEEE rounding,
  NaN and infinities (and a division that overflows) are out of scope.
- `calculate_ema` appears twice with identical bodies (app.py:607-621 and
  app.py:1307-1321). It is modelled once, as `MovingAverage`.
- `Macd.CalculateMacd`: the slow period is a `nat`. A negative slow period
  would make Python slice from the end, which is not modelled.
- `Levels.KeyLevels`, `Levels.SupportLevels`, `Levels.ResistanceLevels`: the
  window is a `nat`. A negative window would make `range` and slicing
  behave differently in Python, which is not modelled.
- `Oscillators.StochasticOscillator`: the period is a `nat`. A negative
  period would make Python slice from the front, which is not modelled.
- `Oscillators.AnalyzeVolumeTrend`: the "unknown" result of its error
  handler is not modelled. No input of at least 10 numbers raises.
- `EntryExitScore.AnalyzeEntryExit`: the trend argument is a string in the
  source. Only the labels "bullish" and "bearish" change the outcome, so it
  is the `Trend` datatype, and every other label is `Sideways`.
- `EntryExitScore.AnalyzeEntryExit`: the `sma_20` and `sma_50` parameters
  are not modelled, because the second engine never reads them.
- `EntryExitScore.AnalyzeEntryExit`: the support and resistance lists are
  parameters. The source computes them from the bot's price history with
  `calculate_support_levels` and `calculate_resistance_levels`, which
  `Levels` models. `EmptyHistoryAborts` covers the `[0]` result of an
  empty history.
- `EntryExitCount.AnalyzeEntryExit`: the stop-loss and target lists pass
  through a Python `set`, so their order is unspecified. The report holds
  them as sets, with exactly the elements of the reference lists.
- `EntryExitCount.AnalyzeEntryExit`: the fallback report is one constructor
  (`Fallback`). It stands for the handler's dictionary of empty signal
  lists, HOLD and strength 0.
