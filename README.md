# Candle analytics and backtest engine, modelled in Dafny

This project models the computational core of a crypto-futures trading
dashboard. That core has six parts.

1. **Backtest simulator** (`markPositionEntries`). It walks an array of candle
   entries and annotates each candle:
   - analytics (with an 8-period ATR);
   - six-hour session price zones;
   - zone interaction.

   It then runs a one-position state machine: a position opens when the rule
   bank picks a side, and the following candles close it at stop-loss (LOSS),
   at take-profit (WON), or as MID when a single candle crosses both levels.
2. **Candle feature and volume analytics** (`CandlestickAnalyzer`):
   - candle body and wick features, price-move and over-state detectors;
   - volume-spike and past-volume summaries, zone-interaction scoring and volume analysis;
   - ATR, support/resistance with its in-place back-fill, the overbought/oversold classifier;
   - and the past-reaction summary.
3. **Session price-zone engine**: zone generation, the interaction counter
   loop, and the breakout-start score.
4. **PnL, fee and maintenance-margin arithmetic**, including the bracket-tier
   lookup of the exchange's margin table.
5. **In-memory trade-signal log**: a class with two id-keyed tables and two
   independent id counters.
6. **Small utilities**: symbol batching, removing nested parentheses, and a
   32-bit string hash.

Each source file is one Dafny module:

| Module | File |
|---|---|
| `Simulation` | `simulation.dfy` |
| `CandleAnalyzer` | `candle_analyzer.dfy` |
| `PriceZoneEngine` | `price_zone.dfy` |
| `Pnl` | `pnl.dfy` |
| `BinanceMargin` | `binance_margin.dfy` |
| `TradeSignalLog` | `trade_signal_logger_mem.dfy` |
| `ChocoMintoStore` | `choco_minto_store.dfy` |
| `CommonHelper` | `common_helper.dfy` |

Shared modules:
- `Wrappers` holds the `Option`/`Result` types.
- `Numeric` holds JavaScript arithmetic helpers: `Math.max`/`min`, slices with
  negative indexes, `Math.round(x*100)/100`, `toFixed(2)`, sums and variances.
- `Interfaces` holds the record shapes of the interface declarations.

**Conventions**
- Numbers are `real`. `Math.sqrt` and `Math.exp` are function parameters;
  lemmas that need a fact about them take it as a hypothesis.
- A division by zero, which gives NaN or ±Infinity in the source, is
  `Numeric.Div(a, 0) == 0`. Where that outcome decides a branch cheaply, the
  branch is modelled exactly: `detectPriceMove` with zero deviation, the
  distance-to-mid class of a zero-height zone, `calculatePNLPercent` with a
  zero entry price.
- `slice(-0)` returns the whole array, as in JavaScript (`Numeric.LastN`).
- The imperative code is imperative Dafny:
  - the simulator is a method over `array<CandleEntry>`;
  - the support/resistance back-fill updates an array in place;
  - counter loops are `while` loops with invariants;
  - the trade log is a class whose methods update map and sequence fields.

  Each such method is proved equal to a specification function, or has its
  whole new state given in its `ensures`; the properties are proved about
  those functions and states.

**Quirks the model keeps as the code has them**
- The simulator decides that a position is open from the *previous* candle's
  status, not from its own `openPosition` variable.
- A MID exit leaves the entry's last mark-to-market pnl in place.
- The entry-rule bank is a run of independent `if`s, so the last rule that
  sets a field wins, field by field (`Simulation.LastSideWins`).
- `computeVolumeAnalysis` reads `candles[i - 1]` from the start of the whole
  array while iterating over the lookback window. So the volume pressure of a
  short window differs from the window's own cumulative delta
  (`CandleAnalyzer.ShortWindowPressureOffset`). It equals the cumulative delta
  when the window is the whole array (`CandleAnalyzer.WholeWindowPressure`).
- `detectPriceMove` averages |move| but measures the spread around that mean
  with the signed move. A steady decline therefore has a non-zero spread
  (`CandleAnalyzer.SteadyDeclineHasSpread`).
- The bearish exhaustion term is `min(-30, …)`, so it always lies in
  [-50, -37.5). The bullish term is a flat 30.
- A close exactly on the zone's upper bound counts as outside. It is scored as
  a bearish breakout with velocity -1
  (`PriceZoneEngine.CloseOnUpperIsBearishBreakout`).
- The look-ahead continuation score of `scoreBreakoutStart` is never added to
  the composite. The model leaves it out, so the score depends only on the
  current candle and the candles before it.

**A consequence proved about `detectOverboughtOversold`**

The six weighted components can only add up to a score in [-27.75, 26.5]. So
the 100-point clamp never applies, and `extremeLevel` is always `"neutral"`.
The overbought, oversold and extreme classes cannot occur
(`CandleAnalyzer.DetectOverboughtOversold`).

## Model

| member | source | states |
|---|---|---|
| Simulation.MarkPositionEntries | src/utility/simulationUtility.ts:53-702 | The array after the run is exactly the state reached by stepping candles 1..entryIndex from a flat position and no zone. An error is returned iff the TP/SL service failed while a position was being opened, and it is that failure's message. |
| Simulation.StepOnArray | src/utility/simulationUtility.ts:84-690 | One loop iteration in place leaves the array, position and zone that `Step` specifies. It reports an error exactly when `Step` aborts. |
| Simulation.RunFrom | src/utility/simulationUtility.ts:71-702 | Running the loop over candles i..last keeps the candle array's length. (The specification of the whole run; its properties are the run lemmas below.) |
| Simulation.Step | src/utility/simulationUtility.ts:71-699 | One iteration keeps the array length, and keeps the open position (if any) at an index before the next candle. |
| Simulation.AnnotateCandle | src/utility/simulationUtility.ts:86-185 | The in-place annotation of candle i equals the `Annotated` specification, new zone state included. |
| Simulation.Annotated | src/utility/simulationUtility.ts:86-185 | Only candle i changes, and only in analytics, status, priceZone and interaction. Its ATR is the 8-period ATR of candles 0..i. On a session boundary the candle becomes ZONE_START, is flagged as a new zone, opens a zone and records its open time. Otherwise status and zone state are untouched. While a zone is active, the candle carries that zone and an interaction summary. |
| Simulation.CandleAnalytics | src/utility/simulationUtility.ts:86-121 | The analytics written on candle i carry the ATR of candles 0..i over 8 periods, which is never negative. |
| Simulation.Exit | src/utility/simulationUtility.ts:208-285 | Only the evaluated candle and the entry candle change. The open position is either kept or cleared. |
| Simulation.EvaluateExit | src/utility/simulationUtility.ts:208-285 | The in-place LONG and SHORT branches produce exactly the `Exit` candles and position. |
| Simulation.ExitOutcomes | src/utility/simulationUtility.ts:210-283 | For a LONG or SHORT entry, duration is re-marked in minutes. Four outcomes: SL and TP both crossed gives MID/`*_MID` with the pnl unchanged and the position cleared; SL alone gives LOSS/`*_LOSS` with the pnl marked at slPrice; TP alone gives WON/`*_WON` with the pnl at tpPrice; neither gives an OPEN candle, the pnl re-marked at the close, and the position kept. |
| Simulation.ExitFollowsOpenCandle | src/utility/simulationUtility.ts:84-208 | When the previous candle is OPEN, the step is annotation followed by `Exit`. Annotation does not touch the entry candle or the current candle's prices and close time. |
| Simulation.ExitPnlSign | src/utility/simulationUtility.ts:222-276 | A stop on the losing side of the entry gives a negative closing pnl. A take-profit on the winning side gives at least minus the exit taker fee. |
| Simulation.ApplyUpdate | src/utility/simulationUtility.ts:358-644 | A rule update changes only side, margin, tp and sl. The side becomes the rule's when the rule sets one and is kept otherwise. |
| Simulation.ApplyRules | src/utility/simulationUtility.ts:358-644 | Folding the rule bank over candle i changes no other candle, and no field of candle i but side, margin, tp and sl. |
| Simulation.ApplyEntryRules | src/utility/simulationUtility.ts:358-644 | The in-place loop over the rule bank gives exactly `ApplyRules` over all rules. |
| Simulation.LastSideWins | src/utility/simulationUtility.ts:358-644 | The side of the candle is the one set by the last rule that sets a side. |
| Simulation.UnsetSideKept | src/utility/simulationUtility.ts:358-644 | When no rule sets a side, the candle keeps its own. |
| Simulation.Open | src/utility/simulationUtility.ts:650-671 | An opened candle has status OPEN, keeps side and close, and gets the base margin when its margin was 0. The service is consulted only when tpPrice is 0, with the margin, BUY for LONG and SELL otherwise, the close and the target ROIs; opening then fails iff the service fails, with the service's error. Otherwise the tp is the service's tp, and the sl is the service's sl when sl was 0 and the preset sl when not. A preset tp is kept. Leverage is the maximum leverage, and entryFee is the taker fee on margin × leverage. |
| Simulation.OpenPosition | src/utility/simulationUtility.ts:650-671 | The in-place opening writes exactly `Open`'s candle, and reports an error iff the service failed. |
| Simulation.EntryTerms | src/utility/simulationUtility.ts:286-671 | A position opens at candle i only if the previous candle is not OPEN and the ruled side is non-empty. The step's candles are then the ruled candles with `Open`'s candle at i, and the step succeeds iff the opening does. |
| Simulation.OnePositionAtATime | src/utility/simulationUtility.ts:208-698 | A step keeps the position, clears it, or opens one at i. Opening needs no open position, a previous candle not OPEN, and a non-empty side, and leaves candle i OPEN. Clearing happens only when the previous candle was OPEN. An aborted step has just opened at i. |
| Simulation.StepKeepsPositionOpen | src/utility/simulationUtility.ts:208-671 | A recorded open position still has status OPEN after a step, because only an exit evaluation writes it. |
| Simulation.ExitKeepsPositionOpen | src/utility/simulationUtility.ts:208-285 | The exit phase either clears the position or keeps it an entry with status OPEN and a side. |
| Simulation.RunKeepsPositionOpen | src/utility/simulationUtility.ts:71-702 | The same holds for any number of steps. |
| Simulation.RunWithoutZonesChangesNothing | src/utility/simulationUtility.ts:84 | Candles lacking support or resistance are skipped entirely: a run over only such candles changes nothing. |
| Simulation.TrendDirection | src/utility/simulationUtility.ts:704-722 | strong_uptrend iff the change exceeds 1.5σ; mild up above 0.5σ, strong and mild down mirrored, otherwise ranging (within ±0.5σ); ranging for an empty lookback. |
| Simulation.TrendMirror | src/utility/simulationUtility.ts:704-722 | Negating the lookback and the current change mirrors the classification. |
| Simulation.IsNewZonePeriod | src/utility/simulationUtility.ts:724-747 | A new zone period starts only at minute 0. |
| Simulation.ZoneStartsEverySixHours | src/utility/simulationUtility.ts:731-746 | It is a new zone period iff the offset-adjusted minute-of-time is a multiple of six hours, i.e. hour in {0,6,12,18} and minute 0. |
| Simulation.CheckProximity | src/utility/simulationUtility.ts:749-779 | With candles and a positive zone height, a distance to the target edge at most 5% of the height is CLOSE and more than 20% is FAR, whatever the volatility. |
| Simulation.CheckAtrVolatility | src/utility/simulationUtility.ts:781-837 | AWAKE needs at least two zone candles and two ATR values. |
| Simulation.RisingAtrIsAwake | src/utility/simulationUtility.ts:798-836 | Three or more strictly rising positive ATRs are always AWAKE. |
| Simulation.TwoAtrsNeedExpansion | src/utility/simulationUtility.ts:798-836 | Two rising ATRs that grew by at most 15% are NEUTRAL. |
| Simulation.GreenCountOfIncreasing | src/utility/simulationUtility.ts:830-833 | A strictly increasing run of n ATRs has n-1 rises. |
| CandleAnalyzer.CandleFeatures | src/utility/candleAnalyzerUtility.ts:5-93 | The features copy the OHLCV and open time. Side is bull iff close > open, so a doji is bear. Indecisive iff body% < top-wick% or body% < bottom-wick%. All percentages are 0 when high == low. |
| CandleAnalyzer.PercentagesPartition | src/utility/candleAnalyzerUtility.ts:15-22 | For a well-formed candle with range, body and wick percentages are non-negative and sum to 100. |
| CandleAnalyzer.IndecisiveBody | src/utility/candleAnalyzerUtility.ts:20-37 | An indecisive candle's body is under 50%; a decisive one's is at least a third. |
| CandleAnalyzer.StrengthBounds | src/utility/candleAnalyzerUtility.ts:24-29 | Strength lies in [0, 100]. |
| CandleAnalyzer.AnalyzeCandlestick | src/utility/candleAnalyzerUtility.ts:5-93 | The method with its push loops equals the `Analysis` specification. |
| CandleAnalyzer.CollectPastCandles | src/utility/candleAnalyzerUtility.ts:41-45 | The first loop collects the analyses of the lookBack previous candles, and fails when one would fall before index 1. |
| CandleAnalyzer.AttachNestedCandles | src/utility/candleAnalyzerUtility.ts:47-53 | The second loop attaches the older candles only to the last collected entry, stopping at index 1. |
| CandleAnalyzer.AnalysisSucceeds | src/utility/candleAnalyzerUtility.ts:5-54 | Analysis is defined iff the index has a previous candle and every past candle it reads exists. |
| CandleAnalyzer.PastCandlesNearestFirst | src/utility/candleAnalyzerUtility.ts:41-53 | previousCandleData has lookBack entries, nearest first. Only the last entry carries nested history. |
| CandleAnalyzer.NestedHistory | src/utility/candleAnalyzerUtility.ts:47-53 | The nested history has at most lookBack entries, continues backwards from index-lookBack-1 and never reaches index 1. |
| CandleAnalyzer.DetectPriceMove | src/utility/candleAnalyzerUtility.ts:95-141 | Anything but normal needs at least 20 candles, an index of at least 2, and a body at least 30% of the wick range. shoots_up needs a rising body and a z-score above 2.5 against the mean and spread of the up to 8 candles before it; dragged_down needs a falling body and a z-score below -2.5. Conversely, with the guards and the body rule met, those conditions give shoots_up and dragged_down. |
| CandleAnalyzer.PriceMoveIgnoresLaterCandles | src/utility/candleAnalyzerUtility.ts:103-125 | The verdict depends only on candles up to the entry index. |
| CandleAnalyzer.SteadyDeclineHasSpread | src/utility/candleAnalyzerUtility.ts:119-125 | A constant falling move m gives mean -m and variance 4m². |
| CandleAnalyzer.DetectOverState | src/utility/candleAnalyzerUtility.ts:183-217 | "" below windowSize+1 candles, with an empty window or with zero spread. Otherwise the result is overbought iff z > threshold, oversold iff z < -threshold (and not above threshold), and "" iff -threshold ≤ z ≤ threshold. |
| CandleAnalyzer.UniformWindowNoOverState | src/utility/candleAnalyzerUtility.ts:199-205 | A window of identical moves never reports an over-state. |
| CandleAnalyzer.CandleSpaceTakenInZoneLevel | src/utility/candleAnalyzerUtility.ts:219-247 | The share lies in [0,100], and is 0 for an empty half-zone. |
| CandleAnalyzer.SpaceTakenExtremes | src/utility/candleAnalyzerUtility.ts:236-246 | A candle covering the half-zone takes 100; one outside it takes 0. |
| CandleAnalyzer.HasVolumeSpike | src/utility/candleAnalyzerUtility.ts:249-271 | A spike needs lookback+1 candles and a non-zero current volume. It is false when no past volume is positive. When true, the current volume is at least every positive past volume. |
| CandleAnalyzer.VolumeSpikeIff | src/utility/candleAnalyzerUtility.ts:249-271 | A spike holds iff there are lookback+1 candles, the current volume is non-zero, some past volume is positive, and the current volume is at least multiplier × the mean of the positive past volumes and at least each of them. |
| CandleAnalyzer.SmallMultiplierOnlyMaxMatters | src/utility/candleAnalyzerUtility.ts:266-270 | With a multiplier at most 1, a spike holds iff the current volume reaches the past maximum. |
| CandleAnalyzer.SpikeDominatesWindow | src/utility/candleAnalyzerUtility.ts:259-270 | A spike's volume is at least every positive volume of the window. |
| CandleAnalyzer.PositiveVolumesComplete | src/utility/candleAnalyzerUtility.ts:260-262 | Every positive volume of the window is kept by the filter. |
| CandleAnalyzer.AnalyzePastVolumes | src/utility/candleAnalyzerUtility.ts:289-346 | The counting method equals the `PastVolumes` specification. |
| CandleAnalyzer.DominanceIsMajority | src/utility/candleAnalyzerUtility.ts:326-338 | bull iff more than half the lookback candles rose; bear iff fewer than half. |
| CandleAnalyzer.ConstantVolumeIsStable | src/utility/candleAnalyzerUtility.ts:300-317 | Constant past volume v has average v and a stable trend. |
| CandleAnalyzer.ShortWindowIsStable | src/utility/candleAnalyzerUtility.ts:291-317 | Lookbacks below 2 give "none" before enough history and "stable" after. |
| CandleAnalyzer.AnalyzeZoneInteraction | src/utility/candleAnalyzerUtility.ts:348-563 | The method with its counting loops equals the `ZoneAnalysisOf` specification. |
| CandleAnalyzer.CountBreakthroughs | src/utility/candleAnalyzerUtility.ts:380-391 | The loop counts the resistance and support breakthroughs of the window. |
| CandleAnalyzer.CountInteractions | src/utility/candleAnalyzerUtility.ts:394-416 | The loop counts the side's zone interactions of the window. |
| CandleAnalyzer.ZoneAnalysisFrom | src/utility/candleAnalyzerUtility.ts:358-562 | Values stay within their ranges: proximity in [0,100], momentum in [0,100], confluence in [0.2,3], zone strength in [0.1,1]; velocity, volatility, confidence and breakout probability at most 1. A touch is detected iff the price is in the zone and there were past interactions. The zone type follows the side, the bias is `OverallBias` of the components, and time in zone counts the candles that overlap the zone. |
| CandleAnalyzer.OverallBias | src/utility/candleAnalyzerUtility.ts:489-530 | Reversal bias iff the reversal score exceeds 0.6. Continuation bias iff it does not and the breakout score does. Neutral otherwise. |
| CandleAnalyzer.BiasMirrorsSide | src/utility/candleAnalyzerUtility.ts:492-530 | SELL with the mirrored trend gives the mirrored bias of BUY. |
| CandleAnalyzer.CountsWithinWindows | src/utility/candleAnalyzerUtility.ts:380-482 | Interaction and breakthrough counts stay below the candle count and their window lengths; time in zone is at most one minute per candle. |
| CandleAnalyzer.UnknownSideCountsNothing | src/utility/candleAnalyzerUtility.ts:396-416 | A side other than BUY/SELL counts no interactions. |
| CandleAnalyzer.TouchedZoneAfterTrendIsReversal | src/utility/candleAnalyzerUtility.ts:492-530 | A touched zone after a counter-trend (bearish for BUY, bullish for SELL) gives the reversal bias. |
| CandleAnalyzer.MomentumOf | src/utility/candleAnalyzerUtility.ts:428-439 | Momentum is clamped to [0,100]. |
| CandleAnalyzer.VolumeConfluenceOf | src/utility/candleAnalyzerUtility.ts:442-451 | Volume confluence is clamped to [0.2,3]. |
| CandleAnalyzer.ZoneWidth | src/utility/candleAnalyzerUtility.ts:359 | The width is positive, falling back to 1e-8 for a flat zone. |
| CandleAnalyzer.DistanceFromZone | src/utility/candleAnalyzerUtility.ts:362-367 | The distance is 0 inside the zone, price - upper above it, and never negative. |
| CandleAnalyzer.VolumeAnalysisAt | src/utility/candleAnalyzerUtility.ts:565-628 | buy + sell == total volume. The buy share is 0.4 when the close did not rise and in [0.5,1] when it did. Delta aligns with price for non-negative volume. spikeFlag iff abs(z) > 1. |
| CandleAnalyzer.VolumeAnalysisOf | src/utility/candleAnalyzerUtility.ts:570 | Fails iff there are fewer than 2 candles. |
| CandleAnalyzer.BuyVolume | src/utility/candleAnalyzerUtility.ts:576-580 | The buy share is 0.4 on a non-rising close and in [0.5,1] on a rising one. |
| CandleAnalyzer.DeltaFollowsPrice | src/utility/candleAnalyzerUtility.ts:576-593 | Delta volume has the sign of the price change. |
| CandleAnalyzer.VolumeZScore | src/utility/candleAnalyzerUtility.ts:584-588 | z is 0 when the deviation is 0. |
| CandleAnalyzer.ConstantVolumeNoSpike | src/utility/candleAnalyzerUtility.ts:584-589 | A constant-volume window gives z == 0 and no spike. |
| CandleAnalyzer.WholeWindowPressure | src/utility/candleAnalyzerUtility.ts:606-610 | Over the whole array the pressure is the cumulative close delta times volume. |
| CandleAnalyzer.ShortWindowPressureOffset | src/utility/candleAnalyzerUtility.ts:606-610 | A shorter window reads previous closes from the start of the array, so here its pressure is 9 while the window's own delta is 8. |
| CandleAnalyzer.TrueRange | src/utility/candleAnalyzerUtility.ts:637-641 | A true range is non-negative and at least high - low. |
| CandleAnalyzer.Atr | src/utility/candleAnalyzerUtility.ts:630-648 | The ATR is 0 with fewer than period+1 candles and never negative. |
| CandleAnalyzer.CalculateATR | src/utility/candleAnalyzerUtility.ts:630-648 | The loop computes `Atr`, the mean of the last period true ranges. |
| CandleAnalyzer.AtrWithinSpan | src/utility/candleAnalyzerUtility.ts:630-648 | The ATR of candles within a price span is at most that span. |
| CandleAnalyzer.SupportResistanceOf | src/utility/candleAnalyzerUtility.ts:650-696 | Zones are all zero without history. Every bound is clamped to at least 0, support.upper ≤ resistance.lower after the push-apart, and both mids are 0. |
| CandleAnalyzer.WellFormedZonesAreOrdered | src/utility/candleAnalyzerUtility.ts:666-690 | For well-formed candles, support.lower ≤ support.upper ≤ resistance.lower ≤ resistance.upper. |
| CandleAnalyzer.ZonesIgnoreLastCandle | src/utility/candleAnalyzerUtility.ts:659-660 | The zones do not depend on the last candle of the history. |
| CandleAnalyzer.Annotate | src/utility/candleAnalyzerUtility.ts:702-710 | Annotation sets only support, resistance and the two breakthrough flags, with support.upper ≤ resistance.lower. |
| CandleAnalyzer.BreakthroughsExclusive | src/utility/candleAnalyzerUtility.ts:707-710 | A candle never breaks both resistance and support. |
| CandleAnalyzer.AnnotationUsesOnlyThePast | src/utility/candleAnalyzerUtility.ts:700-710 | The annotation depends only on the candle's close and the candles before it. |
| CandleAnalyzer.InitializePastCandlesSupportResistance | src/utility/candleAnalyzerUtility.ts:698-712 | In place, the candles from len-1-initSRLength up to len-2 are annotated from their own history. Every other candle, the last included, is untouched. |
| CandleAnalyzer.AnnotatedSeqIsAnnotatedFrom | src/utility/candleAnalyzerUtility.ts:699-710 | Annotating the candles one at a time from the top down, each from the zones of its own prefix, annotates every candle from the start index up to the next-to-last from its own history and leaves the others untouched. |
| CandleAnalyzer.VwapComponent | src/utility/candleAnalyzerUtility.ts:744-756 | The value lies in [-40,40] with the sign of the deviation beyond ±0.2. A signal is emitted iff abs(deviation) > 0.2. |
| CandleAnalyzer.VolumeMomentumComponent | src/utility/candleAnalyzerUtility.ts:762-775 | Always one signal, and 0 iff abs(corr) ≤ 0.3. Negative correlation works against the VWAP extreme, positive reinforces it. |
| CandleAnalyzer.MomentumComponent | src/utility/candleAnalyzerUtility.ts:780-791 | The value lies in [-35,35] with z's sign, and is non-zero iff abs(z) > 1.5 or a spike. |
| CandleAnalyzer.AlignmentComponent | src/utility/candleAnalyzerUtility.ts:797-805 | A misalignment gives ±15 against the VWAP extreme plus a signal; an alignment gives 5. |
| CandleAnalyzer.ExhaustionComponent | src/utility/candleAnalyzerUtility.ts:810-823 | The value is 0, 30 (iff more than 75% bullish), or in [-50,-37.5). |
| CandleAnalyzer.VolatilityComponent | src/utility/candleAnalyzerUtility.ts:828-835 | The value opposes the VWAP extreme or is 5, bounded by 10. |
| CandleAnalyzer.OverboughtScore | src/utility/candleAnalyzerUtility.ts:838-847 | The weighted score always lies in [-27.75, 26.5]. |
| CandleAnalyzer.ExtremeLevel | src/utility/candleAnalyzerUtility.ts:850-862 | The class follows the 60/30/(-30,30]/-60 thresholds exactly. |
| CandleAnalyzer.RejectionProbability | src/utility/candleAnalyzerUtility.ts:867-870 | The probability lies in [0,0.5665]; it is at least 0.25 when uncorrelated and at least 0.15 when volatility is low. |
| CandleAnalyzer.SignalConfidence | src/utility/candleAnalyzerUtility.ts:875 | Confidence is min(1, signals/5): in [0.2,1], and 1 iff there are at least 5 signals. |
| CandleAnalyzer.DetectOverboughtOversold | src/utility/candleAnalyzerUtility.ts:714-884 | extremeLevel is always neutral. The score lies in [-27.75,26.5], there are 1..6 signals, confidence lies in [0.2,1], and the rejection probability in [0,0.5665]. |
| CandleAnalyzer.ReactionSummary | src/utility/candleAnalyzerUtility.ts:945-970 | Strength lies in [0,100]. UP iff up > down+1, DOWN iff down > up+1. The range is highest - lowest. |
| CandleAnalyzer.DirectionMatchesStrength | src/utility/candleAnalyzerUtility.ts:952-960 | A trend direction means a strength of at least 200/n; MIXED means at most 100/n. |
| CandleAnalyzer.ReactionFrom | src/utility/candleAnalyzerUtility.ts:901-970 | The price extremes enclose the current close and every past candle's range. |
| CandleAnalyzer.PastReaction | src/utility/candleAnalyzerUtility.ts:886-971 | Null iff fewer than lookBack past candles are available. |
| CandleAnalyzer.ScanPastCandles | src/utility/candleAnalyzerUtility.ts:906-943 | The loop's counters equal the up count, the price extremes from the baseline, and the volume and momentum totals. |
| CandleAnalyzer.CapturePastReaction | src/utility/candleAnalyzerUtility.ts:886-971 | The method equals the `PastReaction` specification. |
| CandleAnalyzer.ReactionNeedsFullHistory | src/utility/candleAnalyzerUtility.ts:893-899 | A reaction exists iff lookBack ≤ currentIndex. |
| CandleAnalyzer.ReactionIgnoresLaterCandles | src/utility/candleAnalyzerUtility.ts:893-894 | Candles after the current one do not affect the result. |
| PriceZoneEngine.GeneratePrizeZone | src/utility/priceZoneUtility.ts:4-21 | mid is the midpoint of upper and lower. |
| PriceZoneEngine.GeneratedZoneEnclosesBodies | src/utility/priceZoneUtility.ts:4-21 | upper lies between the highest body and the highest wick, lower between the lowest wick and the lowest body. Every open and close is inside. lookBackLength is ignored. |
| PriceZoneEngine.ScanRecentCandles | src/utility/priceZoneUtility.ts:53-125 | The counter loop computes the `Scan` tally, which is consistent. |
| PriceZoneEngine.ReadOneCandle | src/utility/priceZoneUtility.ts:53-125 | Loop helper of the zone scan: after one more candle, every counter, velocity list and last interaction equals the recursive totals over one candle more, which is what lets the scan's loop keep its invariant. |
| PriceZoneEngine.CountInOut | src/utility/priceZoneUtility.ts:59-70 | timeInZone + timeOutsideZone equals the number of candles scanned. |
| PriceZoneEngine.HitsRelations | src/utility/priceZoneUtility.ts:72-124 | A candle bounces or touches a side only if it touches. Each breakout is bullish or bearish. |
| PriceZoneEngine.TouchesSplit | src/utility/priceZoneUtility.ts:72-78 | touches ≤ upper touches + lower touches. |
| PriceZoneEngine.FirstCandleNoBreakout | src/utility/priceZoneUtility.ts:104-110 | The first candle cannot break out, so breakouts < candles scanned. |
| PriceZoneEngine.BreakoutVelocitiesCount | src/utility/priceZoneUtility.ts:108-117 | One velocity per breakout. |
| PriceZoneEngine.ApproachVelocitiesCount | src/utility/priceZoneUtility.ts:75-87 | At most one approach velocity per touch. |
| PriceZoneEngine.LastInteractionUnset | src/utility/priceZoneUtility.ts:41-111 | lastInteraction is null iff there were no touches and no breakouts. |
| PriceZoneEngine.ScanConsistent | src/utility/priceZoneUtility.ts:53-125 | The tally satisfies all the counter relations above. |
| PriceZoneEngine.NoBreakoutFromEmptyZone | src/utility/priceZoneUtility.ts:59-110 | A zone with upper ≤ lower has no candle inside and no breakout. |
| PriceZoneEngine.CloseOnUpperIsBearishBreakout | src/utility/priceZoneUtility.ts:112-121 | A close exactly on upper after an inside close is a bearish breakout with velocity -1. |
| PriceZoneEngine.StrengthScore | src/utility/priceZoneUtility.ts:158-163 | The rounded strength score lies in [0,100]. |
| PriceZoneEngine.MomentumOnBreakout | src/utility/priceZoneUtility.ts:142-149 | strong iff the average velocity exceeds 0.5. Null iff velocity ≤ 0.2 and no breakout. |
| PriceZoneEngine.PressureDirection | src/utility/priceZoneUtility.ts:151-156 | Bullish iff bullish breakouts exceed 1.5 × the bearish ones, and bearish iff bearish breakouts exceed 1.5 × the bullish ones. So each needs a strict majority, a tie is neutral, and one side with none against it wins. |
| PriceZoneEngine.DistanceToMid | src/utility/priceZoneUtility.ts:165-178 | A flat zone is far (infinite distance). The exact midpoint is very_close. far means at least 30% of the height away. |
| PriceZoneEngine.LastBreakoutChange | src/utility/priceZoneUtility.ts:180-187 | The change is 0 unless the last interaction was a breakout and the close is outside. It is non-negative above and non-positive below. |
| PriceZoneEngine.AnalyzeZoneInteraction | src/utility/priceZoneUtility.ts:23-226 | The method equals the `ZoneInteraction` specification. |
| PriceZoneEngine.ZoneInteractionFacts | src/utility/priceZoneUtility.ts:23-226 | in + out == candles scanned, bounces ≤ touches, breakouts < candles scanned, strength in [0,100]. Momentum is null iff there was no breakout; lastInteraction is null iff there were no touches or breakouts. breakout_start iff the open is strictly inside and the close outside, and a start score exists exactly then. breakout_cont iff both are outside. |
| PriceZoneEngine.MomentumScore | src/utility/priceZoneUtility.ts:236-243 | Capped at 25, and positive for a rising breakout above a positive zone. |
| PriceZoneEngine.SustainabilityScore | src/utility/priceZoneUtility.ts:266-286 | The score is 8, 12 or 22. It is 12 iff there is no previous interaction or a neutral pressure, and 22 iff the pressure agrees with the breakout direction. |
| PriceZoneEngine.VolumeScore | src/utility/priceZoneUtility.ts:289 | Capped at 20; non-negative for a penetrating close. |
| PriceZoneEngine.RejectionScore | src/utility/priceZoneUtility.ts:292-296 | Non-negative, and at most 15 for a close within the candle's range. |
| PriceZoneEngine.Recommend | src/utility/priceZoneUtility.ts:300-309 | The recommendation follows the 70/55/40 thresholds exactly. |
| PriceZoneEngine.RecommendMonotone | src/utility/priceZoneUtility.ts:300-309 | A higher score never gets a weaker recommendation. |
| PriceZoneEngine.ScoreBreakoutStart | src/utility/priceZoneUtility.ts:228-319 | Momentum ≤ 25, volume ≤ 20, rejection in [0,15], sustainability in {8,12,22}. The recommendation is that of the composite score, and strong_buy implies a composite ≥ 70. |
| Pnl.CalculateSLLoss | src/utility/PnlUtility.ts:28-56 | The difference, change %, loss and loss % are non-negative. Other sides give no difference and no loss. For BUY/SELL the difference is abs(entry - sl). |
| Pnl.SLLossBalance | src/utility/PnlUtility.ts:28-56 | The remaining balance is the cost minus the loss on an adverse stop and plus it on a favourable one. The loss is cost × loss%/100. |
| Pnl.CalculatePnlPercent | src/utility/PnlUtility.ts:57-73 | Non-finite (None) iff the entry price is 0. Entry == current gives 0. |
| Pnl.PnlPercentMonotone | src/utility/PnlUtility.ts:57-73 | PnL% rises with the price for BUY and falls with it for any other side. |
| Pnl.CalculateTakerFee | src/utility/PnlUtility.ts:85-89 | The fee is non-negative, and 0 with no margin or leverage. |
| Pnl.CalculateEstimatedPnl | src/utility/PnlUtility.ts:75-83 | 0 when pnl% is non-finite or margin or leverage ≤ 0. Otherwise pnl + taker fee == pnl%/100 × margin. |
| Pnl.BreakEvenLosesFee | src/utility/PnlUtility.ts:57-89 | Closing at the entry price loses exactly the taker fee. |
| Pnl.EstimateSLLoss | src/utility/PnlUtility.ts:94-117 | Null iff currentPrice, slPrice or positionCost is falsy. Otherwise the difference is the side's adverse move and the loss is non-negative. |
| Pnl.TotalFeesNonNegative | src/utility/PnlUtility.ts:127-160 | The fees summed over positions are non-negative. |
| Pnl.TotalFeesOfUnparseable | src/utility/PnlUtility.ts:127-160 | Positions without a parseable mark price contribute no fee. |
| Pnl.CalculateNetPnlPrecise | src/utility/PnlUtility.ts:122-166 | Unrealized pnl is unchanged for absent or empty positions. Otherwise the fees are subtracted, so net ≤ unrealized. |
| BinanceMargin.FirstApplicable | src/utility/binanceMarginUtility.ts:96-106 | Returns the first bracket with cap 0 or notional ≤ cap, or none when no bracket applies. |
| BinanceMargin.SelectedTierUnique | src/utility/binanceMarginUtility.ts:96-113 | The selected tier, fallback included, is unique. |
| BinanceMargin.SymbolBrackets | src/utility/binanceMarginUtility.ts:83-91 | Brackets are found iff loaded and the symbol has a non-empty list. It fails with "not loaded" when nothing is loaded. |
| BinanceMargin.CalculateMaintenanceMargin | src/utility/binanceMarginUtility.ts:82-114 | It succeeds iff brackets exist. The margin is cum + (notional - floor) × ratio of the selected tier. |
| BinanceMargin.FallbackToLastTier | src/utility/binanceMarginUtility.ts:108-113 | With no applicable bracket, the last bracket's formula is used. |
| BinanceMargin.GetMaintenanceMarginRate | src/utility/binanceMarginUtility.ts:119-138 | It has the same success condition as the margin, and returns the selected tier's ratio. |
| BinanceMargin.MarginUsesRateTier | src/utility/binanceMarginUtility.ts:96-137 | The margin and the rate come from the same tier. |
| BinanceMargin.GetMaxLeverage | src/utility/binanceMarginUtility.ts:159-171 | Fails iff not loaded. 1 for an unknown or empty symbol; otherwise the first bracket's initialLeverage when non-zero, never 0. |
| BinanceMargin.CalculateTotalMaintenance | src/utility/binanceMarginUtility.ts:143-154 | Without loaded brackets every lookup fails, so the total is 0. The per-position fold is stated by BinanceMargin.TotalMaintenanceAppend (the total over a concatenation is the sum of the totals) and BinanceMargin.TotalMaintenanceSingle (one position adds its maintenance margin, or 0 when its lookup fails). |
| BinanceMargin.TotalMaintenanceAppend | src/utility/binanceMarginUtility.ts:143-154 | The total is additive over concatenated position lists. |
| BinanceMargin.TotalMaintenanceSingle | src/utility/binanceMarginUtility.ts:146-153 | A single position contributes its maintenance, or 0 when the lookup fails. |
| TradeSignalLog.TradeSignalLoggerMem.constructor | src/utility/tradeSignalLoggerMemUtility.ts:5-9 | Both tables start empty and both counters at 1. |
| TradeSignalLog.TradeSignalLoggerMem.LogSignal | src/utility/tradeSignalLoggerMemUtility.ts:16-62 | The new log is stored under the old nextId, which then advances; the id exceeds every earlier id. The log is appended to the insertion order. The backtest table and counter are untouched. |
| TradeSignalLog.NewLog | src/utility/tradeSignalLoggerMemUtility.ts:32-59 | A new log is open, with result "" and no pnl, exit or duration. |
| TradeSignalLog.TradeSignalLoggerMem.LogBackTestResult | src/utility/tradeSignalLoggerMemUtility.ts:64-69 | The entry is stored under its own counter, which advances. It is appended to the backtest order, and the signal table is untouched. |
| TradeSignalLog.TradeSignalLoggerMem.AllLogs | src/utility/tradeSignalLoggerMemUtility.ts:126-128 | The logs in insertion order. |
| TradeSignalLog.TradeSignalLoggerMem.BackTestLogs | src/utility/tradeSignalLoggerMemUtility.ts:130-132 | The backtest entries in insertion order. |
| TradeSignalLog.TradeSignalLoggerMem.GetOpenPosition | src/utility/tradeSignalLoggerMemUtility.ts:82-89 | Returns the first open log of the symbol in insertion order, with its id, or none when the symbol has no open log. |
| TradeSignalLog.TradeSignalLoggerMem.GetOpenPositions | src/utility/tradeSignalLoggerMemUtility.ts:91-93 | The open logs in insertion order. |
| TradeSignalLog.OpenLogs | src/utility/tradeSignalLoggerMemUtility.ts:91-93 | Only open logs of the input, as many as there are open ones. |
| TradeSignalLog.TradeSignalLoggerMem.ClosePosition | src/utility/tradeSignalLoggerMemUtility.ts:95-112 | false and nothing changes for an unknown id. Otherwise only that log changes: closed, with result, exit price, exit time and duration = exit time - timestamp. |
| TradeSignalLog.TradeSignalLoggerMem.ForceCloseOpenPositions | src/utility/tradeSignalLoggerMemUtility.ts:114-124 | Returns the number of logs that were open. Every log is force-closed and none stays open; ids and order are unchanged. |
| TradeSignalLog.ForceCloseAll | src/utility/tradeSignalLoggerMemUtility.ts:116-122 | The loop force-closes every listed log and counts the open ones. |
| TradeSignalLog.ForceClosed | src/utility/tradeSignalLoggerMemUtility.ts:116-122 | An open log becomes closed, WON iff pnl > 0, LOSS otherwise (a null pnl included). A closed log is unchanged. |
| TradeSignalLog.ForceClosedCounted | src/utility/tradeSignalLoggerMemUtility.ts:116-122 | A force-closed log counts as exactly one of won or loss, won iff pnl > 0. |
| TradeSignalLog.TradeSignalLoggerMem.ClearAllLogs | src/utility/tradeSignalLoggerMemUtility.ts:134-138 | Empties the signals table but keeps nextId. |
| TradeSignalLog.TradeSignalLoggerMem.ClearBackTestLogs | src/utility/tradeSignalLoggerMemUtility.ts:140-144 | Empties the backtest table but keeps its counter and the signals. |
| TradeSignalLog.Stats | src/utility/tradeSignalLoggerMemUtility.ts:167-185 | won + loss ≤ logs, open ≤ logs. No open logs gives openCount 0 and openPnl 0. |
| TradeSignalLog.StatsOpenCount | src/utility/tradeSignalLoggerMemUtility.ts:178 | openCount is the number of open logs. |
| TradeSignalLog.WonNotLoss | src/utility/tradeSignalLoggerMemUtility.ts:176-177 | A log never counts as both won and loss (case-insensitively). |
| TradeSignalLog.ToLower | src/utility/tradeSignalLoggerMemUtility.ts:176-177 | Lower-cases exactly A-Z and keeps every other character. |
| TradeSignalLog.TradeSignalLoggerMem.GetTradeStats | src/utility/tradeSignalLoggerMemUtility.ts:167-185 | openCount equals the number of open logs; won + loss ≤ logs. |
| TradeSignalLog.TradeSignalLoggerMem.UpdatePnl | src/utility/tradeSignalLoggerMemUtility.ts:187-194 | false and nothing changes for an unknown id; otherwise only that log's pnl is set. |
| TradeSignalLog.TradeSignalLoggerMem.SchedulePnlUpdate | src/utility/tradeSignalLoggerMemUtility.ts:196-201 | Sets the pnl of a known id; silently does nothing otherwise. |
| TradeSignalLog.TradeSignalLoggerMem.ScheduleHighestUpdate | src/utility/tradeSignalLoggerMemUtility.ts:203-208 | Sets the highest pnl% of a known id; silently does nothing otherwise. |
| TradeSignalLog.TradeSignalLoggerMem.ScheduleLowestUpdate | src/utility/tradeSignalLoggerMemUtility.ts:210-215 | Sets the lowest pnl% of a known id; silently does nothing otherwise. |
| ChocoMintoStore.SplitFutureSymbols | src/stores/chocoMintoStore.ts:19-36 | [] for batches ≤ 0; otherwise exactly batches buckets. Bucket i holds floor(n/b) + (1 if i < n mod b) symbols, so sizes differ by at most one, larger first. Concatenated, they give the input in order. |
| ChocoMintoStore.PlacedStep | src/stores/chocoMintoStore.ts:22-33 | Each bucket starts where the previous one ends and stays within the input. |
| ChocoMintoStore.PlacedAll | src/stores/chocoMintoStore.ts:22-33 | Together the batches buckets hold all n symbols. |
| CommonHelper.RemoveNestedParentheses | src/utility/CommonHelperUtility.ts:21-42 | The loop computes `Stripped`, and the output is a subsequence of the input. |
| CommonHelper.StrippedIsSubsequence | src/utility/CommonHelperUtility.ts:21-42 | The output is a subsequence of the input. |
| CommonHelper.StrippedShallowIdentity | src/utility/CommonHelperUtility.ts:21-42 | Input whose depth stays in [0,1] is returned unchanged. |
| CommonHelper.StrippedShallow | src/utility/CommonHelperUtility.ts:27-39 | Without unmatched ')' the output's depth stays within [0,1]. |
| CommonHelper.StrippedIdempotent | src/utility/CommonHelperUtility.ts:21-42 | Without unmatched ')', stripping twice equals stripping once. |
| CommonHelper.OrdinaryKeptWhenNegative | src/utility/CommonHelperUtility.ts:37-39 | After an unmatched ')', ordinary characters are still kept. |
| CommonHelper.ToInt32 | src/utility/CommonHelperUtility.ts:48-49 | The int32 conversion lies in [-2^31, 2^31) and agrees with the input modulo 2^32. |
| CommonHelper.Hash | src/utility/CommonHelperUtility.ts:45-50 | The hash is always a 32-bit signed value. |
| CommonHelper.HashAppend | src/utility/CommonHelperUtility.ts:46-50 | Appending a code unit gives int32(31·hash + code). |
| CommonHelper.ShiftStep | src/utility/CommonHelperUtility.ts:48-49 | The source's `(hash << 5) - hash + c` then `| 0` equals int32(31·hash + c). |
| CommonHelper.StringToFixedNumber | src/utility/CommonHelperUtility.ts:44-52 | The result is abs(hash) of the code units, in [0, 2^31], and 0 for the empty string. |

## Left out

- Floating point: NaN and ±Infinity propagation, `parseFloat`, and the exact digits of `toFixed`. A division by zero yields 0 (`Numeric.Div`) except at the branches named above. `Math.round(x*100)/100` rounds to cents with ties toward +∞ (`Numeric.Round2`), and `toFixed(2)` rounds to cents with ties away from zero (`Numeric.ToFixed2`), both on exact reals.
- `Math.sqrt` and `Math.exp` are parameters, and their accuracy is not modelled.
- The simulator's analytics are an oracle (`Oracles.annotate`), except `candleData.atr`, which is the model's own ATR:
  - zone analysis, volume analysis, overbought/oversold, price move, past volumes and over-state (src/utility/simulationUtility.ts:86-121);
  - the display-only fields: `close_atr_adjusted`, `close_atr_abs_change`, `ema200`, `zoneInhabitantCount`, `zoneSizePercentage`, `extraInfo`, `spaceTakenInZoneLevel`, `closeAbsDistanceToZone`, the 50-candle lookback trend, and `pastZoneOverStatePriceReaction`.

  These feed only the entry-rule bank (`close_atr_adjusted`, `close_atr_abs_change` and `closeAbsDistanceToZone` are read by the rules at src/utility/simulationUtility.ts:561-573), and the model takes that bank as an oracle too.
- The simulator's `isHighlyVolatile` flag and the estimated TP/SL pnl on opening (src/utility/simulationUtility.ts:122-125, 673-677) are computed but never used, so they are not modelled.
- The entry-rule bank (src/utility/simulationUtility.ts:358-644) is a sequence of rule functions folded last-wins, field by field. The thresholds of the individual rules are not modelled.
- The TP/SL service (`OrderMakerUtility.calculateTpSl`) is an oracle returning a result; a failure aborts the run, like the thrown error of the awaited call. Its HTTP retry loop and the `await` suspension are not modelled.
- Simulation.IsNewZonePeriod: the simulator calls it without an offset, so it reads the browser's local hour. The model takes the local offset as a whole number of hours (`SimParams.localOffsetHours`); half-hour time zones and daylight-saving changes are not modelled.
- Simulation.Step: the unused parameters `positionDurationMedian` and `startingTimeStamp` are not modelled, nor are the commented-out code paths. `targetTpRoi` and `targetSlRoi` are modelled: they are passed on to the TP/SL service.
- Simulation.CheckAtrVolatility: only the AWAKE guard and the rising/two-sample lemmas are stated, not a closed form of the 15%/-10%/majority decision.
- CandleAnalyzer.DetectPriceMove requires the candle at `entryIndex` to exist once there are at least 20 candles and the index is at least 2: the source reads its fields and throws a TypeError otherwise (src/utility/candleAnalyzerUtility.ts:106-109). The thrown error is not modelled.
- CandleAnalyzer.PastVolumes and CandleAnalyzer.AnalyzePastVolumes require the candle at `currentIndex` to exist once `currentIndex >= lookback`: the source reads its volume and throws a TypeError otherwise. The thrown error is not modelled.
- CandleAnalyzer.PastReaction and CandleAnalyzer.CapturePastReaction require the candle at `currentIndex` to exist once the window is full: the source reads it at src/utility/candleAnalyzerUtility.ts:902 and throws a TypeError otherwise. The thrown error is not modelled.
- CandleAnalyzer.InitializePastCandlesSupportResistance requires `initSRLength < candles.length`: with a larger count the source annotates every candle but the last and then throws writing `_candles[-1]` (src/utility/candleAnalyzerUtility.ts:704). The only caller (src/utility/simulationUtility.ts:19) passes `maxCandles - supportAndResistancePeriodLength`, which meets it whenever the period is at least 1. The thrown error is not modelled.
- CandleAnalyzer.DetectOverboughtOversold requires `lookback > 0`: the source divides by `lookback` in the exhaustion term, and every caller passes a positive default.
- CandleAnalyzer.VolumeMomentumCorrelation: when the spread product is 0 but the covariance is not, the source keeps ±Infinity. This happens when the window's volumes are constant but the early candles that the covariance reads differ (src/utility/candleAnalyzerUtility.ts:601-603); `isNaN` is false for it at line 623. Infinity then takes the ±30/±20 branch of the volume-momentum component (lines 764-771) and adds no rejection probability (line 869). The model gives 0 there, which takes the uncorrelated branch and adds 0.25.
- The rule bank's writes to `candleData.conditionMet`, `isLongPotential` and `isShortPotential` (src/utility/simulationUtility.ts:369-634) are not part of the model's candle state. They do not affect the run: their only reader (line 365) compares with "SHORT_CRAZY", which no rule writes. They are still carried in the candles the run returns.
- The signal text of `detectOverboughtOversold` is modelled as signal kinds, without the formatted numbers.
- `getPreviousSessionOverStatePriceReaction` and `CalculateVolatility` (src/utility/candleAnalyzerUtility.ts:143-181, 973-990) are not modelled. `isVolatilityExpanding` and `calculateEMA`, which the simulator calls at src/utility/simulationUtility.ts:124 and 135, are not part of this model. All of these feed only display fields or unused locals of the simulator.
- `detectTopWickRejection` and `detectBottomWickRejection` (src/utility/candleAnalyzerUtility.ts:273-287) are private instance methods that nothing calls.
- `SimulationUtility.initializePastCandleEntryData` fetches klines and writes to the database, so it is I/O.
- `generateGuid` and `generateRandomString` use `Math.random`, and `toLocalISOString` uses the browser's clock and time zone.
- The bracket cache's loading, saving and clearing (`fetchAllFuturesBrackets`, `loadFromCache`, `clearCache`, `isLoaded`) is HTTP and localStorage. The model takes the cache as an `Option` parameter.
- TradeSignalLog.TradeSignalLoggerMem.LogSignal: the clock is a parameter (`now`), and the JSON deep copy of `logBackTestResult` is the identity on these values. `init`, the JSON exports and the downloads are I/O.
- TradeSignalLog.TradeSignalLoggerMem.GetOpenPosition, TradeSignalLog.TradeSignalLoggerMem.AllLogs and TradeSignalLog.TradeSignalLoggerMem.GetOpenPositions return values. In the source, `getAllLogs` and `getOpenPositions` return the stored log objects themselves, and `getOpenPosition` shares `pnlPercentage` with the stored log. So a later `closePosition` or `schedule*` update is visible through an array a caller obtained earlier. The model does not capture this aliasing; nothing in the modelled code relies on it.
- TradeSignalLog.Stats and TradeSignalLog.TradeSignalLoggerMem.GetTradeStats: the totalPnl and totalTakerFee sums are computed, but only the counts and openPnl are stated.
- ChocoMintoStore.SplitFutureSymbols: `batches` is an integer; a fractional batch count is not modelled.
- CommonHelper.StringToFixedNumber: the string is a sequence of UTF-16 code units.
- The IndexedDB logger, the kline database, the HTTP clients, the stores, the router and the build configuration are persistence, networking or UI, so they are not modelled.
