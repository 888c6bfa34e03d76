/** Candle feature and volume analytics (src/utility/candleAnalyzerUtility.ts):
    the per-candle classifiers of `CandlestickAnalyzer`, the support and
    resistance zones annotated into past candles, the zone-relative analysis
    and the overbought/oversold score.  `Math.sqrt` and `Math.exp` are
    parameters (`sqrt`, `exp`), so every fact proved here holds for any
    implementation of them. */
module CandleAnalyzer {
  import opened Wrappers
  import opened Numeric
  import opened Interfaces

  // ---------------------------------------------------------------------
  // analyzeCandlestick

  /** Body, top wick and bottom wick in percent of the candle's range; all
      three are 0 for a candle whose high equals its low. */
  function BodyPercentage(c: CandleEntry): real
  {
    var size := Abs(c.high - c.low);
    if size != 0.0 then Abs(c.open - c.close) / size * 100.0 else 0.0
  }

  function TopWickPercentage(c: CandleEntry): real
  {
    var size := Abs(c.high - c.low);
    if size != 0.0 then (c.high - Max(c.open, c.close)) / size * 100.0 else 0.0
  }

  function BottomWickPercentage(c: CandleEntry): real
  {
    var size := Abs(c.high - c.low);
    if size != 0.0 then (Min(c.open, c.close) - c.low) / size * 100.0 else 0.0
  }

  /** A body smaller than one of the wicks. */
  predicate IsIndecisive(c: CandleEntry)
  {
    BodyPercentage(c) < TopWickPercentage(c) || BodyPercentage(c) < BottomWickPercentage(c)
  }

  /** Body plus the wick on the side the candle came from: the bottom wick
      for a bull candle, the top wick otherwise (a doji is a bear candle). */
  function Strength(c: CandleEntry): real
  {
    if c.close > c.open then BottomWickPercentage(c) + BodyPercentage(c)
    else TopWickPercentage(c) + BodyPercentage(c)
  }

  /** Body move in percent of the open. */
  function MovePercent(c: CandleEntry): real
  {
    Div(c.close - c.open, c.open) * 100.0
  }

  /** The part of `analyzeCandlestick` that reads only the candle and the
      volume of the one before it; every percentage is reported to two
      decimals. */
  function CandleFeatures(c: CandleEntry, previous: CandleEntry): (d: CandleData)
    ensures d.o == c.open && d.h == c.high && d.l == c.low && d.c == c.close
    ensures d.openTime == c.openTime && d.volume == c.volume
    ensures d.side == Bull <==> c.close > c.open
    ensures d.isIndecisive <==> IsIndecisive(c)
    ensures c.high == c.low ==> d.bodyPercentage == 0.0 && d.topWickPercentage == 0.0 && d.bottomWickPercentage == 0.0
    ensures d.previousCandleData == []
  {
    var volumeChangePercentage := ToFixed2(Div(c.volume - previous.volume, previous.volume) * 100.0);
    assert ToFixed2(0.0) == 0.0;
    CandleData(
      c.open, c.high, c.low, c.close, c.openTime, c.volume,
      ToFixed2(volumeChangePercentage),
      ToFixed2(BodyPercentage(c)), ToFixed2(TopWickPercentage(c)), ToFixed2(BottomWickPercentage(c)),
      ToFixed2(Strength(c)), ToFixed2(MovePercent(c)),
      if c.close > c.open then Bull else Bear,
      [], IsIndecisive(c), false, "", 0.0, false)
  }

  /** For a candle whose wicks enclose its body and whose range is not empty,
      body and wicks share the range: each is non-negative and together they
      make 100 percent. */
  lemma PercentagesPartition(c: CandleEntry)
    requires WellFormed(c) && c.high > c.low
    ensures BodyPercentage(c) >= 0.0 && TopWickPercentage(c) >= 0.0 && BottomWickPercentage(c) >= 0.0
    ensures BodyPercentage(c) + TopWickPercentage(c) + BottomWickPercentage(c) == 100.0
  {
    var size := c.high - c.low;
    var body, top, bottom := Abs(c.open - c.close), c.high - Max(c.open, c.close), Min(c.open, c.close) - c.low;
    assert Abs(c.high - c.low) == size;
    assert BodyPercentage(c) == body / size * 100.0;
    assert TopWickPercentage(c) == top / size * 100.0;
    assert BottomWickPercentage(c) == bottom / size * 100.0;
    assert body + top + bottom == size;
    PercentShares(body, top, bottom, size);
  }

  /** Three non-negative parts of a positive whole, each in percent of it,
      are non-negative and add up to 100. */
  lemma PercentShares(x: real, y: real, z: real, d: real)
    requires d > 0.0 && x >= 0.0 && y >= 0.0 && z >= 0.0 && x + y + z == d
    ensures x / d * 100.0 >= 0.0 && y / d * 100.0 >= 0.0 && z / d * 100.0 >= 0.0
    ensures x / d * 100.0 + y / d * 100.0 + z / d * 100.0 == 100.0
  {
    DivAdd(x, y, d);
    DivAdd(x + y, z, d);
    assert d / d == 1.0;
    var qx, qy, qz := x / d, y / d, z / d;
    DivSign(x, d);
    DivSign(y, d);
    DivSign(z, d);
    assert Div(x, d) == qx && Div(y, d) == qy && Div(z, d) == qz;
  }

  lemma DivAdd(a: real, b: real, d: real)
    requires d != 0.0
    ensures a / d + b / d == (a + b) / d
  {
  }

  /** An indecisive candle has a body under half of its range; a decisive
      one has a body of at least a third. */
  lemma IndecisiveBody(c: CandleEntry)
    requires WellFormed(c) && c.high > c.low
    ensures IsIndecisive(c) ==> BodyPercentage(c) < 50.0
    ensures !IsIndecisive(c) ==> BodyPercentage(c) * 3.0 >= 100.0
  {
    PercentagesPartition(c);
  }

  /** The strength of a well-formed candle lies in [0, 100]. */
  lemma StrengthBounds(c: CandleEntry)
    requires WellFormed(c)
    ensures 0.0 <= Strength(c) <= 100.0
  {
    if c.high > c.low {
      PercentagesPartition(c);
    }
  }

  const CandleOutOfRange: string := "TypeError: cannot read properties of undefined"

  /** `analyzeCandlestick(candles, k, false, 0)`; it reads candle `k - 1` as
      well, so it needs 1 <= k < |candles|. */
  function Features(candles: seq<CandleEntry>, k: int): CandleData
    requires 1 <= k < |candles|
  {
    CandleFeatures(candles[k], candles[k - 1])
  }

  /** The `n` candles before `index`, nearest first, as the first past loop
      pushes them. */
  function PastCandleData(candles: seq<CandleEntry>, index: int, n: nat): (r: seq<CandleData>)
    requires 1 <= index - n && index < |candles|
    ensures |r| == n
  {
    seq(n, j requires 0 <= j < n => Features(candles, index - 1 - j))
  }

  /** How many candles the second past loop attaches to the oldest entry: it
      walks back from `start - 1` and stops at index 1 or after `lookBack`. */
  function NestedCount(start: int, lookBack: int): (n: nat)
    ensures n <= if lookBack < 0 then 0 else lookBack
    ensures start - n >= 2 || n == 0
  {
    if start - 2 <= 0 || lookBack <= 0 then 0
    else if lookBack < start - 2 then lookBack
    else start - 2
  }

  /** What `analyzeCandlestick` returns, or the error it throws reading a
      candle before the first or past the last. */
  function Analysis(candles: seq<CandleEntry>, index: int, checkPast: bool, lookBack: int): Result<CandleData>
  {
    if !(1 <= index < |candles|) then Failure(CandleOutOfRange)
    else if !checkPast || lookBack <= 0 then Success(Features(candles, index))
    else if index - lookBack < 1 then Failure(CandleOutOfRange)
    else
      var past := PastCandleData(candles, index, lookBack);
      var start := index - lookBack;
      var oldest := past[lookBack - 1].(previousCandleData := PastCandleData(candles, start, NestedCount(start, lookBack)));
      Success(Features(candles, index).(previousCandleData := past[..lookBack - 1] + [oldest]))
  }

  /** `analyzeCandlestick`: the features of candle `index` and, when
      `checkPast`, those of the `pastCandleLookBack` candles before it, the
      oldest of which carries the features of up to as many candles before
      it again (none at index 1 or below). */
  method AnalyzeCandlestick(candles: seq<CandleEntry>, index: int, checkPast: bool, pastCandleLookBack: int)
    returns (r: Result<CandleData>)
    ensures r == Analysis(candles, index, checkPast, pastCandleLookBack)
    decreases if checkPast then 1 else 0, 2
  {
    if !(1 <= index < |candles|) {
      return Failure(CandleOutOfRange);
    }
    var data := CandleFeatures(candles[index], candles[index - 1]);
    var previousCandleData: seq<CandleData> := [];
    if checkPast {
      var past := CollectPastCandles(candles, index, pastCandleLookBack);
      if past.Failure? {
        return Failure(past.error);
      }
      previousCandleData := past.value;
      if pastCandleLookBack > 0 {
        previousCandleData := AttachNestedCandles(candles, index, pastCandleLookBack, previousCandleData);
      } else {
        assert previousCandleData == [];
      }
    }
    r := Success(data.(previousCandleData := previousCandleData));
  }

  /** The first past loop: one analysis per candle before `index`, nearest
      first, failing at the first candle that does not exist. */
  method CollectPastCandles(candles: seq<CandleEntry>, index: int, pastCandleLookBack: int)
    returns (r: Result<seq<CandleData>>)
    requires 1 <= index < |candles|
    ensures index - pastCandleLookBack < 1 ==> r == Failure(CandleOutOfRange)
    ensures index - pastCandleLookBack >= 1 ==>
              r == Success(PastCandleData(candles, index, if pastCandleLookBack < 0 then 0 else pastCandleLookBack))
    decreases 1, 1
  {
    var previousCandleData: seq<CandleData> := [];
    var i := 1;
    while i <= pastCandleLookBack
      invariant 1 <= i && 1 <= index - (i - 1)
      invariant i <= (if pastCandleLookBack < 0 then 0 else pastCandleLookBack) + 1
      invariant previousCandleData == PastCandleData(candles, index, i - 1)
    {
      var pastCandleData := AnalyzeCandlestick(candles, index - i, false, 0);
      if pastCandleData.Failure? {
        return Failure(pastCandleData.error);
      }
      assert PastCandleData(candles, index, i) == PastCandleData(candles, index, i - 1) + [pastCandleData.value];
      previousCandleData := previousCandleData + [pastCandleData.value];
      i := i + 1;
    }
    r := Success(previousCandleData);
  }

  /** The second past loop: the candles before the oldest collected one are
      appended to its history, stopping at index 1. */
  method AttachNestedCandles(candles: seq<CandleEntry>, index: int, pastCandleLookBack: int, past: seq<CandleData>)
    returns (previousCandleData: seq<CandleData>)
    requires pastCandleLookBack > 0 && 1 <= index - pastCandleLookBack && index < |candles|
    requires past == PastCandleData(candles, index, pastCandleLookBack)
    ensures var start := index - pastCandleLookBack;
      previousCandleData
      == past[..pastCandleLookBack - 1]
         + [past[pastCandleLookBack - 1].(previousCandleData := PastCandleData(candles, start, NestedCount(start, pastCandleLookBack)))]
    decreases 1, 1
  {
    var start := index - pastCandleLookBack;
    previousCandleData := past;
    assert past == past[..pastCandleLookBack - 1] + [past[pastCandleLookBack - 1]];
    assert past[pastCandleLookBack - 1] == Features(candles, start);
    var i := 1;
    while i <= pastCandleLookBack
      invariant 1 <= i <= NestedCount(start, pastCandleLookBack) + 1
      invariant previousCandleData
                == past[..pastCandleLookBack - 1]
                   + [past[pastCandleLookBack - 1].(previousCandleData := PastCandleData(candles, start, i - 1))]
    {
      var pastIndex := index - (pastCandleLookBack + i);
      if pastIndex <= 1 {
        break;
      }
      var pastCandleData := AnalyzeCandlestick(candles, pastIndex, false, 0);
      var last := previousCandleData[|previousCandleData| - 1];
      assert PastCandleData(candles, start, i) == PastCandleData(candles, start, i - 1) + [pastCandleData.value];
      previousCandleData := previousCandleData[..|previousCandleData| - 1]
                            + [last.(previousCandleData := last.previousCandleData + [pastCandleData.value])];
      i := i + 1;
    }
  }

  /** The analysis succeeds exactly when every candle it reads exists. */
  lemma AnalysisSucceeds(candles: seq<CandleEntry>, index: int, checkPast: bool, lookBack: int)
    ensures Analysis(candles, index, checkPast, lookBack).Success?
            <==> 1 <= index < |candles| && (!checkPast || lookBack <= 0 || index - lookBack >= 1)
  {
  }

  /** With `checkPast`, the result lists the `lookBack` candles before
      `index`, nearest first, and only the oldest of them carries history. */
  lemma PastCandlesNearestFirst(candles: seq<CandleEntry>, index: int, lookBack: int, j: int)
    requires Analysis(candles, index, true, lookBack).Success? && lookBack > 0
    requires 0 <= j < lookBack
    ensures var d := Analysis(candles, index, true, lookBack).value;
      && d.c == candles[index].close
      && |d.previousCandleData| == lookBack
      && d.previousCandleData[j].c == candles[index - 1 - j].close
      && (j < lookBack - 1 ==> d.previousCandleData[j].previousCandleData == [])
  {
    var past := PastCandleData(candles, index, lookBack);
    var d := Analysis(candles, index, true, lookBack).value;
    if j < lookBack - 1 {
      assert d.previousCandleData[j] == past[j] == Features(candles, index - 1 - j);
    } else {
      var start := index - lookBack;
      assert d.previousCandleData[j] == past[j].(previousCandleData := PastCandleData(candles, start, NestedCount(start, lookBack)));
      assert past[j] == Features(candles, index - 1 - j);
    }
  }

  /** The oldest past candle's history holds the candles before it, nearest
      first, at most `lookBack` of them and none below index 2. */
  lemma NestedHistory(candles: seq<CandleEntry>, index: int, lookBack: int, k: int)
    requires Analysis(candles, index, true, lookBack).Success? && lookBack > 0
    requires 0 <= k
    ensures var nested := Analysis(candles, index, true, lookBack).value.previousCandleData[lookBack - 1].previousCandleData;
      && |nested| <= lookBack
      && (k < |nested| ==> index - lookBack - 1 - k >= 2 && nested[k].c == candles[index - lookBack - 1 - k].close)
  {
    var start := index - lookBack;
    var d := Analysis(candles, index, true, lookBack).value;
    var nested := PastCandleData(candles, start, NestedCount(start, lookBack));
    assert d.previousCandleData[lookBack - 1].previousCandleData == nested;
    if k < |nested| {
      assert nested[k] == Features(candles, start - 1 - k);
    }
  }

  // ---------------------------------------------------------------------
  // detectPriceMove

  function Moves(cs: seq<CandleEntry>): (r: seq<real>)
    ensures |r| == |cs|
  {
    seq(|cs|, i requires 0 <= i < |cs| => MovePercent(cs[i]))
  }

  function AbsMoves(cs: seq<CandleEntry>): (r: seq<real>)
    ensures |r| == |cs|
  {
    seq(|cs|, i requires 0 <= i < |cs| => Abs(MovePercent(cs[i])))
  }

  /** `(x - m) / s > t` in IEEE arithmetic: a zero `s` makes the quotient
      +Infinity, -Infinity or NaN according to the sign of `x - m`. */
  predicate ZAbove(x: real, m: real, s: real, t: real)
  {
    if s == 0.0 then x - m > 0.0 else (x - m) / s > t
  }

  predicate ZBelow(x: real, m: real, s: real, t: real)
  {
    if s == 0.0 then x - m < 0.0 else (x - m) / s < t
  }

  /** The up to eight candles before `entryIndex` the move is compared with. */
  function RecentMoveWindow(movingCandles: seq<CandleEntry>, entryIndex: int): seq<CandleEntry>
    requires 0 <= entryIndex <= |movingCandles|
  {
    movingCandles[if entryIndex >= 8 then entryIndex - 8 else 0..entryIndex]
  }

  /** Mean of the absolute recent moves, and the spread of the signed moves
      around it. */
  function RecentMoveMean(recent: seq<CandleEntry>): real
  {
    Mean(AbsMoves(recent))
  }

  function RecentMoveVariance(recent: seq<CandleEntry>): real
  {
    Div(SquaredDeviations(Moves(recent), RecentMoveMean(recent)), |recent| as real)
  }

  /** `detectPriceMove`: "shoots_up" or "dragged_down" for a candle at least
      2.5 standard deviations beyond the recent moves in its own direction,
      with a body of at least 30% of its range; "normal" otherwise and with
      fewer than 20 candles or an index below 2. */
  function DetectPriceMove(movingCandles: seq<CandleEntry>, entryIndex: int, sqrt: real -> real): (r: string)
    requires |movingCandles| >= 20 && entryIndex >= 2 ==> entryIndex < |movingCandles|
    ensures r == "shoots_up" || r == "dragged_down" || r == "normal"
    ensures r != "normal" ==> |movingCandles| >= 20 && 2 <= entryIndex < |movingCandles|
    ensures r != "normal" ==> Abs(MovePercent(movingCandles[entryIndex]))
                              >= Div(movingCandles[entryIndex].high - movingCandles[entryIndex].low, movingCandles[entryIndex].open) * 100.0 * 0.3
    ensures r == "shoots_up" ==> MovePercent(movingCandles[entryIndex]) > 0.0
    ensures r == "dragged_down" ==> MovePercent(movingCandles[entryIndex]) < 0.0
    ensures r == "shoots_up" ==>
      var recent := RecentMoveWindow(movingCandles, entryIndex);
      ZAbove(MovePercent(movingCandles[entryIndex]), RecentMoveMean(recent), sqrt(RecentMoveVariance(recent)), 2.5)
    ensures r == "dragged_down" ==>
      var recent := RecentMoveWindow(movingCandles, entryIndex);
      ZBelow(MovePercent(movingCandles[entryIndex]), RecentMoveMean(recent), sqrt(RecentMoveVariance(recent)), -2.5)
    ensures |movingCandles| >= 20 && 2 <= entryIndex < |movingCandles| ==>
      var c := movingCandles[entryIndex];
      var recent := RecentMoveWindow(movingCandles, entryIndex);
      Abs(MovePercent(c)) >= Div(c.high - c.low, c.open) * 100.0 * 0.3 ==>
        && ((ZAbove(MovePercent(c), RecentMoveMean(recent), sqrt(RecentMoveVariance(recent)), 2.5)
              && MovePercent(c) > 0.0) ==> r == "shoots_up")
        && ((ZBelow(MovePercent(c), RecentMoveMean(recent), sqrt(RecentMoveVariance(recent)), -2.5)
              && MovePercent(c) < 0.0) ==> r == "dragged_down")
  {
    if |movingCandles| < 20 then "normal"
    else if entryIndex < 2 then "normal"
    else
      var currentCandle := movingCandles[entryIndex];
      var currentMove := MovePercent(currentCandle);
      var bodySize := Abs(currentMove);
      var wickRange := Div(currentCandle.high - currentCandle.low, currentCandle.open) * 100.0;
      if bodySize < wickRange * 0.3 then "normal"
      else
        var recent := RecentMoveWindow(movingCandles, entryIndex);
        var avgMove := RecentMoveMean(recent);
        var stdDev := sqrt(RecentMoveVariance(recent));
        if ZAbove(currentMove, avgMove, stdDev, 2.5) && currentMove > 0.0 then "shoots_up"
        else if ZBelow(currentMove, avgMove, stdDev, -2.5) && currentMove < 0.0 then "dragged_down"
        else "normal"
  }

  /** The classification reads no candle after `entryIndex`. */
  lemma PriceMoveIgnoresLaterCandles(a: seq<CandleEntry>, b: seq<CandleEntry>, entryIndex: int, sqrt: real -> real)
    requires 2 <= entryIndex < |a| && entryIndex < |b| && |a| >= 20 && |b| >= 20
    requires a[..entryIndex + 1] == b[..entryIndex + 1]
    ensures DetectPriceMove(a, entryIndex, sqrt) == DetectPriceMove(b, entryIndex, sqrt)
  {
    assert a[entryIndex] == a[..entryIndex + 1][entryIndex];
    assert b[entryIndex] == b[..entryIndex + 1][entryIndex];
    assert RecentMoveWindow(a, entryIndex) == RecentMoveWindow(b, entryIndex) by {
      var lo := if entryIndex >= 8 then entryIndex - 8 else 0;
      assert a[lo..entryIndex] == a[..entryIndex + 1][lo..entryIndex];
      assert b[lo..entryIndex] == b[..entryIndex + 1][lo..entryIndex];
    }
  }

  /** The mean is taken over absolute moves but the spread over signed
      ones: a run of identical falling candles (every move `m < 0`) has mean
      `-m` and a variance of `4 m^2`, not 0. */
  lemma SteadyDeclineHasSpread(recent: seq<CandleEntry>, m: real)
    requires |recent| > 0 && m < 0.0
    requires forall i :: 0 <= i < |recent| ==> MovePercent(recent[i]) == m
    ensures RecentMoveMean(recent) == -m
    ensures RecentMoveVariance(recent) == 4.0 * m * m
  {
    assert forall i :: 0 <= i < |recent| ==> AbsMoves(recent)[i] == -m;
    MeanOfConstant(AbsMoves(recent), -m);
    assert RecentMoveMean(recent) == -m;
    assert forall i :: 0 <= i < |recent| ==> Moves(recent)[i] == m;
    SquaredDeviationsOfConstantFrom(Moves(recent), m, -m);
    CountCancels(|Moves(recent)| as real, (m - -m) * (m - -m), SquaredDeviations(Moves(recent), -m));
    assert (m - -m) * (m - -m) == 4.0 * m * m;
  }

  lemma CountCancels(n: real, v: real, x: real)
    requires n > 0.0 && x == n * v
    ensures Div(x, n) == v
  {
  }

  // ---------------------------------------------------------------------
  // detectOverState

  /** The `windowSize` candles before the last one (`slice(-windowSize - 1, -1)`). */
  function OverStateWindow(movingCandles: seq<CandleEntry>, windowSize: int): seq<CandleEntry>
  {
    Slice(movingCandles, -windowSize - 1, -1)
  }

  /** Standard deviation of the window's moves. */
  function OverStateSpread(movingCandles: seq<CandleEntry>, windowSize: int, sqrt: real -> real): real
  {
    sqrt(Variance(Moves(OverStateWindow(movingCandles, windowSize))))
  }

  /** z-score of the last candle's move against the window. */
  function OverStateZ(movingCandles: seq<CandleEntry>, windowSize: int, sqrt: real -> real): real
    requires |movingCandles| > 0
  {
    Div(MovePercent(movingCandles[|movingCandles| - 1]) - Mean(Moves(OverStateWindow(movingCandles, windowSize))),
        OverStateSpread(movingCandles, windowSize, sqrt))
  }

  /** `detectOverState`: "overbought" above `threshold` standard
      deviations, "oversold" below `-threshold`, and "" otherwise, with fewer
      than `windowSize + 1` candles, an empty window or no spread. */
  function DetectOverState(movingCandles: seq<CandleEntry>, windowSize: int, threshold: real, sqrt: real -> real)
    : (r: string)
    ensures r == "overbought" || r == "oversold" || r == ""
    ensures |movingCandles| < windowSize + 1 ==> r == ""
    ensures r != "" ==> |OverStateWindow(movingCandles, windowSize)| > 0 && OverStateSpread(movingCandles, windowSize, sqrt) != 0.0
    ensures r == "overbought" ==> OverStateZ(movingCandles, windowSize, sqrt) > threshold
    ensures r == "oversold" ==> OverStateZ(movingCandles, windowSize, sqrt) < -threshold
                                && !(OverStateZ(movingCandles, windowSize, sqrt) > threshold)
    ensures |movingCandles| >= windowSize + 1 && |OverStateWindow(movingCandles, windowSize)| > 0
            && OverStateSpread(movingCandles, windowSize, sqrt) != 0.0 ==>
      && (OverStateZ(movingCandles, windowSize, sqrt) > threshold ==> r == "overbought")
      && ((OverStateZ(movingCandles, windowSize, sqrt) < -threshold
           && !(OverStateZ(movingCandles, windowSize, sqrt) > threshold)) ==> r == "oversold")
      && (-threshold <= OverStateZ(movingCandles, windowSize, sqrt) <= threshold ==> r == "")
  {
    if |movingCandles| < windowSize + 1 then ""
    else
      var changes := Moves(OverStateWindow(movingCandles, windowSize));
      if |changes| == 0 then ""
      else
        var mean := Mean(changes);
        var std := sqrt(Variance(changes));
        if std == 0.0 then ""
        else
          var current := movingCandles[|movingCandles| - 1];
          var z := (MovePercent(current) - mean) / std;
          if z > threshold then "overbought"
          else if z < -threshold then "oversold"
          else ""
  }

  /** A window whose candles all moved alike has no spread, so nothing is
      over-extended. */
  lemma UniformWindowNoOverState(movingCandles: seq<CandleEntry>, windowSize: int, threshold: real, sqrt: real -> real, m: real)
    requires sqrt(0.0) == 0.0
    requires forall i :: 0 <= i < |OverStateWindow(movingCandles, windowSize)| ==>
               MovePercent(OverStateWindow(movingCandles, windowSize)[i]) == m
    ensures DetectOverState(movingCandles, windowSize, threshold, sqrt) == ""
  {
    var changes := Moves(OverStateWindow(movingCandles, windowSize));
    VarianceOfConstant(changes, m);
  }

  // ---------------------------------------------------------------------
  // calculateCandleSpaceTakenInZoneLevel

  /** The half of the zone the close is in: [lower, mid) below the mid,
      [mid, upper] otherwise. */
  function HalfBounds(close: real, zone: PriceZone): (real, real)
  {
    if close < zone.mid then (zone.lower, zone.mid) else (zone.mid, zone.upper)
  }

  /** Length of the part of [lo, hi] that lies within [a, b], never
      negative. */
  function Overlap(lo: real, hi: real, a: real, b: real): (r: real)
    ensures 0.0 <= r
    ensures a <= b ==> r <= b - a
    ensures lo <= a <= b <= hi ==> r == b - a
    ensures hi <= a || b <= lo ==> r == 0.0
  {
    Max(0.0, Min(hi, b) - Max(lo, a))
  }

  /** `calculateCandleSpaceTakenInZoneLevel`: how much of that half, in
      percent, the candle's full extent overlaps; 0 for an empty half. */
  function CandleSpaceTakenInZoneLevel(c: CandleEntry, zone: PriceZone): (r: real)
    ensures 0.0 <= r <= 100.0
    ensures HalfBounds(c.close, zone).1 <= HalfBounds(c.close, zone).0 ==> r == 0.0
  {
    var bounds := HalfBounds(c.close, zone);
    var span := bounds.1 - bounds.0;
    if span <= 0.0 then 0.0
    else
      var overlap := Overlap(CandleLow(c), CandleHigh(c), bounds.0, bounds.1);
      DivMonotone(overlap, span, span);
      DivSign(overlap, span);
      SpanRatio(span);
      MulMonotone(overlap / span, span / span, 100.0);
      overlap / span * 100.0
  }

  /** The candle's full extent, whether or not its wicks enclose its body. */
  function CandleHigh(c: CandleEntry): real
  {
    Max(Max(c.open, c.close), c.high)
  }

  function CandleLow(c: CandleEntry): real
  {
    Min(Min(c.open, c.close), c.low)
  }

  lemma SpanRatio(span: real)
    requires span > 0.0
    ensures span / span * 100.0 == 100.0 && 0.0 / span * 100.0 == 0.0
  {
  }

  /** A candle spanning the whole half takes 100%; one entirely beyond it
      takes 0. */
  lemma SpaceTakenExtremes(c: CandleEntry, zone: PriceZone)
    ensures var bounds := HalfBounds(c.close, zone);
      bounds.0 < bounds.1 && CandleLow(c) <= bounds.0 && bounds.1 <= CandleHigh(c)
      ==> CandleSpaceTakenInZoneLevel(c, zone) == 100.0
    ensures var bounds := HalfBounds(c.close, zone);
      bounds.0 < bounds.1 && (CandleHigh(c) <= bounds.0 || bounds.1 <= CandleLow(c))
      ==> CandleSpaceTakenInZoneLevel(c, zone) == 0.0
  {
    var bounds := HalfBounds(c.close, zone);
    var span := bounds.1 - bounds.0;
    if span > 0.0 {
      SpanRatio(span);
    }
  }

  // ---------------------------------------------------------------------
  // hasVolumeSpike

  /** The positive volumes of `cs`, in order (`filter(v => v && v > 0)`). */
  function PositiveVolumes(cs: seq<CandleEntry>): (vs: seq<real>)
    ensures |vs| <= |cs|
    ensures forall i :: 0 <= i < |vs| ==> vs[i] > 0.0
  {
    if |cs| == 0 then []
    else PositiveVolumes(cs[..|cs| - 1]) + (if cs[|cs| - 1].volume > 0.0 then [cs[|cs| - 1].volume] else [])
  }

  /** Every positive volume of `cs` is among them. */
  lemma {:induction false} PositiveVolumesComplete(cs: seq<CandleEntry>, k: int)
    requires 0 <= k < |cs| && cs[k].volume > 0.0
    ensures cs[k].volume in PositiveVolumes(cs)
  {
    if k < |cs| - 1 {
      assert cs[..|cs| - 1][k] == cs[k];
      PositiveVolumesComplete(cs[..|cs| - 1], k);
    }
  }

  /** The `lookbackPeriod` candles before the last one. */
  function SpikeWindow(candles: seq<CandleEntry>, lookbackPeriod: nat): seq<CandleEntry>
  {
    Slice(candles, -(lookbackPeriod as int) - 1, -1)
  }

  /** `hasVolumeSpike`: the last volume is at least `multiplier` times the
      mean and at least the maximum of the positive volumes before it; false
      with fewer than `lookbackPeriod + 1` candles, a zero last volume or no
      positive volume before it. */
  function HasVolumeSpike(candles: seq<CandleEntry>, lookbackPeriod: nat, multiplier: real): (r: bool)
    ensures r ==> |candles| >= lookbackPeriod + 1 && candles[|candles| - 1].volume > 0.0
    ensures r ==> forall i :: 0 <= i < |PositiveVolumes(SpikeWindow(candles, lookbackPeriod))| ==>
                    PositiveVolumes(SpikeWindow(candles, lookbackPeriod))[i] <= candles[|candles| - 1].volume
    ensures |candles| < lookbackPeriod + 1 || PositiveVolumes(SpikeWindow(candles, lookbackPeriod)) == [] ==> !r
  {
    if |candles| < lookbackPeriod + 1 then false
    else
      var currentVolume := candles[|candles| - 1].volume;
      if currentVolume == 0.0 then false
      else
        var pastVolumes := PositiveVolumes(SpikeWindow(candles, lookbackPeriod));
        if |pastVolumes| == 0 then false
        else
          assert pastVolumes[0] > 0.0;
          SpikeOver(pastVolumes, currentVolume, multiplier)
  }

  /** The spike test proper: at least `multiplier` times the mean and at
      least the maximum of `pastVolumes`. */
  predicate SpikeOver(pastVolumes: seq<real>, currentVolume: real, multiplier: real)
    requires |pastVolumes| > 0
  {
    var avgVolume := Mean(pastVolumes);
    var maxVolume := SeqMax(pastVolumes);
    currentVolume >= avgVolume * multiplier && currentVolume >= maxVolume
  }

  /** The spike test holds exactly when the volume reaches `multiplier`
      times the mean and every past volume. */
  lemma SpikeOverBounds(pastVolumes: seq<real>, currentVolume: real, multiplier: real)
    requires |pastVolumes| > 0
    ensures SpikeOver(pastVolumes, currentVolume, multiplier) <==>
      && currentVolume >= Mean(pastVolumes) * multiplier
      && forall i :: 0 <= i < |pastVolumes| ==> pastVolumes[i] <= currentVolume
  {
    var top := SeqMax(pastVolumes);
    var k :| 0 <= k < |pastVolumes| && pastVolumes[k] == top;
  }

  /** The whole test: with enough candles, a non-zero last volume and some
      positive volume before it, a spike is a last volume of at least
      `multiplier` times the mean of the positive past volumes and at least
      each of them. */
  lemma VolumeSpikeIff(candles: seq<CandleEntry>, lookbackPeriod: nat, multiplier: real)
    ensures HasVolumeSpike(candles, lookbackPeriod, multiplier) ==>
      && |candles| >= lookbackPeriod + 1
      && candles[|candles| - 1].volume != 0.0
      && |PositiveVolumes(SpikeWindow(candles, lookbackPeriod))| > 0
      && candles[|candles| - 1].volume >= Mean(PositiveVolumes(SpikeWindow(candles, lookbackPeriod))) * multiplier
      && forall i :: 0 <= i < |PositiveVolumes(SpikeWindow(candles, lookbackPeriod))| ==>
           PositiveVolumes(SpikeWindow(candles, lookbackPeriod))[i] <= candles[|candles| - 1].volume
    ensures && |candles| >= lookbackPeriod + 1
      && candles[|candles| - 1].volume != 0.0
      && |PositiveVolumes(SpikeWindow(candles, lookbackPeriod))| > 0
      && candles[|candles| - 1].volume >= Mean(PositiveVolumes(SpikeWindow(candles, lookbackPeriod))) * multiplier
      && (forall i :: 0 <= i < |PositiveVolumes(SpikeWindow(candles, lookbackPeriod))| ==>
           PositiveVolumes(SpikeWindow(candles, lookbackPeriod))[i] <= candles[|candles| - 1].volume)
      ==> HasVolumeSpike(candles, lookbackPeriod, multiplier)
  {
    if HasVolumeSpike(candles, lookbackPeriod, multiplier) {
      VolumeSpikeBounds(candles, lookbackPeriod, multiplier);
    }
    if && |candles| >= lookbackPeriod + 1
       && candles[|candles| - 1].volume != 0.0
       && |PositiveVolumes(SpikeWindow(candles, lookbackPeriod))| > 0
       && candles[|candles| - 1].volume >= Mean(PositiveVolumes(SpikeWindow(candles, lookbackPeriod))) * multiplier
       && forall i :: 0 <= i < |PositiveVolumes(SpikeWindow(candles, lookbackPeriod))| ==>
            PositiveVolumes(SpikeWindow(candles, lookbackPeriod))[i] <= candles[|candles| - 1].volume
    {
      VolumeSpikeFromBounds(candles, lookbackPeriod, multiplier);
    }
  }

  /** The forward half: a spike reaches `multiplier` times the mean. */
  lemma VolumeSpikeBounds(candles: seq<CandleEntry>, lookbackPeriod: nat, multiplier: real)
    requires HasVolumeSpike(candles, lookbackPeriod, multiplier)
    ensures |candles| >= lookbackPeriod + 1
    ensures |PositiveVolumes(SpikeWindow(candles, lookbackPeriod))| > 0
    ensures candles[|candles| - 1].volume >= Mean(PositiveVolumes(SpikeWindow(candles, lookbackPeriod))) * multiplier
  {
    assert SpikeOver(PositiveVolumes(SpikeWindow(candles, lookbackPeriod)), candles[|candles| - 1].volume, multiplier);
    SpikeOverBounds(PositiveVolumes(SpikeWindow(candles, lookbackPeriod)), candles[|candles| - 1].volume, multiplier);
  }

  /** The converse half: the guards, the mean bound and the maximum bound
      together make a spike. */
  lemma VolumeSpikeFromBounds(candles: seq<CandleEntry>, lookbackPeriod: nat, multiplier: real)
    requires |candles| >= lookbackPeriod + 1
    requires candles[|candles| - 1].volume != 0.0
    requires |PositiveVolumes(SpikeWindow(candles, lookbackPeriod))| > 0
    requires candles[|candles| - 1].volume >= Mean(PositiveVolumes(SpikeWindow(candles, lookbackPeriod))) * multiplier
    requires forall i :: 0 <= i < |PositiveVolumes(SpikeWindow(candles, lookbackPeriod))| ==>
           PositiveVolumes(SpikeWindow(candles, lookbackPeriod))[i] <= candles[|candles| - 1].volume
    ensures HasVolumeSpike(candles, lookbackPeriod, multiplier)
  {
    SpikeOverBounds(PositiveVolumes(SpikeWindow(candles, lookbackPeriod)), candles[|candles| - 1].volume, multiplier);
  }

  /** With a multiplier in [0, 1], over non-negative volumes, the test is
      the maximum test alone. */
  lemma SpikeOverSmallMultiplier(pastVolumes: seq<real>, currentVolume: real, multiplier: real)
    requires |pastVolumes| > 0 && 0.0 <= multiplier <= 1.0
    requires forall i :: 0 <= i < |pastVolumes| ==> pastVolumes[i] >= 0.0
    ensures SpikeOver(pastVolumes, currentVolume, multiplier)
            <==> forall i :: 0 <= i < |pastVolumes| ==> pastVolumes[i] <= currentVolume
  {
    if forall i :: 0 <= i < |pastVolumes| ==> pastVolumes[i] <= currentVolume {
      var mean, top := Mean(pastVolumes), SeqMax(pastVolumes);
      assert top <= currentVolume;
      MeanAtMost(pastVolumes, currentVolume);
      MeanNonNegative(pastVolumes);
      ScaledAtMost(mean, multiplier, currentVolume);
      assert SpikeOver(pastVolumes, currentVolume, multiplier);
    } else {
      var k :| 0 <= k < |pastVolumes| && pastVolumes[k] > currentVolume;
      assert SeqMax(pastVolumes) >= pastVolumes[k];
      assert !SpikeOver(pastVolumes, currentVolume, multiplier);
    }
  }

  lemma ScaledAtMost(m: real, k: real, c: real)
    requires 0.0 <= m <= c && 0.0 <= k <= 1.0
    ensures m * k <= c
  {
    MulMonotone(k, 1.0, m);
    assert k * m == m * k;
  }

  /** A spike is a positive volume no smaller than any positive volume of the
      window before it. */
  lemma SpikeDominatesWindow(candles: seq<CandleEntry>, lookbackPeriod: nat, multiplier: real, k: int)
    requires HasVolumeSpike(candles, lookbackPeriod, multiplier)
    requires 0 <= k < |SpikeWindow(candles, lookbackPeriod)| && SpikeWindow(candles, lookbackPeriod)[k].volume > 0.0
    ensures candles[|candles| - 1].volume > 0.0
    ensures candles[|candles| - 1].volume >= SpikeWindow(candles, lookbackPeriod)[k].volume
  {
    var past := PositiveVolumes(SpikeWindow(candles, lookbackPeriod));
    PositiveVolumesComplete(SpikeWindow(candles, lookbackPeriod), k);
    assert past[0] > 0.0;
  }

  /** With a multiplier of at most 1 the mean test is implied by the maximum
      test: a non-zero last volume is a spike exactly when it is at least
      every positive volume of the window before it. */
  lemma SmallMultiplierOnlyMaxMatters(candles: seq<CandleEntry>, lookbackPeriod: nat, multiplier: real)
    requires 0.0 <= multiplier <= 1.0
    requires |candles| >= lookbackPeriod + 1 && candles[|candles| - 1].volume != 0.0
    requires |PositiveVolumes(SpikeWindow(candles, lookbackPeriod))| > 0
    ensures HasVolumeSpike(candles, lookbackPeriod, multiplier)
            <==> forall i :: 0 <= i < |PositiveVolumes(SpikeWindow(candles, lookbackPeriod))| ==>
                   PositiveVolumes(SpikeWindow(candles, lookbackPeriod))[i] <= candles[|candles| - 1].volume
  {
    var past := PositiveVolumes(SpikeWindow(candles, lookbackPeriod));
    SpikeOverSmallMultiplier(past, candles[|candles| - 1].volume, multiplier);
  }

  // ---------------------------------------------------------------------
  // analyzePastVolumes

  /** How many of `cs[0..n)` closed above their open. */
  function BullCount(cs: seq<CandleEntry>, n: nat): (k: nat)
    requires n <= |cs|
    ensures k <= n
  {
    if n == 0 then 0 else BullCount(cs, n - 1) + (if cs[n - 1].close > cs[n - 1].open then 1 else 0)
  }

  /** How many of `cs[0..n)` closed below their open. */
  function BearCount(cs: seq<CandleEntry>, n: nat): (k: nat)
    requires n <= |cs|
    ensures k <= n
  {
    if n == 0 then 0 else BearCount(cs, n - 1) + (if cs[n - 1].close < cs[n - 1].open then 1 else 0)
  }

  /** Second half of the window against the first: more than 10% up is
      increasing, more than 10% down decreasing.  With fewer than two candles
      the first half is empty, its mean is NaN and both comparisons fail. */
  function VolumeTrendOf(past: seq<CandleEntry>): VolumeTrend
  {
    var half := |past| / 2;
    if half == 0 then StableVolume
    else
      var firstHalfAvg := Mean(Volumes(past[..half]));
      var secondHalfAvg := Mean(Volumes(past[half..]));
      if secondHalfAvg > firstHalfAvg * 1.1 then IncreasingVolume
      else if secondHalfAvg < firstHalfAvg * 0.9 then DecreasingVolume
      else StableVolume
  }

  function DominanceOf(bullCount: nat, bearCount: nat): Dominance
  {
    if bullCount > bearCount then BullDominant
    else if bearCount > bullCount then BearDominant
    else MixedDominance
  }

  /** What `analyzePastVolumes` returns: nothing to report before
      `lookback` candles exist; otherwise the mean volume of the `lookback`
      candles before `currentIndex`, its trend, whether the current candle
      doubles it (never with an empty window, whose NaN mean compares false)
      and which side closed more of them.  The current candle must exist. */
  function PastVolumes(candles: seq<CandleEntry>, currentIndex: int, lookback: nat): PastVolumeAnalysis
    requires currentIndex >= lookback ==> currentIndex < |candles|
  {
    if currentIndex < lookback then PastVolumeAnalysis(0.0, NoVolumeTrend, false, MixedDominance)
    else
      var past := candles[currentIndex - lookback..currentIndex];
      var avg := Mean(Volumes(past));
      var bullCount := BullCount(past, |past|);
      PastVolumeAnalysis(avg, VolumeTrendOf(past), |past| > 0 && candles[currentIndex].volume > avg * 2.0,
                         DominanceOf(bullCount, |past| - bullCount))
  }

  /** `analyzePastVolumes`, with its loop counting bull and bear candles. */
  method AnalyzePastVolumes(candles: seq<CandleEntry>, currentIndex: int, lookback: nat) returns (r: PastVolumeAnalysis)
    requires currentIndex >= lookback ==> currentIndex < |candles|
    ensures r == PastVolumes(candles, currentIndex, lookback)
  {
    if currentIndex < lookback {
      return PastVolumeAnalysis(0.0, NoVolumeTrend, false, MixedDominance);
    }
    var pastCandles := candles[currentIndex - lookback..currentIndex];
    var pastAvgVolume := Mean(Volumes(pastCandles));
    var volumeTrend := VolumeTrendOf(pastCandles);
    var currentVolume := candles[currentIndex].volume;
    var spikeFlag := |pastCandles| > 0 && currentVolume > pastAvgVolume * 2.0;
    var bullCount, bearCount := 0, 0;
    for i := 0 to |pastCandles|
      invariant bullCount == BullCount(pastCandles, i)
      invariant bearCount == i - bullCount
    {
      if pastCandles[i].close > pastCandles[i].open {
        bullCount := bullCount + 1;
      } else {
        bearCount := bearCount + 1;
      }
    }
    r := PastVolumeAnalysis(pastAvgVolume, volumeTrend, spikeFlag, DominanceOf(bullCount, bearCount));
  }

  /** A side dominates exactly when it closed more than half of the window
      (doji count as bear). */
  lemma DominanceIsMajority(candles: seq<CandleEntry>, currentIndex: int, lookback: nat)
    requires currentIndex >= lookback ==> currentIndex < |candles|
    ensures var r := PastVolumes(candles, currentIndex, lookback);
      && (r.dominantDirection == BullDominant
          <==> currentIndex >= lookback && 2 * BullCount(candles[currentIndex - lookback..currentIndex], lookback) > lookback)
      && (r.dominantDirection == BearDominant
          <==> currentIndex >= lookback && 2 * BullCount(candles[currentIndex - lookback..currentIndex], lookback) < lookback)
  {
  }

  /** A window of one volume throughout reports that volume as its mean and,
      for a non-negative volume, a stable trend. */
  lemma ConstantVolumeIsStable(candles: seq<CandleEntry>, currentIndex: int, lookback: nat, v: real)
    requires lookback <= currentIndex < |candles| && lookback > 0 && v >= 0.0
    requires forall i :: currentIndex - lookback <= i < currentIndex ==> candles[i].volume == v
    ensures PastVolumes(candles, currentIndex, lookback).pastAvgVolume == v
    ensures PastVolumes(candles, currentIndex, lookback).volumeTrend == StableVolume
  {
    var past := candles[currentIndex - lookback..currentIndex];
    MeanOfConstant(Volumes(past), v);
    var half := |past| / 2;
    if half > 0 {
      MeanOfConstant(Volumes(past[..half]), v);
      MeanOfConstant(Volumes(past[half..]), v);
    }
  }

  /** A window shorter than two candles has no trend to report. */
  lemma ShortWindowIsStable(candles: seq<CandleEntry>, currentIndex: int, lookback: nat)
    requires currentIndex >= lookback ==> currentIndex < |candles|
    requires lookback < 2
    ensures PastVolumes(candles, currentIndex, lookback).volumeTrend
            == if currentIndex < lookback then NoVolumeTrend else StableVolume
  {
  }

  // ---------------------------------------------------------------------
  // analyzeZoneInteraction

  /** `x || 1e-8`: a zero width or deviation replaced by a tiny one. */
  function OrTiny(x: real): (r: real)
    ensures r != 0.0
    ensures x != 0.0 ==> r == x
    ensures x >= 0.0 ==> r > 0.0
  {
    if x == 0.0 then 0.00000001 else x
  }

  /** `x || 1`. */
  function OrOne(x: real): (r: real)
    ensures r != 0.0
    ensures x != 0.0 ==> r == x
  {
    if x == 0.0 then 1.0 else x
  }

  /** The zone the analysis is about: support for a BUY, resistance for
      anything else. */
  function ActiveZone(side: string, support: PriceZone, resistance: PriceZone): PriceZone
  {
    if side == "BUY" then support else resistance
  }

  function ZoneWidth(zone: PriceZone): (w: real)
    ensures w > 0.0
    ensures zone.lower != zone.upper ==> w == Abs(zone.upper - zone.lower)
  {
    OrTiny(Abs(zone.upper - zone.lower))
  }

  predicate InZone(price: real, zone: PriceZone)
  {
    zone.lower <= price <= zone.upper
  }

  /** Distance from the price to the nearer edge, 0 inside. */
  function DistanceFromZone(price: real, zone: PriceZone): (d: real)
    ensures d >= 0.0
    ensures InZone(price, zone) ==> d == 0.0
    ensures price > zone.upper ==> d == price - zone.upper
  {
    if price > zone.upper then price - zone.upper
    else if price < zone.lower then zone.lower - price
    else 0.0
  }

  /** How many of `cs[0..n)` broke above their resistance, below their
      support. */
  function ResistanceBreaks(cs: seq<CandleEntry>, n: nat): (k: nat)
    requires n <= |cs|
    ensures k <= n
  {
    if n == 0 then 0 else ResistanceBreaks(cs, n - 1) + (if cs[n - 1].breakthroughResistance then 1 else 0)
  }

  function SupportBreaks(cs: seq<CandleEntry>, n: nat): (k: nat)
    requires n <= |cs|
    ensures k <= n
  {
    if n == 0 then 0 else SupportBreaks(cs, n - 1) + (if cs[n - 1].breakthroughSupport then 1 else 0)
  }

  /** A candle crossing the resistance's lower edge, spanning the zone, or
      reaching above it from inside it. */
  predicate TouchesResistance(c: CandleEntry, resistance: PriceZone)
  {
    (c.high > resistance.lower && c.low < resistance.lower)
    || (c.high > resistance.upper && c.low < resistance.lower)
    || (c.high > resistance.upper && c.low > resistance.lower && c.low < resistance.upper)
  }

  /** The mirror image for the support: crossing its upper edge, spanning
      it, or reaching below it from inside it. */
  predicate TouchesSupport(c: CandleEntry, support: PriceZone)
  {
    (c.high > support.upper && c.low < support.upper)
    || (c.high > support.upper && c.low < support.lower)
    || (c.low < support.lower && c.high > support.lower && c.high < support.upper)
  }

  /** A past candle that counts as an interaction with the side's zone. */
  predicate Interacts(side: string, c: CandleEntry, support: PriceZone, resistance: PriceZone)
  {
    (side == "SELL" && TouchesResistance(c, resistance)) || (side == "BUY" && TouchesSupport(c, support))
  }

  function InteractionCount(side: string, cs: seq<CandleEntry>, n: nat, support: PriceZone, resistance: PriceZone): (k: nat)
    requires n <= |cs|
    ensures k <= n
  {
    if n == 0 then 0
    else InteractionCount(side, cs, n - 1, support, resistance) + (if Interacts(side, cs[n - 1], support, resistance) then 1 else 0)
  }

  /** How many of `cs[0..n)` overlap the zone. */
  function InZoneCount(cs: seq<CandleEntry>, n: nat, zone: PriceZone): (k: nat)
    requires n <= |cs|
    ensures k <= n
  {
    if n == 0 then 0
    else InZoneCount(cs, n - 1, zone) + (if cs[n - 1].low <= zone.upper && cs[n - 1].high >= zone.lower then 1 else 0)
  }

  /** The windows the analysis reads: the last `n` candles before the
      current one (all of them for `n` = 0), the `n` before it for the
      trend, and the last `n` including it. */
  function PastWindow(candles: seq<CandleEntry>, n: nat): seq<CandleEntry>
    requires |candles| > 0
  {
    LastN(candles[..|candles| - 1], n)
  }

  function TrendWindow(candles: seq<CandleEntry>, n: nat): seq<CandleEntry>
  {
    Slice(candles, -(n as int) - 1, -1)
  }

  /** More than 1.4 times as many rising as falling candles is bullish, and
      the other way round bearish. */
  function TrendOf(trendCandles: seq<CandleEntry>): PastTrend
  {
    var bullishCount := BullCount(trendCandles, |trendCandles|);
    var bearishCount := BearCount(trendCandles, |trendCandles|);
    if bullishCount as real > bearishCount as real * 1.4 then Bullish
    else if bearishCount as real > bullishCount as real * 1.4 then Bearish
    else Sideways
  }

  function BodySizes(cs: seq<CandleEntry>): (r: seq<real>)
    ensures |r| == |cs|
  {
    seq(|cs|, i requires 0 <= i < |cs| => Abs(cs[i].close - cs[i].open))
  }

  /** z-score of the last value against the window, on [0, 100] with 50 at
      the mean and each standard deviation worth 50. */
  function MomentumOf(momentumCandles: seq<CandleEntry>, sqrt: real -> real): (m: real)
    requires |momentumCandles| > 0
    ensures 0.0 <= m <= 100.0
  {
    var candleSizes := BodySizes(momentumCandles);
    var avgSize := Mean(candleSizes);
    var stdSize := OrTiny(sqrt(Variance(candleSizes)));
    var currentSize := candleSizes[|candleSizes| - 1];
    Clamp(0.0, 100.0, 50.0 + (currentSize - avgSize) / stdSize * 50.0)
  }

  /** The current volume's z-score mapped to a multiplier in [0.2, 3]. */
  function VolumeConfluenceOf(momentumCandles: seq<CandleEntry>, sqrt: real -> real): (v: real)
    requires |momentumCandles| > 0
    ensures 0.2 <= v <= 3.0
  {
    var recentVolumes := Volumes(momentumCandles);
    var avgVolume := Mean(recentVolumes);
    var stdVolume := OrTiny(sqrt(Variance(recentVolumes)));
    var volumeZ := (momentumCandles[|momentumCandles| - 1].volume - avgVolume) / stdVolume;
    Clamp(0.2, 3.0, 1.0 + volumeZ * 0.3)
  }

  /** Body size per zone width per minute of the current candle, halved and
      capped at 1 (a candle with no duration counts as one minute). */
  function ReactionVelocityOf(current: CandleEntry, zoneWidth: real): (v: real)
    requires zoneWidth > 0.0
    ensures v <= 1.0
    ensures current.closeTime >= current.openTime ==> v >= 0.0
  {
    var minutes := OrOne((current.closeTime - current.openTime) as real / 60000.0);
    var reactionVelocity := Abs(current.close - current.open) / zoneWidth / minutes;
    DivSign(Abs(current.close - current.open), zoneWidth);
    DivSign(Abs(current.close - current.open) / zoneWidth, minutes);
    Min(1.0, reactionVelocity / 2.0)
  }

  /** Standard deviation of the last ten closes per zone width, capped at 1. */
  function VolatilityOf(candles: seq<CandleEntry>, zoneWidth: real, sqrt: real -> real): (v: real)
    requires zoneWidth > 0.0
    ensures v <= 1.0
  {
    Min(1.0, sqrt(Variance(Closes(LastN(candles, 10)))) / zoneWidth)
  }

  /** 1 inside the zone, `exp(-2.5 d)` for a distance of `d` zone widths. */
  function ProximityConfidenceOf(price: real, zone: PriceZone, exp: real -> real): (p: real)
    ensures InZone(price, zone) ==> p == 1.0
  {
    if InZone(price, zone) then 1.0 else exp(-2.5 * (DistanceFromZone(price, zone) / ZoneWidth(zone)))
  }

  /** The score of a reversal off the side's zone: close to it, after a
      trend into it, with momentum and a touch. */
  function ReversalScore(side: string, proximityConfidence: real, pastTrend: PastTrend, momentum: real, zoneTouchDetected: bool): real
  {
    var into := if side == "BUY" then Bearish else Bullish;
    proximityConfidence * 0.25
    + (if pastTrend == into then 0.35 else if pastTrend == Sideways then 0.15 else 0.0)
    + momentum / 100.0 * 0.25
    + (if zoneTouchDetected then 0.15 else 0.0)
  }

  /** The score of a break through the zone: breakout probability, distance
      from the zone and momentum. */
  function BreakoutScore(proximityConfidence: real, momentum: real, breakoutProbability: real): real
  {
    breakoutProbability * 0.4 + (if proximityConfidence < 0.4 then 0.35 else 0.0) + momentum / 100.0 * 0.25
  }

  /** The reversal direction off the side's zone, and the breakout one. */
  function ReversalBias(side: string): Bias
  {
    if side == "BUY" then LongBias else ShortBias
  }

  function BreakoutBias(side: string): Bias
  {
    if side == "BUY" then ShortBias else LongBias
  }

  /** The reversal is checked first; a bias needs a score above 0.6. */
  function OverallBias(side: string, proximityConfidence: real, pastTrend: PastTrend, momentum: real,
                       zoneTouchDetected: bool, breakoutProbability: real): (b: Bias)
    ensures b == ReversalBias(side) <==> ReversalScore(side, proximityConfidence, pastTrend, momentum, zoneTouchDetected) > 0.6
    ensures b == BreakoutBias(side) <==> ReversalScore(side, proximityConfidence, pastTrend, momentum, zoneTouchDetected) <= 0.6
                                         && BreakoutScore(proximityConfidence, momentum, breakoutProbability) > 0.6
    ensures b == NeutralBias <==> ReversalScore(side, proximityConfidence, pastTrend, momentum, zoneTouchDetected) <= 0.6
                                  && BreakoutScore(proximityConfidence, momentum, breakoutProbability) <= 0.6
  {
    if ReversalScore(side, proximityConfidence, pastTrend, momentum, zoneTouchDetected) > 0.6 then ReversalBias(side)
    else if BreakoutScore(proximityConfidence, momentum, breakoutProbability) > 0.6 then BreakoutBias(side)
    else NeutralBias
  }

  function MirrorTrend(t: PastTrend): PastTrend
  {
    match t
    case Bullish => Bearish
    case Bearish => Bullish
    case Sideways => Sideways
  }

  function MirrorBias(b: Bias): Bias
  {
    match b
    case LongBias => ShortBias
    case ShortBias => LongBias
    case NeutralBias => NeutralBias
  }

  /** The SELL rules are the BUY rules mirrored: a mirrored trend gives the
      mirrored bias. */
  lemma BiasMirrorsSide(proximityConfidence: real, pastTrend: PastTrend, momentum: real,
                        zoneTouchDetected: bool, breakoutProbability: real)
    ensures OverallBias("SELL", proximityConfidence, MirrorTrend(pastTrend), momentum, zoneTouchDetected, breakoutProbability)
            == MirrorBias(OverallBias("BUY", proximityConfidence, pastTrend, momentum, zoneTouchDetected, breakoutProbability))
  {
    assert ReversalScore("SELL", proximityConfidence, MirrorTrend(pastTrend), momentum, zoneTouchDetected)
           == ReversalScore("BUY", proximityConfidence, pastTrend, momentum, zoneTouchDetected);
  }

  /** All of the analysis that follows from the three counts. */
  function ZoneAnalysisFrom(side: string, currentPrice: real, candles: seq<CandleEntry>, support: PriceZone, resistance: PriceZone,
                            pastCandleTrendLength: nat, momentumLength: nat,
                            pastResistanceBreakCount: nat, pastSupportBreakCount: nat, pastInteractionsToZoneCount: nat,
                            sqrt: real -> real, exp: real -> real): (r: ZoneAnalysis)
    requires |candles| > 0
    ensures 0.0 <= r.priceProximityCloseToZone <= 100.0 && 0.0 <= r.proximityScore <= 100.0
    ensures 0.0 <= r.momentum <= 100.0 && 0.2 <= r.volumeConfluence <= 3.0
    ensures r.zoneWidth > 0.0 && 0.1 <= r.zoneStrength <= 1.0
    ensures r.reactionVelocity <= 1.0 && r.volatilityScore <= 1.0
    ensures r.signalConfidence <= 1.0 && r.breakoutProbability <= 1.0
    ensures r.zoneTouchDetected <==> InZone(currentPrice, ActiveZone(side, support, resistance)) && pastInteractionsToZoneCount > 0
    ensures r.zoneType == if side == "BUY" then SupportZone else ResistanceZone
    ensures r.overallBias == OverallBias(side, r.proximityConfidence, r.pastTrend, r.momentum, r.zoneTouchDetected, r.breakoutProbability)
    ensures r.timeInZoneMs == InZoneCount(candles, |candles|, ActiveZone(side, support, resistance)) * 60000
    ensures r.pastInteractionsToZoneCount == pastInteractionsToZoneCount
    ensures r.pastResistanceBreakCount == pastResistanceBreakCount && r.pastSupportBreakCount == pastSupportBreakCount
  {
    var zone := ActiveZone(side, support, resistance);
    var zoneWidth := ZoneWidth(zone);
    var distanceFromZone := DistanceFromZone(currentPrice, zone);
    DivSign(distanceFromZone, zoneWidth);
    var priceProximityCloseToZone := Min(100.0, distanceFromZone / zoneWidth * 100.0);
    var proximityScore := 100.0 - priceProximityCloseToZone;
    var proximityConfidence := ProximityConfidenceOf(currentPrice, zone, exp);
    var pastTrend := TrendOf(TrendWindow(candles, pastCandleTrendLength));
    var momentumCandles := LastN(candles, momentumLength);
    var momentum := MomentumOf(momentumCandles, sqrt);
    var volumeConfluence := VolumeConfluenceOf(momentumCandles, sqrt);
    var currentCandle := momentumCandles[|momentumCandles| - 1];
    var reactionVelocity := ReactionVelocityOf(currentCandle, zoneWidth);
    var zoneTouchDetected := InZone(currentPrice, zone) && pastInteractionsToZoneCount > 0;
    var volatilityScore := VolatilityOf(candles, zoneWidth, sqrt);
    var zoneStrength := Min(1.0, Max(0.1, pastInteractionsToZoneCount as real / 5.0));
    var signalConfidence := Min(1.0, (zoneStrength * 0.25 + momentum / 100.0 * 0.4 + volumeConfluence / 2.0 * 0.35) * proximityConfidence);
    var timeInZoneMs := InZoneCount(candles, |candles|, zone) * 60000;
    var breakoutProbability := Min(1.0, momentum / 100.0 * 0.5 + volumeConfluence * 0.2 + volatilityScore * 0.3);
    var overallBias := OverallBias(side, proximityConfidence, pastTrend, momentum, zoneTouchDetected, breakoutProbability);
    var interactionStrength := pastInteractionsToZoneCount as real * proximityScore * (momentum / 100.0) / 100.0;
    var momentumStrength := momentum * volumeConfluence * reactionVelocity;
    ZoneAnalysis(
      priceProximityCloseToZone, pastInteractionsToZoneCount, pastTrend, momentum, zoneWidth,
      if side == "BUY" then SupportZone else ResistanceZone,
      zoneStrength, zoneTouchDetected, reactionVelocity, volumeConfluence,
      (side == "BUY" && currentCandle.close > currentCandle.open) || (side == "SELL" && currentCandle.close < currentCandle.open),
      volatilityScore, proximityScore, proximityConfidence, signalConfidence, interactionStrength, momentumStrength,
      timeInZoneMs, breakoutProbability, overallBias, pastResistanceBreakCount, pastSupportBreakCount)
  }

  /** What `analyzeZoneInteraction` returns. */
  function ZoneAnalysisOf(side: string, currentPrice: real, candles: seq<CandleEntry>, support: PriceZone, resistance: PriceZone,
                          pastInteractionLength: nat, pastCandleTrendLength: nat, momentumLength: nat, breakthroughLength: nat,
                          sqrt: real -> real, exp: real -> real): ZoneAnalysis
    requires |candles| > 0
  {
    var breakthroughCandles := PastWindow(candles, breakthroughLength);
    var interactionCandles := PastWindow(candles, pastInteractionLength);
    ZoneAnalysisFrom(side, currentPrice, candles, support, resistance, pastCandleTrendLength, momentumLength,
                     ResistanceBreaks(breakthroughCandles, |breakthroughCandles|),
                     SupportBreaks(breakthroughCandles, |breakthroughCandles|),
                     InteractionCount(side, interactionCandles, |interactionCandles|, support, resistance),
                     sqrt, exp)
  }

  /** `analyzeZoneInteraction`: the two counting loops, then the analysis.
      It reads the last candle, so it needs one. */
  method AnalyzeZoneInteraction(side: string, currentPrice: real, candles: seq<CandleEntry>, support: PriceZone, resistance: PriceZone,
                                pastInteractionLength: nat, pastCandleTrendLength: nat, momentumLength: nat, breakthroughLength: nat,
                                sqrt: real -> real, exp: real -> real)
    returns (r: ZoneAnalysis)
    requires |candles| > 0
    ensures r == ZoneAnalysisOf(side, currentPrice, candles, support, resistance,
                                pastInteractionLength, pastCandleTrendLength, momentumLength, breakthroughLength, sqrt, exp)
  {
    var pastResistanceBreakCount, pastSupportBreakCount := CountBreakthroughs(PastWindow(candles, breakthroughLength));
    var pastInteractionsToZoneCount := CountInteractions(side, PastWindow(candles, pastInteractionLength), support, resistance);
    r := ZoneAnalysisFrom(side, currentPrice, candles, support, resistance, pastCandleTrendLength, momentumLength,
                          pastResistanceBreakCount, pastSupportBreakCount, pastInteractionsToZoneCount, sqrt, exp);
  }

  /** The loop over the breakthrough window. */
  method CountBreakthroughs(breakthroughCandles: seq<CandleEntry>) returns (pastResistanceBreakCount: nat, pastSupportBreakCount: nat)
    ensures pastResistanceBreakCount == ResistanceBreaks(breakthroughCandles, |breakthroughCandles|)
    ensures pastSupportBreakCount == SupportBreaks(breakthroughCandles, |breakthroughCandles|)
  {
    pastResistanceBreakCount, pastSupportBreakCount := 0, 0;
    for i := 0 to |breakthroughCandles|
      invariant pastResistanceBreakCount == ResistanceBreaks(breakthroughCandles, i)
      invariant pastSupportBreakCount == SupportBreaks(breakthroughCandles, i)
    {
      if breakthroughCandles[i].breakthroughResistance {
        pastResistanceBreakCount := pastResistanceBreakCount + 1;
      }
      if breakthroughCandles[i].breakthroughSupport {
        pastSupportBreakCount := pastSupportBreakCount + 1;
      }
    }
  }

  /** The loop over the interaction window. */
  method CountInteractions(side: string, pastInteractionCandles: seq<CandleEntry>, support: PriceZone, resistance: PriceZone)
    returns (pastInteractionsToZoneCount: nat)
    ensures pastInteractionsToZoneCount == InteractionCount(side, pastInteractionCandles, |pastInteractionCandles|, support, resistance)
  {
    pastInteractionsToZoneCount := 0;
    for i := 0 to |pastInteractionCandles|
      invariant pastInteractionsToZoneCount == InteractionCount(side, pastInteractionCandles, i, support, resistance)
    {
      var candle := pastInteractionCandles[i];
      if side == "SELL" && TouchesResistance(candle, resistance) {
        pastInteractionsToZoneCount := pastInteractionsToZoneCount + 1;
      }
      if side == "BUY" && TouchesSupport(candle, support) {
        pastInteractionsToZoneCount := pastInteractionsToZoneCount + 1;
      }
    }
  }

  /** A side other than BUY or SELL analyses the resistance but counts no
      interaction, detects no touch and sees no reversal. */
  lemma UnknownSideCountsNothing(side: string, cs: seq<CandleEntry>, n: nat, support: PriceZone, resistance: PriceZone)
    requires side != "BUY" && side != "SELL" && n <= |cs|
    ensures InteractionCount(side, cs, n, support, resistance) == 0
  {
  }

  /** The counts never exceed the windows they are taken over. */
  lemma CountsWithinWindows(side: string, currentPrice: real, candles: seq<CandleEntry>, support: PriceZone, resistance: PriceZone,
                            pastInteractionLength: nat, pastCandleTrendLength: nat, momentumLength: nat, breakthroughLength: nat,
                            sqrt: real -> real, exp: real -> real)
    requires |candles| > 0
    ensures var r := ZoneAnalysisOf(side, currentPrice, candles, support, resistance,
                                     pastInteractionLength, pastCandleTrendLength, momentumLength, breakthroughLength, sqrt, exp);
      && r.pastInteractionsToZoneCount <= |candles| - 1
      && (pastInteractionLength > 0 ==> r.pastInteractionsToZoneCount <= pastInteractionLength)
      && r.pastResistanceBreakCount <= |candles| - 1 && r.pastSupportBreakCount <= |candles| - 1
      && (breakthroughLength > 0 ==> r.pastResistanceBreakCount <= breakthroughLength && r.pastSupportBreakCount <= breakthroughLength)
      && 0 <= r.timeInZoneMs <= |candles| * 60000
  {
  }

  /** A price inside a zone that was touched before, after a trend into it,
      is always read as a reversal: long off a support, short off a
      resistance. */
  lemma TouchedZoneAfterTrendIsReversal(side: string, currentPrice: real, candles: seq<CandleEntry>, support: PriceZone, resistance: PriceZone,
                                        pastInteractionLength: nat, pastCandleTrendLength: nat, momentumLength: nat, breakthroughLength: nat,
                                        sqrt: real -> real, exp: real -> real)
    requires |candles| > 0 && (side == "BUY" || side == "SELL")
    requires InZone(currentPrice, ActiveZone(side, support, resistance))
    requires var r := ZoneAnalysisOf(side, currentPrice, candles, support, resistance,
                                     pastInteractionLength, pastCandleTrendLength, momentumLength, breakthroughLength, sqrt, exp);
      r.pastInteractionsToZoneCount > 0 && r.pastTrend == (if side == "BUY" then Bearish else Bullish)
    ensures ZoneAnalysisOf(side, currentPrice, candles, support, resistance,
                           pastInteractionLength, pastCandleTrendLength, momentumLength, breakthroughLength, sqrt, exp).overallBias
            == (if side == "BUY" then LongBias else ShortBias)
  {
    var r := ZoneAnalysisOf(side, currentPrice, candles, support, resistance,
                            pastInteractionLength, pastCandleTrendLength, momentumLength, breakthroughLength, sqrt, exp);
    assert r.proximityConfidence == 1.0;
    assert r.momentum / 100.0 * 0.25 >= 0.0;
  }

  // ---------------------------------------------------------------------
  // computeVolumeAnalysis

  /** One-candle returns of the window, 0 for its first candle. */
  function WindowReturns(w: seq<CandleEntry>): (r: seq<real>)
    ensures |r| == |w|
  {
    seq(|w|, i requires 0 <= i < |w| => if i == 0 then 0.0 else Div(w[i].close - w[i - 1].close, w[i - 1].close))
  }

  /** Covariance sum of the window's returns with volumes read from the
      START of the whole list (`candles[i]`, not the window's `i`-th). */
  function ReturnVolumeCovariance(rets: seq<real>, meanReturn: real, candles: seq<CandleEntry>, meanVol: real, n: nat): real
    requires n <= |rets| <= |candles|
  {
    if n == 0 then 0.0
    else ReturnVolumeCovariance(rets, meanReturn, candles, meanVol, n - 1)
         + (rets[n - 1] - meanReturn) * (candles[n - 1].volume - meanVol)
  }

  /** Volume-weighted price change over the window, the previous close read
      from the START of the whole list (`candles[i - 1]`). */
  function WindowPressure(w: seq<CandleEntry>, candles: seq<CandleEntry>, n: nat): real
    requires n <= |w| <= |candles|
  {
    if n <= 1 then 0.0
    else WindowPressure(w, candles, n - 1) + (w[n - 1].close - candles[n - 2].close) * w[n - 1].volume
  }

  /** Volume-weighted change from each candle's own predecessor. */
  function CumulativeDelta(w: seq<CandleEntry>, n: nat): real
    requires n <= |w|
  {
    if n <= 1 then 0.0
    else CumulativeDelta(w, n - 1) + (w[n - 1].close - w[n - 2].close) * w[n - 1].volume
  }

  /** The buy share of a rising candle: half plus ten times the relative
      rise, at most all of it. */
  function RisingBuyShare(deltaRatio: real): (share: real)
    ensures 0.5 <= share <= 1.0
  {
    0.5 + Min(Abs(deltaRatio) * 10.0, 0.5)
  }

  /** The buy volume of the last candle: 40% unless the close rose. */
  function BuyVolume(totalVolume: real, deltaPrice: real, deltaRatio: real): (b: real)
    ensures deltaPrice <= 0.0 ==> b == totalVolume * 0.4
    ensures deltaPrice > 0.0 && totalVolume >= 0.0 ==> totalVolume * 0.5 <= b <= totalVolume
  {
    if deltaPrice > 0.0 then ShareOfVolume(totalVolume, RisingBuyShare(deltaRatio)) else totalVolume * 0.4
  }

  /** A share in [0.5, 1] of a volume: for a non-negative volume, between
      half of it and all of it. */
  function ShareOfVolume(totalVolume: real, share: real): (v: real)
    requires 0.5 <= share <= 1.0
    ensures totalVolume >= 0.0 ==> totalVolume * 0.5 <= v <= totalVolume
  {
    if totalVolume >= 0.0 then
      MulMonotone(0.5, share, totalVolume);
      MulMonotone(share, 1.0, totalVolume);
      assert share * totalVolume == totalVolume * share;
      assert totalVolume * 0.5 <= totalVolume * share;
      totalVolume * share
    else totalVolume * share
  }

  /** With a non-negative volume the delta (buy minus sell) points the way
      the close moved. */
  lemma DeltaFollowsPrice(totalVolume: real, deltaPrice: real, deltaRatio: real)
    ensures var buyVolume := BuyVolume(totalVolume, deltaPrice, deltaRatio);
      totalVolume >= 0.0 ==> deltaPrice * (buyVolume - (totalVolume - buyVolume)) >= 0.0
  {
    var buyVolume := BuyVolume(totalVolume, deltaPrice, deltaRatio);
    var deltaVolume := buyVolume - (totalVolume - buyVolume);
    if totalVolume >= 0.0 {
      if deltaPrice > 0.0 {
        assert deltaVolume >= 0.0;
        MulMonotone(0.0, deltaPrice, deltaVolume);
      } else if deltaPrice < 0.0 {
        assert deltaVolume <= 0.0;
        MulMonotone(deltaPrice, 0.0, -deltaVolume);
      }
    }
  }

  /** z-score of `current` against `volumes`, 0 when they have no spread. */
  function VolumeZScore(volumes: seq<real>, current: real, sqrt: real -> real): (z: real)
    ensures sqrt(Variance(volumes)) == 0.0 ==> z == 0.0
  {
    var stdDev := sqrt(Variance(volumes));
    if stdDev == 0.0 then 0.0 else (current - Mean(volumes)) / stdDev
  }

  /** Correlation of the window's returns with the volumes (those read from
      the start of the whole list), 0 for the NaN of no spread. */
  function VolumeMomentumCorrelation(window: seq<CandleEntry>, candles: seq<CandleEntry>, sqrt: real -> real): real
    requires |window| <= |candles|
  {
    var volumes := Volumes(window);
    var meanVol := Mean(volumes);
    var rets := WindowReturns(window);
    var meanReturn := Mean(rets);
    var cov := ReturnVolumeCovariance(rets, meanReturn, candles, meanVol, |rets|);
    Div(cov, sqrt(SquaredDeviations(rets, meanReturn) * SquaredDeviations(volumes, meanVol)))
  }

  /** What `computeVolumeAnalysis` returns for at least two candles.  For a
      non-negative last volume the delta is always aligned with the price
      change. */
  function VolumeAnalysisAt(candles: seq<CandleEntry>, currentPrice: real, lookback: nat, sqrt: real -> real): (r: VolumeAnalysis)
    requires |candles| >= 2
    ensures r.totalVolume == candles[|candles| - 1].volume
    ensures r.buyVolume + r.sellVolume == r.totalVolume
    ensures candles[|candles| - 1].close <= candles[|candles| - 2].close ==> r.buyVolume == r.totalVolume * 0.4
    ensures candles[|candles| - 1].close > candles[|candles| - 2].close && r.totalVolume >= 0.0 ==>
              r.totalVolume * 0.5 <= r.buyVolume <= r.totalVolume
    ensures r.totalVolume >= 0.0 ==> r.deltaAlignment
    ensures r.spikeFlag <==> Abs(r.zScore) > 1.0
  {
    var last := candles[|candles| - 1];
    var deltaPrice := last.close - candles[|candles| - 2].close;
    var totalVolume := last.volume;
    var deltaRatio := if deltaPrice == 0.0 then 0.0 else Div(deltaPrice, last.close);
    var buyVolume := BuyVolume(totalVolume, deltaPrice, deltaRatio);
    var deltaVolume := buyVolume - (totalVolume - buyVolume);
    DeltaFollowsPrice(totalVolume, deltaPrice, deltaRatio);
    var deltaAlignment := deltaPrice * deltaVolume >= 0.0;
    assert totalVolume >= 0.0 ==> deltaAlignment;
    var window := LastN(candles, lookback);
    var zScore := VolumeZScore(Volumes(window), last.volume, sqrt);
    var vwap := (last.high + last.low + last.close) / 3.0;
    VolumeAnalysis(
      totalVolume, buyVolume, totalVolume - buyVolume, deltaVolume, deltaRatio, Mean(Volumes(window)), zScore, Abs(zScore) > 1.0,
      totalVolume / Max(Abs(deltaPrice), 0.000001), deltaAlignment,
      VolumeMomentumCorrelation(window, candles, sqrt), vwap,
      Div(currentPrice - vwap, vwap) * 100.0, WindowPressure(window, candles, |window|))
  }

  /** `computeVolumeAnalysis`: the analysis, or the error it throws with
      fewer than two candles. */
  function VolumeAnalysisOf(candles: seq<CandleEntry>, currentPrice: real, lookback: nat, sqrt: real -> real): (r: Result<VolumeAnalysis>)
    ensures r.Failure? <==> |candles| < 2
  {
    if |candles| < 2 then Failure("Insufficient candles") else Success(VolumeAnalysisAt(candles, currentPrice, lookback, sqrt))
  }

  /** A window of one volume throughout has no spread: its z-score is 0 and
      it flags no spike. */
  lemma ConstantVolumeNoSpike(candles: seq<CandleEntry>, currentPrice: real, lookback: nat, sqrt: real -> real, v: real)
    requires |candles| >= 2 && sqrt(0.0) == 0.0
    requires forall i :: 0 <= i < |LastN(candles, lookback)| ==> LastN(candles, lookback)[i].volume == v
    ensures VolumeAnalysisAt(candles, currentPrice, lookback, sqrt).zScore == 0.0
    ensures !VolumeAnalysisAt(candles, currentPrice, lookback, sqrt).spikeFlag
  {
    VarianceOfConstant(Volumes(LastN(candles, lookback)), v);
  }

  /** When the window is the whole list the pressure is the true
      volume-weighted cumulative delta. */
  lemma {:induction false} WholeWindowPressure(candles: seq<CandleEntry>, n: nat)
    requires n <= |candles|
    ensures WindowPressure(candles, candles, n) == CumulativeDelta(candles, n)
  {
    if n > 1 {
      WholeWindowPressure(candles, n - 1);
    }
  }

  /** A shorter window reads the wrong previous close: with closes 1, 2, 10
      and unit volumes, a two-candle window weighs 10 - 1 instead of
      10 - 2. */
  lemma ShortWindowPressureOffset(a: CandleEntry, b: CandleEntry, c: CandleEntry)
    requires a.close == 1.0 && b.close == 2.0 && c.close == 10.0 && c.volume == 1.0
    ensures WindowPressure([b, c], [a, b, c], 2) == 9.0
    ensures CumulativeDelta([b, c], 2) == 8.0
  {
  }
  // ---------------------------------------------------------------------
  // calculateATR

  /** The largest of the candle's range and its gaps to the previous close. */
  function TrueRange(c: CandleEntry, prev: CandleEntry): (r: real)
    ensures r >= 0.0 && r >= c.high - c.low
  {
    Max(Max(c.high - c.low, Abs(c.high - prev.close)), Abs(c.low - prev.close))
  }

  /** The true ranges of candles 1 .. n-1 of `cs`. */
  function TrueRanges(cs: seq<CandleEntry>, n: nat): (r: seq<real>)
    requires n <= |cs|
    ensures |r| == if n == 0 then 0 else n - 1
    ensures forall i :: 0 <= i < |r| ==> r[i] >= 0.0
  {
    if n <= 1 then [] else TrueRanges(cs, n - 1) + [TrueRange(cs[n - 1], cs[n - 2])]
  }

  /** Mean of the last `period` true ranges (all of them for 0); 0 with
      fewer than `period + 1` candles. */
  function Atr(cs: seq<CandleEntry>, period: nat): (r: real)
    ensures r >= 0.0
    ensures |cs| < period + 1 ==> r == 0.0
  {
    if |cs| < period + 1 then 0.0
    else
      var atrSlice := LastN(TrueRanges(cs, |cs|), period);
      assert forall i :: 0 <= i < |atrSlice| ==> atrSlice[i] == TrueRanges(cs, |cs|)[|TrueRanges(cs, |cs|)| - |atrSlice| + i];
      MeanNonNegative(atrSlice);
      Mean(atrSlice)
  }

  /** `calculateATR`, with its loop collecting the true ranges. */
  method CalculateATR(candlesList: seq<CandleEntry>, period: nat) returns (atr: real)
    ensures atr == Atr(candlesList, period)
  {
    if |candlesList| < period + 1 {
      return 0.0;
    }
    var trs: seq<real> := [];
    for i := 1 to |candlesList|
      invariant trs == TrueRanges(candlesList, i)
    {
      var c := candlesList[i];
      var prev := candlesList[i - 1];
      var tr := Max(Max(c.high - c.low, Abs(c.high - prev.close)), Abs(c.low - prev.close));
      trs := trs + [tr];
    }
    var atrSlice := LastN(trs, period);
    atr := Mean(atrSlice);
  }

  /** Candles whose wicks enclose their bodies and lie within [lo, hi]. */
  predicate WithinSpan(cs: seq<CandleEntry>, lo: real, hi: real)
  {
    forall i :: 0 <= i < |cs| ==> WellFormed(cs[i]) && lo <= cs[i].low && cs[i].high <= hi
  }

  /** Every true range of such candles is at most the span. */
  lemma {:induction false} TrueRangesWithinSpan(cs: seq<CandleEntry>, n: nat, lo: real, hi: real)
    requires n <= |cs| && WithinSpan(cs, lo, hi)
    ensures forall i :: 0 <= i < |TrueRanges(cs, n)| ==> TrueRanges(cs, n)[i] <= hi - lo
  {
    if n > 1 {
      TrueRangesWithinSpan(cs, n - 1, lo, hi);
      assert WellFormed(cs[n - 1]) && WellFormed(cs[n - 2]);
    }
  }

  /** The ATR of candles within a span is at most the span. */
  lemma AtrWithinSpan(cs: seq<CandleEntry>, period: nat, lo: real, hi: real)
    requires |cs| > 0 && WithinSpan(cs, lo, hi)
    ensures Atr(cs, period) <= hi - lo
  {
    assert WellFormed(cs[0]) && lo <= cs[0].low && cs[0].high <= hi;
    if |cs| >= period + 1 {
      var trs := TrueRanges(cs, |cs|);
      TrueRangesWithinSpan(cs, |cs|, lo, hi);
      var atrSlice := LastN(trs, period);
      LastNAtMost(trs, period, hi - lo);
      assert Atr(cs, period) == Mean(atrSlice);
      if |atrSlice| > 0 {
        MeanAtMost(atrSlice, hi - lo);
      }
    }
  }

  /** A bound on every element bounds every element of a suffix. */
  lemma LastNAtMost(xs: seq<real>, n: nat, bound: real)
    requires forall i :: 0 <= i < |xs| ==> xs[i] <= bound
    ensures forall i :: 0 <= i < |LastN(xs, n)| ==> LastN(xs, n)[i] <= bound
  {
    var r := LastN(xs, n);
    forall i | 0 <= i < |r|
      ensures r[i] <= bound
    {
      assert r[i] == xs[|xs| - |r| + i];
    }
  }

  // ---------------------------------------------------------------------
  // computeSupportResistance

  datatype SupportResistance = SupportResistance(support: PriceZone, resistance: PriceZone)

  const NoZones: SupportResistance := SupportResistance(PriceZone(0.0, 0.0, 0.0), PriceZone(0.0, 0.0, 0.0))

  /** The up to `windowLength` candles before the last one. */
  function SrWindow(candlesList: seq<CandleEntry>, windowLength: nat): (w: seq<CandleEntry>)
    ensures |candlesList| > 0 && windowLength > 0 ==> |w| > 0 || |candlesList| == 1
    ensures |w| <= windowLength
  {
    var window := if windowLength < |candlesList| then windowLength else |candlesList|;
    Slice(candlesList, -(window as int) - 1, -1)
  }

  /** Half the ATR of the window, or 2.5% of its span when the ATR is not
      positive. */
  function ZoneBuffer(recent: seq<CandleEntry>, swingLow: real, swingHigh: real): (b: real)
    ensures b >= 0.0
  {
    var atr0 := Atr(recent, 14);
    var atr := if atr0 <= 0.0 then (swingHigh - swingLow) * 0.05 else atr0;
    Abs(atr * 0.5)
  }

  /** `computeSupportResistance`: zones of one buffer around the lowest low
      and the highest high of the window before the last candle, clamped at
      0, with an overlap split at its middle; all zeros without a window. */
  function SupportResistanceOf(candlesList: seq<CandleEntry>, windowLength: nat): (r: SupportResistance)
    ensures r.support.lower >= 0.0 && r.support.upper >= 0.0 && r.resistance.lower >= 0.0 && r.resistance.upper >= 0.0
    ensures r.support.upper <= r.resistance.lower
    ensures r.support.mid == 0.0 && r.resistance.mid == 0.0
    ensures |SrWindow(candlesList, windowLength)| == 0 ==> r == NoZones
  {
    if |candlesList| == 0 then NoZones
    else
      var recentCandles := SrWindow(candlesList, windowLength);
      if |recentCandles| == 0 then NoZones
      else
        var swingLow := SeqMin(Lows(recentCandles));
        var swingHigh := SeqMax(Highs(recentCandles));
        var zoneBuffer := ZoneBuffer(recentCandles, swingLow, swingHigh);
        var supportLower := Max(0.0, swingLow - zoneBuffer);
        var supportUpper := Max(0.0, swingLow + zoneBuffer);
        var resistanceLower := Max(0.0, swingHigh - zoneBuffer);
        var resistanceUpper := Max(0.0, swingHigh + zoneBuffer);
        if supportUpper > resistanceLower then
          var mid := (supportUpper + resistanceLower) / 2.0;
          SupportResistance(PriceZone(supportLower, 0.0, mid * 0.99), PriceZone(mid * 1.01, 0.0, resistanceUpper))
        else
          SupportResistance(PriceZone(supportLower, 0.0, supportUpper), PriceZone(resistanceLower, 0.0, resistanceUpper))
  }

  /** For candles whose wicks enclose their bodies the overlap split never
      happens: each zone is ordered and the support lies below the
      resistance. */
  lemma WellFormedZonesAreOrdered(candlesList: seq<CandleEntry>, windowLength: nat)
    requires forall i :: 0 <= i < |SrWindow(candlesList, windowLength)| ==> WellFormed(SrWindow(candlesList, windowLength)[i])
    ensures var r := SupportResistanceOf(candlesList, windowLength);
      r.support.lower <= r.support.upper <= r.resistance.lower <= r.resistance.upper
  {
    var recent := SrWindow(candlesList, windowLength);
    if |candlesList| > 0 && |recent| > 0 {
      var swingLow := SeqMin(Lows(recent));
      var swingHigh := SeqMax(Highs(recent));
      assert Lows(recent)[0] == recent[0].low && Highs(recent)[0] == recent[0].high;
      assert WellFormed(recent[0]);
      assert swingLow <= swingHigh;
      assert WithinSpan(recent, swingLow, swingHigh) by {
        forall i | 0 <= i < |recent|
          ensures WellFormed(recent[i]) && swingLow <= recent[i].low && recent[i].high <= swingHigh
        {
          assert Lows(recent)[i] == recent[i].low && Highs(recent)[i] == recent[i].high;
        }
      }
      AtrWithinSpan(recent, 14, swingLow, swingHigh);
      var buffer := ZoneBuffer(recent, swingLow, swingHigh);
      assert buffer * 2.0 <= swingHigh - swingLow;
    }
  }

  /** The zones ignore the last candle: lists that differ only there get
      the same zones. */
  lemma ZonesIgnoreLastCandle(a: seq<CandleEntry>, b: seq<CandleEntry>, windowLength: nat)
    requires |a| == |b| > 0 && a[..|a| - 1] == b[..|b| - 1]
    ensures SupportResistanceOf(a, windowLength) == SupportResistanceOf(b, windowLength)
  {
    SrWindowIgnoresLastCandle(a, b, windowLength);
  }

  /** The window before the last candle does not contain it. */
  lemma SrWindowIgnoresLastCandle(a: seq<CandleEntry>, b: seq<CandleEntry>, windowLength: nat)
    requires |a| == |b| > 0 && a[..|a| - 1] == b[..|b| - 1]
    ensures SrWindow(a, windowLength) == SrWindow(b, windowLength)
  {
    var window := if windowLength < |a| then windowLength else |a|;
    var lo := SliceIndex(|a|, -(window as int) - 1);
    var hi := SliceIndex(|a|, -1);
    if lo < hi {
      assert a[lo..hi] == a[..|a| - 1][lo..hi];
      assert b[lo..hi] == b[..|b| - 1][lo..hi];
    }
  }

  // ---------------------------------------------------------------------
  // initializePastCandlesSupportResistance

  /** Candle `c` with the zones `sr` and the breakthrough flags its close
      gives against them. */
  function AnnotateWith(c: CandleEntry, sr: SupportResistance): (a: CandleEntry)
    ensures a.(support := c.support, resistance := c.resistance,
               breakthroughResistance := c.breakthroughResistance, breakthroughSupport := c.breakthroughSupport) == c
  {
    c.(support := Some(PriceZone(sr.support.lower, 0.0, sr.support.upper)),
       resistance := Some(PriceZone(sr.resistance.lower, 0.0, sr.resistance.upper)),
       breakthroughResistance := c.close > sr.resistance.upper,
       breakthroughSupport := c.close < sr.support.lower)
  }

  /** Candle `c` with the zones of its history (the candles up to and
      including it) and its breakthrough flags set. */
  function Annotate(c: CandleEntry, history: seq<CandleEntry>, srPeriod: nat): (a: CandleEntry)
    ensures a.(support := c.support, resistance := c.resistance,
               breakthroughResistance := c.breakthroughResistance, breakthroughSupport := c.breakthroughSupport) == c
    ensures a.support.Some? && a.resistance.Some?
    ensures a.support.value.upper <= a.resistance.value.lower
  {
    AnnotateWith(c, SupportResistanceOf(history, srPeriod))
  }

  /** A candle whose history is well formed never breaks through both zones
      at once. */
  lemma BreakthroughsExclusive(c: CandleEntry, history: seq<CandleEntry>, srPeriod: nat)
    requires forall i :: 0 <= i < |SrWindow(history, srPeriod)| ==> WellFormed(SrWindow(history, srPeriod)[i])
    ensures !(Annotate(c, history, srPeriod).breakthroughResistance && Annotate(c, history, srPeriod).breakthroughSupport)
  {
    WellFormedZonesAreOrdered(history, srPeriod);
  }

  /** An annotation reads only the candle's close and the candles before it. */
  lemma AnnotationUsesOnlyThePast(c: CandleEntry, d: CandleEntry, h1: seq<CandleEntry>, h2: seq<CandleEntry>, srPeriod: nat)
    requires |h1| == |h2| > 0 && h1[..|h1| - 1] == h2[..|h2| - 1] && c.close == d.close
    ensures Annotate(c, h1, srPeriod).support == Annotate(d, h2, srPeriod).support
    ensures Annotate(c, h1, srPeriod).resistance == Annotate(d, h2, srPeriod).resistance
    ensures Annotate(c, h1, srPeriod).breakthroughResistance == Annotate(d, h2, srPeriod).breakthroughResistance
    ensures Annotate(c, h1, srPeriod).breakthroughSupport == Annotate(d, h2, srPeriod).breakthroughSupport
  {
    ZonesIgnoreLastCandle(h1, h2, srPeriod);
  }

  /** `cur` is `orig` with every candle from index `from` up to, but not
      including, the last one annotated from the candles up to it. */
  predicate AnnotatedFrom(cur: seq<CandleEntry>, orig: seq<CandleEntry>, from: int, srPeriod: nat)
  {
    |cur| == |orig| &&
    forall k :: 0 <= k < |cur| ==>
      cur[k] == if from <= k < |cur| - 1 then Annotate(orig[k], orig[..k + 1], srPeriod) else orig[k]
  }

  /** Entry `k` of `zones` holds the zones of the candles of `orig` up to and
      including candle `k`. */
  predicate ZonesAgree(zones: seq<SupportResistance>, orig: seq<CandleEntry>, srPeriod: nat, k: int)
  {
    0 <= k < |zones| == |orig| && zones[k] == SupportResistanceOf(orig[..k + 1], srPeriod)
  }

  /** The zones of every prefix of `orig`, one entry per candle. */
  lemma {:induction false} PrefixZones(orig: seq<CandleEntry>, srPeriod: nat) returns (zones: seq<SupportResistance>)
    ensures |zones| == |orig|
    ensures forall k :: 0 <= k < |orig| ==> ZonesAgree(zones, orig, srPeriod, k)
  {
    if |orig| == 0 {
      zones := [];
    } else {
      var init := orig[..|orig| - 1];
      var earlier := PrefixZones(init, srPeriod);
      zones := earlier + [SupportResistanceOf(orig, srPeriod)];
      forall k | 0 <= k < |orig|
        ensures ZonesAgree(zones, orig, srPeriod, k)
      {
        if k < |init| {
          assert ZonesAgree(earlier, init, srPeriod, k);
          assert init[..k + 1] == orig[..k + 1];
        } else {
          assert orig[..k + 1] == orig;
        }
      }
    }
  }

  /** `orig` with the candles from `from` up to the last one annotated with
      their entries of `zones`, one at a time from the top down, as the loop
      of the source does. */
  function AnnotatedSeq(orig: seq<CandleEntry>, zones: seq<SupportResistance>, from: nat): (r: seq<CandleEntry>)
    requires |zones| == |orig|
    ensures |r| == |orig|
    decreases |orig| - from
  {
    if from + 1 >= |orig| then orig
    else AnnotatedSeq(orig, zones, from + 1)[from := AnnotateWith(orig[from], zones[from])]
  }

  /** The candles before `from` are never touched. */
  lemma {:induction false} AnnotatedSeqPrefix(orig: seq<CandleEntry>, zones: seq<SupportResistance>, from: nat)
    requires |zones| == |orig|
    ensures from <= |orig| ==> AnnotatedSeq(orig, zones, from)[..from] == orig[..from]
    decreases |orig| - from
  {
    if from + 1 < |orig| {
      AnnotatedSeqPrefix(orig, zones, from + 1);
      var r := AnnotatedSeq(orig, zones, from + 1);
      assert r[..from] == r[..from + 1][..from];
      assert orig[..from] == orig[..from + 1][..from];
    }
  }

  /** Candle `k` of the sequence the loop builds. */
  lemma {:induction false} AnnotatedSeqAt(orig: seq<CandleEntry>, zones: seq<SupportResistance>, from: nat, k: nat)
    requires |zones| == |orig| && k < |orig|
    ensures AnnotatedSeq(orig, zones, from)[k] == if from <= k < |orig| - 1 then AnnotateWith(orig[k], zones[k]) else orig[k]
    decreases |orig| - from
  {
    if from + 1 < |orig| && k != from {
      AnnotatedSeqAt(orig, zones, from + 1, k);
    }
  }

  /** With the zones of the prefixes, the sequence the loop builds is the
      one the specification describes: every candle from `from` up to, but
      not including, the last annotated from the candles up to it. */
  lemma AnnotatedSeqIsAnnotatedFrom(orig: seq<CandleEntry>, zones: seq<SupportResistance>, from: nat, srPeriod: nat)
    requires |zones| == |orig|
    requires forall k :: 0 <= k < |orig| ==> ZonesAgree(zones, orig, srPeriod, k)
    ensures AnnotatedFrom(AnnotatedSeq(orig, zones, from), orig, from, srPeriod)
  {
    var r := AnnotatedSeq(orig, zones, from);
    forall k | 0 <= k < |r|
      ensures r[k] == if from <= k < |r| - 1 then Annotate(orig[k], orig[..k + 1], srPeriod) else orig[k]
    {
      AnnotatedSeqAt(orig, zones, from, k);
      assert ZonesAgree(zones, orig, srPeriod, k);
    }
  }

  /** Nothing is annotated from the last candle on. */
  lemma AnnotatedSeqUntouched(orig: seq<CandleEntry>, zones: seq<SupportResistance>, from: nat)
    requires |zones| == |orig| && from + 1 >= |orig|
    ensures AnnotatedSeq(orig, zones, from) == orig
  {
  }

  lemma AnnotatedSeqSameStart(orig: seq<CandleEntry>, zones: seq<SupportResistance>, from: nat, from': nat)
    requires |zones| == |orig| && from == from'
    ensures AnnotatedSeq(orig, zones, from) == AnnotatedSeq(orig, zones, from')
  {
  }

  /** `initializePastCandlesSupportResistance`: annotates, in place, the
      `initSRLength` candles before the last one, each from the candles up to
      it.  It writes to index `length - 1 - initSRLength`, which must exist. */
  method InitializePastCandlesSupportResistance(candles: array<CandleEntry>, initSRLength: int, srPeriod: nat)
    requires initSRLength < candles.Length
    modifies candles
    ensures AnnotatedFrom(candles[..], old(candles[..]), candles.Length - 1 - initSRLength, srPeriod)
  {
    ghost var orig := candles[..];
    ghost var zones := PrefixZones(orig, srPeriod);
    ghost var from: int := candles.Length - 1;
    if candles.Length > 0 {
      AnnotatedSeqUntouched(orig, zones, from);
    }
    var i := 1;
    while i <= initSRLength
      invariant 1 <= i <= (if initSRLength < 1 then 1 else initSRLength + 1)
      invariant from == candles.Length - i
      invariant candles.Length > 0 ==> candles[..] == AnnotatedSeq(orig, zones, from)
    {
      var candleIndex := (candles.Length - 1) - i;
      AnnotateNext(candles, orig, zones, from, candleIndex, srPeriod);
      from := candleIndex;
      i := i + 1;
    }
    LoopEndsAtLastIndex(candles[..], orig, zones, from, initSRLength, candles.Length - 1 - initSRLength);
    AnnotatedSeqIsAnnotatedFrom(orig, zones, candles.Length - 1 - initSRLength, srPeriod);
  }

  /** Where the loop of `initializePastCandlesSupportResistance` stops, the
      candles are those of the specification. */
  lemma LoopEndsAtLastIndex(cur: seq<CandleEntry>, orig: seq<CandleEntry>, zones: seq<SupportResistance>,
                            from: int, initSRLength: int, last: nat)
    requires initSRLength < |orig| == |cur| == |zones| && last == |orig| - 1 - initSRLength
    requires from == |orig| - (if initSRLength < 1 then 1 else initSRLength + 1)
    requires |orig| > 0 ==> cur == AnnotatedSeq(orig, zones, from)
    ensures cur == AnnotatedSeq(orig, zones, last)
  {
    if |orig| == 0 {
      assert cur == orig;
      AnnotatedSeqUntouched(orig, zones, last);
    } else if initSRLength < 1 {
      AnnotatedSeqUntouched(orig, zones, from);
      AnnotatedSeqUntouched(orig, zones, last);
    } else {
      AnnotatedSeqSameStart(orig, zones, from, last);
    }
  }

  /** One turn of the loop of `initializePastCandlesSupportResistance`: the
      candles from `candleIndex + 1 == from` on are already annotated. */
  method AnnotateNext(candles: array<CandleEntry>, ghost orig: seq<CandleEntry>, ghost zones: seq<SupportResistance>,
                      ghost from: nat, candleIndex: nat, srPeriod: nat)
    requires candleIndex + 1 == from < candles.Length == |orig|
    requires ZonesAgree(zones, orig, srPeriod, candleIndex)
    requires candles[..] == AnnotatedSeq(orig, zones, from)
    modifies candles
    ensures candles[..] == AnnotatedSeq(orig, zones, candleIndex)
  {
    ghost var before := candles[..];
    ghost var a := AnnotateWith(orig[candleIndex], zones[candleIndex]);
    assert AnnotatedSeq(orig, zones, candleIndex) == before[candleIndex := a];
    AnnotatedSeqPrefix(orig, zones, from);
    assert before[..candleIndex + 1] == orig[..candleIndex + 1];
    assert before[candleIndex] == before[..candleIndex + 1][candleIndex];
    assert Annotate(before[candleIndex], before[..candleIndex + 1], srPeriod) == a;
    AnnotatePastCandle(candles, candleIndex, srPeriod);
    assert candles[..] == before[candleIndex := a];
  }

  /** Candle `candleIndex` annotated in place from the candles up to it. */
  method AnnotatePastCandle(candles: array<CandleEntry>, candleIndex: nat, srPeriod: nat)
    requires candleIndex < candles.Length
    modifies candles
    ensures var before := old(candles[..]);
      candles[..] == before[candleIndex := Annotate(before[candleIndex], before[..candleIndex + 1], srPeriod)]
  {
    var history := candles[..candleIndex + 1];
    var sr := SupportResistanceOf(history, srPeriod);
    var candle := candles[candleIndex];
    candles[candleIndex] := candle.(support := Some(PriceZone(sr.support.lower, 0.0, sr.support.upper)),
                                    resistance := Some(PriceZone(sr.resistance.lower, 0.0, sr.resistance.upper)),
                                    breakthroughResistance := candle.close > sr.resistance.upper,
                                    breakthroughSupport := candle.close < sr.support.lower);
  }

  // ---------------------------------------------------------------------
  // detectOverboughtOversold

  /** One weighted component of the overbought/oversold score with the
      signals it reports. */
  datatype Scored = Scored(value: real, signals: seq<Signal>)

  /** Deviation from the VWAP: +-40, +-25 or +-12 above 1, 0.5 and 0.2 percent,
      positive exactly when the price is above the VWAP. */
  function VwapComponent(vwapDeviationPercent: real): (r: Scored)
    ensures -40.0 <= r.value <= 40.0
    ensures r.value > 0.0 <==> vwapDeviationPercent > 0.2
    ensures r.value < 0.0 <==> vwapDeviationPercent < -0.2
    ensures r.value > 0.0 ==> r.value >= 12.0
    ensures |r.signals| == if Abs(vwapDeviationPercent) > 0.2 then 1 else 0
  {
    var vwapDeviation := Abs(vwapDeviationPercent);
    if vwapDeviation > 1.0 then
      Scored(if vwapDeviationPercent > 0.0 then 40.0 else -40.0, [ExtremeVwapDeviation])
    else if vwapDeviation > 0.5 then
      Scored(if vwapDeviationPercent > 0.0 then 25.0 else -25.0, [NotableVwapDeviation])
    else if vwapDeviation > 0.2 then
      Scored(if vwapDeviationPercent > 0.0 then 12.0 else -12.0, [MinorVwapDeviation])
    else Scored(0.0, [])
  }

  /** Volume/momentum correlation: a divergence works against the VWAP
      component, an alignment reinforces it; exactly one signal always. */
  function VolumeMomentumComponent(corrVolumeMomentum: real, vwapComponent: real): (r: Scored)
    ensures |r.signals| == 1
    ensures r.signals[0] == VolumeMomentumUncorrelated <==> -0.3 <= corrVolumeMomentum <= 0.3
    ensures r.value == 0.0 <==> -0.3 <= corrVolumeMomentum <= 0.3
    ensures corrVolumeMomentum < -0.3 ==> r.value * vwapComponent <= 0.0
    ensures corrVolumeMomentum > 0.3 ==> r.value * vwapComponent >= 0.0
    ensures vwapComponent > 0.0 ==> -30.0 <= r.value <= 20.0
    ensures vwapComponent <= 0.0 ==> -20.0 <= r.value <= 30.0
  {
    if corrVolumeMomentum < -0.3 then
      Scored(if vwapComponent > 0.0 then -30.0 else 30.0, [VolumeMomentumDivergence])
    else if corrVolumeMomentum > 0.3 then
      Scored(if vwapComponent > 0.0 then 20.0 else -20.0, [VolumeMomentumAlignment])
    else Scored(0.0, [VolumeMomentumUncorrelated])
  }

  /** Momentum z-score: +-35 beyond 2.5, +-20 beyond 1.5, else +-10 on a
      volume spike; its sign follows the z-score. */
  function MomentumComponent(zScore: real, spikeFlag: bool): (r: Scored)
    ensures -35.0 <= r.value <= 35.0
    ensures r.value > 0.0 ==> zScore > 0.0
    ensures r.value < 0.0 ==> zScore <= 0.0
    ensures r.value != 0.0 <==> Abs(zScore) > 1.5 || spikeFlag
    ensures |r.signals| == if r.value != 0.0 then 1 else 0
  {
    if Abs(zScore) > 2.5 then
      Scored(if zScore > 0.0 then 35.0 else -35.0, [ExtremeMomentumSpike])
    else if Abs(zScore) > 1.5 then
      Scored(if zScore > 0.0 then 20.0 else -20.0, [NotableMomentum])
    else if spikeFlag then
      Scored(if zScore > 0.0 then 10.0 else -10.0, [ModerateVolumeSpike])
    else Scored(0.0, [])
  }

  /** Delta alignment: a misalignment (15) works against the VWAP component,
      an alignment adds 5 without a signal. */
  function AlignmentComponent(deltaAlignment: bool, vwapComponent: real): (r: Scored)
    ensures |r.signals| == if deltaAlignment then 0 else 1
    ensures !deltaAlignment ==> r.value * vwapComponent <= 0.0 && Abs(r.value) == 15.0
    ensures vwapComponent > 0.0 ==> -15.0 <= r.value <= 5.0
    ensures vwapComponent <= 0.0 ==> 5.0 <= r.value <= 15.0
  {
    if !deltaAlignment then
      Scored(if vwapComponent > 0.0 then -15.0 else 15.0, [DeltaMisalignment])
    else Scored(5.0, [])
  }

  /** `k / n` for `0.75 n < k <= n`. */
  lemma FractionAboveThreeQuarters(k: real, n: real)
    requires n > 0.0 && 0.75 * n < k <= n
    ensures 0.75 < k / n <= 1.0
  {
    DivMonotone(k, n, n);
    if k / n <= 0.75 {
      assert (k / n) * n == k;
      MulMonotone(k / n, 0.75, n);
    }
  }

  /** Trend exhaustion over the last `lookback` candles.  A bullish run needs
      more than 75% up candles, so `min(30, share * 50)` is always 30, while
      a bearish run scores `-(share * 50)`, between -50 and -37.5. */
  function ExhaustionComponent(candles: seq<CandleEntry>, lookback: nat): (r: Scored)
    requires lookback > 0
    ensures r.value == 0.0 || r.value == 30.0 || -50.0 <= r.value < -37.5
    ensures |r.signals| == if r.value == 0.0 then 0 else 1
    ensures r.value == 30.0 <==> BullCount(LastN(candles, lookback), |LastN(candles, lookback)|) as real > lookback as real * 0.75
  {
    var recentCandles := LastN(candles, lookback);
    var bullishCandles := BullCount(recentCandles, |recentCandles|) as real;
    var bearishCandles := BearCount(recentCandles, |recentCandles|) as real;
    var n := lookback as real;
    if bullishCandles > n * 0.75 then
      FractionAboveThreeQuarters(bullishCandles, n);
      Scored(Min(30.0, (bullishCandles / n) * 50.0), [BullishExhaustion])
    else if bearishCandles > n * 0.75 then
      FractionAboveThreeQuarters(bearishCandles, n);
      Scored(Min(-30.0, -(bearishCandles / n) * 50.0), [BearishExhaustion])
    else Scored(0.0, [])
  }

  /** Volatility: a quiet market after an extreme VWAP move works against
      it (10); a volatile one adds 5 without a signal. */
  function VolatilityComponent(volatilityScore: real, vwapComponent: real): (r: Scored)
    ensures |r.signals| == if volatilityScore < 0.2 && Abs(vwapComponent) > 20.0 then 1 else 0
    ensures r.value * vwapComponent <= 0.0 || r.value == 5.0
    ensures vwapComponent > 0.0 ==> -10.0 <= r.value <= 5.0
    ensures vwapComponent <= 0.0 ==> 0.0 <= r.value <= 10.0
  {
    if volatilityScore < 0.2 && Abs(vwapComponent) > 20.0 then
      Scored(if vwapComponent > 0.0 then -10.0 else 10.0, [LowVolatilityAfterExtreme])
    else if volatilityScore > 0.8 then Scored(5.0, [])
    else Scored(0.0, [])
  }

  /** The level names the source classifies a score into. */
  function ExtremeLevel(score: real): (level: string)
    ensures level == "extreme_overbought" <==> score > 60.0
    ensures level == "overbought" <==> 30.0 < score <= 60.0
    ensures level == "neutral" <==> -30.0 < score <= 30.0
    ensures level == "oversold" <==> -60.0 < score <= -30.0
    ensures level == "extreme_oversold" <==> score <= -60.0
  {
    if score > 60.0 then "extreme_overbought"
    else if score > 30.0 then "overbought"
    else if score > -30.0 && score <= 30.0 then "neutral"
    else if score > -60.0 then "oversold"
    else "extreme_oversold"
  }

  /** The weighted sum of the six components, clamped to [-100, 100].  The
      weights and the components' ranges keep it within [-27.75, 26.5]. */
  function OverboughtScore(vwap: Scored, volumeMomentum: Scored, momentum: Scored,
                           alignment: Scored, exhaustion: Scored, volatility: Scored): (score: real)
    requires -40.0 <= vwap.value <= 40.0 && (vwap.value > 0.0 ==> vwap.value >= 12.0)
    requires vwap.value > 0.0 ==> -30.0 <= volumeMomentum.value <= 20.0 && -15.0 <= alignment.value <= 5.0 && -10.0 <= volatility.value <= 5.0
    requires vwap.value <= 0.0 ==> -20.0 <= volumeMomentum.value <= 30.0 && 5.0 <= alignment.value <= 15.0 && 0.0 <= volatility.value <= 10.0
    requires -35.0 <= momentum.value <= 35.0
    requires -50.0 <= exhaustion.value <= 30.0
    ensures -27.75 <= score <= 26.5
  {
    var raw := vwap.value * 0.25 + volumeMomentum.value * 0.20 + momentum.value * 0.20
               + alignment.value * 0.15 + exhaustion.value * 0.15 + volatility.value * 0.05;
    Clamp(-100.0, 100.0, raw)
  }

  /** The pullback probability: 60% from the score's size, 25% for an
      uncorrelated volume, 15% for a quiet market, capped at 1. */
  function RejectionProbability(score: real, corrVolumeMomentum: real, volatilityScore: real): (p: real)
    requires -27.75 <= score <= 26.5
    ensures 0.0 <= p <= 0.5665
    ensures Abs(corrVolumeMomentum) < 0.2 ==> p >= 0.25
    ensures volatilityScore < 0.3 ==> p >= 0.15
  {
    var rejectionProbability :=
      Abs(score) / 100.0 * 0.6
      + (if Abs(corrVolumeMomentum) < 0.2 then 0.25 else 0.0)
      + (if volatilityScore < 0.3 then 0.15 else 0.0);
    Min(1.0, rejectionProbability)
  }

  /** One fifth per signal, capped at 1. */
  function SignalConfidence(signalCount: nat): (c: real)
    requires signalCount >= 1
    ensures 0.2 <= c <= 1.0
    ensures signalCount >= 5 <==> c == 1.0
  {
    Min(1.0, signalCount as real / 5.0)
  }

  /** `detectOverboughtOversold`.  The score never reaches 30 in either
      direction, so every level but "neutral" is unreachable, the clamp
      never applies and the rejection probability stays below 0.57. */
  function DetectOverboughtOversold(volumeAnalysis: VolumeAnalysis, zoneAnalysis: ZoneAnalysis,
                                    candles: seq<CandleEntry>, lookback: nat): (r: OverboughtOversoldAnalysis)
    requires lookback > 0
    ensures r.extremeLevel == "neutral"
    ensures -27.75 <= r.score <= 26.5
    ensures 1 <= |r.signals| <= 6
    ensures 0.2 <= r.confidence <= 1.0
    ensures 0.0 <= r.rejectionProbability <= 0.5665
    ensures Abs(volumeAnalysis.corrVolumeMomentum) < 0.2 ==> r.rejectionProbability >= 0.25
  {
    var vwap := VwapComponent(volumeAnalysis.vwapDeviationPercent);
    var volumeMomentum := VolumeMomentumComponent(volumeAnalysis.corrVolumeMomentum, vwap.value);
    var momentum := MomentumComponent(volumeAnalysis.zScore, volumeAnalysis.spikeFlag);
    var alignment := AlignmentComponent(volumeAnalysis.deltaAlignment, vwap.value);
    var exhaustion := ExhaustionComponent(candles, lookback);
    var volatility := VolatilityComponent(zoneAnalysis.volatilityScore, vwap.value);
    var signals := vwap.signals + volumeMomentum.signals + momentum.signals
                   + alignment.signals + exhaustion.signals + volatility.signals;
    var score := OverboughtScore(vwap, volumeMomentum, momentum, alignment, exhaustion, volatility);
    OverboughtOversoldAnalysis(ExtremeLevel(score), score, signals, SignalConfidence(|signals|),
                               RejectionProbability(score, volumeAnalysis.corrVolumeMomentum, zoneAnalysis.volatilityScore))
  }

  // ---------------------------------------------------------------------
  // capturePastReaction

  /** `candle.zoneAnalysis?.momentum || 0`. */
  function ZoneMomentum(c: CandleEntry): real
  {
    match c.analytics
    case None => 0.0
    case Some(a) => a.zoneAnalysis.momentum
  }

  /** Totals over the first `n` of `cs`. */
  function VolumeTotal(cs: seq<CandleEntry>, n: nat): real
    requires n <= |cs|
  {
    if n == 0 then 0.0 else VolumeTotal(cs, n - 1) + cs[n - 1].volume
  }

  function MomentumTotal(cs: seq<CandleEntry>, n: nat): real
    requires n <= |cs|
  {
    if n == 0 then 0.0 else MomentumTotal(cs, n - 1) + ZoneMomentum(cs[n - 1])
  }

  /** The largest of `base` and the highs of the first `n` of `cs`. */
  function HighestFrom(cs: seq<CandleEntry>, n: nat, base: real): (h: real)
    requires n <= |cs|
    ensures h >= base
    ensures forall i :: 0 <= i < n ==> cs[i].high <= h
    ensures h == base || exists i :: 0 <= i < n && cs[i].high == h
  {
    if n == 0 then base else Max(HighestFrom(cs, n - 1, base), cs[n - 1].high)
  }

  /** The smallest of `base` and the lows of the first `n` of `cs`. */
  function LowestFrom(cs: seq<CandleEntry>, n: nat, base: real): (l: real)
    requires n <= |cs|
    ensures l <= base
    ensures forall i :: 0 <= i < n ==> l <= cs[i].low
    ensures l == base || exists i :: 0 <= i < n && cs[i].low == l
  {
    if n == 0 then base else Min(LowestFrom(cs, n - 1, base), cs[n - 1].low)
  }

  /** The up to `lookBackCandles` candles before `currentIndex`. */
  function ReactionWindow(candles: seq<CandleEntry>, currentIndex: nat, lookBackCandles: nat): seq<CandleEntry>
  {
    Slice(candles, if currentIndex >= lookBackCandles then currentIndex - lookBackCandles else 0, currentIndex)
  }

  /** `|a / n| * 100` for `|a| <= n` lies in [0, 100]. */
  lemma ShareOfCount(a: real, n: real)
    ensures 0.0 <= Abs(Div(a, n)) * 100.0
    ensures n > 0.0 && -n <= a <= n ==> Abs(Div(a, n)) * 100.0 <= 100.0
  {
    if n > 0.0 && -n <= a <= n {
      DivMonotone(a, n, n);
      DivMonotone(-n, a, n);
    }
  }

  /** The summary the source builds after its loop over `n` past candles:
      more than one extra up (down) candle makes the direction up (down),
      and the strength is the candle-count imbalance in percent. */
  function ReactionSummary(n: nat, upCount: nat, highestPrice: real, lowestPrice: real,
                           totalVolume: real, totalMomentum: real, baselineVolume: real): (d: ReactionData)
    requires upCount <= n
    ensures 0.0 <= d.strength <= 100.0
    ensures d.highestPrice == highestPrice && d.lowestPrice == lowestPrice
    ensures d.priceRange == highestPrice - lowestPrice
    ensures d.direction == Up <==> 2 * upCount > n + 1
    ensures d.direction == Down <==> 2 * upCount + 1 < n
  {
    var downCount := n - upCount;
    var direction :=
      if upCount > downCount + 1 then Up
      else if downCount > upCount + 1 then Down
      else Mixed;
    var difference := (upCount - downCount) as real;
    ShareOfCount(difference, n as real);
    ReactionData(
      direction,
      Abs(Div(difference, n as real)) * 100.0,
      highestPrice,
      lowestPrice,
      highestPrice - lowestPrice,
      Div(totalMomentum, n as real),
      n > 0 && totalVolume / n as real > baselineVolume)
  }

  /** The reaction measured over `pastCandles` from `current`. */
  function ReactionFrom(pastCandles: seq<CandleEntry>, current: CandleEntry): (d: ReactionData)
    ensures d.lowestPrice <= current.close <= d.highestPrice
    ensures d.priceRange >= 0.0
    ensures 0.0 <= d.strength <= 100.0
    ensures forall i :: 0 <= i < |pastCandles| ==> d.lowestPrice <= pastCandles[i].low && pastCandles[i].high <= d.highestPrice
  {
    var n := |pastCandles|;
    ReactionSummary(n, BullCount(pastCandles, n),
                    HighestFrom(pastCandles, n, current.close), LowestFrom(pastCandles, n, current.close),
                    VolumeTotal(pastCandles, n), MomentumTotal(pastCandles, n), current.volume)
  }

  /** `capturePastReaction`: the reaction of the candles before
      `currentIndex`, or `None` with fewer than `lookBackCandles` of them.
      Reading the current candle throws when it is missing, so the source
      requires it then.  An empty window (`lookBackCandles == 0`) divides by
      zero in the source. */
  function PastReaction(candles: seq<CandleEntry>, currentIndex: nat, lookBackCandles: nat): (r: Option<ReactionData>)
    requires |ReactionWindow(candles, currentIndex, lookBackCandles)| >= lookBackCandles ==> currentIndex < |candles|
    ensures r.Some? <==> |ReactionWindow(candles, currentIndex, lookBackCandles)| >= lookBackCandles
  {
    var pastCandles := ReactionWindow(candles, currentIndex, lookBackCandles);
    if |pastCandles| < lookBackCandles then None
    else Some(ReactionFrom(pastCandles, candles[currentIndex]))
  }

  /** The source's loop over the past candles. */
  method ScanPastCandles(pastCandles: seq<CandleEntry>, baselinePrice: real)
    returns (upCount: nat, downCount: nat, highestPrice: real, lowestPrice: real, totalVolume: real, totalMomentum: real)
    ensures upCount == BullCount(pastCandles, |pastCandles|) && downCount == |pastCandles| - upCount
    ensures highestPrice == HighestFrom(pastCandles, |pastCandles|, baselinePrice)
    ensures lowestPrice == LowestFrom(pastCandles, |pastCandles|, baselinePrice)
    ensures totalVolume == VolumeTotal(pastCandles, |pastCandles|)
    ensures totalMomentum == MomentumTotal(pastCandles, |pastCandles|)
  {
    upCount, downCount := 0, 0;
    highestPrice, lowestPrice := baselinePrice, baselinePrice;
    totalVolume, totalMomentum := 0.0, 0.0;
    for i := 0 to |pastCandles|
      invariant upCount == BullCount(pastCandles, i) && downCount == i - upCount
      invariant highestPrice == HighestFrom(pastCandles, i, baselinePrice)
      invariant lowestPrice == LowestFrom(pastCandles, i, baselinePrice)
      invariant totalVolume == VolumeTotal(pastCandles, i)
      invariant totalMomentum == MomentumTotal(pastCandles, i)
    {
      var candle := pastCandles[i];
      if candle.close > candle.open {
        upCount := upCount + 1;
      } else {
        downCount := downCount + 1;
      }
      highestPrice := Max(highestPrice, candle.high);
      lowestPrice := Min(lowestPrice, candle.low);
      totalVolume := totalVolume + candle.volume;
      totalMomentum := totalMomentum + ZoneMomentum(candle);
    }
  }

  /** `capturePastReaction` as the source computes it. */
  method CapturePastReaction(candles: seq<CandleEntry>, currentIndex: nat, lookBackCandles: nat)
    returns (r: Option<ReactionData>)
    requires |ReactionWindow(candles, currentIndex, lookBackCandles)| >= lookBackCandles ==> currentIndex < |candles|
    ensures r == PastReaction(candles, currentIndex, lookBackCandles)
  {
    var startIndex := if currentIndex >= lookBackCandles then currentIndex - lookBackCandles else 0;
    var pastCandles := Slice(candles, startIndex, currentIndex);
    if |pastCandles| < lookBackCandles {
      return None;
    }
    var currentCandle := candles[currentIndex];
    var baselinePrice := currentCandle.close;
    var baselineVolume := currentCandle.volume;
    var upCount, downCount, highestPrice, lowestPrice, totalVolume, totalMomentum :=
      ScanPastCandles(pastCandles, baselinePrice);
    r := Some(ReactionSummary(|pastCandles|, upCount, highestPrice, lowestPrice, totalVolume, totalMomentum, baselineVolume));
    assert pastCandles == ReactionWindow(candles, currentIndex, lookBackCandles);
  }

  /** With the current candle present, a reaction is captured exactly when
      at least `lookBackCandles` candles precede it. */
  lemma ReactionNeedsFullHistory(candles: seq<CandleEntry>, currentIndex: nat, lookBackCandles: nat)
    requires currentIndex < |candles|
    ensures PastReaction(candles, currentIndex, lookBackCandles).Some? <==> lookBackCandles <= currentIndex
  {
    var w := ReactionWindow(candles, currentIndex, lookBackCandles);
    if lookBackCandles <= currentIndex {
      assert |w| == lookBackCandles;
    } else {
      assert |w| == currentIndex;
    }
  }

  /** A trending direction means a strength of at least 200 / n percent,
      a mixed one at most 100 / n. */
  lemma DirectionMatchesStrength(n: nat, upCount: nat, highestPrice: real, lowestPrice: real,
                                 totalVolume: real, totalMomentum: real, baselineVolume: real)
    requires 0 < n && upCount <= n
    ensures var d := ReactionSummary(n, upCount, highestPrice, lowestPrice, totalVolume, totalMomentum, baselineVolume);
      (d.direction != Mixed ==> d.strength * n as real >= 200.0) && (d.direction == Mixed ==> d.strength * n as real <= 100.0)
  {
    var diff := (upCount - (n - upCount)) as real;
    var q := diff / n as real;
    assert q * n as real == diff;
    assert Abs(q) * n as real == Abs(diff) by {
      if q < 0.0 {
        assert Abs(q) * n as real == -(q * n as real);
      }
    }
    var d := ReactionSummary(n, upCount, highestPrice, lowestPrice, totalVolume, totalMomentum, baselineVolume);
    assert d.strength * n as real == Abs(diff) * 100.0;
  }

  /** The reaction reads nothing after the current candle. */
  lemma ReactionIgnoresLaterCandles(candles: seq<CandleEntry>, later: seq<CandleEntry>, currentIndex: nat, lookBackCandles: nat)
    requires currentIndex < |candles|
    ensures PastReaction(candles + later, currentIndex, lookBackCandles) == PastReaction(candles, currentIndex, lookBackCandles)
  {
    var s := if currentIndex >= lookBackCandles then currentIndex - lookBackCandles else 0;
    assert (candles + later)[s..currentIndex] == candles[s..currentIndex];
    assert ReactionWindow(candles + later, currentIndex, lookBackCandles) == ReactionWindow(candles, currentIndex, lookBackCandles);
    assert (candles + later)[currentIndex] == candles[currentIndex];
  }
}
