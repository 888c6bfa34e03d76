/** The backtest simulator (src/utility/simulationUtility.ts): the position
    state machine `markPositionEntries` over an array of candle entries, and
    the pure helpers beside it. */
module Simulation {
  import opened Wrappers
  import opened Numeric
  import opened Interfaces
  import Pnl
  import PriceZoneEngine
  import CandleAnalyzer

  // ---------------------------------------------------------------------
  // getTrendDirection

  datatype Trend = StrongUptrend | MildUptrend | StrongDowntrend | MildDowntrend | Ranging

  /** `getTrendDirection`: the current change against 1.5 and 0.5 standard
      deviations of the lookback changes, up before down.  An empty lookback
      gives NaN thresholds in the source, so every test fails: ranging. */
  function TrendDirection(lookbackChanges: seq<real>, currentChange: real, sqrt: real -> real): (t: Trend)
    ensures |lookbackChanges| == 0 ==> t == Ranging
    ensures var sd := sqrt(Variance(lookbackChanges));
      && (t == StrongUptrend <==> |lookbackChanges| > 0 && currentChange > sd * 1.5)
      && (t == MildUptrend ==> currentChange > sd * 0.5)
      && (t == StrongDowntrend ==> currentChange < -(sd * 1.5))
      && (t == MildDowntrend ==> currentChange < -(sd * 0.5))
      && (t == Ranging && |lookbackChanges| > 0 && sd >= 0.0 ==> -(sd * 0.5) <= currentChange <= sd * 0.5)
  {
    if |lookbackChanges| == 0 then Ranging
    else
      var stdDev := sqrt(Variance(lookbackChanges));
      var strongThreshold := stdDev * 1.5;
      var mildThreshold := stdDev * 0.5;
      if currentChange > strongThreshold then StrongUptrend
      else if currentChange > mildThreshold then MildUptrend
      else if currentChange < -strongThreshold then StrongDowntrend
      else if currentChange < -mildThreshold then MildDowntrend
      else Ranging
  }

  function Negated(xs: seq<real>): (r: seq<real>)
    ensures |r| == |xs|
  {
    seq(|xs|, i requires 0 <= i < |xs| => -xs[i])
  }

  lemma {:induction false} SumNegated(xs: seq<real>)
    ensures Sum(Negated(xs)) == -Sum(xs)
  {
    if |xs| > 0 {
      assert Negated(xs)[..|xs| - 1] == Negated(xs[..|xs| - 1]);
      SumNegated(xs[..|xs| - 1]);
    }
  }

  lemma {:induction false} SquaredDeviationsNegated(xs: seq<real>, m: real)
    ensures SquaredDeviations(Negated(xs), -m) == SquaredDeviations(xs, m)
  {
    if |xs| > 0 {
      assert Negated(xs)[..|xs| - 1] == Negated(xs[..|xs| - 1]);
      SquaredDeviationsNegated(xs[..|xs| - 1], m);
    }
  }

  /** Negating every change keeps the spread. */
  lemma VarianceNegated(xs: seq<real>)
    ensures Variance(Negated(xs)) == Variance(xs)
  {
    var n := |xs| as real;
    SumNegated(xs);
    var m := Mean(xs);
    assert Mean(Negated(xs)) == -m by {
      if n != 0.0 {
        assert Div(-Sum(xs), n) == -(Sum(xs) / n);
      }
    }
    SquaredDeviationsNegated(xs, m);
    assert SquaredDeviations(Negated(xs), Mean(Negated(xs))) == SquaredDeviations(xs, m);
  }

  function MirrorTrend(t: Trend): Trend
  {
    match t
    case StrongUptrend => StrongDowntrend
    case MildUptrend => MildDowntrend
    case StrongDowntrend => StrongUptrend
    case MildDowntrend => MildUptrend
    case Ranging => Ranging
  }

  /** With a non-negative square root the classification is symmetric:
      mirroring every change mirrors the trend. */
  lemma TrendMirror(lookbackChanges: seq<real>, currentChange: real, sqrt: real -> real)
    requires sqrt(Variance(lookbackChanges)) >= 0.0
    ensures TrendDirection(Negated(lookbackChanges), -currentChange, sqrt)
            == MirrorTrend(TrendDirection(lookbackChanges, currentChange, sqrt))
  {
    VarianceNegated(lookbackChanges);
  }

  // ---------------------------------------------------------------------
  // isNewZonePeriod

  const MsPerMinute: int := 60000

  /** Whole minutes since the epoch (floored, as `Date` does). */
  function MinuteIndex(timestamp: int): int
  {
    timestamp / MsPerMinute
  }

  /** `getUTCHours` and `getMinutes` of a timestamp, for a local zone a
      whole number of hours away from UTC. */
  function UtcHour(timestamp: int): int
  {
    (MinuteIndex(timestamp) / 60) % 24
  }

  function Minute(timestamp: int): int
  {
    MinuteIndex(timestamp) % 60
  }

  /** JavaScript's `%`, which truncates toward zero. */
  function JsRem(a: int, b: int): (r: int)
    requires b > 0
    ensures a >= 0 ==> r == a % b
    ensures -b < r < b
  {
    if a >= 0 then a % b else -((-a) % b)
  }

  /** `isNewZonePeriod(timestamp, timezoneOffset)`: the offset-adjusted hour
      is 0, 6, 12 or 18 and the minute is 0. */
  function IsNewZonePeriod(timestamp: int, timezoneOffset: int): (r: bool)
    ensures r ==> Minute(timestamp) == 0
  {
    var hour := JsRem(UtcHour(timestamp) + timezoneOffset + 24, 24);
    hour in [0, 6, 12, 18] && Minute(timestamp) == 0
  }

  /** For offsets of at least -24 hours, zones start exactly at the local
      minutes that are multiples of six hours. */
  lemma ZoneStartsEverySixHours(timestamp: int, timezoneOffset: int)
    requires timezoneOffset >= -24
    ensures IsNewZonePeriod(timestamp, timezoneOffset) <==> (MinuteIndex(timestamp) + 60 * timezoneOffset) % 360 == 0
  {
    var m := MinuteIndex(timestamp);
    var h := m / 60;
    var k := h + timezoneOffset;
    assert UtcHour(timestamp) == h % 24 && Minute(timestamp) == m % 60;
    ShiftedHour(h, timezoneOffset);
    ModOfMod(k);
    assert m + 60 * timezoneOffset == 60 * k + m % 60;
    SixHourGrid(k, m % 60);
  }

  /** Adding 24 before JavaScript's `%` makes the shifted hour the floored
      remainder of `h + offset`. */
  lemma ShiftedHour(h: int, offset: int)
    requires offset >= -24
    ensures JsRem(h % 24 + offset + 24, 24) == (h + offset) % 24
  {
    var a := h % 24 + offset + 24;
    assert a >= 0;
    assert a == (h + offset) + 24 * (1 - h / 24);
  }

  /** `60 k + r` with a minute `r` is a multiple of 360 exactly when the
      minute is 0 and `k` is a multiple of 6. */
  lemma SixHourGrid(k: int, r: int)
    requires 0 <= r < 60
    ensures (60 * k + r) % 360 == 0 <==> r == 0 && k % 6 == 0
  {
    var x := 60 * k + r;
    if r == 0 && k % 6 == 0 {
      assert x == 360 * (k / 6);
    }
    if x % 360 == 0 {
      var j := x / 360;
      assert r == 60 * (6 * j - k);
      assert r == 0;
      assert k == 6 * j;
    }
  }

  /** `k % 24` is a multiple of 6 exactly when `k` is. */
  lemma ModOfMod(k: int)
    ensures k % 24 in [0, 6, 12, 18] <==> k % 6 == 0
  {
    var q, r := k / 24, k % 24;
    assert k == 6 * (4 * q) + r;
    assert k % 6 == r % 6;
  }

  // ---------------------------------------------------------------------
  // checkProximity

  datatype Proximity = ProximityClose | ProximityFar

  function Ranges(cs: seq<CandleEntry>): (r: seq<real>)
    ensures |r| == |cs|
  {
    seq(|cs|, i requires 0 <= i < |cs| => cs[i].high - cs[i].low)
  }

  /** `checkProximity`: how far the close is from the take-profit bound of
      the zone (upper for "LONG", lower for any other side), in percent of
      the zone height, against a threshold of the average candle range in
      percent of the height clamped to [5, 20].  Without candles the
      threshold is NaN (never close); a flat zone makes the distance an
      infinity, close only when negative and the threshold is not NaN. */
  function CheckProximity(side: string, close: real, upper: real, lower: real, candles: seq<CandleEntry>): (r: Proximity)
    ensures r == ProximityClose ==> |candles| > 0
    ensures var d := if side == "LONG" then upper - close else close - lower;
      |candles| > 0 && upper > lower ==>
        (d <= (upper - lower) * 0.05 ==> r == ProximityClose) && (d > (upper - lower) * 0.2 ==> r == ProximityFar)
  {
    var avgRange := Mean(Ranges(candles));
    var zoneHeight := upper - lower;
    var distance := if side == "LONG" then upper - close else close - lower;
    if |candles| == 0 then ProximityFar
    else if zoneHeight == 0.0 then
      if avgRange != 0.0 && distance < 0.0 then ProximityClose else ProximityFar
    else
      var proximityThreshold := Clamp(5.0, 20.0, avgRange / zoneHeight * 100.0);
      var percentDistance := distance / zoneHeight * 100.0;
      PercentOfHeight(distance, zoneHeight);
      if percentDistance <= proximityThreshold then ProximityClose else ProximityFar
  }

  /** `d / h * 100` against 5 and 20 for a positive height. */
  lemma PercentOfHeight(d: real, h: real)
    ensures h > 0.0 && d <= h * 0.05 ==> d / h * 100.0 <= 5.0
    ensures h > 0.0 && d > h * 0.2 ==> d / h * 100.0 > 20.0
  {
    if h > 0.0 {
      if d <= h * 0.05 {
        DivMonotone(d, h * 0.05, h);
        assert h * 0.05 / h == 0.05;
      }
      if d > h * 0.2 {
        DivMonotone(h * 0.2, d, h);
        assert h * 0.2 / h == 0.2;
        assert d / h > 0.2 by {
          assert (d / h) * h == d;
          if d / h <= 0.2 {
            MulMonotone(d / h, 0.2, h);
          }
        }
      }
    }
  }

  // ---------------------------------------------------------------------
  // checkAtrVolatility

  datatype Volatility = VolatilityNeutral | VolatilityAwake

  /** The candles of the current zone: those with a zone that do not open one. */
  function ZoneCandles(cs: seq<CandleEntry>): (r: seq<CandleEntry>)
    ensures |r| <= |cs|
    ensures forall i :: 0 <= i < |r| ==> r[i].priceZone.Some?
  {
    if |cs| == 0 then []
    else
      var rest := ZoneCandles(cs[..|cs| - 1]);
      var c := cs[|cs| - 1];
      if c.status != "ZONE_START" && c.priceZone.Some? then rest + [c] else rest
  }

  /** The ATRs of the candles that carry candle data. */
  function AtrValues(cs: seq<CandleEntry>): (r: seq<real>)
    ensures |r| <= |cs|
  {
    if |cs| == 0 then []
    else
      var rest := AtrValues(cs[..|cs| - 1]);
      match cs[|cs| - 1].analytics
      case None => rest
      case Some(a) => rest + [a.candleData.atr]
  }

  /** How many of `xs[1..n]` exceed their predecessor. */
  function GreenCount(xs: seq<real>, n: nat): (k: nat)
    requires n <= |xs|
    ensures k <= n && (n > 0 ==> k < n)
  {
    if n <= 1 then 0 else GreenCount(xs, n - 1) + (if xs[n - 1] > xs[n - 2] then 1 else 0)
  }

  /** `(last - first) / first * 100 > 15` and `< -10` in IEEE arithmetic:
      a zero first ATR makes the change an infinity of the sign of `last`
      (NaN when both are zero). */
  predicate AtrExpanding(first: real, last: real)
  {
    if first == 0.0 then last > 0.0 else (last - first) / first * 100.0 > 15.0
  }

  predicate AtrContracting(first: real, last: real)
  {
    if first == 0.0 then last < 0.0 else (last - first) / first * 100.0 < -10.0
  }

  predicate AllClosesIn(cs: seq<CandleEntry>, zone: PriceZone)
  {
    forall i :: 0 <= i < |cs| ==> zone.lower <= cs[i].close <= zone.upper
  }

  /** The decision on at least two zone ATRs: awake when the ATR grew by
      more than 15% and a close left the zone, neutral when it shrank by
      more than 10% and every close stayed inside, and otherwise awake when
      most of the last five ATRs rose. */
  function AtrDecision(atrValues: seq<real>, allPricesInZone: bool): Volatility
    requires |atrValues| >= 2
  {
    var firstAtr := atrValues[0];
    var lastAtr := atrValues[|atrValues| - 1];
    if AtrExpanding(firstAtr, lastAtr) && !allPricesInZone then VolatilityAwake
    else if AtrContracting(firstAtr, lastAtr) && allPricesInZone then VolatilityNeutral
    else
      var recentAtrs := LastN(atrValues, 5);
      if GreenCount(recentAtrs, |recentAtrs|) as real > |recentAtrs| as real / 2.0 then VolatilityAwake
      else VolatilityNeutral
  }

  /** `checkAtrVolatility`: neutral with fewer than two zone candles or two
      ATRs among them; otherwise the ATR decision, with the zone of the last
      zone candle. */
  function CheckAtrVolatility(candles: seq<CandleEntry>): (r: Volatility)
    ensures r == VolatilityAwake ==> |ZoneCandles(candles)| >= 2 && |AtrValues(ZoneCandles(candles))| >= 2
  {
    var zoneCandles := ZoneCandles(candles);
    if |zoneCandles| < 2 then VolatilityNeutral
    else
      var atrValues := AtrValues(zoneCandles);
      if |atrValues| < 2 then VolatilityNeutral
      else
        var priceZone := zoneCandles[|zoneCandles| - 1].priceZone.value;
        AtrDecision(atrValues, AllClosesIn(zoneCandles, priceZone))
  }

  predicate StrictlyIncreasing(xs: seq<real>)
  {
    forall i :: 0 < i < |xs| ==> xs[i - 1] < xs[i]
  }

  lemma {:induction false} GreenCountOfIncreasing(xs: seq<real>, n: nat)
    requires n <= |xs| && StrictlyIncreasing(xs) && n > 0
    ensures GreenCount(xs, n) == n - 1
  {
    if n > 1 {
      GreenCountOfIncreasing(xs, n - 1);
    }
  }

  /** Steadily rising ATRs, at least three of them from a positive start,
      always wake the zone up, wherever the closes are. */
  lemma RisingAtrIsAwake(atrs: seq<real>, allPricesInZone: bool)
    requires |atrs| >= 3 && atrs[0] > 0.0 && StrictlyIncreasing(atrs)
    ensures AtrDecision(atrs, allPricesInZone) == VolatilityAwake
  {
    IncreasingEnds(atrs, |atrs| - 1);
    GrowthIsNotContraction(atrs[0], atrs[|atrs| - 1]);
    var recent := LastN(atrs, 5);
    RecentAtrsIncreasing(atrs);
    GreenCountOfIncreasing(recent, |recent|);
    assert GreenCount(recent, |recent|) as real > |recent| as real / 2.0;
  }

  lemma GrowthIsNotContraction(first: real, last: real)
    requires 0.0 < first < last
    ensures !AtrContracting(first, last)
  {
    assert (last - first) / first > 0.0;
  }

  lemma RecentAtrsIncreasing(atrs: seq<real>)
    requires |atrs| >= 3 && StrictlyIncreasing(atrs)
    ensures 3 <= |LastN(atrs, 5)| <= 5 && StrictlyIncreasing(LastN(atrs, 5))
  {
    var recent := LastN(atrs, 5);
    var offset := |atrs| - |recent|;
    assert forall i :: 0 <= i < |recent| ==> recent[i] == atrs[offset + i];
    forall i | 0 < i < |recent|
      ensures recent[i - 1] < recent[i]
    {
      assert recent[i - 1] == atrs[offset + i - 1] && recent[i] == atrs[offset + i];
    }
  }

  /** Two rising ATRs that grew by at most 15% leave the zone neutral: one
      rise out of two is not a majority. */
  lemma TwoAtrsNeedExpansion(first: real, last: real, allPricesInZone: bool)
    requires 0.0 < first < last && (last - first) / first * 100.0 <= 15.0
    ensures AtrDecision([first, last], allPricesInZone) == VolatilityNeutral
  {
    assert (last - first) / first > 0.0;
    var recent := LastN([first, last], 5);
    assert recent == [first, last];
    assert GreenCount(recent, 2) == 1;
  }

  lemma {:induction false} IncreasingEnds(xs: seq<real>, j: nat)
    requires StrictlyIncreasing(xs) && 0 < j < |xs|
    ensures xs[0] < xs[j]
  {
    if j > 1 {
      IncreasingEnds(xs, j - 1);
    }
  }

  // ---------------------------------------------------------------------
  // markPositionEntries

  /** The run's fixed inputs: the base margin, the ROI targets handed to the
      TP/SL service, the symbol, the leverage every position takes, and the
      whole-hour offset of the local time zone in which `isNewZonePeriod`
      reads the clock (it is called without an explicit offset). */
  datatype SimParams = SimParams(
    margin: real,
    targetTpRoi: real,
    targetSlRoi: real,
    symbol: string,
    maxLeverage: real,
    localOffsetHours: int)

  datatype TpSl = TpSl(tpPrice: real, slPrice: real)

  /** What one entry rule writes into the current candle; `None` leaves the
      field as the earlier rules left it. */
  datatype RuleUpdate = RuleUpdate(side: Option<string>, margin: Option<real>, tpPrice: Option<real>, slPrice: Option<real>)

  /** The computations the simulator calls but this module does not define:
      the analyzer outputs written into the current candle (given all
      candles and the current index), the entry-rule bank in source order,
      and the TP/SL service (margin, symbol, "BUY"/"SELL", entry price, TP
      ROI, SL ROI), whose failure ends the run like the awaited throw. */
  datatype Oracles = Oracles(
    annotate: (seq<CandleEntry>, nat) -> Analytics,
    rules: seq<(seq<CandleEntry>, nat) -> RuleUpdate>,
    tpSl: (real, string, string, real, real, real) -> Result<TpSl>)

  /** The session zone currently in force and the open time of the candle
      that started it. */
  datatype ZoneState = ZoneState(activeZone: Option<PriceZone>, zoneOpenTime: int)

  /** The simulator's state: the candle list it writes into, the index of the
      entry candle of the open position (the source holds a reference to
      that array element), and the session zone. */
  datatype SimState = SimState(candles: seq<CandleEntry>, openPosition: Option<nat>, zone: ZoneState)

  datatype StepResult = Next(state: SimState) | Aborted(error: string, state: SimState)

  const InitialZone := ZoneState(None, 0)

  function MarkNewZone(a: Analytics): Analytics
  {
    a.(candleData := a.candleData.(isNewZone := true))
  }

  /** The analytics written into candle `i`: the analyzer outputs, with the
      8-period ATR of the candles up to `i` as `candleData.atr`. */
  function CandleAnalytics(o: Oracles, cs: seq<CandleEntry>, i: nat): (a: Analytics)
    requires i < |cs|
    ensures a.candleData.atr == CandleAnalyzer.Atr(cs[..i + 1], 8) && a.candleData.atr >= 0.0
  {
    var base := o.annotate(cs, i);
    base.(candleData := base.candleData.(atr := CandleAnalyzer.Atr(cs[..i + 1], 8)))
  }

  /** The annotation phase of one iteration: the analytics, a new session
      zone from the last 24 candles when the candle opens a zone period, and
      the active zone with its interaction over the last 50 candles. */
  function Annotated(p: SimParams, o: Oracles, cs: seq<CandleEntry>, i: nat, zs: ZoneState)
    : (r: (seq<CandleEntry>, ZoneState))
    requires i < |cs|
    ensures |r.0| == |cs|
    ensures forall k :: 0 <= k < |cs| && k != i ==> r.0[k] == cs[k]
    ensures var c := r.0[i];
      && c == cs[i].(analytics := c.analytics, status := c.status,
                     priceZone := c.priceZone, priceZoneInteraction := c.priceZoneInteraction)
      && c.analytics.Some? && c.analytics.value.candleData.atr == CandleAnalyzer.Atr(cs[..i + 1], 8)
    ensures IsNewZonePeriod(cs[i].openTime, p.localOffsetHours) ==>
      && r.0[i].status == "ZONE_START" && r.0[i].analytics.value.candleData.isNewZone
      && r.1.activeZone.Some? && r.1.zoneOpenTime == cs[i].openTime
    ensures !IsNewZonePeriod(cs[i].openTime, p.localOffsetHours) ==> r.0[i].status == cs[i].status && r.1 == zs
    ensures r.1.activeZone.Some? ==> r.0[i].priceZone == r.1.activeZone && r.0[i].priceZoneInteraction.Some?
    ensures r.1.activeZone.None? ==> r.0[i].priceZone == cs[i].priceZone
  {
    var cs1 := cs[i := cs[i].(analytics := Some(CandleAnalytics(o, cs, i)))];
    Zoned(p, cs1, i, zs)
  }

  /** The zone part of the annotation phase, on candles whose candle `i`
      already carries its analytics. */
  function Zoned(p: SimParams, cs: seq<CandleEntry>, i: nat, zs: ZoneState): (r: (seq<CandleEntry>, ZoneState))
    requires i < |cs| && cs[i].analytics.Some?
    ensures |r.0| == |cs|
    ensures forall k :: 0 <= k < |cs| && k != i ==> r.0[k] == cs[k]
    ensures var c := r.0[i];
      && c == cs[i].(analytics := c.analytics, status := c.status,
                     priceZone := c.priceZone, priceZoneInteraction := c.priceZoneInteraction)
      && c.analytics.Some? && c.analytics.value.candleData.atr == cs[i].analytics.value.candleData.atr
    ensures IsNewZonePeriod(cs[i].openTime, p.localOffsetHours) ==>
      && r.0[i].status == "ZONE_START" && r.0[i].analytics.value.candleData.isNewZone
      && r.1.activeZone.Some? && r.1.zoneOpenTime == cs[i].openTime
    ensures !IsNewZonePeriod(cs[i].openTime, p.localOffsetHours) ==> r.0[i].status == cs[i].status && r.1 == zs
    ensures r.1.activeZone.Some? ==> r.0[i].priceZone == r.1.activeZone && r.0[i].priceZoneInteraction.Some?
    ensures r.1.activeZone.None? ==> r.0[i].priceZone == cs[i].priceZone
  {
    var zoned := SessionZone(p, cs, i, zs);
    (WithActiveZone(zoned.0, i, zoned.1), zoned.1)
  }

  /** A candle that opens a zone period starts a new session zone, built
      from the last 24 candles, and is marked as its first candle. */
  function SessionZone(p: SimParams, cs: seq<CandleEntry>, i: nat, zs: ZoneState): (r: (seq<CandleEntry>, ZoneState))
    requires i < |cs| && cs[i].analytics.Some?
    ensures |r.0| == |cs|
    ensures forall k :: 0 <= k < |cs| && k != i ==> r.0[k] == cs[k]
    ensures r.0[i] == cs[i].(status := r.0[i].status, analytics := r.0[i].analytics)
    ensures r.0[i].analytics.Some?
    ensures r.0[i].analytics.value.candleData.atr == cs[i].analytics.value.candleData.atr
    ensures IsNewZonePeriod(cs[i].openTime, p.localOffsetHours) ==>
      && r.0[i].status == "ZONE_START" && r.0[i].analytics.value.candleData.isNewZone
      && r.1.activeZone.Some? && r.1.zoneOpenTime == cs[i].openTime
    ensures !IsNewZonePeriod(cs[i].openTime, p.localOffsetHours) ==> r == (cs, zs)
  {
    if IsNewZonePeriod(cs[i].openTime, p.localOffsetHours) then
      var zone := PriceZoneEngine.GeneratePrizeZone(LastN(cs[..i + 1], 24), 0);
      (cs[i := cs[i].(status := "ZONE_START", analytics := Some(MarkNewZone(cs[i].analytics.value)))],
       ZoneState(Some(zone), cs[i].openTime))
    else (cs, zs)
  }

  /** Inside an active zone the candle records the zone and its interaction
      with the last 50 candles. */
  function WithActiveZone(cs: seq<CandleEntry>, i: nat, zs: ZoneState): (r: seq<CandleEntry>)
    requires i < |cs|
    ensures |r| == |cs|
    ensures forall k :: 0 <= k < |cs| && k != i ==> r[k] == cs[k]
    ensures r[i] == cs[i].(priceZone := r[i].priceZone, priceZoneInteraction := r[i].priceZoneInteraction)
    ensures zs.activeZone.Some? ==> r[i].priceZone == zs.activeZone && r[i].priceZoneInteraction.Some?
    ensures zs.activeZone.None? ==> r == cs
  {
    match zs.activeZone
    case None => cs
    case Some(zone) =>
      var placed := cs[i := cs[i].(priceZone := Some(zone))];
      placed[i := placed[i].(priceZoneInteraction := Some(PriceZoneEngine.ZoneInteraction(placed[..i + 1], zone, 50)))]
  }

  /** The PnL recorded on a position entered at `entry.close` and valued at
      `price`, at the run's leverage. */
  function MarkedPnl(p: SimParams, entry: CandleEntry, price: real, pnlSide: string): real
  {
    Pnl.CalculateEstimatedPnl(entry.margin, Pnl.CalculatePnlPercent(entry.close, price, pnlSide, p.maxLeverage), p.maxLeverage)
  }

  function PositionDuration(entry: CandleEntry, candle: CandleEntry): real
  {
    (candle.closeTime - entry.openTime) as real / 60000.0
  }

  /** Stop loss reached by the candle: below it for a long, above it for a short. */
  predicate SlHit(entry: CandleEntry, candle: CandleEntry)
  {
    if entry.side == "LONG" then candle.low < entry.slPrice else candle.high > entry.slPrice
  }

  /** Take profit reached by the candle: above it for a long, below it for a short. */
  predicate TpHit(entry: CandleEntry, candle: CandleEntry)
  {
    if entry.side == "LONG" then candle.high > entry.tpPrice else candle.low < entry.tpPrice
  }

  /** The exit phase, run when the previous candle's status is "OPEN": the
      open position against candle `i`.  Both levels inside one candle is
      "MID" with no PnL written; otherwise the stop loss is tested before the
      take profit; a position that survives is re-valued at the close. */
  function Exit(p: SimParams, cs: seq<CandleEntry>, i: nat, position: Option<nat>)
    : (r: (seq<CandleEntry>, Option<nat>))
    requires i < |cs| && (position.Some? ==> position.value < i)
    ensures |r.0| == |cs|
    ensures r.1 == position || r.1 == None
    ensures forall k :: 0 <= k < |cs| && k != i && (position.None? || k != position.value) ==> r.0[k] == cs[k]
  {
    match position
    case None => (cs, None)
    case Some(k) =>
      var entry := cs[k];
      var candle := cs[i];
      if entry.side != "LONG" && entry.side != "SHORT" then (cs, position)
      else
        var entry1 := entry.(duration := PositionDuration(entry, candle));
        var prefix := if entry.side == "LONG" then "LONG_" else "SHORT_";
        var pnlSide := if entry.side == "LONG" then "BUY" else "SELL";
        if SlHit(entry, candle) && TpHit(entry, candle) then
          (cs[i := candle.(status := prefix + "MID")][k := entry1.(status := "MID")], None)
        else if SlHit(entry, candle) then
          (cs[i := candle.(status := prefix + "LOSS")]
             [k := entry1.(status := "LOSS", pnl := MarkedPnl(p, entry, entry.slPrice, pnlSide))], None)
        else if TpHit(entry, candle) then
          (cs[i := candle.(status := prefix + "WON")]
             [k := entry1.(status := "WON", pnl := MarkedPnl(p, entry, entry.tpPrice, pnlSide))], None)
        else
          (cs[i := candle.(status := "OPEN")][k := entry1.(pnl := MarkedPnl(p, entry, candle.close, pnlSide))], position)
  }

  /** The entry rules run only when both the previous candle and the current
      one carry zones and analytics. */
  predicate RulesGuard(cs: seq<CandleEntry>, i: nat)
    requires 1 <= i < |cs|
  {
    var prev := cs[i - 1];
    var candle := cs[i];
    && prev.resistance.Some? && prev.support.Some? && prev.priceZone.Some? && prev.analytics.Some?
    && candle.analytics.Some? && candle.support.Some? && candle.resistance.Some? && candle.priceZone.Some?
  }

  function ApplyUpdate(c: CandleEntry, u: RuleUpdate): (d: CandleEntry)
    ensures d == c.(side := d.side, margin := d.margin, tpPrice := d.tpPrice, slPrice := d.slPrice)
    ensures u.side.Some? ==> d.side == u.side.value
    ensures u.side.None? ==> d.side == c.side
  {
    c.(side := u.side.GetOr(c.side), margin := u.margin.GetOr(c.margin),
       tpPrice := u.tpPrice.GetOr(c.tpPrice), slPrice := u.slPrice.GetOr(c.slPrice))
  }

  /** The first `n` rules of the bank applied in order to candle `i`, each
      seeing the candles as the rules before it left them. */
  function ApplyRules(rules: seq<(seq<CandleEntry>, nat) -> RuleUpdate>, cs: seq<CandleEntry>, i: nat, n: nat)
    : (r: seq<CandleEntry>)
    requires i < |cs| && n <= |rules|
    ensures |r| == |cs|
    ensures forall k :: 0 <= k < |cs| && k != i ==> r[k] == cs[k]
    ensures r[i] == cs[i].(side := r[i].side, margin := r[i].margin, tpPrice := r[i].tpPrice, slPrice := r[i].slPrice)
  {
    if n == 0 then cs
    else
      var prev := ApplyRules(rules, cs, i, n - 1);
      prev[i := ApplyUpdate(prev[i], rules[n - 1](prev, i))]
  }

  datatype Opening = Opened(candle: CandleEntry) | OpenFailed(error: string, candle: CandleEntry)

  /** The leverage and the taker fee of the entry. */
  function WithEntryCosts(p: SimParams, c: CandleEntry): CandleEntry
  {
    c.(leverage := p.maxLeverage, entryFee := Pnl.CalculateTakerFee(c.margin, p.maxLeverage))
  }

  /** Opening a position on candle `c`: status "OPEN", the base margin when
      the rules left none, the service's TP (and its SL when none is set)
      when no TP is set, then the leverage and the entry fee.  A failing
      service leaves the candle as it was when the call was made. */
  function Open(p: SimParams, o: Oracles, c: CandleEntry): (r: Opening)
    ensures r.candle.status == "OPEN" && r.candle.side == c.side && r.candle.close == c.close
    ensures r.candle.margin == if c.margin == 0.0 then p.margin else c.margin
    ensures r.OpenFailed? ==> c.tpPrice == 0.0
    ensures r.Opened? ==> r.candle.leverage == p.maxLeverage && r.candle.entryFee == Pnl.CalculateTakerFee(r.candle.margin, p.maxLeverage)
    ensures c.tpPrice != 0.0 ==> r.Opened? && r.candle.tpPrice == c.tpPrice && r.candle.slPrice == c.slPrice
    ensures r.Opened? && c.slPrice != 0.0 ==> r.candle.slPrice == c.slPrice
    ensures var svc := o.tpSl(if c.margin == 0.0 then p.margin else c.margin, p.symbol,
                              if c.side == "LONG" then "BUY" else "SELL", c.close, p.targetTpRoi, p.targetSlRoi);
      && (c.tpPrice == 0.0 ==> (r.OpenFailed? <==> svc.Failure?))
      && (r.OpenFailed? ==> r.error == svc.error)
      && (c.tpPrice == 0.0 && r.Opened? ==>
            r.candle.tpPrice == svc.value.tpPrice
            && r.candle.slPrice == (if c.slPrice == 0.0 then svc.value.slPrice else c.slPrice))
  {
    var c1 := c.(status := "OPEN");
    var c2 := if c1.margin == 0.0 then c1.(margin := p.margin) else c1;
    var pnlSide := if c2.side == "LONG" then "BUY" else "SELL";
    if c2.tpPrice == 0.0 then
      match o.tpSl(c2.margin, p.symbol, pnlSide, c2.close, p.targetTpRoi, p.targetSlRoi)
      case Failure(e) => OpenFailed(e, c2)
      case Success(t) =>
        var c3 := c2.(tpPrice := t.tpPrice, slPrice := if c2.slPrice == 0.0 then t.slPrice else c2.slPrice);
        Opened(WithEntryCosts(p, c3))
    else Opened(WithEntryCosts(p, c2))
  }

  /** The open position, when there is one, was entered before candle `i`. */
  predicate PositionBefore(s: SimState, i: nat)
  {
    s.openPosition.Some? ==> s.openPosition.value < i && s.openPosition.value < |s.candles|
  }

  /** One iteration of the simulator's loop over candle `i`.  A missing
      candle or one without support and resistance is skipped. */
  function Step(p: SimParams, o: Oracles, s: SimState, i: nat): (r: StepResult)
    requires 1 <= i && PositionBefore(s, i)
    ensures |r.state.candles| == |s.candles|
    ensures PositionBefore(r.state, i + 1)
  {
    if i >= |s.candles| then Next(s)
    else if s.candles[i].support.None? || s.candles[i].resistance.None? then Next(s)
    else
      var annotated := Annotated(p, o, s.candles, i, s.zone);
      var cs1 := annotated.0;
      if cs1[i - 1].status == "OPEN" then
        var exited := Exit(p, cs1, i, s.openPosition);
        Next(SimState(exited.0, exited.1, annotated.1))
      else EntryPhase(p, o, SimState(cs1, s.openPosition, annotated.1), i)
  }

  /** The entry phase, run when the previous candle is not "OPEN": the rules
      when their guard holds, then a position opened on candle `i` when none
      is open and the rules left a side. */
  function EntryPhase(p: SimParams, o: Oracles, s: SimState, i: nat): (r: StepResult)
    requires 1 <= i < |s.candles| && PositionBefore(s, i)
    ensures |r.state.candles| == |s.candles|
    ensures PositionBefore(r.state, i + 1)
    ensures r.state.zone == s.zone
  {
    var cs2 := if RulesGuard(s.candles, i) then ApplyRules(o.rules, s.candles, i, |o.rules|) else s.candles;
    if s.openPosition.None? && cs2[i].side != "" then
      match Open(p, o, cs2[i])
      case Opened(c) => Next(SimState(cs2[i := c], Some(i), s.zone))
      case OpenFailed(e, c) => Aborted(e, SimState(cs2[i := c], Some(i), s.zone))
    else Next(SimState(cs2, s.openPosition, s.zone))
  }

  /** The loop from candle `i` up to and including `last`. */
  function RunFrom(p: SimParams, o: Oracles, s: SimState, i: nat, last: int): (r: StepResult)
    requires 1 <= i && PositionBefore(s, i)
    ensures |r.state.candles| == |s.candles|
    decreases if last >= i then last - i + 1 else 0
  {
    if i > last then Next(s)
    else
      match Step(p, o, s, i)
      case Aborted(e, s1) => Aborted(e, s1)
      case Next(s1) => RunFrom(p, o, s1, i + 1, last)
  }

  /** `markPositionEntries`: candles 1 to `entryIndex` walked in order, every
      write going into the caller's array; `error` is the TP/SL service's
      failure that ends the run early. */
  method MarkPositionEntries(p: SimParams, o: Oracles, candles: array<CandleEntry>, entryIndex: int)
    returns (error: Option<string>)
    modifies candles
    ensures var r := RunFrom(p, o, SimState(old(candles[..]), None, InitialZone), 1, entryIndex);
      && candles[..] == r.state.candles
      && (r.Aborted? <==> error.Some?)
      && (r.Aborted? ==> error.value == r.error)
  {
    var openPosition: Option<nat> := None;
    var zone := InitialZone;
    ghost var start := SimState(candles[..], None, InitialZone);
    var i := 1;
    while i <= entryIndex
      invariant 1 <= i
      invariant PositionBefore(SimState(candles[..], openPosition, zone), i)
      invariant RunFrom(p, o, start, 1, entryIndex) == RunFrom(p, o, SimState(candles[..], openPosition, zone), i, entryIndex)
      decreases entryIndex - i
    {
      openPosition, zone, error := StepOnArray(p, o, candles, i, openPosition, zone);
      if error.Some? {
        return;
      }
      i := i + 1;
    }
    error := None;
  }

  /** One iteration of the loop on the array: the new contents, position and
      zone are those of `Step`, and `error` is set exactly when it aborts. */
  method StepOnArray(p: SimParams, o: Oracles, candles: array<CandleEntry>, i: nat,
                     openPosition: Option<nat>, zone: ZoneState)
    returns (openPosition': Option<nat>, zone': ZoneState, error: Option<string>)
    requires 1 <= i && PositionBefore(SimState(candles[..], openPosition, zone), i)
    modifies candles
    ensures var r := Step(p, o, SimState(old(candles[..]), openPosition, zone), i);
      && r.state == SimState(candles[..], openPosition', zone')
      && (r.Aborted? <==> error.Some?)
      && (r.Aborted? ==> error.value == r.error)
  {
    ghost var s := SimState(candles[..], openPosition, zone);
    openPosition', zone', error := openPosition, zone, None;
    if i < candles.Length && candles[i].support.Some? && candles[i].resistance.Some? {
      zone' := AnnotateCandle(p, o, candles, i, zone);
      if candles[i - 1].status == "OPEN" {
        openPosition' := EvaluateExit(p, candles, i, openPosition);
      } else {
        openPosition', error := EntryPhaseOnArray(p, o, candles, i, openPosition, zone');
      }
    }
  }

  /** The entry phase on the array. */
  method EntryPhaseOnArray(p: SimParams, o: Oracles, candles: array<CandleEntry>, i: nat,
                           openPosition: Option<nat>, ghost zone: ZoneState)
    returns (openPosition': Option<nat>, error: Option<string>)
    requires 1 <= i < candles.Length && PositionBefore(SimState(candles[..], openPosition, zone), i)
    modifies candles
    ensures var r := EntryPhase(p, o, SimState(old(candles[..]), openPosition, zone), i);
      && r.state == SimState(candles[..], openPosition', zone)
      && (r.Aborted? <==> error.Some?)
      && (r.Aborted? ==> error.value == r.error)
  {
    openPosition', error := openPosition, None;
    if RulesGuard(candles[..], i) {
      ApplyEntryRules(o, candles, i);
    }
    if openPosition.None? && candles[i].side != "" {
      openPosition' := Some(i);
      error := OpenPosition(p, o, candles, i);
    }
  }

  /** The annotation phase on the array. */
  method AnnotateCandle(p: SimParams, o: Oracles, candles: array<CandleEntry>, i: nat, zone: ZoneState)
    returns (zone': ZoneState)
    requires i < candles.Length
    modifies candles
    ensures (candles[..], zone') == Annotated(p, o, old(candles[..]), i, zone)
  {
    ghost var cs0 := candles[..];
    var analytics := CandleAnalytics(o, candles[..], i);
    candles[i] := candles[i].(analytics := Some(analytics));
    assert candles[..] == cs0[i := cs0[i].(analytics := Some(CandleAnalytics(o, cs0, i)))];
    ghost var cs1 := candles[..];
    zone' := StartSessionZone(p, candles, i, zone);
    ghost var cs2 := candles[..];
    MarkActiveZone(candles, i, zone');
    assert (cs2, zone') == SessionZone(p, cs1, i, zone);
    assert (candles[..], zone') == Zoned(p, cs1, i, zone);
  }

  /** A candle that opens a zone period starts the session zone, on the array. */
  method StartSessionZone(p: SimParams, candles: array<CandleEntry>, i: nat, zone: ZoneState)
    returns (zone': ZoneState)
    requires i < candles.Length && candles[i].analytics.Some?
    modifies candles
    ensures (candles[..], zone') == SessionZone(p, old(candles[..]), i, zone)
  {
    zone' := zone;
    var candle := candles[i];
    if IsNewZonePeriod(candle.openTime, p.localOffsetHours) {
      var calculated := PriceZoneEngine.GeneratePrizeZone(LastN(candles[..i + 1], 24), 0);
      zone' := ZoneState(Some(calculated), candle.openTime);
      candles[i] := candle.(status := "ZONE_START", analytics := Some(MarkNewZone(candle.analytics.value)));
    }
  }

  /** Inside an active zone the candle records it and its interaction, on the array. */
  method MarkActiveZone(candles: array<CandleEntry>, i: nat, zone: ZoneState)
    requires i < candles.Length
    modifies candles
    ensures candles[..] == WithActiveZone(old(candles[..]), i, zone)
  {
    if zone.activeZone.Some? {
      candles[i] := candles[i].(priceZone := zone.activeZone);
      var interaction := PriceZoneEngine.AnalyzeZoneInteraction(candles[..i + 1], zone.activeZone.value, 50);
      candles[i] := candles[i].(priceZoneInteraction := Some(interaction));
    }
  }

  /** The exit phase on the array; the position is the index of its entry candle. */
  method EvaluateExit(p: SimParams, candles: array<CandleEntry>, i: nat, position: Option<nat>)
    returns (position': Option<nat>)
    requires i < candles.Length && (position.Some? ==> position.value < i)
    modifies candles
    ensures (candles[..], position') == Exit(p, old(candles[..]), i, position)
  {
    position' := position;
    if position.None? {
      return;
    }
    var k := position.value;
    var entry := candles[k];
    var candle := candles[i];
    assert "LONG_" + "MID" == "LONG_MID" && "LONG_" + "LOSS" == "LONG_LOSS" && "LONG_" + "WON" == "LONG_WON";
    assert "SHORT_" + "MID" == "SHORT_MID" && "SHORT_" + "LOSS" == "SHORT_LOSS" && "SHORT_" + "WON" == "SHORT_WON";
    if entry.side == "LONG" {
      var entry1 := entry.(duration := PositionDuration(entry, candle));
      if candle.low < entry.slPrice && candle.high > entry.tpPrice {
        candles[i] := candle.(status := "LONG_MID");
        candles[k] := entry1.(status := "MID");
        position' := None;
      } else if candle.low < entry.slPrice {
        candles[i] := candle.(status := "LONG_LOSS");
        candles[k] := entry1.(status := "LOSS", pnl := MarkedPnl(p, entry, entry.slPrice, "BUY"));
        position' := None;
      } else if candle.high > entry.tpPrice {
        candles[i] := candle.(status := "LONG_WON");
        candles[k] := entry1.(status := "WON", pnl := MarkedPnl(p, entry, entry.tpPrice, "BUY"));
        position' := None;
      } else {
        candles[i] := candle.(status := "OPEN");
        candles[k] := entry1.(pnl := MarkedPnl(p, entry, candle.close, "BUY"));
      }
    } else if entry.side == "SHORT" {
      var entry1 := entry.(duration := PositionDuration(entry, candle));
      if candle.high > entry.slPrice && candle.low < entry.tpPrice {
        candles[i] := candle.(status := "SHORT_MID");
        candles[k] := entry1.(status := "MID");
        position' := None;
      } else if candle.high > entry.slPrice {
        candles[i] := candle.(status := "SHORT_LOSS");
        candles[k] := entry1.(status := "LOSS", pnl := MarkedPnl(p, entry, entry.slPrice, "SELL"));
        position' := None;
      } else if candle.low < entry.tpPrice {
        candles[i] := candle.(status := "SHORT_WON");
        candles[k] := entry1.(status := "WON", pnl := MarkedPnl(p, entry, entry.tpPrice, "SELL"));
        position' := None;
      } else {
        candles[i] := candle.(status := "OPEN");
        candles[k] := entry1.(pnl := MarkedPnl(p, entry, candle.close, "SELL"));
      }
    }
  }

  /** The rule bank on the array, one rule after another. */
  method ApplyEntryRules(o: Oracles, candles: array<CandleEntry>, i: nat)
    requires i < candles.Length
    modifies candles
    ensures candles[..] == ApplyRules(o.rules, old(candles[..]), i, |o.rules|)
  {
    for n := 0 to |o.rules|
      invariant candles[..] == ApplyRules(o.rules, old(candles[..]), i, n)
    {
      var update := o.rules[n](candles[..], i);
      candles[i] := ApplyUpdate(candles[i], update);
    }
  }

  /** Opening the position on candle `i` of the array. */
  method OpenPosition(p: SimParams, o: Oracles, candles: array<CandleEntry>, i: nat) returns (error: Option<string>)
    requires i < candles.Length
    modifies candles
    ensures var r := Open(p, o, old(candles[i]));
      && candles[..] == old(candles[..])[i := r.candle]
      && (r.OpenFailed? <==> error.Some?)
      && (r.OpenFailed? ==> error.value == r.error)
  {
    var candle := candles[i].(status := "OPEN");
    candles[i] := candle;
    var pnlSide := if candle.side == "LONG" then "BUY" else "SELL";
    if candle.margin == 0.0 {
      candle := candle.(margin := p.margin);
      candles[i] := candle;
    }
    if candle.tpPrice == 0.0 {
      var tpSl := o.tpSl(candle.margin, p.symbol, pnlSide, candle.close, p.targetTpRoi, p.targetSlRoi);
      if tpSl.Failure? {
        return Some(tpSl.error);
      }
      candle := candle.(tpPrice := tpSl.value.tpPrice);
      if candle.slPrice == 0.0 {
        candle := candle.(slPrice := tpSl.value.slPrice);
      }
    }
    candles[i] := WithEntryCosts(p, candle);
    error := None;
  }

  // ---------------------------------------------------------------------
  // Properties of the simulator

  /** An open position is an entry candle marked "OPEN" that took a side. */
  predicate PositionOpen(s: SimState)
  {
    s.openPosition.Some? ==>
      && s.openPosition.value < |s.candles|
      && s.candles[s.openPosition.value].status == "OPEN"
      && s.candles[s.openPosition.value].side != ""
  }

  /** One iteration keeps the recorded position an open entry, also when the
      run is aborted. */
  lemma StepKeepsPositionOpen(p: SimParams, o: Oracles, s: SimState, i: nat)
    requires 1 <= i && PositionBefore(s, i) && PositionOpen(s)
    ensures PositionOpen(Step(p, o, s, i).state)
  {
    if i < |s.candles| && s.candles[i].support.Some? && s.candles[i].resistance.Some? {
      var annotated := Annotated(p, o, s.candles, i, s.zone);
      var cs1 := annotated.0;
      assert PositionOpen(SimState(cs1, s.openPosition, annotated.1));
      if cs1[i - 1].status == "OPEN" {
        ExitKeepsPositionOpen(p, cs1, i, s.openPosition);
      } else {
        var cs2 := if RulesGuard(cs1, i) then ApplyRules(o.rules, cs1, i, |o.rules|) else cs1;
        assert PositionOpen(SimState(cs2, s.openPosition, annotated.1));
        if s.openPosition.None? && cs2[i].side != "" {
          var opening := Open(p, o, cs2[i]);
          assert opening.candle.status == "OPEN" && opening.candle.side != "";
        }
      }
    }
  }

  /** The exit phase either clears the position or keeps it an open entry. */
  lemma ExitKeepsPositionOpen(p: SimParams, cs: seq<CandleEntry>, i: nat, position: Option<nat>)
    requires i < |cs| && (position.Some? ==> position.value < i)
    requires PositionOpen(SimState(cs, position, InitialZone))
    ensures var r := Exit(p, cs, i, position);
      PositionOpen(SimState(r.0, r.1, InitialZone))
  {
    if position.Some? {
      var k := position.value;
      var entry, candle := cs[k], cs[i];
      if (entry.side == "LONG" || entry.side == "SHORT") && !SlHit(entry, candle) && !TpHit(entry, candle) {
        var pnlSide := if entry.side == "LONG" then "BUY" else "SELL";
        var entry1 := entry.(duration := PositionDuration(entry, candle));
        var r0 := cs[i := candle.(status := "OPEN")][k := entry1.(pnl := MarkedPnl(p, entry, candle.close, pnlSide))];
        assert Exit(p, cs, i, position) == (r0, position);
        assert r0[k].status == "OPEN" && r0[k].side == entry.side;
      }
    }
  }

  /** The whole run keeps the recorded position an open entry. */
  lemma {:induction false} RunKeepsPositionOpen(p: SimParams, o: Oracles, s: SimState, i: nat, last: int)
    requires 1 <= i && PositionBefore(s, i) && PositionOpen(s)
    ensures PositionOpen(RunFrom(p, o, s, i, last).state)
    decreases if last >= i then last - i + 1 else 0
  {
    if i <= last {
      StepKeepsPositionOpen(p, o, s, i);
      match Step(p, o, s, i)
      case Aborted(_, _) =>
      case Next(s1) => RunKeepsPositionOpen(p, o, s1, i + 1, last);
    }
  }

  /** At most one position at a time: an iteration either keeps the open
      position, closes it, or opens one on candle `i` when none was open,
      the previous candle is not "OPEN" and the rules left a side. */
  lemma OnePositionAtATime(p: SimParams, o: Oracles, s: SimState, i: nat)
    requires 1 <= i && PositionBefore(s, i)
    ensures var r := Step(p, o, s, i);
      && (r.state.openPosition == s.openPosition || r.state.openPosition == None || r.state.openPosition == Some(i))
      && (r.state.openPosition == Some(i) ==>
            && s.openPosition.None? && i < |s.candles| && s.candles[i - 1].status != "OPEN"
            && r.state.candles[i].status == "OPEN" && r.state.candles[i].side != "")
      && (s.openPosition.Some? && r.state.openPosition.None? ==> i < |s.candles| && s.candles[i - 1].status == "OPEN")
      && (r.Aborted? ==> r.state.openPosition == Some(i))
  {
    if i < |s.candles| && s.candles[i].support.Some? && s.candles[i].resistance.Some? {
      var annotated := Annotated(p, o, s.candles, i, s.zone);
      var cs1 := annotated.0;
      assert cs1[i - 1] == s.candles[i - 1];
      if cs1[i - 1].status != "OPEN" {
        var cs2 := if RulesGuard(cs1, i) then ApplyRules(o.rules, cs1, i, |o.rules|) else cs1;
        if s.openPosition.None? && cs2[i].side != "" {
          var opening := Open(p, o, cs2[i]);
          assert opening.candle.status == "OPEN" && opening.candle.side != "";
        }
      }
    }
  }

  /** A run over candles none of which carries both support and resistance
      writes nothing. */
  lemma {:induction false} RunWithoutZonesChangesNothing(p: SimParams, o: Oracles, s: SimState, i: nat, last: int)
    requires 1 <= i && PositionBefore(s, i)
    requires forall j :: i <= j <= last && j < |s.candles| ==> s.candles[j].support.None? || s.candles[j].resistance.None?
    ensures RunFrom(p, o, s, i, last) == Next(s)
    decreases if last >= i then last - i + 1 else 0
  {
    if i <= last {
      assert Step(p, o, s, i) == Next(s);
      RunWithoutZonesChangesNothing(p, o, s, i + 1, last);
    }
  }

  /** The exit phase on an open long or short: a candle reaching both
      levels is "MID" with the PnL left as it was, else the stop loss is
      taken before the take profit, and a position reaching neither stays
      open, re-valued at the close.  The duration is always brought up to
      the candle's close time. */
  lemma ExitOutcomes(p: SimParams, cs: seq<CandleEntry>, i: nat, k: nat)
    requires i < |cs| && k < i
    requires cs[k].side == "LONG" || cs[k].side == "SHORT"
    ensures var r := Exit(p, cs, i, Some(k));
      var e := cs[k];
      var c := cs[i];
      var t := r.0;
      var long := e.side == "LONG";
      var pnlSide := if long then "BUY" else "SELL";
      && t[k].duration == PositionDuration(e, c)
      && (SlHit(e, c) && TpHit(e, c) ==>
            && t[k].status == "MID" && t[k].pnl == e.pnl && r.1.None?
            && t[i].status == (if long then "LONG_MID" else "SHORT_MID"))
      && (SlHit(e, c) && !TpHit(e, c) ==>
            && t[k].status == "LOSS" && t[k].pnl == MarkedPnl(p, e, e.slPrice, pnlSide) && r.1.None?
            && t[i].status == (if long then "LONG_LOSS" else "SHORT_LOSS"))
      && (!SlHit(e, c) && TpHit(e, c) ==>
            && t[k].status == "WON" && t[k].pnl == MarkedPnl(p, e, e.tpPrice, pnlSide) && r.1.None?
            && t[i].status == (if long then "LONG_WON" else "SHORT_WON"))
      && (!SlHit(e, c) && !TpHit(e, c) ==>
            && t[k].status == e.status && t[k].pnl == MarkedPnl(p, e, c.close, pnlSide)
            && r.1 == Some(k) && t[i].status == "OPEN")
  {
    assert "LONG_" + "MID" == "LONG_MID" && "LONG_" + "LOSS" == "LONG_LOSS" && "LONG_" + "WON" == "LONG_WON";
    assert "SHORT_" + "MID" == "SHORT_MID" && "SHORT_" + "LOSS" == "SHORT_LOSS" && "SHORT_" + "WON" == "SHORT_WON";
  }

  /** When the previous candle is "OPEN", an iteration over a candle with
      zones runs the exit phase (and no entry rule) on the annotated
      candles; the annotation leaves the entry, the previous candle and the
      current candle's prices and close time as they were. */
  lemma ExitFollowsOpenCandle(p: SimParams, o: Oracles, s: SimState, i: nat)
    requires 1 <= i < |s.candles| && PositionBefore(s, i)
    requires s.candles[i].support.Some? && s.candles[i].resistance.Some?
    requires s.candles[i - 1].status == "OPEN"
    ensures var annotated := Annotated(p, o, s.candles, i, s.zone);
      var exited := Exit(p, annotated.0, i, s.openPosition);
      && Step(p, o, s, i) == Next(SimState(exited.0, exited.1, annotated.1))
      && (s.openPosition.Some? ==> annotated.0[s.openPosition.value] == s.candles[s.openPosition.value])
      && annotated.0[i].low == s.candles[i].low && annotated.0[i].high == s.candles[i].high
      && annotated.0[i].close == s.candles[i].close && annotated.0[i].closeTime == s.candles[i].closeTime
  {
    var annotated := Annotated(p, o, s.candles, i, s.zone);
    assert annotated.0[i - 1] == s.candles[i - 1];
  }

  /** A stop on the losing side of the entry closes at a loss, a take profit
      on the winning side closes no worse than the exit fee. */
  lemma ExitPnlSign(p: SimParams, e: CandleEntry)
    requires e.close > 0.0 && e.margin > 0.0 && p.maxLeverage > 0.0
    requires e.side == "LONG" || e.side == "SHORT"
    ensures var pnlSide := if e.side == "LONG" then "BUY" else "SELL";
      && ((if e.side == "LONG" then e.slPrice <= e.close else e.slPrice >= e.close) ==>
            MarkedPnl(p, e, e.slPrice, pnlSide) < 0.0)
      && ((if e.side == "LONG" then e.tpPrice >= e.close else e.tpPrice <= e.close) ==>
            MarkedPnl(p, e, e.tpPrice, pnlSide) >= -Pnl.CalculateTakerFee(e.margin, p.maxLeverage))
  {
    var pnlSide := if e.side == "LONG" then "BUY" else "SELL";
    var lev := p.maxLeverage;
    var atEntry := Pnl.CalculatePnlPercent(e.close, e.close, pnlSide, lev).value;
    assert atEntry == 0.0;
    if e.side == "LONG" {
      if e.slPrice <= e.close {
        Pnl.PnlPercentMonotone(e.close, e.slPrice, e.close, pnlSide, lev);
        PercentOfMarginAtMost(Pnl.CalculatePnlPercent(e.close, e.slPrice, pnlSide, lev).value, e.margin);
      }
      if e.tpPrice >= e.close {
        Pnl.PnlPercentMonotone(e.close, e.close, e.tpPrice, pnlSide, lev);
        PercentOfMarginAtLeast(Pnl.CalculatePnlPercent(e.close, e.tpPrice, pnlSide, lev).value, e.margin);
      }
    } else {
      if e.slPrice >= e.close {
        Pnl.PnlPercentMonotone(e.close, e.close, e.slPrice, pnlSide, lev);
        PercentOfMarginAtMost(Pnl.CalculatePnlPercent(e.close, e.slPrice, pnlSide, lev).value, e.margin);
      }
      if e.tpPrice <= e.close {
        Pnl.PnlPercentMonotone(e.close, e.tpPrice, e.close, pnlSide, lev);
        PercentOfMarginAtLeast(Pnl.CalculatePnlPercent(e.close, e.tpPrice, pnlSide, lev).value, e.margin);
      }
    }
  }

  lemma PercentOfMarginAtMost(pct: real, margin: real)
    requires pct <= 0.0 && margin > 0.0
    ensures pct / 100.0 * margin <= 0.0
  {
    DivMonotone(pct, 0.0, 100.0);
    MulMonotone(pct / 100.0, 0.0, margin);
  }

  lemma PercentOfMarginAtLeast(pct: real, margin: real)
    requires pct >= 0.0 && margin > 0.0
    ensures pct / 100.0 * margin >= 0.0
  {
    DivMonotone(0.0, pct, 100.0);
    MulMonotone(0.0, pct / 100.0, margin);
  }

  /** The rules' candle, as the entry phase sees it. */
  function Ruled(p: SimParams, o: Oracles, s: SimState, i: nat): (r: seq<CandleEntry>)
    requires i < |s.candles| && 1 <= i
    ensures |r| == |s.candles|
  {
    var cs1 := Annotated(p, o, s.candles, i, s.zone).0;
    if RulesGuard(cs1, i) then ApplyRules(o.rules, cs1, i, |o.rules|) else cs1
  }

  /** A position opened at candle `i` is the rules' candle passed through
      the opening; with `Open`'s contract this fixes its terms: the run's
      leverage, the taker fee on its margin, the base margin when the rules
      set none, and the rules' take profit and stop loss when a take profit
      was set. */
  lemma EntryTerms(p: SimParams, o: Oracles, s: SimState, i: nat)
    requires 1 <= i && PositionBefore(s, i) && s.openPosition.None?
    requires Step(p, o, s, i).state.openPosition == Some(i)
    ensures i < |s.candles| && s.candles[i - 1].status != "OPEN"
    ensures var ruled := Ruled(p, o, s, i);
      && ruled[i].side != ""
      && Step(p, o, s, i).state.candles == ruled[i := Open(p, o, ruled[i]).candle]
      && (Step(p, o, s, i).Next? <==> Open(p, o, ruled[i]).Opened?)
  {
    assert Annotated(p, o, s.candles, i, s.zone).0[i - 1] == s.candles[i - 1];
  }

  /** The update rule `m` returns, given the candles as the rules before it
      left them. */
  function UpdateOfRule(rules: seq<(seq<CandleEntry>, nat) -> RuleUpdate>, cs: seq<CandleEntry>, i: nat, m: nat): RuleUpdate
    requires i < |cs| && m < |rules|
  {
    rules[m](ApplyRules(rules, cs, i, m), i)
  }

  /** The last rule that sets a side decides the candle's side. */
  lemma {:induction false} LastSideWins(rules: seq<(seq<CandleEntry>, nat) -> RuleUpdate>, cs: seq<CandleEntry>, i: nat,
                                        n: nat, j: nat)
    requires i < |cs| && j < n <= |rules|
    requires UpdateOfRule(rules, cs, i, j).side.Some?
    requires forall m :: j < m < n ==> UpdateOfRule(rules, cs, i, m).side.None?
    ensures ApplyRules(rules, cs, i, n)[i].side == UpdateOfRule(rules, cs, i, j).side.value
  {
    var u := UpdateOfRule(rules, cs, i, n - 1);
    assert ApplyRules(rules, cs, i, n) == ApplyRules(rules, cs, i, n - 1)[i := ApplyUpdate(ApplyRules(rules, cs, i, n - 1)[i], u)];
    if n > j + 1 {
      LastSideWins(rules, cs, i, n - 1, j);
      assert u.side.None?;
    }
  }

  /** A side no rule sets is the side the candle came with. */
  lemma {:induction false} UnsetSideKept(rules: seq<(seq<CandleEntry>, nat) -> RuleUpdate>, cs: seq<CandleEntry>, i: nat,
                                         n: nat)
    requires i < |cs| && n <= |rules|
    requires forall m :: 0 <= m < n ==> UpdateOfRule(rules, cs, i, m).side.None?
    ensures ApplyRules(rules, cs, i, n)[i].side == cs[i].side
  {
    if n > 0 {
      UnsetSideKept(rules, cs, i, n - 1);
      var u := UpdateOfRule(rules, cs, i, n - 1);
      assert u.side.None?;
      assert ApplyRules(rules, cs, i, n) == ApplyRules(rules, cs, i, n - 1)[i := ApplyUpdate(ApplyRules(rules, cs, i, n - 1)[i], u)];
    }
  }
}
