/** The session price-zone engine (src/utility/priceZoneUtility.ts): the zone
    drawn around a window of candles, the scan of how recent candles touched,
    bounced off and broke out of it, and the score of a breakout that starts
    on the current candle. */
module PriceZoneEngine {
  import opened Wrappers
  import opened Numeric
  import opened Interfaces

  // ---------------------------------------------------------------------
  // generatePrizeZone

  function BodyHighs(cs: seq<CandleEntry>): seq<real>
  {
    seq(|cs|, i requires 0 <= i < |cs| => Max(cs[i].open, cs[i].close))
  }

  function BodyLows(cs: seq<CandleEntry>): seq<real>
  {
    seq(|cs|, i requires 0 <= i < |cs| => Min(cs[i].open, cs[i].close))
  }

  /** `generatePrizeZone`: the body range of the window pushed outward by half
      of the wick beyond it on each side; `lookBackLength` is not used. */
  function GeneratePrizeZone(candles: seq<CandleEntry>, lookBackLength: int): (z: PriceZone)
    requires |candles| > 0
    ensures z.mid == (z.upper + z.lower) / 2.0
  {
    var highestPrice := SeqMax(BodyHighs(candles));
    var lowestPrice := SeqMin(BodyLows(candles));
    var highestTopWickPrice := SeqMax(Highs(candles));
    var lowestBottomWickPrice := SeqMin(Lows(candles));
    var upperZone := highestPrice + (highestTopWickPrice - highestPrice) / 2.0;
    var lowerZone := lowestPrice - (lowestPrice - lowestBottomWickPrice) / 2.0;
    PriceZone(lowerZone, (upperZone + lowerZone) / 2.0, upperZone)
  }

  /** For well-formed candles the upper bound lies between the highest body
      price and the highest wick, the lower bound between the lowest wick and
      the lowest body price, so every open and close lies inside the zone. */
  lemma GeneratedZoneEnclosesBodies(candles: seq<CandleEntry>, lookBackLength: int)
    requires |candles| > 0
    requires forall i :: 0 <= i < |candles| ==> WellFormed(candles[i])
    ensures var z := GeneratePrizeZone(candles, lookBackLength);
      && SeqMax(BodyHighs(candles)) <= z.upper <= SeqMax(Highs(candles))
      && SeqMin(Lows(candles)) <= z.lower <= SeqMin(BodyLows(candles))
      && z.lower <= z.mid <= z.upper
    ensures var z := GeneratePrizeZone(candles, lookBackLength);
      forall i :: 0 <= i < |candles| ==>
        z.lower <= candles[i].open <= z.upper && z.lower <= candles[i].close <= z.upper
  {
    var bh, bl, hs, ls := BodyHighs(candles), BodyLows(candles), Highs(candles), Lows(candles);
    SeqMaxPointwise(bh, hs);
    SeqMinPointwise(ls, bl);
    var z := GeneratePrizeZone(candles, lookBackLength);
    assert SeqMax(bh) <= z.upper && z.lower <= SeqMin(bl);
    forall i | 0 <= i < |candles|
      ensures z.lower <= candles[i].open <= z.upper && z.lower <= candles[i].close <= z.upper
    {
      assert bl[i] >= SeqMin(bl) && bh[i] <= SeqMax(bh);
    }
  }

  // ---------------------------------------------------------------------
  // analyzeZoneInteraction: the scan over the recent candles

  /** Strictly between the bounds: a price on a bound is outside. */
  predicate Inside(price: real, zone: PriceZone)
  {
    zone.lower < price < zone.upper
  }

  predicate TouchesUpper(c: CandleEntry, zone: PriceZone)
  {
    c.high >= zone.upper && c.close < zone.upper
  }

  predicate TouchesLower(c: CandleEntry, zone: PriceZone)
  {
    c.low <= zone.lower && c.close > zone.lower
  }

  /** Speed of an approach to the touched bound, the distance floored at 1. */
  function ApproachVelocity(c: CandleEntry, prev: CandleEntry, zone: PriceZone): real
  {
    var distanceToBoundary := if TouchesUpper(c, zone) then zone.upper - prev.close else prev.close - zone.lower;
    Abs(c.close - prev.close) / Max(1.0, distanceToBoundary)
  }

  /** A previous close inside the zone followed by a close outside it. */
  predicate IsBreakout(c: CandleEntry, prev: Option<CandleEntry>, zone: PriceZone)
  {
    prev.Some? && Inside(prev.value.close, zone) && !Inside(c.close, zone)
  }

  /** Distance of a close outside the zone beyond the bound it left by; a
      close exactly on `upper` is measured from `lower` (negative). */
  function BreakoutDistance(close: real, zone: PriceZone): real
  {
    if close > zone.upper then close - zone.upper else zone.lower - close
  }

  /** Breakout speed in zone heights; a breakout needs a close strictly
      inside, so the height is positive. */
  function BreakoutVelocity(c: CandleEntry, prev: Option<CandleEntry>, zone: PriceZone): real
    requires IsBreakout(c, prev, zone)
  {
    BreakoutDistance(c.close, zone) / (zone.upper - zone.lower)
  }

  /** The counters of the scan loop, one per event. */
  datatype Event =
    | InZone | OutOfZone
    | AnyTouch | UpperTouch | LowerTouch
    | BounceEvent
    | BreakoutEvent | BullishBreakout | BearishBreakout

  /** What one candle adds to the counter of `e`, `prev` being the candle
      before it in the window (none for the first).  A bounce is tested for
      each bound in turn, as the loop does. */
  function Hits(c: CandleEntry, prev: Option<CandleEntry>, zone: PriceZone, e: Event): nat
  {
    match e
    case InZone => if Inside(c.close, zone) then 1 else 0
    case OutOfZone => if Inside(c.close, zone) then 0 else 1
    case AnyTouch => if TouchesUpper(c, zone) || TouchesLower(c, zone) then 1 else 0
    case UpperTouch => if TouchesUpper(c, zone) then 1 else 0
    case LowerTouch => if TouchesLower(c, zone) then 1 else 0
    case BounceEvent =>
      (if prev.Some? && TouchesUpper(c, zone) && c.close < prev.value.close then 1 else 0)
      + (if prev.Some? && TouchesLower(c, zone) && c.close > prev.value.close then 1 else 0)
    case BreakoutEvent => if IsBreakout(c, prev, zone) then 1 else 0
    case BullishBreakout => if IsBreakout(c, prev, zone) && c.close > zone.upper then 1 else 0
    case BearishBreakout => if IsBreakout(c, prev, zone) && !(c.close > zone.upper) then 1 else 0
  }

  /** The candle before index `i` of the window, if any. */
  function PrevCandle(cs: seq<CandleEntry>, i: nat): Option<CandleEntry>
    requires i < |cs|
  {
    if i > 0 then Some(cs[i - 1]) else None
  }

  /** The value of the counter of `e` once the loop has read the first `n`
      candles of the window `cs`. */
  function Count(cs: seq<CandleEntry>, n: nat, zone: PriceZone, e: Event): nat
    requires n <= |cs|
  {
    if n == 0 then 0 else Count(cs, n - 1, zone, e) + Hits(cs[n - 1], PrevCandle(cs, n - 1), zone, e)
  }

  /** The real-valued accumulators of the loop. */
  datatype Measure = RangeInZone | RangeOutOfZone | DistanceFromCenter

  function Amount(c: CandleEntry, zone: PriceZone, m: Measure): real
  {
    match m
    case RangeInZone => if Inside(c.close, zone) then c.high - c.low else 0.0
    case RangeOutOfZone => if Inside(c.close, zone) then 0.0 else c.high - c.low
    case DistanceFromCenter =>
      if Inside(c.close, zone) then Abs(c.close - (zone.upper + zone.lower) / 2.0) else 0.0
  }

  function Accumulated(cs: seq<CandleEntry>, n: nat, zone: PriceZone, m: Measure): real
    requires n <= |cs|
  {
    if n == 0 then 0.0 else Accumulated(cs, n - 1, zone, m) + Amount(cs[n - 1], zone, m)
  }

  /** The `breakoutVelocities` list after reading `n` candles. */
  function BreakoutVelocities(cs: seq<CandleEntry>, n: nat, zone: PriceZone): seq<real>
    requires n <= |cs|
  {
    if n == 0 then []
    else
      BreakoutVelocities(cs, n - 1, zone)
      + if IsBreakout(cs[n - 1], PrevCandle(cs, n - 1), zone)
        then [BreakoutVelocity(cs[n - 1], PrevCandle(cs, n - 1), zone)] else []
  }

  /** The `approachVelocities` list: one entry per touch that has a previous
      candle. */
  function ApproachVelocities(cs: seq<CandleEntry>, n: nat, zone: PriceZone): seq<real>
    requires n <= |cs|
  {
    if n == 0 then []
    else
      ApproachVelocities(cs, n - 1, zone)
      + if n > 1 && (TouchesUpper(cs[n - 1], zone) || TouchesLower(cs[n - 1], zone))
        then [ApproachVelocity(cs[n - 1], cs[n - 2], zone)] else []
  }

  /** `lastInteraction`: the last kind of event, a breakout overriding a
      bounce overriding a touch on the same candle. */
  function LastInteraction(cs: seq<CandleEntry>, n: nat, zone: PriceZone): Option<Interaction>
    requires n <= |cs|
  {
    if n == 0 then None
    else
      var prev := PrevCandle(cs, n - 1);
      if Hits(cs[n - 1], prev, zone, BreakoutEvent) > 0 then Some(Breakout)
      else if Hits(cs[n - 1], prev, zone, BounceEvent) > 0 then Some(Bounce)
      else if Hits(cs[n - 1], prev, zone, AnyTouch) > 0 then Some(Touch)
      else LastInteraction(cs, n - 1, zone)
  }

  /** A counter bounded candle by candle by another is bounded overall. */
  lemma {:induction false} CountLe(cs: seq<CandleEntry>, n: nat, zone: PriceZone, e: Event, f: Event)
    requires n <= |cs|
    requires forall c, p :: Hits(c, p, zone, e) <= Hits(c, p, zone, f)
    ensures Count(cs, n, zone, e) <= Count(cs, n, zone, f)
  {
    if n > 0 {
      CountLe(cs, n - 1, zone, e, f);
    }
  }

  /** A counter that is candle by candle the sum of two others is their sum. */
  lemma {:induction false} CountSum(cs: seq<CandleEntry>, n: nat, zone: PriceZone, e: Event, f: Event, g: Event)
    requires n <= |cs|
    requires forall c, p :: Hits(c, p, zone, e) == Hits(c, p, zone, f) + Hits(c, p, zone, g)
    ensures Count(cs, n, zone, e) == Count(cs, n, zone, f) + Count(cs, n, zone, g)
  {
    if n > 0 {
      CountSum(cs, n - 1, zone, e, f, g);
    }
  }

  lemma {:induction false} CountInOut(cs: seq<CandleEntry>, n: nat, zone: PriceZone)
    requires n <= |cs|
    ensures Count(cs, n, zone, InZone) + Count(cs, n, zone, OutOfZone) == n
  {
    if n > 0 {
      CountInOut(cs, n - 1, zone);
    }
  }

  lemma {:induction false} TouchesSplit(cs: seq<CandleEntry>, n: nat, zone: PriceZone)
    requires n <= |cs|
    ensures Count(cs, n, zone, AnyTouch) <= Count(cs, n, zone, UpperTouch) + Count(cs, n, zone, LowerTouch)
  {
    if n > 0 {
      TouchesSplit(cs, n - 1, zone);
    }
  }

  /** The first candle of the window has no previous candle, so it is never
      a breakout. */
  lemma {:induction false} FirstCandleNoBreakout(cs: seq<CandleEntry>, n: nat, zone: PriceZone)
    requires n <= |cs|
    ensures Count(cs, n, zone, BreakoutEvent) == 0 || Count(cs, n, zone, BreakoutEvent) < n
    ensures n <= 1 ==> Count(cs, n, zone, BreakoutEvent) == 0
  {
    if n > 0 {
      FirstCandleNoBreakout(cs, n - 1, zone);
    }
  }

  lemma {:induction false} BreakoutVelocitiesCount(cs: seq<CandleEntry>, n: nat, zone: PriceZone)
    requires n <= |cs|
    ensures |BreakoutVelocities(cs, n, zone)| == Count(cs, n, zone, BreakoutEvent)
  {
    if n > 0 {
      BreakoutVelocitiesCount(cs, n - 1, zone);
    }
  }

  lemma {:induction false} ApproachVelocitiesCount(cs: seq<CandleEntry>, n: nat, zone: PriceZone)
    requires n <= |cs|
    ensures |ApproachVelocities(cs, n, zone)| <= Count(cs, n, zone, AnyTouch)
  {
    if n > 0 {
      ApproachVelocitiesCount(cs, n - 1, zone);
    }
  }

  lemma {:induction false} LastInteractionUnset(cs: seq<CandleEntry>, n: nat, zone: PriceZone)
    requires n <= |cs|
    ensures LastInteraction(cs, n, zone).None?
            <==> Count(cs, n, zone, AnyTouch) == 0 && Count(cs, n, zone, BreakoutEvent) == 0
  {
    if n > 0 {
      var c, p := cs[n - 1], PrevCandle(cs, n - 1);
      LastInteractionUnset(cs, n - 1, zone);
      assert Hits(c, p, zone, BounceEvent) > 0 ==> Hits(c, p, zone, AnyTouch) > 0;
    }
  }

  /** Candle by candle: a bounce needs a touch and happens at most once, a
      touch is of the upper or the lower bound, and a breakout is bullish or
      bearish. */
  lemma HitsRelations(zone: PriceZone)
    ensures forall c, p :: Hits(c, p, zone, BounceEvent) <= Hits(c, p, zone, AnyTouch)
    ensures forall c, p :: Hits(c, p, zone, UpperTouch) <= Hits(c, p, zone, AnyTouch)
    ensures forall c, p :: Hits(c, p, zone, LowerTouch) <= Hits(c, p, zone, AnyTouch)
    ensures forall c, p :: Hits(c, p, zone, BreakoutEvent)
                           == Hits(c, p, zone, BullishBreakout) + Hits(c, p, zone, BearishBreakout)
  {
    forall c, p
      ensures Hits(c, p, zone, BounceEvent) <= Hits(c, p, zone, AnyTouch)
      ensures Hits(c, p, zone, UpperTouch) <= Hits(c, p, zone, AnyTouch)
      ensures Hits(c, p, zone, LowerTouch) <= Hits(c, p, zone, AnyTouch)
      ensures Hits(c, p, zone, BreakoutEvent) == Hits(c, p, zone, BullishBreakout) + Hits(c, p, zone, BearishBreakout)
    {
    }
  }

  /** The counters of the scan loop after reading `cs`. */
  datatype Tally = Tally(
    touchCount: nat,
    bounceCount: nat,
    breakoutCount: nat,
    timeInZone: nat,
    timeOutsideZone: nat,
    totalDistanceFromCenter: real,
    upperTouches: nat,
    lowerTouches: nat,
    lastInteraction: Option<Interaction>,
    volatilityInZone: real,
    volatilityOutsideZone: real,
    breakoutVelocities: seq<real>,
    approachVelocities: seq<real>,
    bullishBreakouts: nat,
    bearishBreakouts: nat)

  /** The loop's counters after it has read `cs` in order.  The source's
      `inZoneCount` and `outZoneCount` always equal `timeInZone` and
      `timeOutsideZone` and are not kept separately. */
  function Scan(cs: seq<CandleEntry>, zone: PriceZone): Tally
  {
    var n := |cs|;
    Tally(
      Count(cs, n, zone, AnyTouch), Count(cs, n, zone, BounceEvent), Count(cs, n, zone, BreakoutEvent),
      Count(cs, n, zone, InZone), Count(cs, n, zone, OutOfZone),
      Accumulated(cs, n, zone, DistanceFromCenter),
      Count(cs, n, zone, UpperTouch), Count(cs, n, zone, LowerTouch),
      LastInteraction(cs, n, zone),
      Accumulated(cs, n, zone, RangeInZone), Accumulated(cs, n, zone, RangeOutOfZone),
      BreakoutVelocities(cs, n, zone), ApproachVelocities(cs, n, zone),
      Count(cs, n, zone, BullishBreakout), Count(cs, n, zone, BearishBreakout))
  }

  /** What the counters always satisfy: every candle is either in or out of
      the zone, a bounce needs a touch on the same candle, every breakout is
      bullish or bearish and records one velocity, the first candle never
      counts as a breakout, and the last interaction is unset only while
      nothing was touched or broken. */
  predicate Consistent(t: Tally, n: nat)
  {
    && t.timeInZone + t.timeOutsideZone == n
    && t.bounceCount <= t.touchCount
    && t.breakoutCount == t.bullishBreakouts + t.bearishBreakouts
    && |t.breakoutVelocities| == t.breakoutCount
    && |t.approachVelocities| <= t.touchCount
    && t.upperTouches <= t.touchCount && t.lowerTouches <= t.touchCount
    && t.touchCount <= t.upperTouches + t.lowerTouches
    && (t.breakoutCount < n || t.breakoutCount == 0)
    && (t.lastInteraction.None? <==> t.touchCount == 0 && t.breakoutCount == 0)
  }

  lemma ScanConsistent(cs: seq<CandleEntry>, zone: PriceZone)
    ensures Consistent(Scan(cs, zone), |cs|)
  {
    var n := |cs|;
    HitsRelations(zone);
    CountInOut(cs, n, zone);
    CountLe(cs, n, zone, BounceEvent, AnyTouch);
    CountLe(cs, n, zone, UpperTouch, AnyTouch);
    CountLe(cs, n, zone, LowerTouch, AnyTouch);
    CountSum(cs, n, zone, BreakoutEvent, BullishBreakout, BearishBreakout);
    TouchesSplit(cs, n, zone);
    BreakoutVelocitiesCount(cs, n, zone);
    ApproachVelocitiesCount(cs, n, zone);
    FirstCandleNoBreakout(cs, n, zone);
    LastInteractionUnset(cs, n, zone);
  }

  /** A degenerate zone (`upper <= lower`) has nothing inside it, so no
      breakout is ever counted. */
  lemma {:induction false} NoBreakoutFromEmptyZone(cs: seq<CandleEntry>, n: nat, zone: PriceZone)
    requires n <= |cs|
    requires zone.upper <= zone.lower
    ensures Count(cs, n, zone, BreakoutEvent) == 0 && Count(cs, n, zone, InZone) == 0
  {
    if n > 0 {
      NoBreakoutFromEmptyZone(cs, n - 1, zone);
    }
  }

  /** A close exactly on the upper bound after a close inside is scored as a
      bearish breakout with velocity -1. */
  lemma CloseOnUpperIsBearishBreakout(a: CandleEntry, b: CandleEntry, zone: PriceZone)
    requires Inside(a.close, zone) && b.close == zone.upper
    ensures Count([a, b], 2, zone, BearishBreakout) == 1
    ensures Count([a, b], 2, zone, BullishBreakout) == 0
    ensures BreakoutVelocities([a, b], 2, zone) == [-1.0]
  {
    var cs := [a, b];
    assert PrevCandle(cs, 0) == None && PrevCandle(cs, 1) == Some(a);
    assert Count(cs, 1, zone, BearishBreakout) == 0 && Count(cs, 1, zone, BullishBreakout) == 0;
    assert BreakoutVelocities(cs, 1, zone) == [];
    assert IsBreakout(b, Some(a), zone);
    var h := zone.upper - zone.lower;
    assert h > 0.0;
    assert BreakoutDistance(b.close, zone) == -1.0 * h;
    assert (-1.0 * h) / h == -1.0;
    assert BreakoutVelocity(b, Some(a), zone) == -1.0;
  }

  // ---------------------------------------------------------------------
  // analyzeZoneInteraction: the summary after the loop

  /** `Math.round` of the clamped strength: time in zone weighs 50, touches
      add up to 30, breakouts take off up to 40. */
  function StrengthScore(t: Tally): (s: int)
    requires t.timeInZone + t.timeOutsideZone > 0
    ensures 0 <= s <= 100
  {
    var timeInZoneRatio := t.timeInZone as real / (t.timeInZone + t.timeOutsideZone) as real;
    var breakoutPenalty := Min(t.breakoutCount as real * 15.0, 40.0);
    var touchBonus := Min(t.touchCount as real * 5.0, 30.0);
    RoundHalfUp(Max(0.0, Min(100.0, timeInZoneRatio * 50.0 + touchBonus - breakoutPenalty)))
  }

  /** The breakout momentum class of the mean breakout velocity. */
  function MomentumOnBreakout(avgBreakoutVelocity: real, breakoutCount: nat): (m: Option<BreakoutMomentum>)
    ensures m == Some(StrongMomentum) <==> avgBreakoutVelocity > 0.5
    ensures m.None? <==> avgBreakoutVelocity <= 0.2 && breakoutCount == 0
  {
    if avgBreakoutVelocity > 0.5 then Some(StrongMomentum)
    else if avgBreakoutVelocity > 0.2 then Some(ModerateMomentum)
    else if breakoutCount > 0 then Some(WeakMomentum)
    else None
  }

  /** Pressure needs one side to outnumber the other by half again. */
  function PressureDirection(bullish: nat, bearish: nat): (p: Pressure)
    ensures p == BullishPressure <==> bullish as real > 1.5 * bearish as real
    ensures p == BearishPressure <==> bearish as real > 1.5 * bullish as real
    ensures p == BullishPressure ==> bullish > bearish
    ensures p == BearishPressure ==> bearish > bullish
    ensures bullish == bearish ==> p == NeutralPressure
    ensures bearish == 0 && bullish > 0 ==> p == BullishPressure
    ensures bullish == 0 && bearish > 0 ==> p == BearishPressure
  {
    if bullish as real > bearish as real * 1.5 then BullishPressure
    else if bearish as real > bullish as real * 1.5 then BearishPressure
    else NeutralPressure
  }

  /** Distance of `close` from the zone midpoint as a percentage of the zone
      height.  A zero height makes the percentage infinite or NaN, which no
      threshold accepts, hence `Far`. */
  function DistanceToMid(close: real, zone: PriceZone): (d: MidProximity)
    ensures zone.upper == zone.lower ==> d == Far
    ensures close == (zone.upper + zone.lower) / 2.0 && zone.upper != zone.lower ==> d == VeryClose
    ensures zone.upper > zone.lower && d == Far ==>
              Abs(close - (zone.upper + zone.lower) / 2.0) >= 0.3 * (zone.upper - zone.lower)
  {
    var zoneHeight := zone.upper - zone.lower;
    if zoneHeight == 0.0 then Far
    else
      var distanceToMidpoint := Abs(close - (zone.upper + zone.lower) / 2.0);
      var pct := distanceToMidpoint / zoneHeight * 100.0;
      PercentAtLeast(distanceToMidpoint, zoneHeight, 30.0);
      if pct < 5.0 then VeryClose
      else if pct < 15.0 then Close
      else if pct < 30.0 then MidDistance
      else Far
  }

  /** Percentage beyond the broken bound, only when the last interaction of
      the scan was a breakout and the current close is outside. */
  function LastBreakoutChange(last: Option<Interaction>, close: real, zone: PriceZone): (c: real)
    ensures last != Some(Breakout) || Inside(close, zone) ==> c == 0.0
    ensures last == Some(Breakout) && zone.upper > 0.0 && close > zone.upper ==> c >= 0.0
    ensures last == Some(Breakout) && 0.0 < zone.lower <= zone.upper && close < zone.lower ==> c <= 0.0
  {
    var change :=
      if last == Some(Breakout) then
        if close > zone.upper then Div(close - zone.upper, zone.upper) * 100.0
        else if close < zone.lower then Div(close - zone.lower, zone.lower) * 100.0
        else 0.0
      else 0.0;
    DivSign(close - zone.upper, zone.upper);
    DivSign(close - zone.lower, zone.lower);
    Round2AtLeast(change, 0);
    Round2AtMost(change, 0);
    Round2(change)
  }

  /** Everything `analyzeZoneInteraction` returns, from the loop's counters. */
  function Summarize(t: Tally, zone: PriceZone, current: CandleEntry, recent: seq<CandleEntry>)
    : PriceZoneInteraction
    requires t.timeInZone + t.timeOutsideZone > 0
  {
    var avgVolatilityInZone := if t.timeInZone > 0 then t.volatilityInZone / t.timeInZone as real else 0.0;
    var avgVolatilityOutsideZone :=
      if t.timeOutsideZone > 0 then t.volatilityOutsideZone / t.timeOutsideZone as real else 0.0;
    var volatilityRatio :=
      if avgVolatilityOutsideZone > 0.0 then avgVolatilityInZone / avgVolatilityOutsideZone else 1.0;
    var avgBreakoutVelocity :=
      if |t.breakoutVelocities| > 0 then Sum(t.breakoutVelocities) / |t.breakoutVelocities| as real else 0.0;
    var avgApproachVelocity :=
      if |t.approachVelocities| > 0 then Sum(t.approachVelocities) / |t.approachVelocities| as real else 0.0;
    var zoneHeight := zone.upper - zone.lower;
    var isCurrentOpen := Inside(current.open, zone);
    var isCurrentCloseOutside := current.close > zone.upper || current.close < zone.lower;
    var isCurrentOpenOutside := current.open > zone.upper || current.open < zone.lower;
    PriceZoneInteraction(
      touchCount := t.touchCount,
      bounceCount := t.bounceCount,
      breakoutCount := t.breakoutCount,
      timeInZone := t.timeInZone,
      timeOutsideZone := t.timeOutsideZone,
      avgDistanceFromCenter :=
        if |recent| > 0 then t.totalDistanceFromCenter / |recent| as real else 0.0,
      extremePoint :=
        if t.upperTouches > t.lowerTouches then Some(UpperBoundary)
        else if t.lowerTouches > t.upperTouches then Some(LowerBoundary)
        else None,
      strengthScore := StrengthScore(t),
      lastInteraction := t.lastInteraction,
      volatilityInZone := Round2(avgVolatilityInZone),
      volatilityOutsideZone := Round2(avgVolatilityOutsideZone),
      volatilityRatio := Round2(volatilityRatio),
      breakoutVelocity := Round2(avgBreakoutVelocity),
      approachVelocity := Round2(avgApproachVelocity),
      momentumOnBreakout := MomentumOnBreakout(avgBreakoutVelocity, t.breakoutCount),
      pressureDirection := PressureDirection(t.bullishBreakouts, t.bearishBreakouts),
      distanceToMid := DistanceToMid(current.close, zone),
      lastBreakoutChange := LastBreakoutChange(t.lastInteraction, current.close, zone),
      breakoutType :=
        if isCurrentOpen && isCurrentCloseOutside then Some(BreakoutStart)
        else if isCurrentOpenOutside && isCurrentCloseOutside then Some(BreakoutCont)
        else None,
      breakoutStartScore :=
        if isCurrentOpen && isCurrentCloseOutside then Some(ScoreBreakoutStart(current, recent, zone, zoneHeight))
        else None)
  }

  /** The result of `analyzeZoneInteraction(candles, zone, lookback)`: the
      scan of the last `lookback` candles summarised against the last candle. */
  function ZoneInteraction(candles: seq<CandleEntry>, zone: PriceZone, lookback: nat): PriceZoneInteraction
    requires |candles| > 0
  {
    var recent := LastN(candles, lookback);
    ScanConsistent(recent, zone);
    Summarize(Scan(recent, zone), zone, candles[|candles| - 1], recent)
  }

  /** The scan accounts for every recent candle, the strength is within
      [0, 100], the momentum class is unset exactly when nothing broke out,
      and the breakout type and its score follow where the current candle
      opened and closed. */
  lemma ZoneInteractionFacts(candles: seq<CandleEntry>, zone: PriceZone, lookback: nat)
    requires |candles| > 0
    ensures var r, recent, cur := ZoneInteraction(candles, zone, lookback), LastN(candles, lookback), candles[|candles| - 1];
      var closeOutside := cur.close > zone.upper || cur.close < zone.lower;
      && r.timeInZone + r.timeOutsideZone == |recent|
      && r.bounceCount <= r.touchCount
      && r.breakoutCount < |recent|
      && 0 <= r.strengthScore <= 100
      && (r.momentumOnBreakout.None? <==> r.breakoutCount == 0)
      && (r.lastInteraction.None? <==> r.touchCount == 0 && r.breakoutCount == 0)
      && (r.breakoutType == Some(BreakoutStart) <==> Inside(cur.open, zone) && closeOutside)
      && (r.breakoutType == Some(BreakoutCont) <==> !Inside(cur.open, zone) && !(zone.lower <= cur.open <= zone.upper) && closeOutside)
      && (r.breakoutStartScore.Some? <==> r.breakoutType == Some(BreakoutStart))
      && (zone.upper <= zone.lower ==> r.breakoutCount == 0 && r.timeInZone == 0)
  {
    var recent := LastN(candles, lookback);
    var t := Scan(recent, zone);
    ScanConsistent(recent, zone);
    if zone.upper <= zone.lower {
      NoBreakoutFromEmptyZone(recent, |recent|, zone);
    }
    if |t.breakoutVelocities| > 0 {
      assert t.breakoutCount > 0;
    }
  }

  /** What reading candle `i` adds to each counter, spelled out in terms of
      the candle's own tests. */
  lemma ReadOneCandle(cs: seq<CandleEntry>, i: nat, zone: PriceZone)
    requires i < |cs|
    ensures var c, p := cs[i], PrevCandle(cs, i);
      && Count(cs, i + 1, zone, InZone) == Count(cs, i, zone, InZone) + (if Inside(c.close, zone) then 1 else 0)
      && Count(cs, i + 1, zone, OutOfZone) == Count(cs, i, zone, OutOfZone) + (if Inside(c.close, zone) then 0 else 1)
      && Count(cs, i + 1, zone, AnyTouch)
         == Count(cs, i, zone, AnyTouch) + (if TouchesUpper(c, zone) || TouchesLower(c, zone) then 1 else 0)
      && Count(cs, i + 1, zone, UpperTouch) == Count(cs, i, zone, UpperTouch) + (if TouchesUpper(c, zone) then 1 else 0)
      && Count(cs, i + 1, zone, LowerTouch) == Count(cs, i, zone, LowerTouch) + (if TouchesLower(c, zone) then 1 else 0)
      && Count(cs, i + 1, zone, BounceEvent) == Count(cs, i, zone, BounceEvent) + Hits(c, p, zone, BounceEvent)
      && Count(cs, i + 1, zone, BreakoutEvent)
         == Count(cs, i, zone, BreakoutEvent) + (if IsBreakout(c, p, zone) then 1 else 0)
      && Count(cs, i + 1, zone, BullishBreakout)
         == Count(cs, i, zone, BullishBreakout) + (if IsBreakout(c, p, zone) && c.close > zone.upper then 1 else 0)
      && Count(cs, i + 1, zone, BearishBreakout)
         == Count(cs, i, zone, BearishBreakout) + (if IsBreakout(c, p, zone) && !(c.close > zone.upper) then 1 else 0)
      && Accumulated(cs, i + 1, zone, RangeInZone) == Accumulated(cs, i, zone, RangeInZone) + Amount(c, zone, RangeInZone)
      && Accumulated(cs, i + 1, zone, RangeOutOfZone)
         == Accumulated(cs, i, zone, RangeOutOfZone) + Amount(c, zone, RangeOutOfZone)
      && Accumulated(cs, i + 1, zone, DistanceFromCenter)
         == Accumulated(cs, i, zone, DistanceFromCenter) + Amount(c, zone, DistanceFromCenter)
    ensures var c, p := cs[i], PrevCandle(cs, i);
      && BreakoutVelocities(cs, i + 1, zone)
         == BreakoutVelocities(cs, i, zone) + (if IsBreakout(c, p, zone) then [BreakoutVelocity(c, p, zone)] else [])
      && ApproachVelocities(cs, i + 1, zone)
         == ApproachVelocities(cs, i, zone)
            + (if p.Some? && (TouchesUpper(c, zone) || TouchesLower(c, zone)) then [ApproachVelocity(c, p.value, zone)] else [])
      && LastInteraction(cs, i + 1, zone)
         == (if IsBreakout(c, p, zone) then Some(Breakout)
             else if Hits(c, p, zone, BounceEvent) > 0 then Some(Bounce)
             else if TouchesUpper(c, zone) || TouchesLower(c, zone) then Some(Touch)
             else LastInteraction(cs, i, zone))
  {
  }

  /** The counter loop of `analyzeZoneInteraction` over the recent candles. */
  method ScanRecentCandles(recentCandles: seq<CandleEntry>, priceZone: PriceZone) returns (t: Tally)
    ensures t == Scan(recentCandles, priceZone)
    ensures Consistent(t, |recentCandles|)
  {
    var zoneMidpoint := (priceZone.upper + priceZone.lower) / 2.0;
    var touchCount, bounceCount, breakoutCount, timeInZone, timeOutsideZone := 0, 0, 0, 0, 0;
    var totalDistanceFromCenter := 0.0;
    var upperTouches, lowerTouches := 0, 0;
    var lastInteraction: Option<Interaction> := None;
    var volatilityInZone, volatilityOutsideZone := 0.0, 0.0;
    var breakoutVelocities: seq<real>, approachVelocities: seq<real> := [], [];
    var bullishBreakouts, bearishBreakouts := 0, 0;
    for i := 0 to |recentCandles|
      invariant touchCount == Count(recentCandles, i, priceZone, AnyTouch)
      invariant bounceCount == Count(recentCandles, i, priceZone, BounceEvent)
      invariant breakoutCount == Count(recentCandles, i, priceZone, BreakoutEvent)
      invariant timeInZone == Count(recentCandles, i, priceZone, InZone)
      invariant timeOutsideZone == Count(recentCandles, i, priceZone, OutOfZone)
      invariant upperTouches == Count(recentCandles, i, priceZone, UpperTouch)
      invariant lowerTouches == Count(recentCandles, i, priceZone, LowerTouch)
      invariant bullishBreakouts == Count(recentCandles, i, priceZone, BullishBreakout)
      invariant bearishBreakouts == Count(recentCandles, i, priceZone, BearishBreakout)
      invariant totalDistanceFromCenter == Accumulated(recentCandles, i, priceZone, DistanceFromCenter)
      invariant volatilityInZone == Accumulated(recentCandles, i, priceZone, RangeInZone)
      invariant volatilityOutsideZone == Accumulated(recentCandles, i, priceZone, RangeOutOfZone)
      invariant breakoutVelocities == BreakoutVelocities(recentCandles, i, priceZone)
      invariant approachVelocities == ApproachVelocities(recentCandles, i, priceZone)
      invariant lastInteraction == LastInteraction(recentCandles, i, priceZone)
    {
      var candle := recentCandles[i];
      var prevCandle := PrevCandle(recentCandles, i);
      ReadOneCandle(recentCandles, i, priceZone);
      var close := candle.close;
      var range := candle.high - candle.low;
      var isInside := Inside(close, priceZone);
      if isInside {
        timeInZone := timeInZone + 1;
        volatilityInZone := volatilityInZone + range;
        totalDistanceFromCenter := totalDistanceFromCenter + Abs(close - zoneMidpoint);
      } else {
        timeOutsideZone := timeOutsideZone + 1;
        volatilityOutsideZone := volatilityOutsideZone + range;
      }
      var touchesUpper := TouchesUpper(candle, priceZone);
      var touchesLower := TouchesLower(candle, priceZone);
      if touchesUpper || touchesLower {
        touchCount := touchCount + 1;
        if touchesUpper {
          upperTouches := upperTouches + 1;
        }
        if touchesLower {
          lowerTouches := lowerTouches + 1;
        }
        lastInteraction := Some(Touch);
        if prevCandle.Some? {
          approachVelocities := approachVelocities + [ApproachVelocity(candle, prevCandle.value, priceZone)];
        }
      }
      if prevCandle.Some? {
        var prevClose := prevCandle.value.close;
        if touchesUpper && close < prevClose {
          bounceCount := bounceCount + 1;
          lastInteraction := Some(Bounce);
        }
        if touchesLower && close > prevClose {
          bounceCount := bounceCount + 1;
          lastInteraction := Some(Bounce);
        }
      }
      if prevCandle.Some? {
        var prevInside := Inside(prevCandle.value.close, priceZone);
        if prevInside && !isInside {
          breakoutCount := breakoutCount + 1;
          lastInteraction := Some(Breakout);
          breakoutVelocities := breakoutVelocities + [BreakoutVelocity(candle, prevCandle, priceZone)];
          if close > priceZone.upper {
            bullishBreakouts := bullishBreakouts + 1;
          } else {
            bearishBreakouts := bearishBreakouts + 1;
          }
        }
      }
    }
    t := Tally(touchCount, bounceCount, breakoutCount, timeInZone, timeOutsideZone,
               totalDistanceFromCenter, upperTouches, lowerTouches, lastInteraction,
               volatilityInZone, volatilityOutsideZone, breakoutVelocities, approachVelocities,
               bullishBreakouts, bearishBreakouts);
    ScanConsistent(recentCandles, priceZone);
  }

  /** `analyzeZoneInteraction`: the counter loop over the last
      `lookbackCandles` candles, followed by the summary of the counters
      against the current (last) candle. */
  method AnalyzeZoneInteraction(candles: seq<CandleEntry>, priceZone: PriceZone, lookbackCandles: nat)
    returns (r: PriceZoneInteraction)
    requires |candles| > 0
    ensures r == ZoneInteraction(candles, priceZone, lookbackCandles)
  {
    var currentCandle := candles[|candles| - 1];
    var recentCandles := LastN(candles, lookbackCandles);
    var t := ScanRecentCandles(recentCandles, priceZone);
    r := Summarize(t, priceZone, currentCandle, recentCandles);
  }

  // ---------------------------------------------------------------------
  // scoreBreakoutStart

  /** How far the close went past the bound it broke (below `lower` unless
      above `upper`). */
  function PenetrationDistance(c: CandleEntry, zone: PriceZone): real
  {
    if c.close > zone.upper then c.close - zone.upper else zone.lower - c.close
  }

  /** Momentum (0-25): half the penetration in percent of `upper` plus ten
      times the body share of the range. */
  function MomentumScore(c: CandleEntry, zone: PriceZone): (s: real)
    ensures s <= 25.0
    ensures c.close > zone.upper > 0.0 && c.high > c.low && c.open <= c.close ==> s > 0.0
  {
    var totalRange := c.high - c.low;
    var bodyRatio := if totalRange > 0.0 then Abs(c.close - c.open) / totalRange else 0.0;
    var penetrationPercent := Div(PenetrationDistance(c, zone), zone.upper) * 100.0;
    Min(25.0, penetrationPercent / 2.0 + bodyRatio * 10.0)
  }

  /** Sustainability: 12 by default; 22 or 8 when the second-to-last recent
      candle carries a non-neutral pressure that does or does not agree
      with the side the current close broke out to. */
  function SustainabilityScore(c: CandleEntry, recent: seq<CandleEntry>, zone: PriceZone): (s: real)
    ensures s == 8.0 || s == 12.0 || s == 22.0
    ensures s == 12.0 <==>
      || |recent| < 2
      || recent[|recent| - 2].priceZoneInteraction.None?
      || recent[|recent| - 2].priceZoneInteraction.value.pressureDirection == NeutralPressure
    ensures s == 22.0 <==>
      && |recent| >= 2
      && recent[|recent| - 2].priceZoneInteraction.Some?
      && var p := recent[|recent| - 2].priceZoneInteraction.value.pressureDirection;
         (c.close > zone.upper && p == BullishPressure) || (c.close < zone.lower && p == BearishPressure)
  {
    if |recent| >= 2 then
      var prevCandle := recent[|recent| - 2];
      match prevCandle.priceZoneInteraction
      case None => 12.0
      case Some(prevIA) =>
        if prevIA.pressureDirection != NeutralPressure then
          var isConsistent :=
            (c.close > zone.upper && prevIA.pressureDirection == BullishPressure)
            || (c.close < zone.lower && prevIA.pressureDirection == BearishPressure);
          if isConsistent then 22.0 else 8.0
        else 12.0
    else 12.0
  }

  /** Volume profile (0-20): forty times the penetration in zone heights. */
  function VolumeScore(c: CandleEntry, zone: PriceZone, zoneHeight: real): (s: real)
    ensures s <= 20.0
    ensures zoneHeight > 0.0 && PenetrationDistance(c, zone) >= 0.0 ==> s >= 0.0
  {
    Min(20.0, Div(PenetrationDistance(c, zone), zoneHeight) * 40.0)
  }

  /** Rejection (0-15): 15 less 25 times the share of the range taken by the
      wick on the breakout side. */
  function RejectionScore(c: CandleEntry, zone: PriceZone): (s: real)
    ensures s >= 0.0
    ensures c.low <= c.close <= c.high ==> s <= 15.0
  {
    var totalRange := c.high - c.low;
    var upperWick := c.high - c.close;
    var lowerWick := c.close - c.low;
    DivSign(upperWick, totalRange);
    DivSign(lowerWick, totalRange);
    if c.close > zone.upper then Max(0.0, 15.0 - Div(upperWick, totalRange) * 25.0)
    else Max(0.0, 15.0 - Div(lowerWick, totalRange) * 25.0)
  }

  /** The unrounded sum the recommendation is taken from. */
  function CompositeScore(c: CandleEntry, recent: seq<CandleEntry>, zone: PriceZone, zoneHeight: real): real
  {
    MomentumScore(c, zone) + SustainabilityScore(c, recent, zone) + VolumeScore(c, zone, zoneHeight)
      + RejectionScore(c, zone)
  }

  /** The 70 / 55 / 40 thresholds. */
  function Recommend(score: real): (r: Recommendation)
    ensures r == StrongBuy <==> score >= 70.0
    ensures r == ModerateBuy <==> 55.0 <= score < 70.0
    ensures r == WeakBuy <==> 40.0 <= score < 55.0
    ensures r == Skip <==> score < 40.0
  {
    if score >= 70.0 then StrongBuy
    else if score >= 55.0 then ModerateBuy
    else if score >= 40.0 then WeakBuy
    else Skip
  }

  function Rank(r: Recommendation): nat
  {
    match r
    case Skip => 0
    case WeakBuy => 1
    case ModerateBuy => 2
    case StrongBuy => 3
  }

  /** A higher composite never gets a weaker recommendation. */
  lemma RecommendMonotone(x: real, y: real)
    requires x <= y
    ensures Rank(Recommend(x)) <= Rank(Recommend(y))
  {
  }

  /** `scoreBreakoutStart`: the four component scores rounded to cents, their
      sum, and the recommendation of the unrounded sum.  The source also
      counts how many of the next three candles continue the breakout, but
      that count never enters the result. */
  function ScoreBreakoutStart(c: CandleEntry, recent: seq<CandleEntry>, zone: PriceZone, zoneHeight: real)
    : (r: BreakoutStartScore)
    ensures r.momentumScore <= 25.0
    ensures r.volumeProfile <= 20.0
    ensures 0.0 <= r.rejectionStrength
    ensures c.low <= c.close <= c.high ==> r.rejectionStrength <= 15.0
    ensures r.sustainabilityScore == SustainabilityScore(c, recent, zone)
    ensures r.sustainabilityScore == 8.0 || r.sustainabilityScore == 12.0 || r.sustainabilityScore == 22.0
    ensures r.recommendation == Recommend(CompositeScore(c, recent, zone, zoneHeight))
    ensures r.recommendation == StrongBuy ==> r.compositeScore >= 70.0
    ensures c.low <= c.close <= c.high ==> r.compositeScore <= 82.0
  {
    var momentumScore := MomentumScore(c, zone);
    var sustainabilityScore := SustainabilityScore(c, recent, zone);
    var volumeScore := VolumeScore(c, zone, zoneHeight);
    var rejectionScore := RejectionScore(c, zone);
    var compositeScore := momentumScore + sustainabilityScore + volumeScore + rejectionScore;
    Round2AtMost(momentumScore, 2500);
    Round2AtMost(volumeScore, 2000);
    Round2AtLeast(rejectionScore, 0);
    Round2AtMost(rejectionScore, 1500);
    Round2OfCents(800);
    Round2OfCents(1200);
    Round2OfCents(2200);
    Round2AtLeast(compositeScore, 7000);
    Round2AtMost(compositeScore, 8200);
    BreakoutStartScore(
      Round2(momentumScore),
      Round2(sustainabilityScore),
      Round2(volumeScore),
      Round2(rejectionScore),
      Round2(compositeScore),
      Recommend(compositeScore))
  }
}
