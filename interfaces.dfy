/** Record shapes of the candle-analytics core (src/core/interfaces.ts).
    Closed sets of string literals become enumerations; open-ended strings
    (a candle's `status` and `side`) stay strings, because the simulator
    compares them with literals and keeps whatever the caller put there. */
module Interfaces {
  import opened Wrappers

  /** A price band; `mid == 0` is the "not computed" sentinel of frozen zones. */
  datatype PriceZone = PriceZone(lower: real, mid: real, upper: real)

  datatype CandleSide = Bull | Bear

  datatype PastTrend = Sideways | Bearish | Bullish

  datatype Bias = LongBias | ShortBias | NeutralBias

  datatype ZoneType = SupportZone | ResistanceZone

  /** Output of the candle feature extractor (`analyzeCandlestick`) together
      with the four annotations the simulator writes into it later. */
  datatype CandleData = CandleData(
    o: real, h: real, l: real, c: real,
    openTime: int,
    volume: real,
    volumeChangePercentage: real,
    bodyPercentage: real,
    topWickPercentage: real,
    bottomWickPercentage: real,
    strength: real,
    changePercentage: real,
    side: CandleSide,
    previousCandleData: seq<CandleData>,
    isIndecisive: bool,
    volumeSpike: bool,
    priceMove: string,
    atr: real,
    isNewZone: bool)

  /** Output of the zone-relative analysis (`analyzeZoneInteraction` of the
      candle analyzer). */
  datatype ZoneAnalysis = ZoneAnalysis(
    priceProximityCloseToZone: real,
    pastInteractionsToZoneCount: nat,
    pastTrend: PastTrend,
    momentum: real,
    zoneWidth: real,
    zoneType: ZoneType,
    zoneStrength: real,
    zoneTouchDetected: bool,
    reactionVelocity: real,
    volumeConfluence: real,
    currentCandleReversal: bool,
    volatilityScore: real,
    proximityScore: real,
    proximityConfidence: real,
    signalConfidence: real,
    interactionStrength: real,
    momentumStrength: real,
    timeInZoneMs: int,
    breakoutProbability: real,
    overallBias: Bias,
    pastResistanceBreakCount: nat,
    pastSupportBreakCount: nat)

  datatype VolumeAnalysis = VolumeAnalysis(
    totalVolume: real,
    buyVolume: real,
    sellVolume: real,
    deltaVolume: real,
    deltaRatio: real,
    avgVolumeLookback20: real,
    zScore: real,
    spikeFlag: bool,
    absorptionIndex: real,
    deltaAlignment: bool,
    corrVolumeMomentum: real,
    vwap: real,
    vwapDeviationPercent: real,
    volumePressure: real)

  /** The kinds of message `detectOverboughtOversold` pushes into `signals`
      (the numbers formatted into the messages are not kept). */
  datatype Signal =
    | ExtremeVwapDeviation | NotableVwapDeviation | MinorVwapDeviation
    | VolumeMomentumDivergence | VolumeMomentumAlignment | VolumeMomentumUncorrelated
    | ExtremeMomentumSpike | NotableMomentum | ModerateVolumeSpike
    | DeltaMisalignment
    | BullishExhaustion | BearishExhaustion
    | LowVolatilityAfterExtreme

  datatype OverboughtOversoldAnalysis = OverboughtOversoldAnalysis(
    extremeLevel: string,
    score: real,
    signals: seq<Signal>,
    confidence: real,
    rejectionProbability: real)

  datatype VolumeTrend = NoVolumeTrend | IncreasingVolume | DecreasingVolume | StableVolume

  datatype Dominance = BullDominant | BearDominant | MixedDominance

  datatype PastVolumeAnalysis = PastVolumeAnalysis(
    pastAvgVolume: real,
    volumeTrend: VolumeTrend,
    spikeFlag: bool,
    dominantDirection: Dominance)

  datatype Recommendation = StrongBuy | ModerateBuy | WeakBuy | Skip

  datatype BreakoutStartScore = BreakoutStartScore(
    momentumScore: real,
    sustainabilityScore: real,
    volumeProfile: real,
    rejectionStrength: real,
    compositeScore: real,
    recommendation: Recommendation)

  datatype Boundary = UpperBoundary | LowerBoundary

  datatype Interaction = Touch | Bounce | Breakout

  datatype BreakoutMomentum = StrongMomentum | ModerateMomentum | WeakMomentum

  datatype Pressure = BullishPressure | BearishPressure | NeutralPressure

  datatype MidProximity = VeryClose | Close | MidDistance | Far

  datatype BreakoutType = BreakoutStart | BreakoutCont

  datatype PriceZoneInteraction = PriceZoneInteraction(
    touchCount: nat,
    bounceCount: nat,
    breakoutCount: nat,
    timeInZone: nat,
    timeOutsideZone: nat,
    avgDistanceFromCenter: real,
    extremePoint: Option<Boundary>,
    strengthScore: int,
    lastInteraction: Option<Interaction>,
    volatilityInZone: real,
    volatilityOutsideZone: real,
    volatilityRatio: real,
    breakoutVelocity: real,
    approachVelocity: real,
    momentumOnBreakout: Option<BreakoutMomentum>,
    pressureDirection: Pressure,
    distanceToMid: MidProximity,
    lastBreakoutChange: real,
    breakoutType: Option<BreakoutType>,
    breakoutStartScore: Option<BreakoutStartScore>)

  /** The per-candle analyzer outputs; `None` on a candle means "not analysed". */
  datatype Analytics = Analytics(
    zoneAnalysis: ZoneAnalysis,
    volumeAnalysis: VolumeAnalysis,
    overboughtOversold: OverboughtOversoldAnalysis,
    candleData: CandleData,
    pastVolumeAnalysis: PastVolumeAnalysis)

  /** A market candle with the annotations and position fields the simulator
      writes into it. */
  datatype CandleEntry = CandleEntry(
    openTime: int,
    open: real,
    high: real,
    low: real,
    close: real,
    volume: real,
    closeTime: int,
    closed: bool,
    support: Option<PriceZone>,
    resistance: Option<PriceZone>,
    breakthroughResistance: bool,
    breakthroughSupport: bool,
    status: string,
    side: string,
    tpPrice: real,
    slPrice: real,
    margin: real,
    leverage: real,
    entryFee: real,
    pnl: real,
    duration: real,
    analytics: Option<Analytics>,
    priceZone: Option<PriceZone>,
    priceZoneInteraction: Option<PriceZoneInteraction>)

  datatype Direction = Up | Down | Mixed

  datatype ReactionData = ReactionData(
    direction: Direction,
    strength: real,
    highestPrice: real,
    lowestPrice: real,
    priceRange: real,
    avgMomentum: real,
    volumeIncreased: bool)

  /** An exchange candle: its wicks enclose its body. */
  predicate WellFormed(c: CandleEntry)
  {
    c.low <= c.open <= c.high && c.low <= c.close <= c.high
  }

  /** The highs, lows, closes and volumes of a list of candles, in order. */
  function Highs(cs: seq<CandleEntry>): seq<real>
  {
    seq(|cs|, i requires 0 <= i < |cs| => cs[i].high)
  }

  function Lows(cs: seq<CandleEntry>): seq<real>
  {
    seq(|cs|, i requires 0 <= i < |cs| => cs[i].low)
  }

  function Closes(cs: seq<CandleEntry>): seq<real>
  {
    seq(|cs|, i requires 0 <= i < |cs| => cs[i].close)
  }

  function Volumes(cs: seq<CandleEntry>): seq<real>
  {
    seq(|cs|, i requires 0 <= i < |cs| => cs[i].volume)
  }
}
