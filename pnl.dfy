/** Leverage PnL, fee and stop-loss arithmetic (src/utility/PnlUtility.ts). */
module Pnl {
  import opened Wrappers
  import opened Numeric

  /** Taker fee rate charged on a position's notional (0.05 %). */
  const TakerFee: real := 0.0005

  datatype SLLossOutput = SLLossOutput(
    priceDifference: real,
    priceChangePercent: real,
    lossAmount: real,
    remainingBalance: real,
    lossPercent: real)

  /** Signed adverse price move of a stop-loss: positive when hitting the
      stop loses money; 0 for a side that is neither "BUY" nor "SELL". */
  function AdverseMove(side: string, entryPrice: real, slPrice: real): real
  {
    if side == "BUY" then entryPrice - slPrice
    else if side == "SELL" then slPrice - entryPrice
    else 0.0
  }

  /** Signed leveraged ROI percent of the stop-loss move. */
  function RoiPercent(side: string, entryPrice: real, slPrice: real, leverage: real): real
  {
    Div(AdverseMove(side, entryPrice, slPrice), entryPrice) * leverage * 100.0
  }

  /** `calculateSLLoss`: magnitudes of the loss at the stop, and the balance
      left after the signed loss. */
  function CalculateSLLoss(side: string, entryPrice: real, slPrice: real, positionCost: real, leverage: real)
    : (r: SLLossOutput)
    ensures r.priceDifference >= 0.0 && r.priceChangePercent >= 0.0
    ensures r.lossAmount >= 0.0 && r.lossPercent >= 0.0
    ensures side != "BUY" && side != "SELL" ==>
      r.priceDifference == 0.0 && r.lossAmount == 0.0 && r.remainingBalance == positionCost
    ensures side == "BUY" || side == "SELL" ==> r.priceDifference == Abs(entryPrice - slPrice)
  {
    var diff := AdverseMove(side, entryPrice, slPrice);
    var roi := RoiPercent(side, entryPrice, slPrice, leverage);
    var loss := positionCost * roi / 100.0;
    SLLossOutput(
      Abs(diff),
      Abs(Div(diff, entryPrice) * 100.0),
      Abs(loss),
      positionCost - loss,
      Abs(roi))
  }

  /** A stop on the losing side of the entry (below a BUY, above a SELL)
      with positive price, cost and leverage leaves the cost minus the loss;
      a stop on the winning side leaves the cost plus it. */
  lemma SLLossBalance(side: string, entryPrice: real, slPrice: real, positionCost: real, leverage: real)
    requires side == "BUY" || side == "SELL"
    requires entryPrice > 0.0 && positionCost >= 0.0 && leverage >= 0.0
    ensures var r := CalculateSLLoss(side, entryPrice, slPrice, positionCost, leverage);
      (AdverseMove(side, entryPrice, slPrice) >= 0.0 ==> r.remainingBalance == positionCost - r.lossAmount)
      && (AdverseMove(side, entryPrice, slPrice) <= 0.0 ==> r.remainingBalance == positionCost + r.lossAmount)
      && r.lossAmount == positionCost * r.lossPercent / 100.0
  {
    var d := AdverseMove(side, entryPrice, slPrice);
    var q := Div(d, entryPrice);
    assert q * entryPrice == d;
    if d >= 0.0 {
      assert q >= 0.0;
    } else {
      assert q <= 0.0;
    }
  }

  /** Percent price change in the position's favour: long for "BUY",
      short for every other side. */
  function FavourableChangePercent(entryPrice: real, currentPrice: real, side: string): real
    requires entryPrice != 0.0
  {
    if side == "BUY" then (currentPrice - entryPrice) / entryPrice * 100.0
    else (entryPrice - currentPrice) / entryPrice * 100.0
  }

  /** `calculatePNLPercent`: leveraged percent change, rounded half-up to two
      decimals.  `None` is the non-finite result of a zero entry price. */
  function CalculatePnlPercent(entryPrice: real, currentPrice: real, side: string, leverage: real)
    : (r: Option<real>)
    ensures r.None? <==> entryPrice == 0.0
    ensures entryPrice != 0.0 && currentPrice == entryPrice ==> r == Some(0.0)
  {
    if entryPrice == 0.0 then None
    else Some(Round2(FavourableChangePercent(entryPrice, currentPrice, side) * leverage))
  }

  /** A long gains with a rising price and a short with a falling one: the
      rounded PnL percent is monotone in the current price for a positive
      entry and non-negative leverage. */
  lemma PnlPercentMonotone(entryPrice: real, p: real, q: real, side: string, leverage: real)
    requires entryPrice > 0.0 && leverage >= 0.0 && p <= q
    ensures side == "BUY" ==>
      CalculatePnlPercent(entryPrice, p, side, leverage).value <= CalculatePnlPercent(entryPrice, q, side, leverage).value
    ensures side != "BUY" ==>
      CalculatePnlPercent(entryPrice, q, side, leverage).value <= CalculatePnlPercent(entryPrice, p, side, leverage).value
  {
    FavourableChangeMonotone(entryPrice, p, q, side);
    if side == "BUY" {
      MulMonotone(FavourableChangePercent(entryPrice, p, side), FavourableChangePercent(entryPrice, q, side), leverage);
      ScaledPnlMonotone(entryPrice, p, q, side, leverage,
        FavourableChangePercent(entryPrice, p, side) * leverage, FavourableChangePercent(entryPrice, q, side) * leverage);
    } else {
      MulMonotone(FavourableChangePercent(entryPrice, q, side), FavourableChangePercent(entryPrice, p, side), leverage);
      ScaledPnlMonotone(entryPrice, q, p, side, leverage,
        FavourableChangePercent(entryPrice, q, side) * leverage, FavourableChangePercent(entryPrice, p, side) * leverage);
    }
  }

  lemma FavourableChangeMonotone(entryPrice: real, p: real, q: real, side: string)
    requires entryPrice > 0.0 && p <= q
    ensures side == "BUY" ==> FavourableChangePercent(entryPrice, p, side) <= FavourableChangePercent(entryPrice, q, side)
    ensures side != "BUY" ==> FavourableChangePercent(entryPrice, q, side) <= FavourableChangePercent(entryPrice, p, side)
  {
    if side == "BUY" {
      DivMonotone(p - entryPrice, q - entryPrice, entryPrice);
      MulMonotone((p - entryPrice) / entryPrice, (q - entryPrice) / entryPrice, 100.0);
    } else {
      DivMonotone(entryPrice - q, entryPrice - p, entryPrice);
      MulMonotone((entryPrice - q) / entryPrice, (entryPrice - p) / entryPrice, 100.0);
    }
  }

  /** Ordered scaled changes `gx <= gy` give ordered rounded percents. */
  lemma ScaledPnlMonotone(entryPrice: real, x: real, y: real, side: string, leverage: real, gx: real, gy: real)
    requires entryPrice != 0.0
    requires gx == FavourableChangePercent(entryPrice, x, side) * leverage
    requires gy == FavourableChangePercent(entryPrice, y, side) * leverage
    requires gx <= gy
    ensures CalculatePnlPercent(entryPrice, x, side, leverage).value <= CalculatePnlPercent(entryPrice, y, side, leverage).value
  {
    PnlPercentValue(entryPrice, x, side, leverage, gx);
    PnlPercentValue(entryPrice, y, side, leverage, gy);
    Round2Monotone(gx, gy);
  }

  lemma PnlPercentValue(entryPrice: real, currentPrice: real, side: string, leverage: real, g: real)
    requires entryPrice != 0.0
    requires g == FavourableChangePercent(entryPrice, currentPrice, side) * leverage
    ensures CalculatePnlPercent(entryPrice, currentPrice, side, leverage).value == Round2(g)
  {
    PnlPercentSome(entryPrice, currentPrice, side, leverage);
  }

  lemma PnlPercentSome(entryPrice: real, currentPrice: real, side: string, leverage: real)
    requires entryPrice != 0.0
    ensures CalculatePnlPercent(entryPrice, currentPrice, side, leverage)
      == Some(Round2(FavourableChangePercent(entryPrice, currentPrice, side) * leverage))
  {
  }

  /** `calculateTakerFee`: the taker fee on the position notional. */
  function CalculateTakerFee(margin: real, leverage: real): (r: real)
    ensures margin >= 0.0 && leverage >= 0.0 ==> r >= 0.0
    ensures margin == 0.0 || leverage == 0.0 ==> r == 0.0
  {
    margin * leverage * TakerFee
  }

  /** `calculateEstimatedPnl`: the gross PnL of `pnlPercentage` on the margin,
      net of the exit taker fee; 0 for a non-finite percentage or a
      non-positive margin or leverage. */
  function CalculateEstimatedPnl(margin: real, pnlPercentage: Option<real>, leverage: real): (r: real)
    ensures pnlPercentage.None? || margin <= 0.0 || leverage <= 0.0 ==> r == 0.0
    ensures pnlPercentage.Some? && margin > 0.0 && leverage > 0.0 ==>
      r + CalculateTakerFee(margin, leverage) == pnlPercentage.value / 100.0 * margin
  {
    match pnlPercentage
    case None => 0.0
    case Some(pct) =>
      if margin <= 0.0 || leverage <= 0.0 then 0.0
      else pct / 100.0 * margin - margin * leverage * 0.0005
  }

  /** A break-even exit still loses the taker fee. */
  lemma BreakEvenLosesFee(margin: real, entryPrice: real, side: string, leverage: real)
    requires margin > 0.0 && leverage > 0.0 && entryPrice != 0.0
    ensures CalculateEstimatedPnl(margin, CalculatePnlPercent(entryPrice, entryPrice, side, leverage), leverage)
         == -CalculateTakerFee(margin, leverage)
    ensures CalculateEstimatedPnl(margin, CalculatePnlPercent(entryPrice, entryPrice, side, leverage), leverage) < 0.0
  {
    assert CalculatePnlPercent(entryPrice, entryPrice, side, leverage) == Some(0.0);
  }

  /** `estimateSLLoss`: `None` when the current price or stop is 0 or the
      position-cost text is empty (JavaScript falsiness); otherwise the
      stop-loss figures at the current price, with the cost text read by
      `parseFloat`. */
  function EstimateSLLoss(side: string, currentPrice: real, slPrice: real, positionCost: string, leverage: real,
                          parseFloat: string -> real): (r: Option<SLLossOutput>)
    ensures r.None? <==> currentPrice == 0.0 || slPrice == 0.0 || positionCost == ""
    ensures r.Some? ==>
      r.value.priceDifference == AbsAdverse(side, currentPrice, slPrice)
      && r.value.lossAmount >= 0.0
  {
    if currentPrice == 0.0 || slPrice == 0.0 || positionCost == "" then None
    else Some(CalculateSLLoss(side, currentPrice, slPrice, parseFloat(positionCost), leverage))
  }

  /** The size of the stop-loss price move the loss figures are based on. */
  function AbsAdverse(side: string, entryPrice: real, slPrice: real): (r: real)
    ensures r >= 0.0
    ensures side == "BUY" || side == "SELL" ==> r == Abs(entryPrice - slPrice)
    ensures side != "BUY" && side != "SELL" ==> r == 0.0
  {
    Abs(AdverseMove(side, entryPrice, slPrice))
  }

  /** A position record as the exchange returns it; `None` stands for a
      field that `parseFloat` turns into NaN. */
  datatype Position = Position(positionAmt: Option<real>, entryPrice: Option<real>, markPrice: Option<real>)

  /** Entry plus exit taker fee of one position; 0 for an unparseable one. */
  function PositionFees(p: Position): (r: real)
    ensures r >= 0.0
  {
    if p.positionAmt.None? || p.entryPrice.None? || p.markPrice.None? then 0.0
    else
      var entryNotional := Abs(p.positionAmt.value * p.entryPrice.value);
      var exitNotional := Abs(p.positionAmt.value * p.markPrice.value);
      entryNotional * TakerFee + exitNotional * TakerFee
  }

  /** Fees summed over the positions, in order. */
  function TotalFees(ps: seq<Position>): real
  {
    if |ps| == 0 then 0.0 else TotalFees(ps[..|ps| - 1]) + PositionFees(ps[|ps| - 1])
  }

  lemma {:induction false} TotalFeesNonNegative(ps: seq<Position>)
    ensures TotalFees(ps) >= 0.0
  {
    if |ps| > 0 {
      TotalFeesNonNegative(ps[..|ps| - 1]);
    }
  }

  /** Positions with an unparseable field add no fee. */
  lemma {:induction false} TotalFeesOfUnparseable(ps: seq<Position>)
    requires forall i :: 0 <= i < |ps| ==> ps[i].markPrice.None?
    ensures TotalFees(ps) == 0.0
  {
    if |ps| > 0 {
      TotalFeesOfUnparseable(ps[..|ps| - 1]);
    }
  }

  /** `calculateNetPnlPrecise`: the unrealized PnL less the entry and exit
      taker fees of every parseable position; the PnL unchanged when the
      position list is absent or empty.  `None` is an absent list. */
  method CalculateNetPnlPrecise(unrealizedPnl: real, positions: Option<seq<Position>>) returns (net: real)
    ensures positions.None? || |positions.value| == 0 ==> net == unrealizedPnl
    ensures positions.Some? ==> net == unrealizedPnl - TotalFees(positions.value)
    ensures net <= unrealizedPnl
  {
    if positions.None? || |positions.value| == 0 {
      return unrealizedPnl;
    }
    var ps := positions.value;
    var totalFees := 0.0;
    var i := 0;
    while i < |ps|
      invariant 0 <= i <= |ps|
      invariant totalFees == TotalFees(ps[..i])
    {
      assert ps[..i + 1][..i] == ps[..i];
      totalFees := totalFees + PositionFees(ps[i]);
      i := i + 1;
    }
    assert ps[..i] == ps;
    TotalFeesNonNegative(ps);
    net := unrealizedPnl - totalFees;
  }
}
