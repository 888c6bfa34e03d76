/** In-memory trade-signal log table (src/utility/tradeSignalLoggerMemUtility.ts).
    The two JavaScript `Map`s become maps plus the sequence of their keys in
    insertion order, which is the order `Map` iteration visits them.  The
    wall clock (`Date.now()`) is a `now` parameter; the human-readable
    `localTime` / `exitLocalTime` strings are not kept. */
module TradeSignalLog {
  import opened Wrappers
  import opened Interfaces

  datatype Band = Band(lower: real, upper: real)

  datatype TpSl = TpSl(tp: real, sl: real)

  datatype PnlRange = PnlRange(highest: real, lowest: real)

  datatype TradeLog = TradeLog(
    timestamp: int,
    symbol: string,
    side: string,
    support: Band,
    resistance: Band,
    currentPrice: real,
    tpsl: TpSl,
    currentCandleData: CandleData,
    isOpen: bool,
    result: string,
    pnlPercentage: PnlRange,
    exitPrice: Option<real>,
    exitTimeStamp: Option<int>,
    duration: Option<int>,
    zoneAnalysis: ZoneAnalysis,
    pastVolumeAnalysis: PastVolumeAnalysis,
    pnl: Option<real>,
    margin: real,
    leverage: real,
    takerFee: real,
    volumeAnalysis: VolumeAnalysis,
    candleOpenTime: int)

  datatype IdLog = IdLog(id: nat, log: TradeLog)

  datatype TradeStats = TradeStats(
    wonCount: nat,
    lossCount: nat,
    openCount: nat,
    openPnl: real,
    totalPnl: real,
    totalTakerFee: real)

  /** `String.prototype.toLowerCase` on the ASCII letters; every other code
      unit is left alone (no other code unit lower-cases to a letter of
      "won" or "loss"). */
  function ToLower(s: string): (r: string)
    ensures |r| == |s|
    ensures forall i :: 0 <= i < |s| ==> ('A' <= s[i] <= 'Z' ==> r[i] as int == s[i] as int + 32)
    ensures forall i :: 0 <= i < |s| ==> (!('A' <= s[i] <= 'Z') ==> r[i] == s[i])
  {
    if |s| == 0 then ""
    else
      var c := s[0];
      var lc := if 'A' <= c <= 'Z' then (c as int + 32) as char else c;
      [lc] + ToLower(s[1..])
  }

  predicate IsWon(l: TradeLog) { ToLower(l.result) == "won" }

  predicate IsLoss(l: TradeLog) { ToLower(l.result) == "loss" }

  /** `x ?? 0` on a nullable pnl. */
  function PnlOrZero(l: TradeLog): real
  {
    l.pnl.GetOr(0.0)
  }

  /** The statistics of `getTradeStats` over the logs in order: each field is
      the `filter(...).length` or `reduce` of the source, gathered in one pass. */
  function Stats(logs: seq<TradeLog>): (s: TradeStats)
    ensures s.wonCount + s.lossCount <= |logs|
    ensures s.openCount <= |logs|
    ensures (forall i :: 0 <= i < |logs| ==> !logs[i].isOpen) ==> s.openCount == 0 && s.openPnl == 0.0
  {
    if |logs| == 0 then TradeStats(0, 0, 0, 0.0, 0.0, 0.0)
    else
      var s := Stats(logs[..|logs| - 1]);
      var l := logs[|logs| - 1];
      assert forall i :: 0 <= i < |logs| - 1 ==> logs[..|logs| - 1][i] == logs[i];
      TradeStats(
        s.wonCount + (if IsWon(l) then 1 else 0),
        s.lossCount + (if IsLoss(l) then 1 else 0),
        s.openCount + (if l.isOpen then 1 else 0),
        s.openPnl + (if l.isOpen then PnlOrZero(l) else 0.0),
        s.totalPnl + PnlOrZero(l),
        s.totalTakerFee + l.takerFee)
  }

  /** Count of the open logs, the `filter(isOpen).length` of the source. */
  function CountOpen(logs: seq<TradeLog>): nat
  {
    if |logs| == 0 then 0 else CountOpen(logs[..|logs| - 1]) + (if logs[|logs| - 1].isOpen then 1 else 0)
  }

  /** `getOpenPositions`: the open logs, in order. */
  function OpenLogs(logs: seq<TradeLog>): (r: seq<TradeLog>)
    ensures |r| == CountOpen(logs)
    ensures forall i :: 0 <= i < |r| ==> r[i].isOpen && r[i] in logs
  {
    if |logs| == 0 then []
    else
      var r := OpenLogs(logs[..|logs| - 1]);
      var l := logs[|logs| - 1];
      assert forall x :: x in logs[..|logs| - 1] ==> x in logs;
      if l.isOpen then r + [l] else r
  }

  /** The open count of `getTradeStats` agrees with `getOpenPositions`. */
  lemma {:induction false} StatsOpenCount(logs: seq<TradeLog>)
    ensures Stats(logs).openCount == |OpenLogs(logs)|
  {
    if |logs| > 0 {
      StatsOpenCount(logs[..|logs| - 1]);
    }
  }

  /** A won log is never also counted as a loss. */
  lemma WonNotLoss(l: TradeLog)
    requires IsWon(l)
    ensures !IsLoss(l)
  {
    assert |ToLower(l.result)| == 3;
  }

  /** The result `forceCloseOpenPositions` writes: "WON" iff a pnl is set and
      positive (a null pnl compares false). */
  function ForceClosed(l: TradeLog): (r: TradeLog)
    ensures !r.isOpen
    ensures l.isOpen ==> r == l.(isOpen := false, result := if l.pnl.Some? && l.pnl.value > 0.0 then "WON" else "LOSS")
    ensures !l.isOpen ==> r == l
  {
    if l.isOpen then
      l.(result := if l.pnl.Some? && l.pnl.value > 0.0 then "WON" else "LOSS", isOpen := false)
    else l
  }

  /** A force-closed position is counted as exactly one of won or loss. */
  lemma ForceClosedCounted(l: TradeLog)
    requires l.isOpen
    ensures IsWon(ForceClosed(l)) != IsLoss(ForceClosed(l))
    ensures IsWon(ForceClosed(l)) <==> l.pnl.Some? && l.pnl.value > 0.0
  {
    var r := ForceClosed(l);
    if l.pnl.Some? && l.pnl.value > 0.0 {
      assert r.result == "WON";
      assert ToLower("WON") == "won";
    } else {
      assert r.result == "LOSS";
      assert ToLower("LOSS") == "loss";
    }
  }

  function NewLog(now: int, symbol: string, side: string, support: Band, resistance: Band, currentPrice: real,
                  tpsl: TpSl, currentCandleData: CandleData, zoneAnalysis: ZoneAnalysis, margin: real,
                  leverage: real, takerFee: real, volumeAnalysis: VolumeAnalysis, candleOpenTime: int,
                  pastVolumeAnalysis: PastVolumeAnalysis): (l: TradeLog)
    ensures l.isOpen && l.result == "" && l.pnl.None?
    ensures l.exitPrice.None? && l.exitTimeStamp.None? && l.duration.None?
    ensures l.timestamp == now && l.symbol == symbol && l.side == side
    ensures l.pnlPercentage == PnlRange(0.0, 0.0)
  {
    TradeLog(now, symbol, side, support, resistance, currentPrice, tpsl, currentCandleData, true, "",
             PnlRange(0.0, 0.0), None, None, None, zoneAnalysis, pastVolumeAnalysis, None,
             margin, leverage, takerFee, volumeAnalysis, candleOpenTime)
  }

  /** Ids in insertion order: strictly increasing, exactly the map's keys,
      all below the next id to hand out. */
  ghost predicate Table<V>(m: map<nat, V>, order: seq<nat>, next: nat)
  {
    && next >= 1
    && (forall i, j :: 0 <= i < j < |order| ==> order[i] < order[j])
    && (forall k :: k in m <==> k in order)
    && (forall i :: 0 <= i < |order| ==> 1 <= order[i] < next)
  }

  class TradeSignalLoggerMem {
    var signals: map<nat, TradeLog>
    var order: seq<nat>
    var backtestLogs: map<nat, CandleEntry>
    var backtestOrder: seq<nat>
    var nextId: nat
    var nextBacktestId: nat

    ghost predicate Valid()
      reads this
    {
      Table(signals, order, nextId) && Table(backtestLogs, backtestOrder, nextBacktestId)
    }

    /** `getAllLogs`: the logs in insertion order. */
    function AllLogs(): (r: seq<TradeLog>)
      reads this
      requires Valid()
      ensures |r| == |order|
      ensures forall i :: 0 <= i < |order| ==> r[i] == signals[order[i]]
    {
      LogsOf(signals, order)
    }

    /** `getBackTestLogs`: the stored candle entries in insertion order. */
    function BackTestLogs(): (r: seq<CandleEntry>)
      reads this
      requires Valid()
      ensures |r| == |backtestOrder|
      ensures forall i :: 0 <= i < |backtestOrder| ==> r[i] == backtestLogs[backtestOrder[i]]
    {
      seq(|backtestOrder|, i reads this requires 0 <= i < |backtestOrder| && Valid() => backtestLogs[backtestOrder[i]])
    }

    constructor ()
      ensures Valid()
      ensures signals == map[] && order == [] && backtestLogs == map[] && backtestOrder == []
      ensures nextId == 1 && nextBacktestId == 1
    {
      signals := map[];
      order := [];
      backtestLogs := map[];
      backtestOrder := [];
      nextId := 1;
      nextBacktestId := 1;
    }

    /** `logSignal`: stores a fresh open log under `nextId`, then advances it. */
    method LogSignal(now: int, symbol: string, side: string, support: Band, resistance: Band,
                     currentPrice: real, tpsl: TpSl, currentCandleData: CandleData,
                     zoneAnalysis: ZoneAnalysis, margin: real, leverage: real, takerFee: real,
                     volumeAnalysis: VolumeAnalysis, candleOpenTime: int,
                     pastVolumeAnalysis: PastVolumeAnalysis) returns (id: nat)
      requires Valid()
      modifies this
      ensures Valid()
      ensures id == old(nextId) && nextId == id + 1
      ensures id !in old(signals)
      ensures forall k :: k in old(signals) ==> k < id
      ensures signals == old(signals)[id := NewLog(now, symbol, side, support, resistance, currentPrice, tpsl,
                                                  currentCandleData, zoneAnalysis, margin, leverage, takerFee,
                                                  volumeAnalysis, candleOpenTime, pastVolumeAnalysis)]
      ensures order == old(order) + [id]
      ensures AllLogs() == old(AllLogs()) + [signals[id]]
      ensures backtestLogs == old(backtestLogs) && backtestOrder == old(backtestOrder)
      ensures nextBacktestId == old(nextBacktestId)
    {
      var log := NewLog(now, symbol, side, support, resistance, currentPrice, tpsl, currentCandleData,
                        zoneAnalysis, margin, leverage, takerFee, volumeAnalysis, candleOpenTime,
                        pastVolumeAnalysis);
      id := nextId;
      nextId := nextId + 1;
      signals := signals[id := log];
      order := order + [id];
    }

    /** `logBackTestResult`: stores a copy of the entry under its own counter.
        The JSON round trip of the source is the identity on these values. */
    method LogBackTestResult(entry: CandleEntry) returns (id: nat)
      requires Valid()
      modifies this
      ensures Valid()
      ensures id == old(nextBacktestId) && nextBacktestId == id + 1
      ensures id !in old(backtestLogs)
      ensures backtestLogs == old(backtestLogs)[id := entry]
      ensures backtestOrder == old(backtestOrder) + [id]
      ensures BackTestLogs() == old(BackTestLogs()) + [entry]
      ensures signals == old(signals) && order == old(order) && nextId == old(nextId)
    {
      id := nextBacktestId;
      nextBacktestId := nextBacktestId + 1;
      backtestLogs := backtestLogs[id := entry];
      backtestOrder := backtestOrder + [id];
    }

    /** `getOpenPosition`: the first open log of the symbol in insertion
        order, with its id. */
    method GetOpenPosition(symbol: string) returns (r: Option<IdLog>)
      requires Valid()
      ensures r.Some? ==> r.value.id in signals && signals[r.value.id] == r.value.log
                          && r.value.log.symbol == symbol && r.value.log.isOpen
      ensures r.Some? ==> forall j :: 0 <= j < |order| && order[j] < r.value.id ==>
                            !(signals[order[j]].symbol == symbol && signals[order[j]].isOpen)
      ensures r.None? ==> forall k :: k in signals ==> !(signals[k].symbol == symbol && signals[k].isOpen)
    {
      var i := 0;
      while i < |order|
        invariant 0 <= i <= |order|
        invariant forall j :: 0 <= j < i ==> !(signals[order[j]].symbol == symbol && signals[order[j]].isOpen)
      {
        var log := signals[order[i]];
        if log.symbol == symbol && log.isOpen {
          return Some(IdLog(order[i], log));
        }
        i := i + 1;
      }
      return None;
    }

    /** `getOpenPositions`. */
    method GetOpenPositions() returns (r: seq<TradeLog>)
      requires Valid()
      ensures r == OpenLogs(AllLogs())
    {
      r := OpenLogs(AllLogs());
    }

    /** `closePosition`: false and no change for an unknown id; otherwise the
        log is closed with the result, exit price, exit time and duration. */
    method ClosePosition(id: nat, exitPrice: real, result: string, now: int) returns (ok: bool)
      requires Valid()
      modifies this
      ensures Valid()
      ensures ok <==> id in old(signals)
      ensures ok ==> signals == old(signals)[id := old(signals)[id].(
                      isOpen := false, result := result, exitPrice := Some(exitPrice),
                      exitTimeStamp := Some(now), duration := Some(now - old(signals)[id].timestamp))]
      ensures !ok ==> signals == old(signals)
      ensures order == old(order) && nextId == old(nextId)
      ensures backtestLogs == old(backtestLogs) && backtestOrder == old(backtestOrder)
      ensures nextBacktestId == old(nextBacktestId)
    {
      if id !in signals {
        return false;
      }
      var log := signals[id];
      var duration := now - log.timestamp;
      signals := signals[id := log.(isOpen := false, result := result, exitPrice := Some(exitPrice),
                                    exitTimeStamp := Some(now), duration := Some(duration))];
      return true;
    }

    /** `forceCloseOpenPositions`: closes every open log, returning how many
        were open. */
    method ForceCloseOpenPositions() returns (closedCount: nat)
      requires Valid()
      modifies this
      ensures Valid()
      ensures closedCount == CountOpen(old(AllLogs()))
      ensures closedCount == Stats(old(AllLogs())).openCount
      ensures signals.Keys == old(signals).Keys
      ensures forall k :: k in signals ==> signals[k] == ForceClosed(old(signals)[k])
      ensures forall k :: k in signals ==> !signals[k].isOpen
      ensures order == old(order) && nextId == old(nextId)
      ensures backtestLogs == old(backtestLogs) && backtestOrder == old(backtestOrder)
      ensures nextBacktestId == old(nextBacktestId)
    {
      closedCount, signals := ForceCloseAll(signals, order);
      ForceClosedByIndex(old(signals), order, signals);
      StatsOpenIsCountOpen(old(AllLogs()));
    }

    /** `clearAllLogs`: empties the signal table; `nextId` is kept, so ids are
        never reused. */
    method ClearAllLogs()
      requires Valid()
      modifies this
      ensures Valid()
      ensures signals == map[] && order == []
      ensures nextId == old(nextId)
      ensures backtestLogs == old(backtestLogs) && backtestOrder == old(backtestOrder)
      ensures nextBacktestId == old(nextBacktestId)
    {
      signals := map[];
      order := [];
    }

    /** `clearBackTestLogs`: empties the backtest table. */
    method ClearBackTestLogs()
      requires Valid()
      modifies this
      ensures Valid()
      ensures backtestLogs == map[] && backtestOrder == []
      ensures nextBacktestId == old(nextBacktestId)
      ensures signals == old(signals) && order == old(order) && nextId == old(nextId)
    {
      backtestLogs := map[];
      backtestOrder := [];
    }

    /** `getTradeStats`. */
    function GetTradeStats(): (s: TradeStats)
      reads this
      requires Valid()
      ensures s.openCount == |OpenLogs(AllLogs())|
      ensures s.wonCount + s.lossCount <= |signals|
    {
      StatsOpenCount(AllLogs());
      TableSize(signals, order, nextId);
      Stats(AllLogs())
    }

    /** Sets one field of one log through `update`; false for an unknown id. */
    method Update(id: nat, update: TradeLog -> TradeLog) returns (ok: bool)
      requires Valid()
      modifies this
      ensures Valid()
      ensures ok <==> id in old(signals)
      ensures ok ==> signals == old(signals)[id := update(old(signals)[id])]
      ensures !ok ==> signals == old(signals)
      ensures order == old(order) && nextId == old(nextId)
      ensures backtestLogs == old(backtestLogs) && backtestOrder == old(backtestOrder)
      ensures nextBacktestId == old(nextBacktestId)
    {
      if id !in signals {
        return false;
      }
      signals := signals[id := update(signals[id])];
      return true;
    }

    /** `updatePnl`: false for an unknown id, otherwise the pnl is set. */
    method UpdatePnl(id: nat, pnl: real) returns (ok: bool)
      requires Valid()
      modifies this
      ensures Valid()
      ensures ok <==> id in old(signals)
      ensures ok ==> signals == old(signals)[id := old(signals)[id].(pnl := Some(pnl))]
      ensures !ok ==> signals == old(signals)
      ensures order == old(order) && nextId == old(nextId)
      ensures backtestLogs == old(backtestLogs) && backtestOrder == old(backtestOrder)
      ensures nextBacktestId == old(nextBacktestId)
    {
      ok := Update(id, (l: TradeLog) => l.(pnl := Some(pnl)));
    }

    /** `schedulePnlUpdate`: as `updatePnl`, silently ignoring an unknown id. */
    method SchedulePnlUpdate(id: nat, pnlValue: real)
      requires Valid()
      modifies this
      ensures Valid()
      ensures id in old(signals) ==> signals == old(signals)[id := old(signals)[id].(pnl := Some(pnlValue))]
      ensures id !in old(signals) ==> signals == old(signals)
      ensures order == old(order) && nextId == old(nextId)
      ensures backtestLogs == old(backtestLogs) && backtestOrder == old(backtestOrder)
      ensures nextBacktestId == old(nextBacktestId)
    {
      var _ := Update(id, (l: TradeLog) => l.(pnl := Some(pnlValue)));
    }

    /** `scheduleHighestUpdate`: sets `pnlPercentage.highest` to the given value. */
    method ScheduleHighestUpdate(id: nat, pnlValue: real)
      requires Valid()
      modifies this
      ensures Valid()
      ensures id in old(signals) ==> signals == old(signals)[id := old(signals)[id].(
                pnlPercentage := old(signals)[id].pnlPercentage.(highest := pnlValue))]
      ensures id !in old(signals) ==> signals == old(signals)
      ensures order == old(order) && nextId == old(nextId)
      ensures backtestLogs == old(backtestLogs) && backtestOrder == old(backtestOrder)
      ensures nextBacktestId == old(nextBacktestId)
    {
      var _ := Update(id, (l: TradeLog) => l.(pnlPercentage := l.pnlPercentage.(highest := pnlValue)));
    }

    /** `scheduleLowestUpdate`: sets `pnlPercentage.lowest` to the given value. */
    method ScheduleLowestUpdate(id: nat, pnlValue: real)
      requires Valid()
      modifies this
      ensures Valid()
      ensures id in old(signals) ==> signals == old(signals)[id := old(signals)[id].(
                pnlPercentage := old(signals)[id].pnlPercentage.(lowest := pnlValue))]
      ensures id !in old(signals) ==> signals == old(signals)
      ensures order == old(order) && nextId == old(nextId)
      ensures backtestLogs == old(backtestLogs) && backtestOrder == old(backtestOrder)
      ensures nextBacktestId == old(nextBacktestId)
    {
      var _ := Update(id, (l: TradeLog) => l.(pnlPercentage := l.pnlPercentage.(lowest := pnlValue)));
    }
  }

  /** The loop of `forceCloseOpenPositions` over the logs `m` visited in the
      order `ids`: every open log is force-closed and counted. */
  method ForceCloseAll(before: map<nat, TradeLog>, ids: seq<nat>) returns (closedCount: nat, m: map<nat, TradeLog>)
    requires forall i, j :: 0 <= i < j < |ids| ==> ids[i] < ids[j]
    requires forall j :: 0 <= j < |ids| ==> ids[j] in before
    ensures closedCount == CountOpen(LogsOf(before, ids))
    ensures m.Keys == before.Keys
    ensures forall j :: 0 <= j < |ids| ==> m[ids[j]] == ForceClosed(before[ids[j]])
  {
    ghost var logs := LogsOf(before, ids);
    m := before;
    closedCount := 0;
    var i := 0;
    while i < |ids|
      invariant 0 <= i <= |ids|
      invariant m.Keys == before.Keys
      invariant forall j :: 0 <= j < i ==> m[ids[j]] == ForceClosed(before[ids[j]])
      invariant forall j :: i <= j < |ids| ==> m[ids[j]] == before[ids[j]]
      invariant closedCount == CountOpen(logs[..i])
    {
      var k := ids[i];
      var log := m[k];
      assert log == logs[i];
      CountOpenStep(logs, i);
      if log.isOpen {
        m := m[k := ForceClosed(log)];
        closedCount := closedCount + 1;
      }
      i := i + 1;
    }
    assert logs[..i] == logs;
  }

  lemma ForceClosedByIndex(before: map<nat, TradeLog>, ids: seq<nat>, m: map<nat, TradeLog>)
    requires forall k :: k in before <==> k in ids
    requires m.Keys == before.Keys
    requires forall j :: 0 <= j < |ids| ==> m[ids[j]] == ForceClosed(before[ids[j]])
    ensures forall k :: k in m ==> m[k] == ForceClosed(before[k])
  {
    forall k | k in m
      ensures m[k] == ForceClosed(before[k])
    {
      var j :| 0 <= j < |ids| && ids[j] == k;
    }
  }

  lemma CountOpenStep(logs: seq<TradeLog>, i: nat)
    requires i < |logs|
    ensures CountOpen(logs[..i + 1]) == CountOpen(logs[..i]) + if logs[i].isOpen then 1 else 0
  {
    assert logs[..i + 1][..i] == logs[..i];
  }

  /** The logs of `m` in the order `ids`. */
  function LogsOf(m: map<nat, TradeLog>, ids: seq<nat>): (r: seq<TradeLog>)
    requires forall i :: 0 <= i < |ids| ==> ids[i] in m
    ensures |r| == |ids| && forall i :: 0 <= i < |ids| ==> r[i] == m[ids[i]]
  {
    seq(|ids|, i requires 0 <= i < |ids| => m[ids[i]])
  }

  /** The open count of the statistics is the number of logs force-closing
      would close. */
  lemma {:induction false} StatsOpenIsCountOpen(logs: seq<TradeLog>)
    ensures Stats(logs).openCount == CountOpen(logs)
  {
    if |logs| > 0 {
      StatsOpenIsCountOpen(logs[..|logs| - 1]);
    }
  }

  /** The table holds as many entries as its key sequence. */
  lemma TableSize<V>(m: map<nat, V>, order: seq<nat>, next: nat)
    requires Table(m, order, next)
    ensures |m| == |order|
  {
    DistinctCard(order);
    assert m.Keys == set i | 0 <= i < |order| :: order[i];
  }

  /** A strictly increasing sequence has as many distinct elements as entries. */
  lemma {:induction false} DistinctCard(s: seq<nat>)
    requires forall i, j :: 0 <= i < j < |s| ==> s[i] < s[j]
    ensures |set i | 0 <= i < |s| :: s[i]| == |s|
  {
    if |s| > 0 {
      var t := s[..|s| - 1];
      DistinctCard(t);
      var st := set i | 0 <= i < |t| :: t[i];
      assert (set i | 0 <= i < |s| :: s[i]) == st + {s[|s| - 1]};
      assert s[|s| - 1] !in st;
    }
  }
}
