/** Maintenance-margin bracket lookups (src/utility/binanceMarginUtility.ts).
    The bracket table the source keeps in a static cache is a parameter:
    `None` is "not loaded" (neither in memory nor in local storage).  A
    symbol entry without a `brackets` list is stored as an empty list, which
    every lookup treats exactly like a missing one. */
module BinanceMargin {
  import opened Wrappers

  datatype BracketEntry = BracketEntry(
    bracket: int,
    notionalFloor: real,
    notionalCap: real,
    maintMarginRatio: real,
    cum: real,
    initialLeverage: real)

  type BracketsCache = map<string, seq<BracketEntry>>

  const NotLoaded: string := "Brackets not loaded. Call fetchAllFuturesBrackets() first."

  function NoBracketData(symbol: string): string
  {
    "No bracket data for " + symbol
  }

  /** A tier applies when its cap is 0 (unlimited) or covers the notional. */
  predicate Applicable(b: BracketEntry, notional: real)
  {
    b.notionalCap == 0.0 || notional <= b.notionalCap
  }

  /** Binance's formula `cum + (notional - floor) * rate` for one tier. */
  function TierMaintenance(b: BracketEntry, notional: real): real
  {
    b.cum + (notional - b.notionalFloor) * b.maintMarginRatio
  }

  /** Index of the first applicable tier, scanning in table order. */
  function FirstApplicable(bs: seq<BracketEntry>, notional: real): (r: Option<nat>)
    ensures r.Some? ==> r.value < |bs| && Applicable(bs[r.value], notional)
                        && forall j :: 0 <= j < r.value ==> !Applicable(bs[j], notional)
    ensures r.None? ==> forall j :: 0 <= j < |bs| ==> !Applicable(bs[j], notional)
  {
    if |bs| == 0 then None
    else if Applicable(bs[0], notional) then Some(0)
    else
      match FirstApplicable(bs[1..], notional)
      case None => None
      case Some(k) => Some(k + 1)
  }

  /** The tier both lookups use: the first applicable one, or the last tier
      when none applies. */
  predicate IsSelectedTier(bs: seq<BracketEntry>, notional: real, i: nat)
  {
    i < |bs|
    && ((Applicable(bs[i], notional) && forall j :: 0 <= j < i ==> !Applicable(bs[j], notional))
        || (i == |bs| - 1 && forall j :: 0 <= j < |bs| ==> !Applicable(bs[j], notional)))
  }

  function SelectedTier(bs: seq<BracketEntry>, notional: real): (i: nat)
    requires |bs| > 0
    ensures IsSelectedTier(bs, notional, i)
  {
    match FirstApplicable(bs, notional)
    case Some(k) => k
    case None => |bs| - 1
  }

  /** Exactly one tier is selected for every non-empty table and notional. */
  lemma SelectedTierUnique(bs: seq<BracketEntry>, notional: real, i: nat, k: nat)
    requires IsSelectedTier(bs, notional, i) && IsSelectedTier(bs, notional, k)
    ensures i == k
  {
  }

  /** The brackets of `symbol`, or the error each lookup throws. */
  function SymbolBrackets(cache: Option<BracketsCache>, symbol: string): (r: Result<seq<BracketEntry>>)
    ensures r.Success? <==> cache.Some? && symbol in cache.value && |cache.value[symbol]| > 0
    ensures r.Success? ==> r.value == cache.value[symbol]
    ensures cache.None? ==> r == Failure(NotLoaded)
  {
    match cache
    case None => Failure(NotLoaded)
    case Some(m) =>
      if symbol !in m || |m[symbol]| == 0 then Failure(NoBracketData(symbol))
      else Success(m[symbol])
  }

  /** `calculateMaintenanceMargin`: the selected tier's formula; throws when
      the table is not loaded or the symbol has no brackets. */
  function CalculateMaintenanceMargin(cache: Option<BracketsCache>, symbol: string, notional: real)
    : (r: Result<real>)
    ensures r.Success? <==> cache.Some? && symbol in cache.value && |cache.value[symbol]| > 0
    ensures cache.None? ==> r == Failure(NotLoaded)
    ensures r.Success? ==> exists i: nat :: IsSelectedTier(cache.value[symbol], notional, i)
                                     && r.value == TierMaintenance(cache.value[symbol][i], notional)
  {
    match SymbolBrackets(cache, symbol)
    case Failure(e) => Failure(e)
    case Success(bs) => Success(TierMaintenance(bs[SelectedTier(bs, notional)], notional))
  }

  /** `getMaintenanceMarginRate`: the selected tier's maintenance ratio. */
  function GetMaintenanceMarginRate(cache: Option<BracketsCache>, symbol: string, notional: real)
    : (r: Result<real>)
    ensures r.Success? <==> cache.Some? && symbol in cache.value && |cache.value[symbol]| > 0
    ensures cache.None? ==> r == Failure(NotLoaded)
    ensures r.Success? ==> exists i: nat :: IsSelectedTier(cache.value[symbol], notional, i)
                                     && r.value == cache.value[symbol][i].maintMarginRatio
  {
    match SymbolBrackets(cache, symbol)
    case Failure(e) => Failure(e)
    case Success(bs) => Success(bs[SelectedTier(bs, notional)].maintMarginRatio)
  }

  /** Margin and rate come from the same tier: the margin is that tier's
      formula and the rate is that tier's maintenance ratio. */
  lemma MarginUsesRateTier(cache: Option<BracketsCache>, symbol: string, notional: real)
    requires CalculateMaintenanceMargin(cache, symbol, notional).Success?
    ensures GetMaintenanceMarginRate(cache, symbol, notional).Success?
    ensures exists i: nat ::
      && IsSelectedTier(cache.value[symbol], notional, i)
      && CalculateMaintenanceMargin(cache, symbol, notional).value == TierMaintenance(cache.value[symbol][i], notional)
      && GetMaintenanceMarginRate(cache, symbol, notional).value == cache.value[symbol][i].maintMarginRatio
  {
    var bs := cache.value[symbol];
    var t := SelectedTier(bs, notional);
    MarginOfSelectedTier(cache, symbol, notional);
    RateOfSelectedTier(cache, symbol, notional);
    assert IsSelectedTier(bs, notional, t);
  }

  lemma MarginOfSelectedTier(cache: Option<BracketsCache>, symbol: string, notional: real)
    requires cache.Some? && symbol in cache.value && |cache.value[symbol]| > 0
    ensures CalculateMaintenanceMargin(cache, symbol, notional).Success?
    ensures var bs := cache.value[symbol];
      CalculateMaintenanceMargin(cache, symbol, notional).value == TierMaintenance(bs[SelectedTier(bs, notional)], notional)
  {
    assert SymbolBrackets(cache, symbol) == Success(cache.value[symbol]);
  }

  lemma RateOfSelectedTier(cache: Option<BracketsCache>, symbol: string, notional: real)
    requires cache.Some? && symbol in cache.value && |cache.value[symbol]| > 0
    ensures GetMaintenanceMarginRate(cache, symbol, notional).Success?
    ensures var bs := cache.value[symbol];
      GetMaintenanceMarginRate(cache, symbol, notional).value == bs[SelectedTier(bs, notional)].maintMarginRatio
  {
    assert SymbolBrackets(cache, symbol) == Success(cache.value[symbol]);
  }

  /** Past every cap the last tier is used. */
  lemma FallbackToLastTier(cache: Option<BracketsCache>, symbol: string, notional: real)
    requires cache.Some? && symbol in cache.value && |cache.value[symbol]| > 0
    requires forall j :: 0 <= j < |cache.value[symbol]| ==> !Applicable(cache.value[symbol][j], notional)
    ensures CalculateMaintenanceMargin(cache, symbol, notional)
         == Success(TierMaintenance(cache.value[symbol][|cache.value[symbol]| - 1], notional))
  {
    var bs := cache.value[symbol];
    SelectedTierUnique(bs, notional, SelectedTier(bs, notional), |bs| - 1);
  }

  /** `getMaxLeverage`: the first tier's initial leverage, with 1 for a
      symbol without brackets and for a zero leverage (`|| 1`); throws only
      when the table is not loaded. */
  function GetMaxLeverage(cache: Option<BracketsCache>, symbol: string): (r: Result<real>)
    ensures r.Failure? <==> cache.None?
    ensures r.Success? ==> r.value != 0.0
    ensures r.Success? && (symbol !in cache.value || |cache.value[symbol]| == 0) ==> r.value == 1.0
    ensures (r.Success? && symbol in cache.value && |cache.value[symbol]| > 0
             && cache.value[symbol][0].initialLeverage != 0.0) ==> r.value == cache.value[symbol][0].initialLeverage
  {
    match cache
    case None => Failure(NotLoaded)
    case Some(m) =>
      if symbol !in m || |m[symbol]| == 0 then Success(1.0)
      else if m[symbol][0].initialLeverage == 0.0 then Success(1.0)
      else Success(m[symbol][0].initialLeverage)
  }

  datatype PositionNotional = PositionNotional(symbol: string, notionalValue: real)

  /** A position's maintenance, 0 when its lookup throws. */
  function MaintenanceOrZero(cache: Option<BracketsCache>, p: PositionNotional): real
  {
    match CalculateMaintenanceMargin(cache, p.symbol, p.notionalValue)
    case Success(m) => m
    case Failure(_) => 0.0
  }

  /** `calculateTotalMaintenance`: the left-to-right `reduce` over the
      positions, a throwing lookup leaving the running sum unchanged. */
  function CalculateTotalMaintenance(cache: Option<BracketsCache>, positions: seq<PositionNotional>): (r: real)
    ensures cache.None? ==> r == 0.0
  {
    if |positions| == 0 then 0.0
    else
      var sum := CalculateTotalMaintenance(cache, positions[..|positions| - 1]);
      match CalculateMaintenanceMargin(cache, positions[|positions| - 1].symbol, positions[|positions| - 1].notionalValue)
      case Success(m) => sum + m
      case Failure(_) => sum
  }

  /** The total splits over consecutive groups of positions. */
  lemma {:induction false} TotalMaintenanceAppend(cache: Option<BracketsCache>, xs: seq<PositionNotional>, ys: seq<PositionNotional>)
    ensures CalculateTotalMaintenance(cache, xs + ys)
         == CalculateTotalMaintenance(cache, xs) + CalculateTotalMaintenance(cache, ys)
    decreases |ys|
  {
    if |ys| == 0 {
      assert xs + ys == xs;
    } else {
      var ys' := ys[..|ys| - 1];
      assert (xs + ys)[..|xs + ys| - 1] == xs + ys';
      assert (xs + ys)[|xs + ys| - 1] == ys[|ys| - 1];
      TotalMaintenanceAppend(cache, xs, ys');
    }
  }

  /** One position contributes its maintenance, or 0 when its lookup throws. */
  lemma TotalMaintenanceSingle(cache: Option<BracketsCache>, p: PositionNotional)
    ensures CalculateTotalMaintenance(cache, [p]) == MaintenanceOrZero(cache, p)
  {
    assert [p][..0] == [];
  }
}
