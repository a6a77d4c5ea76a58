// The paper portfolio as a value: balances with reserved amounts, positions at average cost,
// statistics, mark prices and the set of fills already processed
// (bot/portfolio/models.py, bot/portfolio/accounting.py, bot/portfolio/portfolio.py).
// The functions here say what each operation of AccountingEngine and PaperPortfolio does to
// that value; the classes in Portfolio.dfy carry the operations out in place.

module Ledger {
  import opened Prelude
  import opened DepthWalk

  datatype AssetBalance = AssetBalance(available: real, reserved: real)
  {
    function Total(): real { available + reserved }
  }

  datatype Position = Position(quantity: real, averageEntry: real, realizedPnl: real, feesPaid: real)

  datatype Stats = Stats(
    realizedPnl: real,
    unrealizedPnl: real,
    feesPaid: real,
    tradingVolume: real,
    trades: nat,
    winningTrades: nat,
    losingTrades: nat,
    peakEquity: real,
    currentDrawdown: real,
    maximumDrawdown: real
  )

  datatype Fill = Fill(
    id: string,
    orderId: string,
    symbol: string,
    side: Side,
    quantity: real,
    price: real,
    fee: real,
    slippage: real
  )
  {
    function Gross(): real { Value(quantity, price) }
  }

  datatype AccountingResult = AccountingResult(
    fillId: string,
    gross: real,
    fee: real,
    netCash: real,
    realizedPnl: real,
    remainingPosition: real,
    averageEntry: real,
    applied: bool,
    duplicate: bool
  )

  // PortfolioState together with the accounting engine's processed fill ids.
  datatype Account = Account(
    quote: string,
    balances: map<string, AssetBalance>,
    positions: map<string, Position>,
    stats: Stats,
    marks: map<string, real>,
    processed: set<string>
  )

  const NO_BALANCE := AssetBalance(0.0, 0.0)
  const NO_POSITION := Position(0.0, 0.0, 0.0, 0.0)

  // ----- symbols -----

  function WithoutSeparators(symbol: string): string
  {
    if symbol == [] then []
    else if symbol[0] == '/' || symbol[0] == '-' then WithoutSeparators(symbol[1..])
    else [symbol[0]] + WithoutSeparators(symbol[1..])
  }

  // `base_asset_for` and `_infer_base`, on symbols that are already upper case.
  function BaseAsset(symbol: string, quote: string): string
  {
    var compact := WithoutSeparators(symbol);
    if |compact| > |quote| && compact[|compact| - |quote|..] == quote
    then compact[..|compact| - |quote|]
    else compact
  }

  // ----- reading -----

  function BalanceOf(balances: map<string, AssetBalance>, asset: string): AssetBalance
  {
    if asset in balances then balances[asset] else NO_BALANCE
  }

  function PositionOf(positions: map<string, Position>, symbol: string): Position
  {
    if symbol in positions then positions[symbol] else NO_POSITION
  }

  function MarkOf(marks: map<string, real>, symbol: string, default: real): real
  {
    if symbol in marks then marks[symbol] else default
  }

  // What a position is worth at its mark, what it cost, and the difference.
  function MarketValue(p: Position, mark: real): real
  {
    if p.quantity == 0.0 then 0.0 else Value(p.quantity, mark)
  }

  function CostBasis(p: Position): real { Value(p.quantity, p.averageEntry) }

  function Unrealized(p: Position, mark: real): real
  {
    if p.quantity == 0.0 then 0.0 else Value(p.quantity, mark - p.averageEntry)
  }

  function MarketValues(positions: map<string, Position>, marks: map<string, real>): map<string, real>
  {
    map s | s in positions :: MarketValue(positions[s], MarkOf(marks, s, positions[s].averageEntry))
  }

  function CostBases(positions: map<string, Position>): map<string, real>
  {
    map s | s in positions :: CostBasis(positions[s])
  }

  function UnrealizedGains(positions: map<string, Position>, marks: map<string, real>): map<string, real>
  {
    map s | s in positions :: Unrealized(positions[s], MarkOf(marks, s, positions[s].averageEntry))
  }

  // `PortfolioState.total_equity`
  ghost function Equity(a: Account): real
  {
    BalanceOf(a.balances, a.quote).Total() + Total(MarketValues(a.positions, a.marks))
  }

  // ----- reservations -----

  // Moves `amount` from available to reserved (back, when negative).
  function Move(a: Account, asset: string, amount: real): Account
  {
    var b := BalanceOf(a.balances, asset);
    a.(balances := a.balances[asset := AssetBalance(b.available - amount, b.reserved + amount)])
  }

  // `reserve`: the account afterwards, and whether the amount could be set aside. Asking for an
  // asset without an entry creates an empty one, also when the answer is no.
  function Reserve(a: Account, asset: string, amount: real): (Account, bool)
  {
    if amount <= 0.0 then (a, true)
    else if BalanceOf(a.balances, asset).available < amount then (Move(a, asset, 0.0), false)
    else (Move(a, asset, amount), true)
  }

  // `release_reservation`: never more than is reserved.
  function Release(a: Account, asset: string, amount: real): Account
  {
    if amount <= 0.0 then a else Move(a, asset, -Min(amount, BalanceOf(a.balances, asset).reserved))
  }

  // ----- fills -----

  // Paying `cost`: from the reservation, then from available, then whatever there is.
  function Pay(b: AssetBalance, cost: real): AssetBalance
  {
    if b.reserved >= cost then b.(reserved := b.reserved - cost)
    else if b.Total() >= cost then AssetBalance(b.available - (cost - b.reserved), 0.0)
    else
      var spend := Min(cost, b.Total());
      if b.reserved >= spend then b.(reserved := b.reserved - spend)
      else AssetBalance(b.available - (spend - b.reserved), 0.0)
  }

  // Delivering base: from the reservation first, the rest from available.
  function Deliver(b: AssetBalance, quantity: real): AssetBalance
  {
    if b.reserved >= quantity then b.(reserved := b.reserved - quantity)
    else
      var fromReserved := Min(b.reserved, quantity);
      AssetBalance(b.available - (quantity - fromReserved), b.reserved - fromReserved)
  }

  function Credit(b: AssetBalance, amount: real): AssetBalance
  {
    b.(available := b.available + amount)
  }

  function Bought(p: Position, quantity: real, cost: real): Position
  {
    var total := p.quantity + quantity;
    p.(quantity := total,
       averageEntry := if total > 0.0 then (Value(p.quantity, p.averageEntry) + cost) / total else p.averageEntry)
  }

  function Sold(p: Position, quantity: real): Position
  {
    var left := p.quantity - quantity;
    if left <= 0.0 then p.(quantity := 0.0, averageEntry := 0.0) else p.(quantity := left)
  }

  function RealizedBySale(p: Position, quantity: real, proceeds: real): real
  {
    if p.quantity > 0.0 && p.averageEntry > 0.0 then proceeds - Value(quantity, p.averageEntry) else 0.0
  }

  function CountTrade(s: Stats, realized: real, fee: real, gross: real): Stats
  {
    s.(realizedPnl := s.realizedPnl + realized,
       feesPaid := s.feesPaid + fee,
       tradingVolume := s.tradingVolume + gross,
       trades := s.trades + 1,
       winningTrades := if realized > 0.0 then s.winningTrades + 1 else s.winningTrades,
       losingTrades := if realized < 0.0 then s.losingTrades + 1 else s.losingTrades)
  }

  // The balances after a fill. The two legs are settled one after the other on the same map,
  // as in the source, where they may even be one and the same entry.
  function SettleBalances(balances: map<string, AssetBalance>, quote: string, fill: Fill): map<string, AssetBalance>
  {
    var base := BaseAsset(fill.symbol, quote);
    var withQuote := balances[quote := BalanceOf(balances, quote)];
    var ready := withQuote[base := BalanceOf(withQuote, base)];
    if fill.side.Buy? then
      var paid := ready[quote := Pay(ready[quote], fill.Gross() + fill.fee)];
      paid[base := Credit(paid[base], fill.quantity)]
    else
      var delivered := ready[base := Deliver(ready[base], fill.quantity)];
      delivered[quote := Credit(delivered[quote], fill.Gross() - fill.fee)]
  }

  function SettlePosition(p: Position, fill: Fill): (Position, real)
  {
    if fill.side.Buy? then
      (Bought(p, fill.quantity, fill.Gross() + fill.fee).(feesPaid := p.feesPaid + fill.fee), 0.0)
    else
      var realized := RealizedBySale(p, fill.quantity, fill.Gross() - fill.fee);
      (Sold(p, fill.quantity).(realizedPnl := p.realizedPnl + realized, feesPaid := p.feesPaid + fill.fee), realized)
  }

  // `AccountingEngine.apply_fill`
  function Post(a: Account, fill: Fill): (Account, AccountingResult)
  {
    var p := PositionOf(a.positions, fill.symbol);
    if fill.id in a.processed then
      (a, AccountingResult(fill.id, fill.Gross(), fill.fee, 0.0, 0.0, p.quantity, p.averageEntry, false, true))
    else
      var (settled, realized) := SettlePosition(p, fill);
      var netCash := if fill.side.Buy? then -(fill.Gross() + fill.fee) else fill.Gross() - fill.fee;
      (a.(balances := SettleBalances(a.balances, a.quote, fill),
          positions := a.positions[fill.symbol := settled],
          stats := CountTrade(a.stats, realized, fill.fee, fill.Gross()),
          processed := a.processed + {fill.id}),
       AccountingResult(fill.id, fill.Gross(), fill.fee, netCash, realized, settled.quantity, settled.averageEntry,
                        true, false))
  }

  // ----- statistics that follow the market -----

  // `_update_unrealized`
  ghost function MarkToMarket(a: Account): Account
  {
    a.(stats := a.stats.(unrealizedPnl := Total(UnrealizedGains(a.positions, a.marks))))
  }

  // `_update_drawdown`, for an observed equity.
  function Observe(s: Stats, equity: real): Stats
  {
    var peak := if equity > s.peakEquity then equity else s.peakEquity;
    var seen := s.(peakEquity := peak);
    if peak > 0.0 then
      var current := Max((peak - equity) / peak, 0.0);
      seen.(currentDrawdown := current,
            maximumDrawdown := if current > s.maximumDrawdown then current else s.maximumDrawdown)
    else seen.(currentDrawdown := 0.0)
  }

  ghost function ObserveEquity(a: Account): Account
  {
    a.(stats := Observe(a.stats, Equity(a)))
  }

  // `PaperPortfolio.apply_fill`
  ghost function ApplyFill(a: Account, fill: Fill): Account
  {
    var (posted, result) := Post(a, fill);
    if result.applied then ObserveEquity(MarkToMarket(posted)) else posted
  }

  // `PaperPortfolio.set_mark_price`
  ghost function SetMark(a: Account, symbol: string, price: real): Account
  {
    ObserveEquity(MarkToMarket(a.(marks := a.marks[symbol := price])))
  }

  // ----- what the risk gate is shown -----

  datatype OpenPosition = OpenPosition(quantity: real, averageEntry: real, unrealized: real)

  datatype PortfolioSnapshot = PortfolioSnapshot(
    balances: map<string, AssetBalance>,
    positions: map<string, OpenPosition>,
    equity: real,
    recordedPeak: Option<real>,
    dailyRealizedPnl: real,
    openPositions: nat,
    exposure: real
  )

  function ExposureOf(p: Position): real
  {
    if p.quantity == 0.0 then 0.0 else Abs(Value(p.quantity, p.averageEntry))
  }

  function Exposures(positions: map<string, Position>): map<string, real>
  {
    map s | s in positions :: ExposureOf(positions[s])
  }

  // `gross_exposure_usd`: what the open positions cost.
  ghost function Exposure(positions: map<string, Position>): real
  {
    Total(Exposures(positions))
  }

  function OpenSymbols(positions: map<string, Position>): set<string>
  {
    set s | s in positions && positions[s].quantity != 0.0
  }

  // The positions as they are shown: the open ones, with what they have gained at their marks.
  function Listed(positions: map<string, Position>, marks: map<string, real>): map<string, OpenPosition>
  {
    map s | s in OpenSymbols(positions) ::
      OpenPosition(positions[s].quantity, positions[s].averageEntry,
                   Unrealized(positions[s], MarkOf(marks, s, positions[s].averageEntry)))
  }

  // `get_snapshot`
  ghost function SnapshotOf(a: Account): PortfolioSnapshot
  {
    PortfolioSnapshot(a.balances, Listed(a.positions, a.marks), Equity(a), Some(a.stats.peakEquity), a.stats.realizedPnl,
                      |OpenSymbols(a.positions)|, Exposure(a.positions))
  }

  const NO_STATS := Stats(0.0, 0.0, 0.0, 0.0, 0, 0, 0, 0.0, 0.0, 0.0)

  // `PaperPortfolio.__init__`
  ghost function OpeningAccount(quote: string, start: real): Account
  {
    ObserveEquity(Account(quote, map[quote := AssetBalance(start, 0.0)], map[],
                          NO_STATS.(peakEquity := start), map[], {}))
  }
}
