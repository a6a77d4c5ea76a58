// What a fill is reported to have done, against what it did; and the cumulative figures against the reports
// (bot/portfolio/accounting.py, `apply_fill`; bot/execution/fill_tracker.py).

module TradeResults {
  import opened Prelude
  import opened DepthWalk
  import opened Ledger
  import opened LedgerFacts
  import opened PaperExecution
  import opened LedgerRuns
  import opened Tallies

  // ----- one fill -----

  // What a sale from a long position brings over what the quantity had cost on average; a buy realizes nothing.
  function Gain(p: Position, fill: Fill): real
  {
    if fill.side.Sell? && p.quantity > 0.0 && p.averageEntry > 0.0 then
      Value(fill.quantity, fill.price) - fill.fee - Value(fill.quantity, p.averageEntry)
    else 0.0
  }

  predicate Reports(a: Account, fill: Fill, after: Account, r: AccountingResult)
  {
    var p, q := PositionOf(a.positions, fill.symbol), PositionOf(after.positions, fill.symbol);
    var gross, gain := Value(fill.quantity, fill.price), Gain(p, fill);
    && r.fillId == fill.id && r.gross == gross && r.fee == fill.fee
    && r.remainingPosition == q.quantity && r.averageEntry == q.averageEntry
    && (if fill.id in a.processed then
          after == a && r.duplicate && !r.applied && r.netCash == 0.0 && r.realizedPnl == 0.0
        else
          && r.applied && !r.duplicate
          && r.netCash == (if fill.side.Buy? then -(gross + fill.fee) else gross - fill.fee)
          && r.realizedPnl == gain
          && q.realizedPnl == p.realizedPnl + gain && q.feesPaid == p.feesPaid + fill.fee
          && after.positions == a.positions[fill.symbol := q]
          && after.stats == a.stats.(
               realizedPnl := a.stats.realizedPnl + gain,
               feesPaid := a.stats.feesPaid + fill.fee,
               tradingVolume := a.stats.tradingVolume + gross,
               trades := a.stats.trades + 1,
               winningTrades := a.stats.winningTrades + (if 0.0 < gain then 1 else 0),
               losingTrades := a.stats.losingTrades + (if gain < 0.0 then 1 else 0))
          && after.processed == a.processed + {fill.id} && after.quote == a.quote && after.marks == a.marks)
  }

  // The accounting's answer to a fill is what it has done to the account: and a repeated fill does nothing.
  lemma PostReports(a: Account, fill: Fill)
    ensures Reports(a, fill, Post(a, fill).0, Post(a, fill).1)
  {
    hide Value, Ledger.SettleBalances, Bought, Sold;
    GainKept(PositionOf(a.positions, fill.symbol), fill);
  }

  lemma GainKept(p: Position, fill: Fill)
    ensures Bought(p, fill.quantity, fill.Gross() + fill.fee).realizedPnl == p.realizedPnl
    ensures Bought(p, fill.quantity, fill.Gross() + fill.fee).feesPaid == p.feesPaid
    ensures Sold(p, fill.quantity).realizedPnl == p.realizedPnl && Sold(p, fill.quantity).feesPaid == p.feesPaid
  {
    hide Value;
  }

  // What a fill does to its position: a buy adds its cost with the fee to what the position has cost, a sale takes
  // from the quantity and leaves the average, and what sells it out leaves nothing, no average either.
  lemma PositionMoves(p: Position, fill: Fill)
    ensures var q := SettlePosition(p, fill).0;
            if fill.side.Buy? then
              && q.quantity == p.quantity + fill.quantity
              && (if q.quantity > 0.0 then
                    Value(q.quantity, q.averageEntry)
                    == Value(p.quantity, p.averageEntry) + Value(fill.quantity, fill.price) + fill.fee
                  else q.averageEntry == p.averageEntry)
            else if p.quantity <= fill.quantity then q.quantity == 0.0 && q.averageEntry == 0.0
            else q.quantity == p.quantity - fill.quantity && q.averageEntry == p.averageEntry
  {
    hide Value;
    var total := p.quantity + fill.quantity;
    if total > 0.0 { ValueOfAverage(Value(p.quantity, p.averageEntry) + (fill.Gross() + fill.fee), total); }
  }

  // The cash of a covered fill is what the quote balance has moved by, and the goods what the base balance has.
  lemma CashMoves(a: Account, fill: Fill)
    requires Solvent(a) && Covered(a, fill) && BaseAsset(fill.symbol, a.quote) != a.quote
    requires fill.id !in a.processed
    ensures var (after, r) := Post(a, fill);
            var base := BaseAsset(fill.symbol, a.quote);
            && BalanceOf(after.balances, a.quote).Total() == BalanceOf(a.balances, a.quote).Total() + r.netCash
            && BalanceOf(after.balances, base).Total()
               == BalanceOf(a.balances, base).Total() + if fill.side.Buy? then fill.quantity else -fill.quantity
  {
    hide Value, Post, BaseAsset, Solvent, AssetBalance.Total;
    PostReports(a, fill);
    PostedQuote(a, fill);
    PostedTotal(a, fill, BaseAsset(fill.symbol, a.quote));
    AvailableIsNotNegative(a);
  }

  lemma AvailableIsNotNegative(a: Account)
    requires Solvent(a)
    ensures BalanceOf(a.balances, a.quote).reserved <= BalanceOf(a.balances, a.quote).Total()
  {
  }

  // ----- over runs -----

  function Wins(rs: seq<AccountingResult>): nat
  {
    if rs == [] then 0 else Wins(rs[..|rs| - 1]) + if 0.0 < rs[|rs| - 1].realizedPnl then 1 else 0
  }

  function LossesIn(rs: seq<AccountingResult>): nat
  {
    if rs == [] then 0 else LossesIn(rs[..|rs| - 1]) + if rs[|rs| - 1].realizedPnl < 0.0 then 1 else 0
  }

  function Volume(rs: seq<AccountingResult>): real
  {
    if rs == [] then 0.0 else Volume(rs[..|rs| - 1]) + rs[|rs| - 1].gross
  }

  function Realized(rs: seq<AccountingResult>): real
  {
    if rs == [] then 0.0 else Realized(rs[..|rs| - 1]) + rs[|rs| - 1].realizedPnl
  }

  function Paid(rs: seq<AccountingResult>): real
  {
    if rs == [] then 0.0 else Paid(rs[..|rs| - 1]) + rs[|rs| - 1].fee
  }

  // The figures have grown from the base by exactly what was reported.
  predicate GrownBy(base: Stats, s: Stats, rs: seq<AccountingResult>)
  {
    && s.trades == base.trades + |rs|
    && s.winningTrades == base.winningTrades + Wins(rs) && s.losingTrades == base.losingTrades + LossesIn(rs)
    && s.tradingVolume == base.tradingVolume + Volume(rs)
    && s.realizedPnl == base.realizedPnl + Realized(rs) && s.feesPaid == base.feesPaid + Paid(rs)
  }

  lemma GrowsByOne(base: Stats, a: Account, fill: Fill, rs: seq<AccountingResult>)
    requires GrownBy(base, a.stats, rs) && fill.id !in a.processed
    ensures GrownBy(base, Post(a, fill).0.stats, rs + [Post(a, fill).1])
  {
    hide Value, Post, Gain;
    PostReports(a, fill);
    assert (rs + [Post(a, fill).1])[..|rs|] == rs;
  }

  lemma TrackGrows(base: Stats, w: World, fill: Fill)
    requires GrownBy(base, w.account.stats, w.results)
    ensures GrownBy(base, Track(w, fill).account.stats, Track(w, fill).results)
  {
    hide Post, GrownBy, ObserveEquity, MarkToMarket;
    PostReports(w.account, fill);
    if fill.id !in w.account.processed {
      GrowsByOne(base, w.account, fill, w.results);
      var posted := Post(w.account, fill).0;
      ObservingKeepsTallies(posted, posted.marks);
      SameGrown(base, posted, ObserveEquity(MarkToMarket(posted)), w.results + [Post(w.account, fill).1]);
    }
  }

  lemma SameGrown(base: Stats, a: Account, b: Account, rs: seq<AccountingResult>)
    requires GrownBy(base, a.stats, rs) && SameTallies(a, b)
    ensures GrownBy(base, b.stats, rs)
  {
  }

  lemma ExecuteGrows(base: Stats, w: World, cfg: Config, order: Order, book: Option<OrderBook>, fillId: string)
    requires GrownBy(base, w.account.stats, w.results)
    ensures var after := Execute(w, cfg, order, book, fillId).0; GrownBy(base, after.account.stats, after.results)
  {
    hide Prepare, Track, SetMark, GrownBy, SameTallies, Attach, Post, ApplyFill;
    var stage := Prepare(w.account, cfg, order, book, fillId);
    PreparingOnlyMoves(w.account, cfg, order, book, fillId);
    SameGrown(base, w.account, stage.account, w.results);
    if stage.Fills? {
      var posted := w.(account := stage.account, orders := w.orders[order.id := Attach(order.(status := Open), stage.fill)]);
      TrackGrows(base, posted, stage.fill);
      MarkGrows(base, Track(posted, stage.fill).account, order.symbol, stage.fill.price, Track(posted, stage.fill).results);
    }
  }

  lemma MarkGrows(base: Stats, a: Account, symbol: string, price: real, rs: seq<AccountingResult>)
    requires GrownBy(base, a.stats, rs)
    ensures GrownBy(base, SetMark(a, symbol, price).stats, rs)
  {
    hide GrownBy, ObserveEquity, MarkToMarket;
    ObservingKeepsTallies(a, a.marks[symbol := price]);
    SameGrown(base, a, SetMark(a, symbol, price), rs);
  }

  lemma AdvanceGrows(base: Stats, w: World, cfg: Config, action: Action)
    requires GrownBy(base, w.account.stats, w.results)
    ensures var after := Advance(w, cfg, action); GrownBy(base, after.account.stats, after.results)
  {
    hide Execute, Track, SetMark, GrownBy, SameTallies, CancelClaim, Release, ObserveEquity, MarkToMarket;
    match action
    case Place(request, orderType, book, fillId) => ExecuteGrows(base, w, cfg, NewOrder(request, orderType), book, fillId);
    case CancelOrder(id, reason) =>
      if id in w.orders {
        var (asset, amount) := CancelClaim(w.account.quote, cfg, w.orders[id]);
        ReleasingKeepsTallies(w.account, asset, amount);
        SameGrown(base, w.account, Release(w.account, asset, amount), w.results);
      }
    case MarkPrice(symbol, price) => MarkGrows(base, w.account, symbol, price, w.results);
    case Redeliver(fill) => TrackGrows(base, w, fill);
    case Inspect =>
      ObservingKeepsTallies(w.account, w.account.marks);
      SameGrown(base, w.account, ObserveEquity(MarkToMarket(w.account)), w.results);
    case Persist =>
    case RestartFromStore =>
  }

  // From any state, through any run without a restart, with any orders, books and modes: the figures are what
  // they were at the start and what has been reported since.
  lemma {:induction false} ReportsAddUp(base: Stats, z: Session, cfg: Config, actions: seq<Action>)
    requires GrownBy(base, z.world.account.stats, z.world.results) && RestartFromStore !in actions
    ensures var w := Run(z, cfg, actions).world; GrownBy(base, w.account.stats, w.results)
    decreases |actions|
  {
    hide GrownBy, Advance;
    if actions != [] {
      assert actions[0] in actions;
      AdvanceGrows(base, z.world, cfg, actions[0]);
      ReportsAddUp(base, Step(z, cfg, actions[0]), cfg, actions[1..]);
    }
  }

  // So after any such run from the opening: one trade for each report, a win for each gain, a loss for each loss.
  lemma ReportsTheorem(quote: string, start: real, cfg: Config, actions: seq<Action>)
    requires RestartFromStore !in actions
    ensures var w := Run(OpeningSession(quote, start), cfg, actions).world;
            var s, rs := w.account.stats, w.results;
            && s.trades == |rs| && s.winningTrades == Wins(rs) && s.losingTrades == LossesIn(rs)
            && s.tradingVolume == Volume(rs) && s.realizedPnl == Realized(rs) && s.feesPaid == Paid(rs)
  {
    hide Run, ObserveEquity;
    var z := OpeningSession(quote, start);
    ObservedOpening(Account(quote, map[quote := AssetBalance(start, 0.0)], map[], NO_STATS.(peakEquity := start), map[], {}));
    ReportsAddUp(NO_STATS, z, cfg, actions);
  }
}
