// The portfolio's cumulative statistics against its positions and its processed fills: they agree in every
// reachable state, whatever the slippage mode, the fee rate or the orders (bot/portfolio/accounting.py,
// bot/execution/paper_executor.py).

module Tallies {
  import opened Prelude
  import opened DepthWalk
  import opened Ledger
  import opened PaperExecution
  import opened Store
  import opened LedgerRuns
  import opened PlacementFacts

  function RealizedOf(positions: map<string, Position>): map<string, real>
  {
    map s | s in positions :: positions[s].realizedPnl
  }

  function FeesOf(positions: map<string, Position>): map<string, real>
  {
    map s | s in positions :: positions[s].feesPaid
  }

  // The totals are the sums over the positions, there is one trade per processed fill, and no trade is both
  // a win and a loss.
  ghost predicate Tallied(a: Account)
  {
    && a.stats.realizedPnl == Total(RealizedOf(a.positions))
    && a.stats.feesPaid == Total(FeesOf(a.positions))
    && a.stats.trades == |a.processed|
    && a.stats.winningTrades + a.stats.losingTrades <= a.stats.trades
  }

  // What the tallies read, and no more.
  predicate SameTallies(a: Account, b: Account)
  {
    && a.positions == b.positions && a.processed == b.processed
    && a.stats.realizedPnl == b.stats.realizedPnl && a.stats.feesPaid == b.stats.feesPaid
    && a.stats.trades == b.stats.trades && a.stats.winningTrades == b.stats.winningTrades
    && a.stats.losingTrades == b.stats.losingTrades && a.stats.tradingVolume == b.stats.tradingVolume
  }

  lemma SettledSums(p: Position, fill: Fill)
    ensures var (settled, realized) := SettlePosition(p, fill);
            settled.realizedPnl == p.realizedPnl + realized && settled.feesPaid == p.feesPaid + fill.fee
  {
    hide Value;
  }

  lemma PostKeepsTallies(a: Account, fill: Fill)
    requires Tallied(a)
    ensures Tallied(Post(a, fill).0)
  {
    hide Value, Fill.Gross, TotalOver, Total, SettlePosition, SettleBalances;
    if fill.id !in a.processed {
      var p := PositionOf(a.positions, fill.symbol);
      var settled := SettlePosition(p, fill).0;
      SettledSums(p, fill);
      TotalUpdate(RealizedOf(a.positions), fill.symbol, settled.realizedPnl);
      TotalUpdate(FeesOf(a.positions), fill.symbol, settled.feesPaid);
      assert RealizedOf(a.positions[fill.symbol := settled]) == RealizedOf(a.positions)[fill.symbol := settled.realizedPnl];
      assert FeesOf(a.positions[fill.symbol := settled]) == FeesOf(a.positions)[fill.symbol := settled.feesPaid];
    }
  }

  // Marking and watching are for the other statistics.
  lemma ObservingKeepsTallies(a: Account, marks: map<string, real>)
    ensures SameTallies(a, ObserveEquity(MarkToMarket(a.(marks := marks))))
    ensures SameTallies(a, ObserveEquity(a.(marks := marks)))
  {
    hide Equity, Total;
  }

  lemma FillKeepsTallies(a: Account, fill: Fill)
    requires Tallied(a)
    ensures Tallied(ApplyFill(a, fill))
  {
    hide Post, Total, ObserveEquity, MarkToMarket;
    PostKeepsTallies(a, fill);
    ObservingKeepsTallies(Post(a, fill).0, Post(a, fill).0.marks);
  }

  // Up to the fill, an order only moves amounts between available and reserved.
  lemma PreparingOnlyMoves(a: Account, cfg: Config, order: Order, book: Option<OrderBook>, fillId: string)
    ensures SameTallies(a, Prepare(a, cfg, order, book, fillId).account)
  {
    hide Value, ReservationNeeded, Reserve, Release, Adjust, SimulateFill, Marketable, BalanceOf;
    var (_, asset, amount) := ReservationNeeded(a, cfg, order);
    var held := Reserve(a, asset, amount).0;
    ReservingOnlyMoves(a, asset, amount, "");
    ReservingOnlyMoves(held, asset, amount, "");
    var plan := SimulateFill(cfg, order, book);
    if plan.Some? {
      AdjustOnlyMoves(held, order, asset, amount, plan.value,
                      Value(Value(plan.value.quantity, plan.value.vwap), cfg.feeRate), "");
    }
  }

  lemma TrackKeepsTallies(w: World, fill: Fill)
    requires Tallied(w.account)
    ensures Tallied(Track(w, fill).account)
  {
    hide Post, ApplyFill, Tallied;
    FillKeepsTallies(w.account, fill);
  }

  lemma MarkKeepsTallies(a: Account, symbol: string, price: real)
    requires Tallied(a)
    ensures Tallied(SetMark(a, symbol, price))
  {
    hide Total, ObserveEquity, MarkToMarket;
    ObservingKeepsTallies(a, a.marks[symbol := price]);
  }

  lemma InspectKeepsTallies(a: Account)
    requires Tallied(a)
    ensures Tallied(ObserveEquity(MarkToMarket(a)))
  {
    hide Total, ObserveEquity, MarkToMarket;
    ObservingKeepsTallies(a, a.marks);
  }

  lemma SameKeepsTallies(a: Account, b: Account)
    requires Tallied(a) && SameTallies(a, b)
    ensures Tallied(b)
  {
    hide Total;
  }

  lemma ExecuteKeepsTallies(w: World, cfg: Config, order: Order, book: Option<OrderBook>, fillId: string)
    requires Tallied(w.account)
    ensures Tallied(Execute(w, cfg, order, book, fillId).0.account)
  {
    hide Prepare, Track, SetMark, Tallied, SameTallies, Attach;
    var stage := Prepare(w.account, cfg, order, book, fillId);
    PreparingOnlyMoves(w.account, cfg, order, book, fillId);
    SameKeepsTallies(w.account, stage.account);
    if stage.Fills? {
      var posted := w.(account := stage.account, orders := w.orders[order.id := Attach(order.(status := Open), stage.fill)]);
      TrackKeepsTallies(posted, stage.fill);
      MarkKeepsTallies(Track(posted, stage.fill).account, order.symbol, stage.fill.price);
    }
  }

  lemma AdvanceKeepsTallies(w: World, cfg: Config, action: Action)
    requires Tallied(w.account)
    ensures Tallied(Advance(w, cfg, action).account)
  {
    hide Execute, Track, SetMark, Tallied, SameTallies, CancelClaim, Release, ObserveEquity, MarkToMarket;
    match action
    case Place(request, orderType, book, fillId) =>
      ExecuteKeepsTallies(w, cfg, NewOrder(request, orderType), book, fillId);
    case CancelOrder(id, reason) =>
      if id in w.orders {
        var (asset, amount) := CancelClaim(w.account.quote, cfg, w.orders[id]);
        ReleasingKeepsTallies(w.account, asset, amount);
        SameKeepsTallies(w.account, Release(w.account, asset, amount));
      }
    case MarkPrice(symbol, price) => MarkKeepsTallies(w.account, symbol, price);
    case Redeliver(fill) => TrackKeepsTallies(w, fill);
    case Inspect => InspectKeepsTallies(w.account);
    case Persist =>
    case RestartFromStore =>
  }

  lemma StepKeepsTallies(z: Session, cfg: Config, action: Action)
    requires Tallied(z.world.account) && Tallied(AsAccount(z.disk))
    ensures Tallied(Step(z, cfg, action).world.account) && Tallied(AsAccount(Step(z, cfg, action).disk))
  {
    hide Advance, Tallied, Load;
    AdvanceKeepsTallies(z.world, cfg, action);
    LoadKeepsTallies(z.disk);
    assert AsAccount(Save(z.world.account)) == z.world.account;
  }

  lemma ReleasingKeepsTallies(a: Account, asset: string, amount: real)
    ensures SameTallies(a, Release(a, asset, amount))
  {
    hide BalanceOf;
  }

  lemma LoadKeepsTallies(disk: SavedPortfolio)
    requires Tallied(AsAccount(disk))
    ensures Tallied(Load(disk))
  {
    hide Total, ObserveEquity;
    var a := AsAccount(disk);
    assert {} + a.processed == a.processed;
    ObservingKeepsTallies(a, a.marks);
  }

  lemma {:induction false} RunKeepsTallies(z: Session, cfg: Config, actions: seq<Action>)
    requires Tallied(z.world.account) && Tallied(AsAccount(z.disk))
    ensures Tallied(Run(z, cfg, actions).world.account)
    decreases |actions|
  {
    hide Tallied, Step;
    if actions != [] {
      StepKeepsTallies(z, cfg, actions[0]);
      RunKeepsTallies(Step(z, cfg, actions[0]), cfg, actions[1..]);
    }
  }

  // After any run at all, market orders, missing books and fixed slippage included: total realized PnL and
  // fees are the sums over the positions, and the number of trades is the number of processed fills.
  lemma TallyTheorem(quote: string, start: real, cfg: Config, actions: seq<Action>)
    ensures Tallied(Run(OpeningSession(quote, start), cfg, actions).world.account)
  {
    hide Run, Tallied, OpeningWorld;
    OpeningTallies(quote, start);
    var z := OpeningSession(quote, start);
    assert AsAccount(z.disk) == OpeningAccount(quote, start);
    assert z.world.account == OpeningAccount(quote, start) by { OpeningHolds(quote, start); }
    RunKeepsTallies(z, cfg, actions);
  }

  lemma OpeningHolds(quote: string, start: real)
    ensures OpeningWorld(quote, start).account == OpeningAccount(quote, start)
  {
  }

  lemma OpeningTallies(quote: string, start: real)
    ensures Tallied(OpeningWorld(quote, start).account)
  {
    hide Observe, Equity;
    var a := Account(quote, map[quote := AssetBalance(start, 0.0)], map[], NO_STATS.(peakEquity := start), map[], {});
    TotalZero({}, RealizedOf(map[]));
    TotalZero({}, FeesOf(map[]));
    assert RealizedOf(map[]) == map[] && FeesOf(map[]) == map[];
    ObservedOpening(a);
  }

  lemma ObservedOpening(a: Account)
    ensures SameTallies(a, ObserveEquity(a))
  {
    hide Equity;
  }
}
