// Runs of the whole engine: the risk gate composed with the paper executor. What the gate approves is
// handed over as approved, and the caps it checks survive whatever becomes of the order.

module EngineRuns {
  import opened Prelude
  import opened DepthWalk
  import opened Ledger
  import opened LedgerFacts
  import opened PaperExecution
  import opened PlacementFacts
  import opened OrderOutcome
  import opened LedgerRuns
  import opened RiskGate
  import opened RiskRuns
  import opened Engine

  // ----- what one order does to the positions -----

  ghost predicate Scoped(d: Desk, symbols: set<string>, o: Opportunity)
  {
    && o.symbol in symbols && o.quantity > 0.0 && o.entryPrice > 0.0
    && o.book.Some? && PricedBook(o.book.value)
    && o.orderId !in d.world.orders && o.fillId !in d.world.account.processed
  }

  // Placing an order changes at most the position in its symbol, the way its fill settles.
  lemma ExecutedPositions(w: World, cfg: Config, symbols: set<string>, start: real,
                          order: Order, book: OrderBook, fillId: string)
    requires Inv(w, cfg, symbols, start)
    requires ScopedOrder(order, symbols) && PricedBook(book) && fillId !in w.account.processed
    ensures var (after, result) := Execute(w, cfg, order, Some(book), fillId);
            result.Some? &&
            match Prepare(w.account, cfg, order, Some(book), fillId)
            case Fills(_, fill) =>
              && WellFormed(fill) && fill.symbol == order.symbol && fill.side == order.side
              && fill.id == fillId && order.requestedPrice.Some?
              && (fill.side.Sell? ==> fill.quantity <= PositionOf(w.account.positions, order.symbol).quantity)
              && (fill.side.Buy? ==>
                    fill.Gross() + fill.fee
                    <= Value(Value(order.requestedQuantity, order.requestedPrice.value), 1.0 + cfg.feeRate))
              && after.account.positions
                 == w.account.positions[fill.symbol := SettlePosition(PositionOf(w.account.positions, fill.symbol), fill).0]
            case _ => after.account.positions == w.account.positions
  {
    hide Sound, Universe, PricedBook, ScopedOrder, InScope, Registered, Surplus, WellFormed, Fill.Gross, Value,
         SettlePosition, Ledger.SettleBalances, Prepare, Move, Observe, Equity, TotalOver, BaseAsset, Attach, BalanceOf;
    ScopedFacts(order, symbols);
    PlacementIsCovered(w.account, cfg, order, book, fillId, symbols, start);
    var (asset, amount) := Claim(w.account.quote, cfg, order);
    MoveKeepsPositions(w.account, asset, amount);
    match Prepare(w.account, cfg, order, Some(book), fillId)
    case Fills(after, fill) =>
      MoveKeepsPositions(w.account, asset, Used(fill));
    case _ =>
  }

  lemma MoveKeepsPositions(a: Account, asset: string, amount: real)
    ensures Move(a, asset, amount).positions == a.positions
    ensures Move(a, asset, amount).processed == a.processed
  {
  }

  // ----- exposure and open positions -----

  // For long positions the exposure is the cost basis.
  lemma ExposureIsCost(positions: map<string, Position>)
    requires LongOnly(positions)
    ensures Exposure(positions) == Total(CostBases(positions)) && Exposure(positions) >= 0.0
  {
    hide Value, TotalOver;
    forall s | s in positions ensures ExposureOf(positions[s]) == CostBasis(positions[s]) >= 0.0 {
      ValuePositive(positions[s].quantity, positions[s].averageEntry);
    }
    assert Exposures(positions) == CostBases(positions);
    TotalNonNegative(CostBases(positions));
  }

  lemma SaleLowersCost(p: Position, fill: Fill)
    requires WellFormed(fill) && fill.side.Sell? && fill.quantity <= p.quantity && p.averageEntry >= 0.0
    ensures 0.0 <= CostBasis(SettlePosition(p, fill).0) <= CostBasis(p)
  {
    hide Value, Fill.Gross;
    var left := p.quantity - fill.quantity;
    ValuePositive(left, p.averageEntry);
    ValuePositive(0.0, 0.0);
    ValueMonotoneQuantity(left, p.quantity, p.averageEntry);
  }

  // A buy adds its cost with the fee to the exposure; a sale never adds to it.
  lemma SettledExposure(positions: map<string, Position>, fill: Fill)
    requires LongOnly(positions) && WellFormed(fill)
    requires fill.side.Sell? ==> fill.quantity <= PositionOf(positions, fill.symbol).quantity
    ensures var p := PositionOf(positions, fill.symbol);
            var after := positions[fill.symbol := SettlePosition(p, fill).0];
            LongOnly(after) ==>
              if fill.side.Buy? then Exposure(after) == Exposure(positions) + fill.Gross() + fill.fee
              else Exposure(after) <= Exposure(positions)
  {
    hide Value, TotalOver, Fill.Gross, SettlePosition, Exposure;
    var p := PositionOf(positions, fill.symbol);
    var settled := SettlePosition(p, fill).0;
    var after := positions[fill.symbol := settled];
    if LongOnly(after) {
      ExposureIsCost(positions);
      ExposureIsCost(after);
      assert CostBases(after) == CostBases(positions)[fill.symbol := CostBasis(settled)];
      TotalUpdate(CostBases(positions), fill.symbol, CostBasis(settled));
      ValuePositive(0.0, 0.0);
      SettledCost(p, fill);
      if fill.side.Sell? { SaleLowersCost(p, fill); }
    }
  }

  // What the gate is shown of an account: its own figures, one entry for each position that is not empty, with
  // what it has gained at its mark, nothing where no price is known.
  lemma SnapshotShows(a: Account)
    ensures var shown := SnapshotOf(a);
            && shown.balances == a.balances && shown.equity == Equity(a)
            && shown.recordedPeak == Some(a.stats.peakEquity) && shown.dailyRealizedPnl == a.stats.realizedPnl
            && shown.openPositions == |shown.positions|
            && (forall s :: s in shown.positions <==> s in a.positions && a.positions[s].quantity != 0.0)
            && (forall s :: s in shown.positions ==>
                  var p := a.positions[s];
                  && shown.positions[s].quantity == p.quantity && shown.positions[s].averageEntry == p.averageEntry
                  && shown.positions[s].unrealized
                     == if s in a.marks then Value(p.quantity, a.marks[s]) - Value(p.quantity, p.averageEntry) else 0.0)
  {
    hide Equity, Exposure;
    assert Ledger.Listed(a.positions, a.marks).Keys == OpenSymbols(a.positions);
    SameSize(Ledger.Listed(a.positions, a.marks));
    forall s | s in a.positions && a.positions[s].quantity != 0.0
      ensures Unrealized(a.positions[s], MarkOf(a.marks, s, a.positions[s].averageEntry))
              == if s in a.marks then Value(a.positions[s].quantity, a.marks[s])
                                      - Value(a.positions[s].quantity, a.positions[s].averageEntry) else 0.0
    {
      ValueGap(a.positions[s].quantity, a.positions[s].averageEntry, MarkOf(a.marks, s, a.positions[s].averageEntry));
    }
  }

  lemma SameSize(m: map<string, OpenPosition>)
    ensures |m.Keys| == |m|
  {
  }

  // The drawdown the gate computes from a snapshot is the one the portfolio keeps in its statistics.
  lemma GateSeesPortfolioDrawdown(a: Account)
    requires Watched(a)
    ensures DrawdownFraction(SnapshotOf(a)) == a.stats.currentDrawdown
  {
    hide Equity, Exposure, OpenSymbols;
    if a.stats.peakEquity > 0.0 {
      FractionSign(a.stats.peakEquity, Equity(a));
    }
  }

  lemma FractionSign(peak: real, equity: real)
    requires peak > 0.0
    ensures (peak - equity) / peak <= 0.0 <==> peak - equity <= 0.0
  {
    assert (peak - equity) / peak * peak == peak - equity;
  }

  // ----- what the gate was shown -----

  // What the gate was last shown may be behind by some positions and some exposure, but by no more.
  ghost predicate Shown(d: Desk, unseen: nat, drift: real)
  {
    && |OpenSymbols(d.world.account.positions)| <= d.snapshot.openPositions + unseen
    && Exposure(d.world.account.positions) <= d.snapshot.exposure + drift
    && d.snapshot.exposure >= 0.0
  }

  // What an approved buy may bring the exposure to: the cap at the equity the gate was shown, and the
  // fee, which becomes part of the cost basis but not of the request the gate compares with the cap.
  function Allowance(s: RiskSettings, cfg: Config, snapshot: PortfolioSnapshot, o: Opportunity): real
  {
    ShareOf(snapshot.equity, s.maxExposurePct) + Value(Value(o.quantity, o.entryPrice), cfg.feeRate)
  }

  lemma RefreshShows(d: Desk, cfg: Config, symbols: set<string>, start: real)
    requires Inv(d.world, cfg, symbols, start)
    ensures var r := Refresh(d);
            && Inv(r.world, cfg, symbols, start)
            && r.world.orders == d.world.orders && r.gate == d.gate
            && r.world.account.quote == d.world.account.quote
            && r.world.account.positions == d.world.account.positions
            && r.world.account.balances == d.world.account.balances
            && r.world.account.processed == d.world.account.processed
            && r.snapshot.openPositions == |OpenSymbols(d.world.account.positions)|
            && r.snapshot.exposure == Exposure(d.world.account.positions)
  {
    hide Observe, Equity, Value, Total, Universe, InScope, Registered, Claims, Solvent, LongOnly, Backed, Booked,
         Marked, Watched, BalanceOf;
    var a := d.world.account;
    RefreshKeeps(a, symbols, start);
    forall x ensures Surplus(Refresh(d).world, cfg, x) == Surplus(d.world, cfg, x) {}
  }

  // ----- one opportunity -----

  function Question(d: Desk, o: Opportunity): Happening
  {
    Ask(o.Asked(), d.snapshot, o.context, o.checked, o.stamped, o.now)
  }

  lemma ConsiderAsks(d: Desk, s: RiskSettings, cfg: Config, o: Opportunity)
    ensures var (next, outcome) := Consider(d, s, cfg, o);
            && next.gate == Next(d.gate, s, Question(d, o))
            && (outcome.Turned? <==> !Approves(d.gate, s, Question(d, o)))
  {
    hide Decide, Dispatch, MarkLast, Observe, Equity, Total;
  }

  lemma RefreshKeepsGate(d: Desk)
    ensures Refresh(d).gate == d.gate
  {
    hide Observe, Equity, Total;
  }

  // What the gate rejects never reaches the executor.
  lemma RejectionNeverExecutes(d: Desk, s: RiskSettings, cfg: Config, o: Opportunity)
    requires !Approves(d.gate, s, Question(d, o))
    ensures var next := Consider(d, s, cfg, o).0;
            && next.world.orders == d.world.orders && next.world.fills == d.world.fills
            && next.world.results == d.world.results && next.world.history == d.world.history
            && next.world.account.balances == d.world.account.balances
            && next.world.account.positions == d.world.account.positions
            && next.world.account.processed == d.world.account.processed
            && next.snapshot == d.snapshot
  {
    hide Decide, Dispatch, Refresh, Observe, Equity, Total;
  }

  lemma MarkLastKeeps(w: World, cfg: Config, symbols: set<string>, start: real, o: Opportunity)
    requires Inv(w, cfg, symbols, start)
    ensures Inv(MarkLast(w, o), cfg, symbols, start)
    ensures MarkLast(w, o).orders == w.orders && MarkLast(w, o).account.positions == w.account.positions
    ensures MarkLast(w, o).account.processed == w.account.processed && MarkLast(w, o).account.quote == w.account.quote
  {
    hide Inv, Surplus, SetMark;
    if o.last.Some? {
      MarkKeeps(w, cfg, symbols, start, o.symbol, o.last.value);
      MarkOnly(w.account, o.symbol, o.last.value);
    }
  }

  lemma MarkOnly(a: Account, symbol: string, price: real)
    ensures SetMark(a, symbol, price).positions == a.positions && SetMark(a, symbol, price).processed == a.processed
    ensures SetMark(a, symbol, price).quote == a.quote
  {
    hide Observe, Equity, Total;
  }

  // The order the executor receives is for what was asked, at the asked price.
  lemma ApprovedOrder(d: Desk, s: RiskSettings, symbols: set<string>, o: Opportunity)
    requires Configured(s) && d.snapshot.exposure >= 0.0
    requires Scoped(d, symbols, o) && Approves(d.gate, s, Question(d, o))
    ensures var decision := Decide(d.gate, s, o.Asked(), d.snapshot, o.context, o.checked, o.stamped, o.now).1;
            var order := NewOrder(o.Request(decision.quantity), Limit);
            && order.requestedQuantity == decision.quantity == o.quantity
            && order.requestedPrice == Some(o.entryPrice)
            && order.side == o.side && order.symbol == o.symbol && order.id == o.orderId
            && ScopedOrder(order, symbols)
            && d.snapshot.openPositions < s.maxOpen
            && Value(o.quantity, o.entryPrice) + d.snapshot.exposure <= ShareOf(d.snapshot.equity, s.maxExposurePct)
  {
    hide Value, Prune, Decide, PriceJumped, LossReached, DrawdownReached;
    ApprovalMeaning(d.gate, s, o.Asked(), d.snapshot, o.context, o.checked, o.stamped, o.now);
  }

  // What the fill of an order will cost, and whether it opens a position: both known from the executor's own
  // preparation before anything is posted.
  function FillCost(stage: Stage): real
  {
    if stage.Fills? && stage.fill.side.Buy? then stage.fill.Gross() + stage.fill.fee else 0.0
  }

  predicate OpensPosition(positions: map<string, Position>, stage: Stage)
  {
    stage.Fills? && stage.fill.side.Buy? && stage.fill.symbol !in OpenSymbols(positions)
  }

  // A buy adds its symbol to the open ones; a sale within the position adds none.
  lemma SettledSymbols(positions: map<string, Position>, fill: Fill)
    requires LongOnly(positions) && WellFormed(fill)
    requires fill.side.Sell? ==> fill.quantity <= PositionOf(positions, fill.symbol).quantity
    ensures var after := positions[fill.symbol := SettlePosition(PositionOf(positions, fill.symbol), fill).0];
            if fill.side.Buy? then OpenSymbols(after) == OpenSymbols(positions) + {fill.symbol}
            else OpenSymbols(after) <= OpenSymbols(positions)
  {
    hide Value;
  }

  lemma CountOpened(before: set<string>, symbol: string)
    ensures |before + {symbol}| == if symbol in before then |before| else |before| + 1
  {
    if symbol in before { assert before + {symbol} == before; }
  }

  lemma SettledCount(positions: map<string, Position>, fill: Fill)
    requires LongOnly(positions) && WellFormed(fill)
    requires fill.side.Sell? ==> fill.quantity <= PositionOf(positions, fill.symbol).quantity
    ensures var before := OpenSymbols(positions);
            var after := OpenSymbols(positions[fill.symbol := SettlePosition(PositionOf(positions, fill.symbol), fill).0]);
            if fill.side.Buy? && fill.symbol !in before then |after| == |before| + 1 else |after| <= |before|
  {
    hide SettlePosition, WellFormed, LongOnly, OpenSymbols;
    SettledSymbols(positions, fill);
    var before := OpenSymbols(positions);
    CountOpened(before, fill.symbol);
    if fill.side.Sell? {
      SubsetSize(OpenSymbols(positions[fill.symbol := SettlePosition(PositionOf(positions, fill.symbol), fill).0]), before);
    }
  }

  // The positions after an order, measured by the gate's own caps: exactly for the number of open positions,
  // exactly for a buy's exposure.
  lemma ExecutedCaps(w: World, cfg: Config, symbols: set<string>, start: real,
                     order: Order, book: OrderBook, fillId: string)
    requires Inv(w, cfg, symbols, start)
    requires ScopedOrder(order, symbols) && PricedBook(book) && fillId !in w.account.processed && order.id !in w.orders
    ensures order.requestedPrice.Some?
    ensures var (after, result) := Execute(w, cfg, order, Some(book), fillId);
            var stage := Prepare(w.account, cfg, order, Some(book), fillId);
            var asked := Value(order.requestedQuantity, order.requestedPrice.value);
            var before, now := OpenSymbols(w.account.positions), OpenSymbols(after.account.positions);
            && result.Some?
            && Inv(after, cfg, symbols, start) && after.account.quote == w.account.quote
            && (if OpensPosition(w.account.positions, stage) then |now| == |before| + 1 else |now| <= |before|)
            && Exposure(after.account.positions) <= Exposure(w.account.positions) + FillCost(stage)
            && (order.side.Buy? ==> Exposure(after.account.positions) == Exposure(w.account.positions) + FillCost(stage))
            && 0.0 <= FillCost(stage) <= (if order.side.Buy? then asked + Value(asked, cfg.feeRate) else 0.0)
  {
    hide Value, Execute, PricedBook, Registered, Exposure, OpenSymbols, Surplus, Universe, InScope, Fill.Gross,
         SettlePosition, WellFormed, Solvent, LongOnly, Backed, Booked, Marked, Watched, Prepare;
    ScopedFacts(order, symbols);
    PlacedInv(w, cfg, symbols, start, order, book, fillId);
    ExecutedPositions(w, cfg, symbols, start, order, book, fillId);
    AskedIsPositive(order, cfg);
    WithFee(Value(order.requestedQuantity, order.requestedPrice.value), cfg.feeRate);
    match Prepare(w.account, cfg, order, Some(book), fillId)
    case Fills(_, fill) =>
      SettledCount(w.account.positions, fill);
      SettledExposure(w.account.positions, fill);
      CostIsPositive(fill);
    case _ =>
  }

  lemma CostIsPositive(fill: Fill)
    requires WellFormed(fill)
    ensures fill.Gross() + fill.fee > 0.0
  {
    hide Value;
    ValuePositive(fill.quantity, fill.price);
  }

  lemma AskedIsPositive(order: Order, cfg: Config)
    requires order.requestedPrice.Some? && order.requestedPrice.value > 0.0 && order.requestedQuantity > 0.0
    requires InScope(cfg)
    ensures var asked := Value(order.requestedQuantity, order.requestedPrice.value);
            asked > 0.0 && Value(asked, cfg.feeRate) >= 0.0
  {
    hide Value;
    ValuePositive(order.requestedQuantity, order.requestedPrice.value);
    ValuePositive(Value(order.requestedQuantity, order.requestedPrice.value), cfg.feeRate);
  }

  lemma PlacedInv(w: World, cfg: Config, symbols: set<string>, start: real,
                  order: Order, book: OrderBook, fillId: string)
    requires Inv(w, cfg, symbols, start)
    requires ScopedOrder(order, symbols) && PricedBook(book) && fillId !in w.account.processed && order.id !in w.orders
    ensures Inv(Execute(w, cfg, order, Some(book), fillId).0, cfg, symbols, start)
    ensures Execute(w, cfg, order, Some(book), fillId).0.account.quote == w.account.quote
  {
    hide Sound, Universe, InScope, Registered, Surplus, Execute, ScopedOrder, PricedBook;
    PlaceKeepsAccount(w, cfg, symbols, start, order, book, fillId);
    PlaceKeepsRegistry(w, cfg, symbols, start, order, book, fillId);
    forall x ensures Surplus(Execute(w, cfg, order, Some(book), fillId).0, cfg, x) == Surplus(w, cfg, x) {
      PlaceKeepsSurplus(w, cfg, symbols, start, order, book, fillId, x);
    }
  }

  // The outcome of an approval: an order for the full quantity was handed to the executor (which may fill it,
  // fill it in part, leave it resting or refuse it), the open positions are within the maximum, and the exposure
  // is within the allowance after a buy, no higher than before after a sale; all that but for what the gate was
  // not shown.
  ghost predicate WithinCaps(d: Desk, s: RiskSettings, cfg: Config, o: Opportunity, r: (Desk, Outcome),
                             unseen: nat, drift: real)
  {
    && r.1.Executed? && r.1.decision.Approved? && r.1.decision.quantity == o.quantity
    && r.0.snapshot.openPositions == |OpenSymbols(r.0.world.account.positions)| <= s.maxOpen + unseen
    && r.0.snapshot.exposure == Exposure(r.0.world.account.positions)
       <= if o.side.Buy? then Allowance(s, cfg, d.snapshot, o) + drift else Exposure(d.world.account.positions)
  }

  // An approved opportunity becomes an order for the quantity that was asked for, and whatever becomes of that
  // order, the open positions are still within the maximum, and a buy leaves the exposure within its allowance.
  lemma ApprovalKeepsCaps(d: Desk, s: RiskSettings, cfg: Config, symbols: set<string>, start: real, o: Opportunity,
                          unseen: nat, drift: real)
    requires Configured(s) && Inv(d.world, cfg, symbols, start) && Shown(d, unseen, drift)
    requires Scoped(d, symbols, o) && Approves(d.gate, s, Question(d, o))
    ensures WithinCaps(d, s, cfg, o, Consider(d, s, cfg, o), unseen, drift)
    ensures var next := Consider(d, s, cfg, o).0;
            Inv(next.world, cfg, symbols, start) && next.world.account.quote == d.world.account.quote
  {
    hide Value, ShareOf, Decide, Execute, MarkLast, Refresh, Configured, Inv, PricedBook, ScopedOrder, Exposure,
         OpenSymbols, Prepare, OpensPosition, FillCost;
    var (gate, decision) := Decide(d.gate, s, o.Asked(), d.snapshot, o.context, o.checked, o.stamped, o.now);
    var order := NewOrder(o.Request(decision.quantity), Limit);
    var marked := MarkLast(d.world, o);
    ApprovedOrder(d, s, symbols, o);
    MarkLastKeeps(d.world, cfg, symbols, start, o);
    ExecutedCaps(marked, cfg, symbols, start, order, o.book.value, o.fillId);
    var world := Dispatch(marked, cfg, o, decision.quantity).0;
    RefreshShows(Desk(world, gate, d.snapshot), cfg, symbols, start);
    ExposureAtLeastZero(world, cfg, symbols, start);
  }

  // ----- `execute_approved` -----

  // What the call may cost at most.
  function ManualCost(cfg: Config, o: Opportunity, granted: real): real
  {
    var asked := Value(o.Request(granted).quantity, o.entryPrice);
    if o.side.Buy? then asked + Value(asked, cfg.feeRate) else 0.0
  }

  predicate Reaches(o: Opportunity, ruling: Ruling)
  {
    Honoured(o, ruling) && o.Request(ruling.decision.quantity).quantity > 0.0
  }

  // A call that is not honoured, or whose quantity the order request refuses, changes nothing at all.
  lemma RefusedCallChangesNothing(d: Desk, cfg: Config, o: Opportunity, ruling: Ruling)
    requires !Reaches(o, ruling)
    ensures ExecuteApproved(d, cfg, o, ruling) == (d, None)
  {
    hide Execute;
  }

  // Whatever the ruling, the ledger stays sound. The gate's caps it does not ask about: the number of open
  // positions grows exactly when the fill opens one, and a buy's exposure by exactly what its fill costs.
  lemma ManualCall(d: Desk, cfg: Config, symbols: set<string>, start: real, o: Opportunity, ruling: Ruling)
    requires Inv(d.world, cfg, symbols, start) && Scoped(d, symbols, o) && Reaches(o, ruling)
    ensures var next := ExecuteApproved(d, cfg, o, ruling).0;
            var stage := Prepare(d.world.account, cfg, NewOrder(o.Request(ruling.decision.quantity), Limit), o.book, o.fillId);
            var before, now := OpenSymbols(d.world.account.positions), OpenSymbols(next.world.account.positions);
            && Inv(next.world, cfg, symbols, start) && next.world.account.quote == d.world.account.quote
            && next.gate == d.gate && next.snapshot == d.snapshot
            && (if OpensPosition(d.world.account.positions, stage) then |now| == |before| + 1 else |now| <= |before|)
            && Exposure(next.world.account.positions) <= Exposure(d.world.account.positions) + FillCost(stage)
            && (o.side.Buy? ==>
                  Exposure(next.world.account.positions) == Exposure(d.world.account.positions) + FillCost(stage))
            && 0.0 <= FillCost(stage) <= ManualCost(cfg, o, ruling.decision.quantity)
  {
    hide Value, Execute, Inv, PricedBook, Exposure, OpenSymbols, Prepare, OpensPosition, FillCost;
    var order := NewOrder(o.Request(ruling.decision.quantity), Limit);
    ExecutedCaps(d.world, cfg, symbols, start, order, o.book.value, o.fillId);
  }

  // For a buy, the fill's cost and whether it opens a position, from what the sender holds.
  lemma BuyComesTo(w: World, cfg: Config, symbols: set<string>, start: real, order: Order, book: OrderBook, fillId: string)
    requires Inv(w, cfg, symbols, start) && ScopedOrder(order, symbols) && PricedBook(book) && order.side.Buy?
    ensures order.requestedPrice.Some?
    ensures var available := BalanceOf(w.account.balances, w.account.quote).available;
            var stage := Prepare(w.account, cfg, order, Some(book), fillId);
            && FillCost(stage) == BuyCost(available, cfg, order, book)
            && (OpensPosition(w.account.positions, stage)
                <==> WillFill(available, cfg, order, book) && order.symbol !in OpenSymbols(w.account.positions))
  {
    hide Value, Sound, Universe, InScope, Registered, Surplus, PricedBook, SweepBook, Reachable, OpenSymbols,
         Prepare, Fill.Gross, TakeableDepth, Needed, Marketable, Min;
    OrderComesTo(w.account, cfg, order, book, fillId, symbols, start);
    ClaimedAsset(w.account.quote, cfg, order);
    WithFee(SweepBook(InReach(order, book), order.requestedQuantity).notional, cfg.feeRate);
  }

  // A buy that will fill must not open a position when the maximum is reached, and what sweeping the book within
  // its limit costs, with the fee, must fit into what the exposure leaves. On a sorted book
  // OrderOutcome.SortedBuyCost says what that is.
  ghost predicate KeepsCaps(before: Account, cfg: Config, order: Order, book: OrderBook, maxOpen: nat, cap: real,
                            countKept: bool, exposureKept: bool)
    requires order.requestedPrice.Some?
  {
    var available := BalanceOf(before.balances, before.quote).available;
    var held := OpenSymbols(before.positions);
    && (countKept
        <==> !(order.side.Buy? && WillFill(available, cfg, order, book)
               && order.symbol !in held && |held| == maxOpen))
    && (exposureKept
        <==> (order.side.Buy? ==> BuyCost(available, cfg, order, book) <= cap - Exposure(before.positions)))
  }

  // Exactly when a call keeps the caps that held before it, whatever the caps are, told from the order, the
  // book, the fee rate and the funds at hand.
  lemma ManualKeepsCapsIff(d: Desk, cfg: Config, symbols: set<string>, start: real, o: Opportunity, ruling: Ruling,
                           maxOpen: nat, cap: real)
    requires Inv(d.world, cfg, symbols, start) && Scoped(d, symbols, o) && Reaches(o, ruling)
    requires |OpenSymbols(d.world.account.positions)| <= maxOpen && Exposure(d.world.account.positions) <= cap
    ensures var next := ExecuteApproved(d, cfg, o, ruling).0.world.account;
            KeepsCaps(d.world.account, cfg, NewOrder(o.Request(ruling.decision.quantity), Limit), o.book.value, maxOpen, cap,
                      |OpenSymbols(next.positions)| <= maxOpen, Exposure(next.positions) <= cap)
  {
    hide Value, Inv, PricedBook, Exposure, OpenSymbols, OpensPosition, Prepare, ExecuteApproved, FillCost, WillFill,
         BuyCost;
    ManualCall(d, cfg, symbols, start, o, ruling);
    NoCostWithoutBuy(d.world, cfg, symbols, start, o, ruling);
    if o.side.Buy? {
      BuyComesTo(d.world, cfg, symbols, start, NewOrder(o.Request(ruling.decision.quantity), Limit), o.book.value, o.fillId);
    }
  }

  // The same for what the gate approves: exactly when an approved buy leaves the exposure within a cap. The
  // gate itself compares the request without its fee, and without looking at the book.
  lemma BuyKeepsCapIff(d: Desk, s: RiskSettings, cfg: Config, symbols: set<string>, start: real, o: Opportunity, cap: real)
    requires Configured(s) && Inv(d.world, cfg, symbols, start) && d.snapshot.exposure >= 0.0
    requires Scoped(d, symbols, o) && Approves(d.gate, s, Question(d, o)) && o.side.Buy?
    ensures var before, next := d.world.account, Consider(d, s, cfg, o).0.world.account;
            var available := BalanceOf(before.balances, before.quote).available;
            var order := NewOrder(o.Request(o.quantity), Limit);
            Exposure(next.positions) <= cap
            <==> BuyCost(available, cfg, order, o.book.value) <= cap - Exposure(before.positions)
  {
    hide Value, ShareOf, Decide, Execute, Refresh, Configured, Inv, PricedBook, ScopedOrder, Exposure,
         OpenSymbols, Prepare, OpensPosition, FillCost, BuyCost, WillFill, SetMark;
    var (gate, decision) := Decide(d.gate, s, o.Asked(), d.snapshot, o.context, o.checked, o.stamped, o.now);
    var order := NewOrder(o.Request(decision.quantity), Limit);
    var marked := MarkLast(d.world, o);
    ApprovedOrder(d, s, symbols, o);
    MarkLastKeeps(d.world, cfg, symbols, start, o);
    MarkLastMoves(d.world, o);
    hide MarkLast;
    ExecutedCaps(marked, cfg, symbols, start, order, o.book.value, o.fillId);
    BuyComesTo(marked, cfg, symbols, start, order, o.book.value, o.fillId);
    var world := Dispatch(marked, cfg, o, decision.quantity).0;
    RefreshShows(Desk(world, gate, d.snapshot), cfg, symbols, start);
  }

  lemma MarkLastMoves(w: World, o: Opportunity)
    ensures MarkLast(w, o).account.balances == w.account.balances
  {
    hide Observe, Equity, Total;
  }

  lemma NoCostWithoutBuy(w: World, cfg: Config, symbols: set<string>, start: real, o: Opportunity, ruling: Ruling)
    requires Inv(w, cfg, symbols, start) && ruling.decision.Approved?
    requires o.symbol in symbols && o.entryPrice > 0.0 && o.book.Some? && PricedBook(o.book.value)
    requires o.Request(ruling.decision.quantity).quantity > 0.0
    ensures var stage := Prepare(w.account, cfg, NewOrder(o.Request(ruling.decision.quantity), Limit), o.book, o.fillId);
            o.side.Sell? ==> FillCost(stage) == 0.0 && !OpensPosition(w.account.positions, stage)
  {
    hide Value, PricedBook, Prepare, Sound, Registered, Surplus, Universe, InScope, WellFormed, Covered, Move, Claim, Used;
    PlacementIsCovered(w.account, cfg, NewOrder(o.Request(ruling.decision.quantity), Limit), o.book.value, o.fillId,
                       symbols, start);
  }

  lemma ExposureAtLeastZero(w: World, cfg: Config, symbols: set<string>, start: real)
    requires Inv(w, cfg, symbols, start)
    ensures Exposure(w.account.positions) >= 0.0
  {
    hide Universe, InScope, Registered, Surplus, Solvent, LongOnly, Backed, Booked, Marked, Watched;
    ExposureIsCost(w.account.positions);
  }
}
