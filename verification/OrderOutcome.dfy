// What an order comes to, from what its sender holds: the order, the book, the fee rate and the funds at hand.
// Nothing here reads the fill that the executor will compute (bot/execution/paper_executor.py, `execute`).

module OrderOutcome {
  import opened Prelude
  import opened DepthWalk
  import opened Ledger
  import opened LedgerFacts
  import opened PaperExecution
  import opened PlacementFacts

  function LevelsFor(order: Order, book: OrderBook): seq<Level>
  {
    if order.side.Buy? then book.asks else book.bids
  }

  // What must be at hand for a limit order: the quote for all of it at its limit with the fee, or the base.
  function Needed(cfg: Config, order: Order): real
    requires order.requestedPrice.Some?
  {
    if order.side.Buy? then Value(Value(order.requestedQuantity, order.requestedPrice.value), 1.0 + cfg.feeRate)
    else order.requestedQuantity
  }

  // What lies before the first sized level beyond the limit.
  function InReach(order: Order, book: OrderBook): seq<Level>
    requires order.requestedPrice.Some?
  {
    Reachable(LevelsFor(order, book), order.side, order.requestedPrice)
  }

  predicate WillFill(available: real, cfg: Config, order: Order, book: OrderBook)
    requires order.requestedPrice.Some?
  {
    var depth := TakeableDepth(InReach(order, book));
    && Needed(cfg, order) <= available
    && Marketable(order, Some(book))
    && 0.0 < depth && (cfg.partialOk || order.requestedQuantity <= depth)
  }

  // What its fill will cost a buyer, nothing when there will be none.
  function BuyCost(available: real, cfg: Config, order: Order, book: OrderBook): real
    requires order.requestedPrice.Some?
  {
    if WillFill(available, cfg, order, book) then
      Value(SweepBook(InReach(order, book), order.requestedQuantity).notional, 1.0 + cfg.feeRate)
    else 0.0
  }

  // The stage an order gets to, told from the outside.
  predicate ComesTo(stage: Stage, available: real, cfg: Config, order: Order, book: OrderBook)
    requires order.requestedPrice.Some?
  {
    var reach := InReach(order, book);
    var swept := SweepBook(reach, order.requestedQuantity);
    match stage
    case Refused(_, _) =>
      !WillFill(available, cfg, order, book) && (Needed(cfg, order) > available || Marketable(order, Some(book)))
    case Rests(_) => Needed(cfg, order) <= available && !Marketable(order, Some(book))
    case Invalid(_) => false
    case Fills(_, fill) =>
      && WillFill(available, cfg, order, book)
      && fill.side == order.side && fill.symbol == order.symbol
      && fill.quantity == swept.filled == Min(order.requestedQuantity, TakeableDepth(reach))
      && fill.Gross() == swept.notional
      && fill.fee == Value(swept.notional, cfg.feeRate)
  }

  // On any book: exactly when an order is refused, rests or fills, and with what quantity, value and fee.
  lemma OrderComesTo(a: Account, cfg: Config, order: Order, book: OrderBook, fillId: string,
                     symbols: set<string>, start: real)
    requires Universe(symbols, a.quote) && Sound(a, symbols, start)
    requires InScope(cfg) && PricedBook(book) && ScopedOrder(order, symbols)
    ensures order.requestedPrice.Some?
    ensures ComesTo(Prepare(a, cfg, order, Some(book), fillId),
                    BalanceOf(a.balances, Claim(a.quote, cfg, order).0).available, cfg, order, book)
  {
    hide Value, BaseAsset, Solvent, Backed, LongOnly, Booked, Marked, Watched, Universe, PricedBook,
         Adjust, Move, SweepBook, TakeableDepth, Marketable, Covered, ReservationNeeded, Reachable, SlippageCost;
    var reach := InReach(order, book);
    var (asset, amount) := Claim(a.quote, cfg, order);
    PlacementIsCovered(a, cfg, order, book, fillId, symbols, start);
    ReservationIsClaim(a, cfg, order, symbols);
    SweepFills(reach, order.requestedQuantity);
    var swept := SweepBook(reach, order.requestedQuantity);
    if swept.filled > 0.0 { ValueOfAverage(swept.notional, swept.filled); }
  }

  // On a sorted book: it fills exactly when the funds are there and there is something on offer within its
  // limit, all of it unless parts will do; and then it trades what a sweep of the whole book for that
  // quantity trades.
  predicate ComesToSorted(stage: Stage, available: real, cfg: Config, order: Order, book: OrderBook)
    requires order.requestedPrice.Some?
  {
    var levels := LevelsFor(order, book);
    var depth := DepthWithin(levels, order.side, order.requestedPrice.value);
    && (stage.Fills? <==>
          Needed(cfg, order) <= available && 0.0 < depth && (cfg.partialOk || order.requestedQuantity <= depth))
    && (stage.Fills? ==>
          && stage.fill.quantity == Min(order.requestedQuantity, depth)
          && stage.fill.Gross() == SweepBook(levels, stage.fill.quantity).notional
          && stage.fill.fee == Value(stage.fill.Gross(), cfg.feeRate))
  }

  lemma SortedOrderComesTo(a: Account, cfg: Config, order: Order, book: OrderBook, fillId: string,
                           symbols: set<string>, start: real)
    requires Universe(symbols, a.quote) && Sound(a, symbols, start)
    requires InScope(cfg) && PricedBook(book) && ScopedOrder(order, symbols)
    requires InTradingOrder(LevelsFor(order, book), order.side)
    ensures order.requestedPrice.Some?
    ensures ComesToSorted(Prepare(a, cfg, order, Some(book), fillId),
                          BalanceOf(a.balances, Claim(a.quote, cfg, order).0).available, cfg, order, book)
  {
    hide Value, SweepBook, TakeableDepth, DepthWithin, Reachable, Prepare, Universe, Sound, PricedBook, Needed, Fill.Gross,
         Marketable, SimulateFill;
    OrderComesTo(a, cfg, order, book, fillId, symbols, start);
    var levels, limit := LevelsFor(order, book), order.requestedPrice.value;
    LimitWalk(levels, order.side, limit, order.requestedQuantity);
    ReachableDepth(levels, order.side, limit);
    RestsIffAllBeyond(cfg, order, book);
  }

  // The same for what a buy costs.
  lemma SortedBuyCost(available: real, cfg: Config, order: Order, book: OrderBook)
    requires order.orderType.Limit? && order.side.Buy? && order.requestedPrice.Some? && order.requestedQuantity > 0.0
    requires cfg.orderBookMode && InTradingOrder(book.asks, Buy)
    ensures var depth := DepthWithin(book.asks, Buy, order.requestedPrice.value);
            BuyCost(available, cfg, order, book)
            == if Needed(cfg, order) <= available && 0.0 < depth && (cfg.partialOk || order.requestedQuantity <= depth) then
                 Value(SweepBook(book.asks, Min(order.requestedQuantity, depth)).notional, 1.0 + cfg.feeRate)
               else 0.0
  {
    hide Value, SweepBook, TakeableDepth, DepthWithin, Reachable, Needed, Marketable, SimulateFill;
    LimitWalk(book.asks, Buy, order.requestedPrice.value, order.requestedQuantity);
    ReachableDepth(book.asks, Buy, order.requestedPrice.value);
    RestsIffAllBeyond(cfg, order, book);
  }
}
