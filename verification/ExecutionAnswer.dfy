// The answer of the paper executor: it agrees with the order, the fill and the position that the execution
// leaves behind, and its sender could have told it (bot/execution/paper_executor.py, `execute`).

module ExecutionAnswer {
  import opened Prelude
  import opened DepthWalk
  import opened Ledger
  import opened LedgerFacts
  import opened PaperExecution
  import opened PlacementFacts
  import opened OrderOutcome
  import opened FillSums

  // ----- the answer and the world -----

  // The order that was asked for, whatever became of it.
  predicate SameRequest(asked: Order, o: Order)
  {
    && o.id == asked.id && o.symbol == asked.symbol && o.side == asked.side && o.orderType == asked.orderType
    && o.requestedQuantity == asked.requestedQuantity && o.requestedPrice == asked.requestedPrice
  }

  // What is held of a symbol after buying or selling; a sale never leaves less than nothing.
  function HeldAfter(before: real, side: Side, quantity: real): real
  {
    if side.Buy? then before + quantity else if before <= quantity then 0.0 else before - quantity
  }

  // The one fill of an order that was filled: recorded, posted, and in the position.
  ghost predicate OneFill(w: World, after: World, o: Order, r: ExecutionResult, fillId: string)
  {
    && |o.fills| == 1
    && var f := o.fills[0];
       && f.id == fillId && f.orderId == o.id && f.symbol == o.symbol && f.side == o.side
       && f.quantity == r.filledQuantity && f.fee == r.fees && r.averagePrice == Some(f.price)
       && o.slippage == f.slippage
       && o.symbol in after.account.marks && after.account.marks[o.symbol] == f.price
       && (fillId !in w.account.processed ==>
             && after.fills == w.fills[fillId := f]
             && after.account.processed == w.account.processed + {fillId}
             && |after.results| == |w.results| + 1 && after.results[..|w.results|] == w.results
             && after.results[|w.results|].fillId == fillId && after.results[|w.results|].applied
             && PositionOf(after.account.positions, o.symbol).quantity
                == HeldAfter(PositionOf(w.account.positions, o.symbol).quantity, o.side, r.filledQuantity))
       && (fillId in w.account.processed ==>
             after.fills == w.fills && after.results == w.results && after.account.positions == w.account.positions)
  }

  ghost predicate AnswerAgrees(w: World, asked: Order, after: World, answer: Option<ExecutionResult>, fillId: string)
  {
    && asked.id in after.orders
    && var o := after.orders[asked.id];
       && after.orders == w.orders[asked.id := o] && SameRequest(asked, o)
       && (match answer
           case None =>
             && o.status == Open && after.history == w.history && after.fills == w.fills && after.results == w.results
             && after.account.positions == w.account.positions
           case Some(r) =>
             && after.history == w.history + [r]
             && r.orderId == asked.id && r.status == o.status && r.filledQuantity == o.filledQuantity
             && r.averagePrice == o.averageFillPrice && r.fees == o.fee && r.rejectionReason == o.rejectionReason
             && (r.rejectionReason.Some? <==> r.status == Rejected)
             && (if r.status == Filled || r.status == PartiallyFilled then
                   && 0.0 < r.filledQuantity && (r.status == Filled <==> asked.requestedQuantity <= r.filledQuantity)
                   && OneFill(w, after, o, r, fillId)
                 else
                   && (r.status == Open || r.status == Rejected)
                   && r.filledQuantity == 0.0 && r.averagePrice == None && r.fees == 0.0 && o.fills == []
                   && after.fills == w.fills && after.results == w.results
                   && after.account.positions == w.account.positions
                   && after.account.processed == w.account.processed))
  }

  // For any order at all, of any type, with or without a book, in any mode: what the executor answers is what it
  // has written down.
  lemma AnswerIsWorld(w: World, cfg: Config, request: OrderRequest, orderType: OrderType, book: Option<OrderBook>,
                      fillId: string)
    ensures var order := NewOrder(request, orderType);
            var (after, answer) := Execute(w, cfg, order, book, fillId);
            AnswerAgrees(w, order, after, answer, fillId)
  {
    hide Value, Prepare, Post, ApplyFill, SetMark, OneFill;
    var order := NewOrder(request, orderType);
    var stage := Prepare(w.account, cfg, order, book, fillId);
    PreparedStage(w.account, cfg, order, book, fillId);
    if stage.Fills? {
      FilledAnswer(w, order, stage.account, stage.fill, fillId);
    }
  }

  // Preparing an order moves amounts within balances, and nothing else.
  lemma PreparedStage(a: Account, cfg: Config, order: Order, book: Option<OrderBook>, fillId: string)
    ensures var stage := Prepare(a, cfg, order, book, fillId);
            && stage.account.positions == a.positions && stage.account.processed == a.processed
            && stage.account.quote == a.quote && stage.account.marks == a.marks
            && (stage.Fills? ==>
                  var f := stage.fill;
                  && f.id == fillId && f.orderId == order.id && f.symbol == order.symbol && f.side == order.side
                  && 0.0 < f.quantity && 0.0 < f.price)
  {
    hide Value, SimulateFill, ReservationNeeded, Marketable, BalanceOf, Move;
    MovesOnly(a);
    var (affordable, asset, amount) := ReservationNeeded(a, cfg, order);
    var held := Reserve(a, asset, amount).0;
    MovesOnly(held);
    var plan := SimulateFill(cfg, order, book);
  }

  lemma MovesOnly(a: Account)
    ensures forall asset, amount ::
              var b := Move(a, asset, amount);
              b.positions == a.positions && b.processed == a.processed && b.quote == a.quote && b.marks == a.marks
  {
  }

  // What posting a fill and marking its price leaves in the account.
  lemma FillParts(a: Account, fill: Fill, price: real)
    ensures var after := SetMark(if fill.id in a.processed then a else ApplyFill(a, fill), fill.symbol, price);
            && after.marks == a.marks[fill.symbol := price]
            && Post(a, fill).1.duplicate == (fill.id in a.processed)
            && Post(a, fill).1.fillId == fill.id && Post(a, fill).1.applied == (fill.id !in a.processed)
            && (if fill.id in a.processed then after.positions == a.positions && after.processed == a.processed
                else
                  && after.processed == a.processed + {fill.id}
                  && PositionOf(after.positions, fill.symbol).quantity
                     == HeldAfter(PositionOf(a.positions, fill.symbol).quantity, fill.side, fill.quantity))
  {
    hide Value, Observe, Equity, Total, Ledger.SettleBalances, CountTrade, RealizedBySale;
  }

  lemma AttachedOne(order: Order, fill: Fill)
    requires order.filledQuantity == 0.0 && order.fills == [] && order.fee == 0.0 && order.slippage == 0.0
    requires 0.0 < fill.quantity
    ensures var o := Attach(order.(status := Open), fill);
            && o.fills == [fill] && o.filledQuantity == fill.quantity && o.averageFillPrice == Some(fill.price)
            && o.fee == fill.fee && o.slippage == fill.slippage && o.rejectionReason == order.rejectionReason
            && SameRequest(order, o)
            && o.status == if order.requestedQuantity <= fill.quantity then Filled else PartiallyFilled
  {
    assert [] + [fill] == [fill];
    assert FillsNotional([fill]) == fill.Gross() + FillsNotional([fill][1..]);
    OneAverage(fill.quantity, fill.price);
    hide Value;
  }

  lemma OneAverage(quantity: real, price: real)
    requires quantity > 0.0
    ensures Value(quantity, price) / quantity == price
  {
  }

  lemma FilledAnswer(w: World, order: Order, account: Account, fill: Fill, fillId: string)
    requires order.filledQuantity == 0.0 && order.fills == [] && order.fee == 0.0 && order.slippage == 0.0
    requires order.rejectionReason == None
    requires account.positions == w.account.positions && account.processed == w.account.processed
    requires fill.id == fillId && fill.orderId == order.id && fill.symbol == order.symbol && fill.side == order.side
    requires 0.0 < fill.quantity
    ensures var (after, answer) := Conclude(w, order, Fills(account, fill)); AnswerAgrees(w, order, after, answer, fillId)
  {
    hide Value, Post, ApplyFill, SetMark, Attach, HeldAfter, PositionOf;
    AttachedOne(order, fill);
    FillParts(account, fill, fill.price);
  }

  // ----- the answer and its sender -----

  // The quote with the fee for a buyer, the base for a seller.
  predicate Affords(a: Account, cfg: Config, order: Order, limit: real)
  {
    if order.side.Buy? then
      Value(Value(order.requestedQuantity, limit), 1.0 + cfg.feeRate) <= BalanceOf(a.balances, a.quote).available
    else order.requestedQuantity <= BalanceOf(a.balances, BaseAsset(order.symbol, a.quote)).available
  }

  // No level, or the best of them beyond the limit.
  predicate OutOfReach(levels: seq<Level>, side: Side, limit: real)
  {
    levels == [] || if side.Buy? then limit < levels[0].price else levels[0].price < limit
  }

  // The answer to a limit order on a sorted book, from the funds, the book and the settings. What is reported as
  // slippage is by how much the fill was better than the limit.
  predicate AnswerFor(a: Account, cfg: Config, order: Order, limit: real, book: OrderBook, r: ExecutionResult,
                      slippage: real)
  {
    var levels := LevelsFor(order, book);
    var depth := DepthWithin(levels, order.side, limit);
    if !Affords(a, cfg, order, limit) then r.status == Rejected && r.rejectionReason == Some("INSUFFICIENT_BALANCE")
    else if OutOfReach(levels, order.side, limit) then r.status == Open
    else if depth == 0.0 || (!cfg.partialOk && depth < order.requestedQuantity) then
      r.status == Rejected && r.rejectionReason == Some("INSUFFICIENT_LIQUIDITY")
    else
      var gross := SweepBook(levels, r.filledQuantity).notional;
      && r.filledQuantity == Min(order.requestedQuantity, depth)
      && r.status == (if order.requestedQuantity <= depth then Filled else PartiallyFilled)
      && r.averagePrice.Some? && Value(r.filledQuantity, r.averagePrice.value) == gross
      && r.fees == Value(gross, cfg.feeRate)
      && slippage == (if order.side.Buy? then Value(r.filledQuantity, limit) - gross
                      else gross - Value(r.filledQuantity, limit))
      && 0.0 <= slippage
  }

  // Why an order is refused, and what its fill reports as slippage.
  lemma StageSays(a: Account, cfg: Config, order: Order, book: OrderBook, fillId: string, symbols: set<string>)
    requires InScope(cfg) && ScopedOrder(order, symbols)
    ensures match Prepare(a, cfg, order, Some(book), fillId)
            case Refused(_, reason) =>
              reason == (if Affords(a, cfg, order, order.requestedPrice.value) then "INSUFFICIENT_LIQUIDITY"
                         else "INSUFFICIENT_BALANCE")
            case Fills(_, fill) =>
              fill.slippage == Abs(Value(fill.quantity, fill.price) - Value(fill.quantity, order.requestedPrice.value))
            case _ => true
  {
    hide Value, BaseAsset, Marketable, Adjust, Move, SweepBook, Reachable, BalanceOf;
    ReservationIsClaim(a, cfg, order, symbols);
    var plan := SimulateFill(cfg, order, Some(book));
    if plan.Some? { GapOfPrices(plan.value.quantity, plan.value.vwap, order.requestedPrice.value); }
  }

  lemma GapOfPrices(quantity: real, price: real, limit: real)
    requires quantity >= 0.0
    ensures Value(quantity, Abs(price - limit)) == Abs(Value(quantity, price) - Value(quantity, limit))
  {
  }

  lemma SenderKnowsAnswer(w: World, cfg: Config, symbols: set<string>, start: real, request: OrderRequest, book: OrderBook,
                          fillId: string)
    requires Universe(symbols, w.account.quote) && Sound(w.account, symbols, start)
    requires InScope(cfg) && PricedBook(book) && ScopedOrder(NewOrder(request, Limit), symbols)
    requires InTradingOrder(LevelsFor(NewOrder(request, Limit), book), request.side)
    ensures var order := NewOrder(request, Limit);
            var (after, answer) := Execute(w, cfg, order, Some(book), fillId);
            && answer.Some? && order.id in after.orders && request.limitPrice.Some?
            && AnswerFor(w.account, cfg, order, request.limitPrice.value, book, answer.value,
                         after.orders[order.id].slippage)
  {
    hide Value, SweepBook, DepthWithin, InTradingOrder, Universe, Sound, PricedBook, Prepare, Post, ApplyFill, SetMark,
         BaseAsset, Marketable, BalanceOf, Fill.Gross, InScope, Attach;
    var order := NewOrder(request, Limit);
    var levels, limit := LevelsFor(order, book), order.requestedPrice.value;
    var stage := Prepare(w.account, cfg, order, Some(book), fillId);
    OrderComesTo(w.account, cfg, order, book, fillId, symbols, start);
    SortedOrderComesTo(w.account, cfg, order, book, fillId, symbols, start);
    StageSays(w.account, cfg, order, book, fillId, symbols);
    DepthNonNegative(levels, order.side, limit);
    ReachMeans(order, book);
    if stage.Fills? {
      AttachedOne(order, stage.fill);
      GrossIs(stage.fill);
      FillWithinLimit(cfg, order, book, stage.fill);
    }
  }

  lemma GrossIs(fill: Fill)
    ensures fill.Gross() == Value(fill.quantity, fill.price)
  {
  }

  lemma ReachMeans(order: Order, book: OrderBook)
    requires order.requestedPrice.Some?
    ensures OutOfReach(LevelsFor(order, book), order.side, order.requestedPrice.value) <==> !Marketable(order, Some(book))
  {
  }

  lemma FillWithinLimit(cfg: Config, order: Order, book: OrderBook, fill: Fill)
    requires order.requestedQuantity > 0.0 && order.requestedPrice.Some?
    requires InTradingOrder(LevelsFor(order, book), order.side)
    requires var levels, limit := LevelsFor(order, book), order.requestedPrice.value;
             fill.quantity == Min(order.requestedQuantity, DepthWithin(levels, order.side, limit))
             && fill.Gross() == SweepBook(levels, fill.quantity).notional
    ensures if order.side.Buy? then fill.Gross() <= Value(fill.quantity, order.requestedPrice.value)
            else Value(fill.quantity, order.requestedPrice.value) <= fill.Gross()
  {
    hide Value, SweepBook, DepthWithin, InTradingOrder, Reachable, Fill.Gross;
    LimitWalk(LevelsFor(order, book), order.side, order.requestedPrice.value, order.requestedQuantity);
    WalkWithinLimit(LevelsFor(order, book), order.side, order.requestedPrice.value, order.requestedQuantity);
  }

  // ----- orders without a price, and without a book -----

  // The price that a buy is reserved at: its own, or else the symbol's last mark, if either is positive.
  function ReservedAt(a: Account, order: Order): Option<real>
  {
    if order.requestedPrice.Some? && order.requestedPrice.value > 0.0 then order.requestedPrice
    else if order.symbol in a.marks && a.marks[order.symbol] > 0.0 then Some(a.marks[order.symbol])
    else None
  }

  // What has to be at hand, and is set aside: for a buy the quantity at that price with the fee, nothing while
  // there is none; for a sale the quantity itself.
  lemma ReservationTells(a: Account, cfg: Config, order: Order)
    ensures var (affordable, asset, amount) := ReservationNeeded(a, cfg, order);
            && (affordable <==> AffordsOrder(a, cfg, order))
            && asset == (if order.side.Buy? then a.quote else BaseAsset(order.symbol, a.quote))
            && amount == (if order.side.Sell? then order.requestedQuantity
                          else if ReservedAt(a, order).None? then 0.0
                          else Value(Value(order.requestedQuantity, ReservedAt(a, order).value), 1.0 + cfg.feeRate))
  {
    hide Value, BaseAsset, BalanceOf;
  }

  predicate AffordsOrder(a: Account, cfg: Config, order: Order)
  {
    if order.side.Sell? then order.requestedQuantity <= BalanceOf(a.balances, BaseAsset(order.symbol, a.quote)).available
    else
      ReservedAt(a, order).Some? ==>
        Value(Value(order.requestedQuantity, ReservedAt(a, order).value), 1.0 + cfg.feeRate)
        <= BalanceOf(a.balances, a.quote).available
  }

  predicate MarketStage(a: Account, cfg: Config, order: Order, levels: seq<Level>, stage: Stage)
  {
    var swept := SweepBook(levels, order.requestedQuantity);
    var from := if order.requestedPrice.Some? then order.requestedPrice.value
                else if levels != [] then levels[0].price else 0.0;
    if !AffordsOrder(a, cfg, order) then stage.Refused? && stage.reason == "INSUFFICIENT_BALANCE"
    else if swept.filled <= 0.0 || (!cfg.partialOk && swept.filled < order.requestedQuantity) then
      stage.Refused? && stage.reason == "INSUFFICIENT_LIQUIDITY"
    else if swept.notional <= 0.0 || Value(swept.notional, cfg.feeRate) < 0.0 then stage.Invalid?
    else
      && stage.Fills? && stage.fill.quantity == swept.filled && stage.fill.Gross() == swept.notional
      && stage.fill.fee == Value(swept.notional, cfg.feeRate)
      && stage.fill.slippage == (if from > 0.0 then Abs(swept.notional - Value(swept.filled, from)) else 0.0)
  }

  // A market order, or one without a price, sweeps the whole book, whatever price it names; its slippage is the
  // distance from that price, or else from the first of the book.
  lemma MarketOrderComesTo(a: Account, cfg: Config, order: Order, book: OrderBook, fillId: string)
    requires cfg.orderBookMode && order.requestedQuantity > 0.0
    requires order.orderType == Market || order.requestedPrice == None
    ensures MarketStage(a, cfg, order, LevelsFor(order, book), Prepare(a, cfg, order, Some(book), fillId))
  {
    hide Value, BaseAsset, Adjust, SweepBook, Move, BalanceOf, AffordsOrder, ReservationNeeded;
    var levels := LevelsFor(order, book);
    ReservationTells(a, cfg, order);
    WillReserve(a, cfg, order);
    var swept := SweepBook(levels, order.requestedQuantity);
    NothingUnreachable(levels, order.side);
    if swept.filled > 0.0 {
      ValueOfAverage(swept.notional, swept.filled);
      AverageSign(swept.notional, swept.filled);
      var from := if order.requestedPrice.Some? then order.requestedPrice.value
                  else if levels != [] then levels[0].price else 0.0;
      GapOfPrices(swept.filled, swept.notional / swept.filled, from);
      GapIsNotNegative(swept.filled, swept.notional / swept.filled, from);
    }
  }

  lemma {:induction false} NothingUnreachable(levels: seq<Level>, side: Side)
    ensures Reachable(levels, side, None) == levels
  {
    if levels != [] { NothingUnreachable(levels[1..], side); }
  }

  lemma AverageSign(notional: real, filled: real)
    requires filled > 0.0
    ensures notional / filled <= 0.0 <==> notional <= 0.0
  {
    assert notional / filled * filled == notional;
  }

  lemma GapIsNotNegative(quantity: real, price: real, reference: real)
    requires quantity >= 0.0
    ensures Value(quantity, Abs(price - reference)) >= 0.0
  {
  }

  // The levels a plan counts are those its walk takes from before it breaks.
  lemma PlanTouches(cfg: Config, order: Order, levels: seq<Level>)
    ensures var plan := WalkForOrder(cfg, order, levels);
            plan.Some? ==>
              plan.value.levels
              == Touched(GreedyAllocation(Reachable(levels, order.side, LimitOf(order)), order.requestedQuantity))
  {
    hide SweepBook, GreedyAllocation, Touched, Reachable, SlippageCost;
    SweepTouches(Reachable(levels, order.side, LimitOf(order)), order.requestedQuantity);
  }

  // What is affordable is also granted.
  lemma WillReserve(a: Account, cfg: Config, order: Order)
    ensures var (affordable, asset, amount) := ReservationNeeded(a, cfg, order);
            affordable ==> Reserve(a, asset, amount).1
  {
    hide Value, BaseAsset, Move;
  }

  // The price that a fixed slippage is counted from: the order's own, or else the first of the side it takes.
  function CountedFrom(order: Order, book: Option<OrderBook>): Option<real>
  {
    if order.requestedPrice.Some? && order.requestedPrice.value > 0.0 then order.requestedPrice
    else if book.Some? && LevelsFor(order, book.value) != [] && LevelsFor(order, book.value)[0].price > 0.0 then
      Some(LevelsFor(order, book.value)[0].price)
    else None
  }

  predicate FixedStage(a: Account, cfg: Config, order: Order, book: Option<OrderBook>, stage: Stage)
  {
    var from := CountedFrom(order, book);
    var share := cfg.fixedSlippagePct / 100.0;
    if !AffordsOrder(a, cfg, order) then stage.Refused? && stage.reason == "INSUFFICIENT_BALANCE"
    else if order.orderType.Limit? && order.requestedPrice.Some? && book.Some?
            && OutOfReach(LevelsFor(order, book.value), order.side, order.requestedPrice.value) then stage.Rests?
    else if from.None? then stage.Refused? && stage.reason == "INSUFFICIENT_LIQUIDITY"
    else
      var move := Value(from.value, share);
      var price := if order.side.Buy? then from.value + move else from.value - move;
      var gross := Value(order.requestedQuantity, price);
      if price <= 0.0 || Value(gross, cfg.feeRate) < 0.0 then stage.Invalid?
      else
        && stage.Fills? && stage.fill.quantity == order.requestedQuantity && stage.fill.price == price
        && stage.fill.fee == Value(gross, cfg.feeRate)
        && stage.fill.slippage == Value(order.requestedQuantity, Abs(move))
  }

  // Where there is no book to walk, or it is not to be walked: an order never rests for want of a book, and fills
  // for all of its quantity, away from its reference by the fixed share.
  lemma FixedOrderComesTo(a: Account, cfg: Config, order: Order, book: Option<OrderBook>, fillId: string)
    requires !cfg.orderBookMode || book.None?
    requires order.requestedQuantity > 0.0
    ensures FixedStage(a, cfg, order, book, Prepare(a, cfg, order, book, fillId))
  {
    hide Value, BaseAsset, Adjust, Move, BalanceOf, AffordsOrder, ReservationNeeded;
    ReservationTells(a, cfg, order);
    WillReserve(a, cfg, order);
    var from, share := CountedFrom(order, book), cfg.fixedSlippagePct / 100.0;
    if from.Some? {
      SlippedBy(from.value, share);
      GapIsNotNegative(order.requestedQuantity, Value(from.value, share), 0.0);
    }
  }

  lemma SlippedBy(from: real, share: real)
    ensures Value(from, 1.0 + share) == from + Value(from, share) && Value(from, 1.0 - share) == from - Value(from, share)
    ensures Abs(from + Value(from, share) - from) == Abs(Value(from, share)) == Abs(from - Value(from, share) - from)
  {
  }

  // Levels without size neither fill nor stop a walk, wherever they stand and whatever their price.
  function WithSize(levels: seq<Level>): seq<Level>
  {
    if levels == [] then [] else (if levels[0].amount > 0.0 then [levels[0]] else []) + WithSize(levels[1..])
  }

  lemma {:induction false} SizelessDoNotMatter(levels: seq<Level>, side: Side, limit: Option<real>, quantity: real)
    ensures SweepBook(Reachable(levels, side, limit), quantity)
            == SweepBook(Reachable(WithSize(levels), side, limit), quantity)
    decreases |levels|
  {
    hide Value, Beyond, SweepBook;
    if levels != [] {
      var l, rest := levels[0], levels[1..];
      var reach := Reachable(rest, side, limit);
      if l.amount <= 0.0 {
        assert WithSize(levels) == WithSize(rest) && Reachable(levels, side, limit) == [l] + reach;
        SkipSizeless(l, reach, quantity);
        SizelessDoNotMatter(rest, side, limit, quantity);
      } else {
        assert WithSize(levels) == [l] + WithSize(rest) && ([l] + WithSize(rest))[1..] == WithSize(rest);
        if !(limit.Some? && Beyond(l, side, limit.value)) && quantity > 0.0 {
          SweepOne(l, reach, quantity);
          SweepOne(l, Reachable(WithSize(rest), side, limit), quantity);
          SizelessDoNotMatter(rest, side, limit, quantity - Min(quantity, l.amount));
        } else if quantity <= 0.0 {
          NothingAsked(Reachable(levels, side, limit), quantity);
          NothingAsked(Reachable(WithSize(levels), side, limit), quantity);
        }
      }
    }
  }

  lemma SkipSizeless(l: Level, rest: seq<Level>, quantity: real)
    requires l.amount <= 0.0
    ensures SweepBook([l] + rest, quantity) == SweepBook(rest, quantity)
  {
    assert ([l] + rest)[1..] == rest;
  }

  lemma NothingAsked(levels: seq<Level>, quantity: real)
    requires quantity <= 0.0
    ensures SweepBook(levels, quantity) == Sweep(0.0, 0.0, 0)
  {
  }

  // ----- the order in the registry -----

  // An order's figures are those of its fills, its average weighted by their quantities.
  predicate AddsUp(o: Order)
  {
    && o.filledQuantity == FilledBy(o.fills) && o.fee == FeesOf(o.fills) && o.slippage == SlippageOf(o.fills)
    && (o.filledQuantity > 0.0 ==>
          o.averageFillPrice.Some? && Value(o.filledQuantity, o.averageFillPrice.value) == VolumeOf(o.fills))
  }

  // A new order adds up, and each fill attached to it keeps it so, fills it up to its quantity, and is last.
  lemma AttachAddsUp(o: Order, fill: Fill)
    requires AddsUp(o)
    ensures var after := Attach(o, fill);
            && AddsUp(after) && after.fills == o.fills + [fill] && SameRequest(o, after)
            && after.rejectionReason == o.rejectionReason
            && (if after.requestedQuantity <= after.filledQuantity then after.status == Filled
                else if 0.0 < after.filledQuantity then after.status == PartiallyFilled
                else after.status == o.status)
  {
    hide Value;
    SumsConcat(o.fills, [fill]);
    assert [fill][1..] == [];
    NotionalIsVolume(o.fills + [fill]);
    var filled := o.filledQuantity + fill.quantity;
    if filled > 0.0 { ValueOfAverage(FillsNotional(o.fills + [fill]), filled); }
  }

  lemma {:induction false} NotionalIsVolume(fills: seq<Fill>)
    ensures FillsNotional(fills) == VolumeOf(fills)
  {
    hide Value;
    if fills != [] { NotionalIsVolume(fills[1..]); }
  }

  lemma NewOrderAddsUp(request: OrderRequest, orderType: OrderType)
    ensures AddsUp(NewOrder(request, orderType))
  {
  }

  // When the fill record refuses its price the exception leaves after the reservation was made and adjusted: what
  // the fill would have needed stays set aside, with an open order and no fill.
  lemma ExceptionKeepsReservation(w: World, cfg: Config, order: Order, book: Option<OrderBook>, fillId: string,
                                  plan: FillPlan)
    requires Prepare(w.account, cfg, order, book, fillId).Invalid? && SimulateFill(cfg, order, book) == Some(plan)
    ensures var (affordable, asset, amount) := ReservationNeeded(w.account, cfg, order);
            var (after, answer) := Execute(w, cfg, order, book, fillId);
            var fee := Value(Value(plan.quantity, plan.vwap), cfg.feeRate);
            && answer == None && affordable
            && after.account == Adjust(Reserve(w.account, asset, amount).0, order, asset, amount, plan, fee)
            && order.id in after.orders && after.orders[order.id] == order.(status := Open)
            && (plan.vwap <= 0.0 || fee < 0.0 || plan.slippage < 0.0)
  {
    hide Value, BaseAsset, Adjust, Reserve, SimulateFill, ReservationNeeded, Marketable;
  }

  // ----- adjusting the reservation -----

  // How much an order's adjustment moves into reserve: what its fill needs beyond what was set aside, if it is
  // there; or back, what was set aside beyond its need.
  function Adjustment(a: Account, order: Order, asset: string, reserved: real, need: real): real
  {
    var b := BalanceOf(a.balances, asset);
    if reserved <= 0.0 then (if 0.0 < need <= b.available then need else 0.0)
    else if need <= reserved then -(if reserved - need < b.reserved then reserved - need else b.reserved)
    else if order.side.Buy? && need - reserved <= b.available then need - reserved
    else 0.0
  }

  // A buy needs its fill's value with the fee, in quote; a sale the quantity, in base.
  lemma AdjustTells(a: Account, order: Order, asset: string, reserved: real, plan: FillPlan, fee: real, x: string)
    requires 0.0 <= BalanceOf(a.balances, asset).reserved
    requires asset == if order.side.Buy? then a.quote else BaseAsset(order.symbol, a.quote)
    ensures var need := if order.side.Buy? then Value(plan.quantity, plan.vwap) + fee else plan.quantity;
            var moved, after := Adjustment(a, order, asset, reserved, need), Adjust(a, order, asset, reserved, plan, fee);
            && BalanceOf(after.balances, x)
               == (var b := BalanceOf(a.balances, x);
                   if x == asset then AssetBalance(b.available - moved, b.reserved + moved) else b)
            && after == a.(balances := after.balances)
  {
    hide Value, BaseAsset;
  }

  // ----- cancelling -----

  // Cancelling asks back what an order that is not filled would still need: the rest of its quantity at its price,
  // or else at its average, with the fee; for a sale the rest itself. No more than is reserved comes back, and the
  // order keeps everything but its status and reason. What is filled, rejected or failed stays as it is.
  lemma CancelTells(w: World, cfg: Config, id: string, reason: string)
    requires id in w.orders
    ensures var o, after := w.orders[id], Cancel(w, cfg, id, reason);
            if o.status == Filled || o.status == Rejected || o.status == Failed then after == w
            else
              var rest := o.requestedQuantity - o.filledQuantity;
              var asset := if o.side.Buy? then w.account.quote else BaseAsset(o.symbol, w.account.quote);
              var price := if o.requestedPrice.Some? && o.requestedPrice.value != 0.0 then o.requestedPrice.value
                           else if o.averageFillPrice.Some? then o.averageFillPrice.value else 0.0;
              var asked := if o.side.Buy? then Value(Value(rest, price), 1.0 + cfg.feeRate) else rest;
              var b := BalanceOf(w.account.balances, asset);
              var back := if asked < b.reserved then asked else b.reserved;
              && after.orders == w.orders[id := o.(status := Cancelled, rejectionReason := Some(reason))]
              && after.fills == w.fills && after.results == w.results && after.history == w.history
              && after.account == (if rest <= 0.0 || asked <= 0.0 then w.account
                                   else w.account.(balances := w.account.balances[
                                          asset := AssetBalance(b.available + back, b.reserved - back)]))
  {
    hide Value, BaseAsset;
  }
}
