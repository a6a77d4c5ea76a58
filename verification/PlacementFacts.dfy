// One order, from request to fill or rejection: what `execute` does to the account, for orders the
// engine sends: limit orders with a price, against a book.

module PlacementFacts {
  import opened Prelude
  import opened DepthWalk
  import opened Ledger
  import opened LedgerFacts
  import opened PaperExecution

  // ----- the walk under a limit -----

  lemma {:induction false} ReachableIsPrefix(levels: seq<Level>, side: Side, limit: Option<real>)
    ensures var r := Reachable(levels, side, limit);
            && r <= levels
            && (limit.Some? ==> forall l :: l in r && l.amount > 0.0 ==> !Beyond(l, side, limit.value))
            && (limit.None? ==> r == levels)
  {
    if levels != [] {
      ReachableIsPrefix(levels[1..], side, limit);
    }
  }

  // The size on offer at prices the limit allows, wherever in the book it stands.
  function DepthWithin(levels: seq<Level>, side: Side, limit: real): real
  {
    if levels == [] then 0.0
    else (if Beyond(levels[0], side, limit) then 0.0 else Max(levels[0].amount, 0.0))
         + DepthWithin(levels[1..], side, limit)
  }

  lemma {:induction false} NothingWithinBeyond(levels: seq<Level>, side: Side, limit: real)
    requires forall l :: l in levels ==> Beyond(l, side, limit)
    ensures DepthWithin(levels, side, limit) == 0.0
  {
    if levels != [] {
      assert levels[0] in levels;
      NothingWithinBeyond(levels[1..], side, limit);
    }
  }

  // On a sorted book breaking at the first level beyond the limit loses nothing.
  lemma {:induction false} ReachableDepth(levels: seq<Level>, side: Side, limit: real)
    requires InTradingOrder(levels, side)
    ensures TakeableDepth(Reachable(levels, side, Some(limit))) == DepthWithin(levels, side, limit)
  {
    if levels != [] {
      if Beyond(levels[0], side, limit) {
        forall l | l in levels ensures Beyond(l, side, limit) {
          var i :| 0 <= i < |levels| && levels[i] == l;
        }
        NothingWithinBeyond(levels, side, limit);
        NoSizeBeyond(levels, side, limit);
      } else {
        ReachableDepth(levels[1..], side, limit);
      }
    }
  }

  lemma {:induction false} NoSizeBeyond(levels: seq<Level>, side: Side, limit: real)
    requires forall l :: l in levels ==> Beyond(l, side, limit)
    ensures TakeableDepth(Reachable(levels, side, Some(limit))) == 0.0
  {
    if levels != [] {
      assert levels[0] in levels;
      if levels[0].amount <= 0.0 {
        NoSizeBeyond(levels[1..], side, limit);
      }
    }
  }

  // A limit order fills as much as is requested and on offer within its limit, and pays for it
  // exactly what sweeping the unrestricted book for that quantity costs.
  lemma LimitWalk(levels: seq<Level>, side: Side, limit: real, quantity: real)
    requires quantity > 0.0 && InTradingOrder(levels, side)
    ensures var s := SweepBook(Reachable(levels, side, Some(limit)), quantity);
            && s.filled == Min(quantity, DepthWithin(levels, side, limit))
            && s == SweepBook(levels, s.filled)
  {
    var r := Reachable(levels, side, Some(limit));
    ReachableIsPrefix(levels, side, Some(limit));
    ReachableDepth(levels, side, limit);
    SweepFills(r, quantity);
    SweepSaturates(r, quantity);
    SideDepthIsTakeable(r);
    SweepWithinPrefix(r, levels[|r|..], Min(quantity, TakeableDepth(r)));
    assert levels == r + levels[|r|..];
  }

  // The whole promise of the order-book walk for a limit order on a sorted book: the right quantity,
  // no price beyond the limit on average, and no cheaper (for a seller: dearer) way of trading it.
  lemma LimitOrderFillsBest(cfg: Config, order: Order, levels: seq<Level>)
    requires order.orderType.Limit? && order.requestedPrice.Some? && order.requestedQuantity > 0.0
    requires InTradingOrder(levels, order.side)
    ensures var depth := DepthWithin(levels, order.side, order.requestedPrice.value);
            var plan := WalkForOrder(cfg, order, levels);
            && (plan.Some? <==> 0.0 < depth && (cfg.partialOk || order.requestedQuantity <= depth))
            && (plan.Some? ==>
                  var gross := Value(plan.value.quantity, plan.value.vwap);
                  && plan.value.quantity == Min(order.requestedQuantity, depth)
                  && (if order.side.Buy? then gross <= Value(plan.value.quantity, order.requestedPrice.value)
                      else gross >= Value(plan.value.quantity, order.requestedPrice.value))
                  && forall alloc :: Feasible(levels, alloc) && Sum(alloc) == plan.value.quantity ==>
                       if order.side.Buy? then gross <= Notional(levels, alloc) else gross >= Notional(levels, alloc))
  {
    hide Value, TakeableDepth, SweepBook, Notional, Reachable, DepthWithin, SlippageCost;
    var limit := order.requestedPrice.value;
    LimitWalk(levels, order.side, limit, order.requestedQuantity);
    WalkWithinLimit(levels, order.side, limit, order.requestedQuantity);
    var plan := WalkForOrder(cfg, order, levels);
    if plan.Some? {
      var s := SweepBook(Reachable(levels, order.side, Some(limit)), order.requestedQuantity);
      ValueOfAverage(s.notional, s.filled);
      forall alloc | Feasible(levels, alloc) && Sum(alloc) == plan.value.quantity
        ensures if order.side.Buy? then s.notional <= Notional(levels, alloc) else s.notional >= Notional(levels, alloc)
      {
        if order.side.Buy? { GreedyIsCheapest(levels, alloc); } else { GreedyEarnsMost(levels, alloc); }
      }
    }
  }

  // On a sorted book an order is left resting exactly when every level lies beyond its limit. Then nothing is
  // on offer within the limit, and on levels that all have size that is what it means. When nothing is on
  // offer and the order does not rest, the best level lacks size, and the walk finds no plan: the order is
  // refused.
  lemma RestsIffAllBeyond(cfg: Config, order: Order, book: OrderBook)
    requires order.orderType.Limit? && order.requestedPrice.Some? && order.requestedQuantity > 0.0 && cfg.orderBookMode
    requires InTradingOrder(if order.side.Buy? then book.asks else book.bids, order.side)
    ensures var levels := if order.side.Buy? then book.asks else book.bids;
            var offered := DepthWithin(levels, order.side, order.requestedPrice.value);
            var rests := !Marketable(order, Some(book));
            && (rests <==> forall l :: l in levels ==> Beyond(l, order.side, order.requestedPrice.value))
            && (rests ==> offered == 0.0)
            && ((forall l :: l in levels ==> l.amount > 0.0) ==> (offered == 0.0 ==> rests))
            && (!rests && offered == 0.0 ==> levels[0].amount <= 0.0 && SimulateFill(cfg, order, Some(book)).None?)
  {
    hide DepthWithin, SweepBook, Reachable, Value, SlippageCost;
    var levels := if order.side.Buy? then book.asks else book.bids;
    var limit := order.requestedPrice.value;
    if levels == [] || Beyond(levels[0], order.side, limit) {
      forall l | l in levels ensures Beyond(l, order.side, limit) {
        var i :| 0 <= i < |levels| && levels[i] == l;
      }
      NothingWithinBeyond(levels, order.side, limit);
    } else {
      assert levels[0] in levels;
      if levels[0].amount > 0.0 { FirstIsOnOffer(levels, order.side, limit); }
      LimitWalk(levels, order.side, limit, order.requestedQuantity);
    }
  }

  lemma FirstIsOnOffer(levels: seq<Level>, side: Side, limit: real)
    requires levels != [] && levels[0].amount > 0.0 && !Beyond(levels[0], side, limit)
    ensures DepthWithin(levels, side, limit) > 0.0
  {
    DepthNonNegative(levels[1..], side, limit);
  }

  lemma {:induction false} DepthNonNegative(levels: seq<Level>, side: Side, limit: real)
    ensures DepthWithin(levels, side, limit) >= 0.0
  {
    if levels != [] { DepthNonNegative(levels[1..], side, limit); }
  }

  // The limit holds on any book, sorted or not, because the walk breaks.
  lemma WalkWithinLimit(levels: seq<Level>, side: Side, limit: real, quantity: real)
    ensures var s := SweepBook(Reachable(levels, side, Some(limit)), quantity);
            && 0.0 <= s.filled
            && (if side.Buy? then s.notional <= Value(s.filled, limit) else s.notional >= Value(s.filled, limit))
  {
    ReachableIsPrefix(levels, side, Some(limit));
    if side.Buy? {
      PaidAtMost(Reachable(levels, side, Some(limit)), quantity, limit);
    } else {
      PaidAtLeast(Reachable(levels, side, Some(limit)), quantity, limit);
    }
  }

  // ----- scope -----

  ghost predicate InScope(cfg: Config)
  {
    cfg.orderBookMode && 0.0 <= cfg.feeRate <= 1.0
  }

  ghost predicate PricedBook(book: OrderBook)
  {
    && (forall l :: l in book.bids && l.amount > 0.0 ==> l.price > 0.0)
    && (forall l :: l in book.asks && l.amount > 0.0 ==> l.price > 0.0)
  }

  ghost predicate ScopedOrder(order: Order, symbols: set<string>)
  {
    && order.symbol in symbols && order.orderType.Limit? && order.status.Pending?
    && order.requestedQuantity > 0.0 && order.filledQuantity == 0.0 && order.fills == []
    && order.requestedPrice.Some? && order.requestedPrice.value > 0.0
  }

  lemma {:induction false} PositivePricesPositiveNotional(levels: seq<Level>, quantity: real)
    requires forall l :: l in levels && l.amount > 0.0 ==> l.price > 0.0
    ensures var s := SweepBook(levels, quantity); s.notional >= 0.0 && (s.filled > 0.0 ==> s.notional > 0.0)
  {
    hide Value;
    if levels != [] && quantity > 0.0 {
      var l, rest := levels[0], levels[1..];
      if l.amount > 0.0 {
        assert l in levels;
        ValuePositive(quantity, l.price);
        ValuePositive(l.amount, l.price);
        PositivePricesPositiveNotional(rest, quantity - l.amount);
      } else {
        PositivePricesPositiveNotional(rest, quantity);
      }
    }
  }

  // What the plan of an in-scope order promises its reservation.
  lemma PlanFacts(cfg: Config, order: Order, book: OrderBook, symbols: set<string>)
    requires InScope(cfg) && PricedBook(book) && ScopedOrder(order, symbols)
    ensures var plan := SimulateFill(cfg, order, Some(book));
            plan.Some? ==>
              && 0.0 < plan.value.quantity <= order.requestedQuantity
              && 0.0 < plan.value.vwap && 0.0 <= plan.value.slippage
              && 0.0 < Value(plan.value.quantity, plan.value.vwap)
              && (order.side.Buy? ==>
                    Value(plan.value.quantity, plan.value.vwap)
                    <= Value(order.requestedQuantity, order.requestedPrice.value))
  {
    hide Value, SweepBook, TakeableDepth;
    var side, limit := order.side, order.requestedPrice.value;
    var levels := if side.Buy? then book.asks else book.bids;
    var r := Reachable(levels, side, Some(limit));
    var s := SweepBook(r, order.requestedQuantity);
    ReachableIsPrefix(levels, side, Some(limit));
    SweepFills(r, order.requestedQuantity);
    forall l | l in r && l.amount > 0.0 ensures l.price > 0.0 { assert l in levels; }
    PositivePricesPositiveNotional(r, order.requestedQuantity);
    WalkWithinLimit(levels, side, limit, order.requestedQuantity);
    if s.filled > 0.0 {
      ValueOfAverage(s.notional, s.filled);
      AverageIsPositive(s.notional, s.filled);
      ValuePositive(s.filled, Abs(s.notional / s.filled - limit));
      ValueMonotoneQuantity(s.filled, order.requestedQuantity, limit);
    }
  }

  // ----- the account while an order is being placed -----

  // Moving to and fro is the same as moving the difference.
  lemma MoveMove(a: Account, asset: string, x: real, y: real)
    ensures Move(Move(a, asset, x), asset, y) == Move(a, asset, x + y)
  {
    assert a.balances[asset := BalanceOf(Move(a, asset, x).balances, asset)]
                     [asset := BalanceOf(Move(a, asset, x + y).balances, asset)]
           == a.balances[asset := BalanceOf(Move(a, asset, x + y).balances, asset)];
  }

  lemma MoveNothing(a: Account, asset: string)
    requires asset in a.balances
    ensures Move(a, asset, 0.0) == a
  {
    assert a.balances[asset := a.balances[asset]] == a.balances;
  }

  // A rejected order leaves the account as it found it: in every slippage mode, for market and
  // limit orders, with or without a book.
  lemma RejectionLeavesAccount(a: Account, cfg: Config, order: Order, book: Option<OrderBook>, fillId: string)
    requires Solvent(a)
    requires Prepare(a, cfg, order, book, fillId).Refused?
    ensures Prepare(a, cfg, order, book, fillId).account == a
  {
    hide Value, SimulateFill, Marketable, BaseAsset, Solvent, Move, Adjust;
    var (affordable, asset, amount) := ReservationNeeded(a, cfg, order);
    BalanceIsSolvent(a, asset);
    if affordable && amount > 0.0 {
      AffordableIsHeld(a, cfg, order);
      ReleaseUndoes(a, asset, amount);
    }
  }

  lemma AffordableIsHeld(a: Account, cfg: Config, order: Order)
    ensures var (affordable, asset, amount) := ReservationNeeded(a, cfg, order);
            affordable && amount > 0.0 ==> asset in a.balances && amount <= BalanceOf(a.balances, asset).available
  {
    hide Value, BaseAsset;
  }

  lemma ReleaseUndoes(a: Account, asset: string, amount: real)
    requires asset in a.balances && amount > 0.0 && a.balances[asset].reserved >= 0.0
    ensures Release(Move(a, asset, amount), asset, amount) == a
  {
    MoveMove(a, asset, amount, -amount);
    MoveNothing(a, asset);
  }

  // Nothing but available and reserved of some asset has changed, and the total of `x` has not.
  predicate OnlyMoved(before: Account, after: Account, x: string)
  {
    && BalanceOf(after.balances, x).Total() == BalanceOf(before.balances, x).Total()
    && after.quote == before.quote && after.positions == before.positions && after.stats == before.stats
    && after.processed == before.processed
  }

  lemma MovingOnlyMoves(a: Account, asset: string, amount: real, x: string)
    ensures OnlyMoved(a, Move(a, asset, amount), x)
  {
  }

  lemma ReservingOnlyMoves(a: Account, asset: string, amount: real, x: string)
    ensures OnlyMoved(a, Reserve(a, asset, amount).0, x) && OnlyMoved(a, Release(a, asset, amount), x)
  {
    hide Move, BalanceOf;
    MovingOnlyMoves(a, asset, 0.0, x);
    MovingOnlyMoves(a, asset, amount, x);
    MovingOnlyMoves(a, asset, -Min(amount, BalanceOf(a.balances, asset).reserved), x);
  }

  lemma AdjustOnlyMoves(a: Account, order: Order, asset: string, reserved: real, plan: FillPlan, fee: real, x: string)
    ensures OnlyMoved(a, Adjust(a, order, asset, reserved, plan, fee), x)
  {
    hide Value, BaseAsset, Reserve, Release, BalanceOf;
    var used := Value(plan.quantity, plan.vwap) + fee;
    ReservingOnlyMoves(a, a.quote, used, x);
    ReservingOnlyMoves(a, BaseAsset(order.symbol, a.quote), plan.quantity, x);
    ReservingOnlyMoves(a, asset, reserved - used, x);
    ReservingOnlyMoves(a, asset, -(reserved - used), x);
    ReservingOnlyMoves(a, asset, reserved - plan.quantity, x);
  }

  // What an in-scope order claims: the asset and the amount set aside for it.
  function Claim(quote: string, cfg: Config, order: Order): (string, real)
    requires order.requestedPrice.Some?
  {
    if order.side.Buy? then
      (quote, Value(Value(order.requestedQuantity, order.requestedPrice.value), 1.0 + cfg.feeRate))
    else (BaseAsset(order.symbol, quote), order.requestedQuantity)
  }

  // What its fill uses up.
  function Used(fill: Fill): real
  {
    if fill.side.Buy? then fill.Gross() + fill.fee else fill.quantity
  }

  lemma WithFee(gross: real, rate: real)
    ensures Value(gross, 1.0 + rate) == gross + Value(gross, rate)
  {
  }

  lemma FeeAtMostGross(gross: real, rate: real)
    requires gross >= 0.0 && 0.0 <= rate <= 1.0
    ensures 0.0 <= Value(gross, rate) <= gross
  {
  }

  lemma ReservationIsClaim(a: Account, cfg: Config, order: Order, symbols: set<string>)
    requires InScope(cfg) && ScopedOrder(order, symbols)
    ensures var (asset, amount) := Claim(a.quote, cfg, order);
            && amount > 0.0
            && ReservationNeeded(a, cfg, order) == (BalanceOf(a.balances, asset).available >= amount, asset, amount)
  {
    hide Value, BaseAsset;
    ValuePositive(order.requestedQuantity, order.requestedPrice.value);
    ValuePositive(Value(order.requestedQuantity, order.requestedPrice.value), 1.0 + cfg.feeRate);
  }

  // The reservation covers the fill with its fee.
  lemma UsedWithinClaim(quote: string, cfg: Config, order: Order, gross: real)
    requires InScope(cfg) && order.requestedPrice.Some? && order.side.Buy?
    requires gross <= Value(order.requestedQuantity, order.requestedPrice.value)
    ensures gross + Value(gross, cfg.feeRate) <= Claim(quote, cfg, order).1
  {
    hide Value;
    WithFee(gross, cfg.feeRate);
    ValueMonotoneQuantity(gross, Value(order.requestedQuantity, order.requestedPrice.value), 1.0 + cfg.feeRate);
  }

  // Giving back the unused part leaves exactly the used part reserved.
  lemma AdjustKeepsUsed(a: Account, order: Order, asset: string, amount: real, plan: FillPlan, fee: real)
    requires 0.0 < amount && 0.0 <= BalanceOf(a.balances, asset).reserved
    requires var used := if order.side.Buy? then Value(plan.quantity, plan.vwap) + fee else plan.quantity;
             0.0 <= used <= amount
    ensures var used := if order.side.Buy? then Value(plan.quantity, plan.vwap) + fee else plan.quantity;
            Adjust(Move(a, asset, amount), order, asset, amount, plan, fee) == Move(a, asset, used)
  {
    hide Value, BaseAsset;
    var used := if order.side.Buy? then Value(plan.quantity, plan.vwap) + fee else plan.quantity;
    MoveMove(a, asset, amount, used - amount);
    assert amount - used <= BalanceOf(Move(a, asset, amount).balances, asset).reserved;
    hide Move;
  }

  lemma BuyIsCovered(a: Account, fill: Fill)
    requires fill.side.Buy? && 0.0 <= BalanceOf(a.balances, a.quote).reserved
    ensures Covered(Move(a, a.quote, Used(fill)), fill)
  {
    hide Fill.Gross;
  }

  lemma SaleIsCovered(a: Account, fill: Fill, base: string)
    requires fill.side.Sell? && base == BaseAsset(fill.symbol, a.quote)
    requires 0.0 <= BalanceOf(a.balances, base).reserved
    requires fill.quantity <= PositionOf(a.positions, fill.symbol).quantity
    ensures Covered(Move(a, base, Used(fill)), fill)
  {
    hide BaseAsset, Fill.Gross;
  }

  lemma BackedQuantity(a: Account, symbol: string, symbols: set<string>)
    requires Backed(a, symbols) && symbol in symbols
    ensures PositionOf(a.positions, symbol).quantity == BalanceOf(a.balances, BaseAsset(symbol, a.quote)).Total()
  {
    hide BaseAsset;
  }

  // Settling never runs into the clamps: at the moment of posting, the account is the one before the
  // order with exactly the cost of the fill moved into reserve.
  lemma PlacementIsCovered(a: Account, cfg: Config, order: Order, book: OrderBook, fillId: string,
                           symbols: set<string>, start: real)
    requires Universe(symbols, a.quote) && Sound(a, symbols, start)
    requires InScope(cfg) && PricedBook(book) && ScopedOrder(order, symbols)
    ensures var (asset, amount) := Claim(a.quote, cfg, order);
            amount > 0.0 &&
            match Prepare(a, cfg, order, Some(book), fillId)
            case Refused(after, _) => after == a
            case Rests(after) => amount <= BalanceOf(a.balances, asset).available && after == Move(a, asset, amount)
            case Invalid(_) => false
            case Fills(after, fill) =>
              && WellFormed(fill) && fill.fee <= fill.Gross()
              && fill.id == fillId && fill.symbol == order.symbol && fill.side == order.side
              && fill.quantity <= order.requestedQuantity
              && Used(fill) <= amount <= BalanceOf(a.balances, asset).available
              && after == Move(a, asset, Used(fill))
              && Covered(after, fill)
  {
    hide Value, BaseAsset, Solvent, Backed, LongOnly, Booked, Marked, Watched, Universe, PricedBook,
         ReservationNeeded, Adjust, Move, SimulateFill, Marketable, Covered;
    var (asset, amount) := Claim(a.quote, cfg, order);
    BalanceIsSolvent(a, asset);
    ReservationIsClaim(a, cfg, order, symbols);
    PlanFacts(cfg, order, book, symbols);
    if Prepare(a, cfg, order, Some(book), fillId).Refused? {
      RejectionLeavesAccount(a, cfg, order, Some(book), fillId);
    }
    var plan := SimulateFill(cfg, order, Some(book));
    if plan.Some? && amount <= BalanceOf(a.balances, asset).available {
      var gross := Value(plan.value.quantity, plan.value.vwap);
      var fee := Value(gross, cfg.feeRate);
      FeeAtMostGross(gross, cfg.feeRate);
      if order.side.Buy? { UsedWithinClaim(a.quote, cfg, order, gross); }
      AdjustKeepsUsed(a, order, asset, amount, plan.value, fee);
      var fill := Fill(fillId, order.id, order.symbol, order.side, plan.value.quantity, plan.value.vwap, fee,
                       plan.value.slippage);
      if order.side.Buy? {
        BuyIsCovered(a, fill);
      } else {
        BackedQuantity(a, order.symbol, symbols);
        SaleIsCovered(a, fill, asset);
      }
    }
  }
}
