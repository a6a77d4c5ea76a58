// The paper executor and the objects it drives: OrderManager, FillTracker, PaperPortfolio
// (bot/execution/paper_executor.py, bot/execution/order_manager.py, bot/execution/fill_tracker.py).
// `Execute` and `Cancel` are proved to be the transitions of PaperExecution.dfy, so everything
// LedgerRuns.dfy and Drawdown.dfy prove about runs holds of these objects.

module PaperExecutor {
  import opened Prelude
  import opened DepthWalk
  import opened Ledger
  import opened PaperExecution
  import opened Portfolio

  class OrderManager {
    var orders: map<string, Order>

    constructor ()
      ensures orders == map[]
    {
      orders := map[];
    }

    method Add(order: Order)
      modifies this
      ensures orders == old(orders)[order.id := order]
    {
      orders := orders[order.id := order];
    }

    method SetStatus(id: string, status: OrderStatus, reason: Option<string>)
      requires id in orders
      modifies this
      ensures var o := old(orders[id]);
              orders == old(orders)[id := o.(status := status,
                                             rejectionReason := if reason.Some? then reason else o.rejectionReason)]
    {
      var order := orders[id].(status := status);
      if reason.Some? {
        order := order.(rejectionReason := reason);
      }
      orders := orders[id := order];
    }

    // `attach_fill`
    method AttachFill(id: string, fill: Fill) returns (order: Order)
      requires id in orders
      modifies this
      ensures order == Attach(old(orders[id]), fill)
      ensures orders == old(orders)[id := order]
    {
      order := orders[id];
      var fills := order.fills + [fill];
      var filled := order.filledQuantity + fill.quantity;
      order := order.(fills := fills, filledQuantity := filled, fee := order.fee + fill.fee,
                      slippage := order.slippage + fill.slippage);
      var notional := 0.0;
      for i := 0 to |fills|
        invariant notional + FillsNotional(fills[i..]) == FillsNotional(fills)
      {
        notional := notional + fills[i].Gross();
      }
      if filled > 0.0 {
        order := order.(averageFillPrice := Some(notional / filled));
      }
      if filled >= order.requestedQuantity {
        order := order.(status := Filled);
      } else if filled > 0.0 {
        order := order.(status := PartiallyFilled);
      }
      orders := orders[id := order];
    }

    // `cancel`
    method Cancel(id: string, reason: string) returns (order: Order)
      requires id in orders
      modifies this
      ensures order == if old(orders[id]).status in {Filled, Rejected, Failed} then old(orders[id])
                       else old(orders[id]).(status := Cancelled, rejectionReason := Some(reason))
      ensures orders == old(orders)[id := order]
    {
      order := orders[id];
      if order.status in {Filled, Rejected, Failed} {
        assert old(orders)[id := order] == old(orders);
        return;
      }
      order := order.(status := Cancelled, rejectionReason := Some(reason));
      orders := orders[id := order];
    }
  }

  class FillTracker {
    const portfolio: PaperPortfolio
    var fills: map<string, Fill>
    var results: seq<AccountingResult>

    constructor (portfolio: PaperPortfolio)
      ensures this.portfolio == portfolio && fills == map[] && results == []
    {
      this.portfolio, fills, results := portfolio, map[], [];
    }

    // `apply`: duplicates are reported and not recorded.
    method Apply(fill: Fill) returns (result: AccountingResult)
      modifies this, portfolio.state, portfolio.accounting
      ensures result == Post(old(portfolio.View()), fill).1
      ensures portfolio.View() == if result.duplicate then old(portfolio.View()) else ApplyFill(old(portfolio.View()), fill)
      ensures fills == if result.duplicate then old(fills) else old(fills)[fill.id := fill]
      ensures results == if result.duplicate then old(results) else old(results) + [result]
    {
      hide Observe, MarkToMarket, ObserveEquity, SettlePosition, Ledger.SettleBalances;
      result := portfolio.ApplyFill(fill);
      if result.duplicate {
        return;
      }
      fills := fills[fill.id := fill];
      results := results + [result];
    }
  }

  class PaperExecutor {
    const cfg: Config
    const portfolio: PaperPortfolio
    const manager: OrderManager
    const tracker: FillTracker
    var history: seq<ExecutionResult>

    constructor (cfg: Config, portfolio: PaperPortfolio)
      ensures Valid() && this.cfg == cfg && this.portfolio == portfolio
      ensures View() == World(portfolio.View(), map[], map[], [], [])
      ensures fresh(manager) && fresh(tracker)
    {
      this.cfg, this.portfolio := cfg, portfolio;
      manager := new OrderManager();
      tracker := new FillTracker(portfolio);
      history := [];
    }

    ghost predicate Valid()
      reads this
    {
      tracker.portfolio == portfolio
    }

    ghost function View(): World
      reads this, portfolio, portfolio.state, portfolio.accounting, manager, tracker
    {
      World(portfolio.View(), manager.orders, tracker.fills, tracker.results, history)
    }

    // The loop of `_walk_book`: greedy, stopping at the limit.
    method WalkLevels(levels: seq<Level>, side: Side, limit: Option<real>, quantity: real) returns (walked: Sweep)
      ensures walked == SweepBook(Reachable(levels, side, limit), quantity)
    {
      hide Value;
      var remaining, notional, filled := quantity, 0.0, 0.0;
      var consumed := 0;
      ghost var whole := SweepBook(Reachable(levels, side, limit), quantity);
      var i := 0;
      while i < |levels|
        invariant 0 <= i <= |levels|
        invariant remaining == quantity - filled
        invariant var rest := SweepBook(Reachable(levels[i..], side, limit), remaining);
                  whole == Sweep(filled + rest.filled, notional + rest.notional, consumed + rest.levels)
      {
        var level := levels[i];
        assert levels[i..][0] == level && levels[i..][1..] == levels[i + 1..];
        if remaining <= 0.0 {
          break;
        }
        if level.amount > 0.0 {
          if limit.Some? && Beyond(level, side, limit.value) {
            break;
          }
          var take := Min(remaining, level.amount);
          SweepOne(level, Reachable(levels[i + 1..], side, limit), remaining);
          notional := notional + Value(take, level.price);
          filled := filled + take;
          remaining := remaining - take;
          consumed := consumed + 1;
        } else {
          assert ([level] + Reachable(levels[i + 1..], side, limit))[1..] == Reachable(levels[i + 1..], side, limit);
        }
        i := i + 1;
      }
      walked := Sweep(filled, notional, consumed);
    }

    // `_walk_book`
    method WalkBook(order: Order, levels: seq<Level>) returns (plan: Option<FillPlan>)
      ensures plan == WalkForOrder(cfg, order, levels)
    {
      hide Value, SweepBook, Reachable;
      var reference := order.requestedPrice;
      if reference.None? && levels != [] {
        reference := Some(levels[0].price);
      }
      var walked := WalkLevels(levels, order.side, LimitOf(order), order.requestedQuantity);
      if walked.filled <= 0.0 {
        return None;
      }
      if order.requestedQuantity - walked.filled > 0.0 {
        if cfg.rejectThin && !cfg.partialOk {
          return None;
        }
        if !cfg.partialOk {
          return None;
        }
      }
      var vwap := walked.notional / walked.filled;
      var slippage := 0.0;
      if reference.Some? && reference.value > 0.0 {
        slippage := Value(walked.filled, Abs(vwap - reference.value));
      }
      plan := Some(FillPlan(walked.levels, walked.filled, vwap, slippage));
    }

    method Simulate(order: Order, book: Option<OrderBook>) returns (plan: Option<FillPlan>)
      ensures plan == SimulateFill(cfg, order, book)
    {
      if cfg.orderBookMode && book.Some? {
        plan := WalkBook(order, if order.side.Buy? then book.value.asks else book.value.bids);
      } else {
        plan := FixedFill(cfg, order, book);
      }
    }

    // `_adjust_reservation_after_fill`
    method AdjustReservation(order: Order, asset: string, reserved: real, plan: FillPlan, fee: real)
      modifies portfolio.state
      ensures portfolio.View() == Adjust(old(portfolio.View()), order, asset, reserved, plan, fee)
    {
      hide Value, BaseAsset, Ledger.Reserve, Release;
      var quote := portfolio.state.quote;
      if reserved <= 0.0 {
        if order.side.Buy? {
          var needed := Value(plan.quantity, plan.vwap) + fee;
          var available := portfolio.Available(quote);
          if available >= needed {
            var _ := portfolio.Reserve(quote, needed);
          }
        } else {
          var base := BaseAsset(order.symbol, quote);
          var available := portfolio.Available(base);
          if available >= plan.quantity {
            var _ := portfolio.Reserve(base, plan.quantity);
          }
        }
        return;
      }
      if order.side.Buy? {
        var used := Value(plan.quantity, plan.vwap) + fee;
        var unused := reserved - used;
        if unused > 0.0 {
          portfolio.ReleaseReservation(asset, unused);
        } else if unused < 0.0 {
          var _ := portfolio.Reserve(asset, -unused);
        }
      } else {
        portfolio.ReleaseReservation(asset, reserved - plan.quantity);
      }
    }

    method Reject(id: string, reason: string) returns (result: ExecutionResult)
      requires id in manager.orders
      modifies this`history, manager
      ensures result == ExecutionResult(id, Rejected, 0.0, None, 0.0, Some(reason))
      ensures manager.orders == old(manager.orders)[id := RejectedOrder(old(manager.orders[id]), reason)]
      ensures history == old(history) + [result]
    {
      manager.SetStatus(id, Rejected, Some(reason));
      result := ExecutionResult(id, Rejected, 0.0, None, 0.0, Some(reason));
      history := history + [result];
    }

    // `_reservation_needed`
    method Reservation(order: Order) returns (affordable: bool, asset: string, amount: real)
      ensures (affordable, asset, amount) == ReservationNeeded(portfolio.View(), cfg, order)
    {
      hide Value, BaseAsset;
      var quote := portfolio.state.quote;
      if order.side.Buy? {
        var price := if order.requestedPrice.Some? then order.requestedPrice.value else 0.0;
        if price <= 0.0 {
          price := if order.symbol in portfolio.state.marks then portfolio.state.marks[order.symbol] else 0.0;
        }
        if price <= 0.0 {
          return true, quote, 0.0;
        }
        amount := Value(Value(order.requestedQuantity, price), 1.0 + cfg.feeRate);
        var available := portfolio.Available(quote);
        return available >= amount, quote, amount;
      }
      asset := BaseAsset(order.symbol, quote);
      var available := portfolio.Available(asset);
      return available >= order.requestedQuantity, asset, order.requestedQuantity;
    }

    // The last part of `execute`, from the plan on: keep what is needed, write the fill, post it.
    method Settle(order: Order, asset: string, amount: real, plan: FillPlan, fillId: string)
      returns (result: Option<ExecutionResult>)
      requires Valid() && order.id in manager.orders && manager.orders[order.id] == order.(status := Open)
      modifies this`history, portfolio.state, portfolio.accounting, manager, tracker
      ensures Valid()
      ensures (View(), result)
              == Conclude(old(View()), order, Fillable(old(portfolio.View()), cfg, order, asset, amount, plan, fillId))
    {
      hide Value, BaseAsset, Adjust, Attach, ApplyFill, SetMark, Post;
      ghost var known := manager.orders;
      var fee := Value(Value(plan.quantity, plan.vwap), cfg.feeRate);
      AdjustReservation(order, asset, amount, plan, fee);
      if plan.vwap <= 0.0 || fee < 0.0 || plan.slippage < 0.0 {
        assert known[order.id := order.(status := Open)] == known;
        return None;
      }
      var fill := Fill(fillId, order.id, order.symbol, order.side, plan.quantity, plan.vwap, fee, plan.slippage);
      var filled := manager.AttachFill(order.id, fill);
      var posted := tracker.Apply(fill);
      portfolio.SetMarkPrice(order.symbol, plan.vwap);
      var done := ExecutionResult(order.id, filled.status, fill.quantity, Some(fill.price), fill.fee, None);
      history := history + [done];
      return Some(done);
    }

    // The middle part of `execute`, once the funds are set aside and the order is open.
    method TryToFill(order: Order, asset: string, amount: real, book: Option<OrderBook>, fillId: string)
      returns (result: Option<ExecutionResult>)
      requires Valid() && order.id in manager.orders && manager.orders[order.id] == order.(status := Open)
      modifies this`history, portfolio.state, portfolio.accounting, manager, tracker
      ensures Valid()
      ensures (View(), result)
              == Conclude(old(View()), order, Attempt(old(portfolio.View()), cfg, order, book, asset, amount, fillId))
    {
      hide Value, BaseAsset, Release, SimulateFill, Fillable, Marketable, Attach, ApplyFill, SetMark, Post;
      ghost var known := manager.orders;
      if order.orderType.Limit? && order.requestedPrice.Some? {
        if !Marketable(order, book) {
          assert known[order.id := order.(status := Open)] == known;
          var resting := ExecutionResult(order.id, Open, 0.0, None, 0.0, None);
          history := history + [resting];
          return Some(resting);
        }
      }
      var plan := Simulate(order, book);
      if plan.None? || plan.value.quantity <= 0.0 {
        portfolio.ReleaseReservation(asset, amount);
        var refused := Reject(order.id, INSUFFICIENT_LIQUIDITY);
        return Some(refused);
      }
      result := Settle(order, asset, amount, plan.value, fillId);
    }

    // `execute`. No result means that an exception leaves: the fill record refused its price.
    method Execute(request: OrderRequest, orderType: OrderType, book: Option<OrderBook>, fillId: string)
      returns (result: Option<ExecutionResult>)
      requires Valid()
      modifies this`history, portfolio.state, portfolio.accounting, manager, tracker
      ensures Valid()
      ensures (View(), result) == PaperExecution.Execute(old(View()), cfg, NewOrder(request, orderType), book, fillId)
    {
      hide Value, BaseAsset, Ledger.Reserve, Attempt, ReservationNeeded, Attach, ApplyFill, SetMark, Post;
      var order := NewOrder(request, orderType);
      ghost var before := View();
      manager.Add(order);

      var affordable, asset, amount := Reservation(order);
      if !affordable {
        var refused := Reject(order.id, INSUFFICIENT_BALANCE);
        Overwritten(before.orders, order.id, order, RejectedOrder(order, INSUFFICIENT_BALANCE));
        return Some(refused);
      }
      var granted := portfolio.Reserve(asset, amount);
      if !granted {
        var refused := Reject(order.id, INSUFFICIENT_BALANCE);
        Overwritten(before.orders, order.id, order, RejectedOrder(order, INSUFFICIENT_BALANCE));
        return Some(refused);
      }

      manager.SetStatus(order.id, Open, None);
      Overwritten(before.orders, order.id, order, order.(status := Open));
      ghost var held := View();
      result := TryToFill(order, asset, amount, book, fillId);
      ConcludeOverwrites(before, held.account, order, order.(status := Open),
                         Attempt(held.account, cfg, order, book, asset, amount, fillId));
    }

    // What is recorded in the end does not depend on the status the order passed through.
    lemma ConcludeOverwrites(w: World, account: Account, order: Order, first: Order, stage: Stage)
      ensures Conclude(w.(account := account, orders := w.orders[order.id := first]), order, stage)
              == Conclude(w, order, stage)
    {
      hide Attach, ApplyFill, SetMark, Post;
      match stage
      case Refused(_, reason) => Overwritten(w.orders, order.id, first, RejectedOrder(order, reason));
      case Rests(_) => Overwritten(w.orders, order.id, first, order.(status := Open));
      case Invalid(_) => Overwritten(w.orders, order.id, first, order.(status := Open));
      case Fills(_, fill) => Overwritten(w.orders, order.id, first, Attach(order.(status := Open), fill));
    }

    lemma Overwritten(orders: map<string, Order>, id: string, first: Order, last: Order)
      ensures orders[id := first][id := last] == orders[id := last]
    {
    }

    // `cancel`. No result means that the order is unknown.
    method Cancel(id: string, reason: string) returns (order: Option<Order>)
      requires Valid()
      modifies portfolio.state, manager
      ensures Valid()
      ensures order.None? <==> id !in old(manager.orders)
      ensures View() == if order.None? then old(View()) else PaperExecution.Cancel(old(View()), cfg, id, reason)
      ensures order.Some? ==> order.value == manager.orders[id]
    {
      hide Value, BaseAsset, Release;
      if id !in manager.orders {
        return None;
      }
      var known := manager.orders[id];
      if known.status in {Filled, Rejected, Failed} {
        return Some(known);
      }
      var remaining := known.Remaining();
      if remaining > 0.0 {
        if known.side.Buy? {
          var price := 0.0;
          if known.requestedPrice.Some? && known.requestedPrice.value != 0.0 {
            price := known.requestedPrice.value;
          } else if known.averageFillPrice.Some? {
            price := known.averageFillPrice.value;
          }
          portfolio.ReleaseReservation(portfolio.state.quote, Value(Value(remaining, price), 1.0 + cfg.feeRate));
        } else {
          portfolio.ReleaseReservation(BaseAsset(known.symbol, portfolio.state.quote), remaining);
        }
      }
      var cancelled := manager.Cancel(id, reason);
      return Some(cancelled);
    }
  }
}
