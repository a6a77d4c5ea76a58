// From the strategy to the fill: an arbitrage candidate is handed on with its average buying price as the limit
// of its order (bot/strategies/arbitrage.py, bot/engine/orchestrator.py), and the executor stops at the first
// level beyond a limit (bot/execution/paper_executor.py). So a candidate is filled in full only if all that it
// was priced from stood at one price.

module CandidateFills {
  import opened Prelude
  import opened DepthWalk
  import opened Ledger
  import opened LedgerFacts
  import opened PaperExecution
  import opened PlacementFacts
  import opened OrderOutcome
  import opened LedgerRuns
  import opened RiskGate
  import opened RiskRuns
  import opened Engine
  import opened EngineRuns
  import Arbitrage

  // ----- which levels a walk takes from -----

  // All that a walk for the quantity takes stands at this price.
  ghost predicate TakenAt(levels: seq<Level>, quantity: real, price: real)
  {
    forall i :: 0 <= i < |levels| && GreedyAllocation(levels, quantity)[i] > 0.0 ==> levels[i].price == price
  }

  ghost predicate TakesWithin(levels: seq<Level>, alloc: seq<real>, limit: real)
    requires |alloc| == |levels|
  {
    forall i :: 0 <= i < |levels| && alloc[i] > 0.0 ==> levels[i].price <= limit
  }

  // What is taken within a limit is no more than what is on offer there.
  lemma {:induction false} TakenIsOnOffer(levels: seq<Level>, alloc: seq<real>, limit: real)
    requires Feasible(levels, alloc) && TakesWithin(levels, alloc, limit)
    ensures Sum(alloc) <= DepthWithin(levels, Buy, limit)
  {
    if levels != [] {
      assert TakesWithin(levels[1..], alloc[1..], limit) by {
        forall i | 0 <= i < |levels| - 1 && alloc[1..][i] > 0.0 ensures levels[1..][i].price <= limit {
          assert alloc[i + 1] > 0.0;
        }
      }
      TakenIsOnOffer(levels[1..], alloc[1..], limit);
    }
  }

  // A walk for no more than is on offer within a limit takes only there.
  lemma {:induction false} WalkTakesWithin(levels: seq<Level>, quantity: real, limit: real)
    requires InTradingOrder(levels, Buy) && quantity <= DepthWithin(levels, Buy, limit)
    ensures TakesWithin(levels, GreedyAllocation(levels, quantity), limit)
  {
    if levels != [] {
      var rest, take := levels[1..], Max(Min(quantity, levels[0].amount), 0.0);
      var alloc, later := GreedyAllocation(levels, quantity), GreedyAllocation(rest, quantity - take);
      DepthNotNegative(rest, limit);
      if Beyond(levels[0], Buy, limit) {
        forall l | l in levels ensures Beyond(l, Buy, limit) {
          var i :| 0 <= i < |levels| && levels[i] == l;
        }
        NothingWithinBeyond(levels, Buy, limit);
      }
      WalkTakesWithin(rest, quantity - take, limit);
      assert alloc == [take] + later;
      forall i | 0 <= i < |levels| && alloc[i] > 0.0 ensures levels[i].price <= limit {
        if i > 0 { assert alloc[i] == later[i - 1] && levels[i] == rest[i - 1]; }
      }
    }
  }

  lemma {:induction false} DepthNotNegative(levels: seq<Level>, limit: real)
    ensures DepthWithin(levels, Buy, limit) >= 0.0
  {
    if levels != [] { DepthNotNegative(levels[1..], limit); }
  }

  lemma {:induction false} WithinIsNoDearer(levels: seq<Level>, alloc: seq<real>, limit: real)
    requires Feasible(levels, alloc) && TakesWithin(levels, alloc, limit)
    ensures Notional(levels, alloc) <= Value(Sum(alloc), limit)
    ensures Notional(levels, alloc) == Value(Sum(alloc), limit) ==>
              forall i :: 0 <= i < |levels| && alloc[i] > 0.0 ==> levels[i].price == limit
  {
    hide Value;
    NothingIsFree(limit);
    if levels != [] {
      var rest, later := levels[1..], alloc[1..];
      assert TakesWithin(rest, later, limit) by {
        forall i | 0 <= i < |rest| && later[i] > 0.0 ensures rest[i].price <= limit { assert alloc[i + 1] > 0.0; }
      }
      WithinIsNoDearer(rest, later, limit);
      HeadIsNoDearer(alloc[0], levels[0].price, limit);
      ValueAdds(alloc[0], Sum(later), limit);
      if Notional(levels, alloc) == Value(Sum(alloc), limit) {
        forall i | 0 <= i < |levels| && alloc[i] > 0.0 ensures levels[i].price == limit {
          if i > 0 { assert later[i - 1] > 0.0 && rest[i - 1].price == limit; }
        }
      }
    }
  }

  lemma HeadIsNoDearer(quantity: real, price: real, limit: real)
    requires quantity >= 0.0 && (quantity > 0.0 ==> price <= limit)
    ensures Value(quantity, price) <= Value(quantity, limit)
    ensures Value(quantity, price) == Value(quantity, limit) && quantity > 0.0 ==> price == limit
  {
    if quantity == 0.0 {
      NothingIsFree(price);
      NothingIsFree(limit);
    } else if price < limit {
      StrictlyCheaper(quantity, price, limit);
    }
  }

  lemma StrictlyCheaper(quantity: real, low: real, high: real)
    requires quantity > 0.0 && low < high
    ensures Value(quantity, low) < Value(quantity, high)
  {
  }

  // Where nothing is on offer within the limit, whatever is bought costs more than the limit.
  lemma {:induction false} NothingOnOfferCostsMore(levels: seq<Level>, quantity: real, limit: real)
    requires DepthWithin(levels, Buy, limit) == 0.0
    ensures var s := SweepBook(levels, quantity);
            0.0 <= s.filled && (if s.filled > 0.0 then Value(s.filled, limit) < s.notional else s.notional == 0.0)
  {
    hide Value;
    if levels != [] && quantity > 0.0 {
      var l, rest := levels[0], levels[1..];
      DepthNotNegative(rest, limit);
      if l.amount <= 0.0 {
        NothingOnOfferCostsMore(rest, quantity, limit);
      } else if quantity <= l.amount {
        StrictlyCheaper(quantity, limit, l.price);
      } else {
        NothingOnOfferCostsMore(rest, quantity - l.amount, limit);
        StrictlyCheaper(l.amount, limit, l.price);
        ValueAdds(l.amount, SweepBook(rest, quantity - l.amount).filled, limit);
        NothingIsFree(limit);
      }
    }
  }

  // A limit at the average price of a quantity: there is always something on offer within it, and all of the
  // quantity exactly when the walk for it takes at one price only.
  lemma AverageAsLimit(levels: seq<Level>, quantity: real, limit: real)
    requires InTradingOrder(levels, Buy) && quantity > 0.0
    requires var s := SweepBook(levels, quantity); s.filled == quantity && s.notional == Value(quantity, limit)
    ensures 0.0 < DepthWithin(levels, Buy, limit)
    ensures quantity <= DepthWithin(levels, Buy, limit) <==> TakenAt(levels, quantity, limit)
  {
    hide Value, SweepBook, DepthWithin, Sum, Notional, GreedyAllocation, InTradingOrder, Feasible;
    var alloc := GreedyAllocation(levels, quantity);
    GreedyIsFeasible(levels, quantity);
    DepthNotNegative(levels, limit);
    if DepthWithin(levels, Buy, limit) == 0.0 { NothingOnOfferCostsMore(levels, quantity, limit); }
    if quantity <= DepthWithin(levels, Buy, limit) {
      WalkTakesWithin(levels, quantity, limit);
      WithinIsNoDearer(levels, alloc, limit);
    }
    if TakenAt(levels, quantity, limit) { TakenIsOnOffer(levels, alloc, limit); }
  }

  // ----- what becomes of a candidate -----

  // The plan of a limit buy for a candidate, on the book it was priced from.
  ghost predicate PlanFor(c: Arbitrage.Candidate, cfg: Config, order: Order, asks: seq<Level>)
  {
    var plan := WalkForOrder(cfg, order, asks);
    && (plan.Some? <==> cfg.partialOk || TakenAt(asks, c.quantity, c.buyVwap))
    && (plan.Some? ==> plan.value.quantity == Min(c.quantity, DepthWithin(asks, Buy, c.buyVwap)))
    && (plan.Some? && plan.value.quantity == c.quantity <==> TakenAt(asks, c.quantity, c.buyVwap))
  }

  ghost predicate BuyFor(c: Arbitrage.Candidate, order: Order)
  {
    && order.orderType.Limit? && order.side.Buy?
    && order.requestedQuantity == c.quantity && order.requestedPrice == Some(c.buyVwap)
  }

  // A candidate can be bought in full within the limit its order carries if and only if all that it was priced
  // from stands at one price; otherwise the order is filled in part, or refused where parts will not do.
  lemma CandidateFillsIff(s: Arbitrage.ArbitrageSettings, buy: Arbitrage.Snapshot, sell: Arbitrage.Snapshot,
                          cfg: Config, order: Order)
    requires Arbitrage.Sensible(s) && buy.book.Some? && sell.book.Some? && InTradingOrder(buy.book.value.asks, Buy)
    requires Arbitrage.Build(s, buy, sell).Found? && BuyFor(Arbitrage.Build(s, buy, sell).candidate, order)
    ensures PlanFor(Arbitrage.Build(s, buy, sell).candidate, cfg, order, buy.book.value.asks)
  {
    hide Value, SweepBook, DepthWithin, TakenAt, InTradingOrder, Arbitrage.Build, WalkForOrder, Notional, Sum;
    var c, asks := Arbitrage.Build(s, buy, sell).candidate, buy.book.value.asks;
    Arbitrage.CandidateLegs(s, buy, sell);
    AverageAsLimit(asks, c.quantity, c.buyVwap);
    LimitOrderFillsBest(cfg, order, asks);
  }

  // ----- the candidate in the engine -----

  // The opportunity for a candidate, with the book that it was priced from to execute on.
  ghost predicate OpportunityFor(c: Arbitrage.Candidate, book: Option<OrderBook>, o: Opportunity)
  {
    o.side.Buy? && o.quantity == c.quantity && o.entryPrice == c.buyVwap && o.book == book
  }

  // What the engine has bought for a candidate that the gate approved: what is on offer at its average price
  // or below, if the quote for all of it is at hand. That is all of it exactly when it stands at one price.
  ghost predicate BoughtFor(c: Arbitrage.Candidate, before: Account, next: Account, cfg: Config, symbol: string,
                            asks: seq<Level>)
  {
    var held, holds := PositionOf(before.positions, symbol).quantity, PositionOf(next.positions, symbol).quantity;
    var affordable := Value(Value(c.quantity, c.buyVwap), 1.0 + cfg.feeRate)
                      <= BalanceOf(before.balances, before.quote).available;
    var onePrice := TakenAt(asks, c.quantity, c.buyVwap);
    && holds == held + (if affordable && (cfg.partialOk || onePrice) then
                          Min(c.quantity, DepthWithin(asks, Buy, c.buyVwap))
                        else 0.0)
    && (holds == held + c.quantity <==> affordable && onePrice)
  }

  lemma ApprovedCandidateIsBought(d: Desk, rs: RiskSettings, cfg: Config, symbols: set<string>, start: real,
                                  o: Opportunity, s: Arbitrage.ArbitrageSettings, buy: Arbitrage.Snapshot,
                                  sell: Arbitrage.Snapshot)
    requires Configured(rs) && Inv(d.world, cfg, symbols, start) && d.snapshot.exposure >= 0.0
    requires Scoped(d, symbols, o) && Approves(d.gate, rs, Question(d, o))
    requires Arbitrage.Sensible(s) && buy.book.Some? && sell.book.Some? && InTradingOrder(buy.book.value.asks, Buy)
    requires Arbitrage.Build(s, buy, sell).Found?
    requires OpportunityFor(Arbitrage.Build(s, buy, sell).candidate, buy.book, o)
    ensures BoughtFor(Arbitrage.Build(s, buy, sell).candidate, d.world.account, Consider(d, rs, cfg, o).0.world.account,
                      cfg, o.symbol, buy.book.value.asks)
  {
    hide Value, ShareOf, Decide, Execute, Refresh, Configured, Inv, PricedBook, ScopedOrder, InTradingOrder, SweepBook,
         Prepare, DepthWithin, TakenAt, Arbitrage.Build, Notional, SetMark, Arbitrage.Sensible, TakeableDepth;
    var c, asks := Arbitrage.Build(s, buy, sell).candidate, buy.book.value.asks;
    var (gate, decision) := Decide(d.gate, rs, o.Asked(), d.snapshot, o.context, o.checked, o.stamped, o.now);
    var order := NewOrder(o.Request(decision.quantity), Limit);
    var marked := MarkLast(d.world, o);
    ApprovedOrder(d, rs, symbols, o);
    MarkLastKeeps(d.world, cfg, symbols, start, o);
    MarkLastMoves(d.world, o);
    hide MarkLast;
    Arbitrage.CandidateLegs(s, buy, sell);
    AverageAsLimit(asks, c.quantity, c.buyVwap);
    BoughtOnBook(marked, cfg, symbols, start, order, buy.book.value, o.fillId);
    var world := Dispatch(marked, cfg, o, decision.quantity).0;
    PlacedInv(marked, cfg, symbols, start, order, buy.book.value, o.fillId);
    RefreshShows(Desk(world, gate, d.snapshot), cfg, symbols, start);
  }

  // What an order to buy on a sorted book adds to the position.
  lemma BoughtOnBook(w: World, cfg: Config, symbols: set<string>, start: real,
                     order: Order, book: OrderBook, fillId: string)
    requires Inv(w, cfg, symbols, start) && order.side.Buy? && InTradingOrder(book.asks, Buy)
    requires ScopedOrder(order, symbols) && PricedBook(book) && fillId !in w.account.processed
    ensures order.requestedPrice.Some?
    ensures var (after, result) := Execute(w, cfg, order, Some(book), fillId);
            var depth := DepthWithin(book.asks, Buy, order.requestedPrice.value);
            var bought := if Needed(cfg, order) <= BalanceOf(w.account.balances, w.account.quote).available
                             && 0.0 < depth && (cfg.partialOk || order.requestedQuantity <= depth)
                          then Min(order.requestedQuantity, depth) else 0.0;
            && result.Some?
            && PositionOf(after.account.positions, order.symbol).quantity
               == PositionOf(w.account.positions, order.symbol).quantity + bought
  {
    hide Value, Execute, Sound, Universe, InScope, Registered, Surplus, PricedBook, WellFormed, Prepare, Fill.Gross,
         SweepBook, DepthWithin, InTradingOrder, Needed, Min;
    ScopedFacts(order, symbols);
    ExecutedPositions(w, cfg, symbols, start, order, book, fillId);
    ClaimedAsset(w.account.quote, cfg, order);
    SortedOrderComesTo(w.account, cfg, order, book, fillId, symbols, start);
  }

  // ----- a candidate over two prices -----

  // One unit at 100 and one at 101 against bids at 110.
  const TwoPrices := [Level(100.0, 1.0), Level(101.0, 1.0)]

  lemma TwoPriceCandidate(s: Arbitrage.ArbitrageSettings, cfg: Config, order: Order)
    requires s.maxQuantity >= 2.0 && 0.0 < s.minLiquidity <= 2.0
    ensures var buy := Arbitrage.Snapshot("ETH/USDT", "a", Some(OrderBook([], TwoPrices)), None, 0.0);
            var sell := Arbitrage.Snapshot("ETH/USDT", "b", Some(OrderBook([Level(110.0, 2.0)], [])), None, 0.0);
            && Arbitrage.Build(s, buy, sell).Found?
            && var c := Arbitrage.Build(s, buy, sell).candidate;
               && c.quantity == 2.0 && c.buyVwap == 100.5
               && (BuyFor(c, order) ==>
                     var plan := WalkForOrder(cfg, order, TwoPrices);
                     if cfg.partialOk then plan.Some? && plan.value.quantity == 1.0 else plan.None?)
  {
    var two := [Level(110.0, 2.0)];
    assert TwoPrices[1..] == [Level(101.0, 1.0)] && TwoPrices[1..][1..] == [] && two[1..] == [];
    assert SideDepth(TwoPrices) == 2.0 && SideDepth(two) == 2.0;
    assert SweepBook(TwoPrices, 2.0) == Sweep(2.0, 201.0, 2) by { SweepTwo(); }
    assert SweepBook(two, 2.0) == Sweep(2.0, 220.0, 1);
    if order.requestedPrice == Some(100.5) && order.side.Buy? {
      assert Reachable(TwoPrices, Buy, Some(100.5)) == [Level(100.0, 1.0)];
      assert SweepBook([Level(100.0, 1.0)], 2.0) == Sweep(1.0, 100.0, 1);
    }
  }

  lemma SweepTwo()
    ensures SweepBook(TwoPrices, 2.0) == Sweep(2.0, 201.0, 2)
  {
    assert TwoPrices[1..] == [Level(101.0, 1.0)];
    assert SweepBook(TwoPrices[1..], 1.0) == Sweep(1.0, 101.0, 1);
  }
}
