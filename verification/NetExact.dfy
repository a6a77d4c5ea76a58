// NET profit to the last term: what the estimate charges for a trade, told from the trade, the book and the
// settings, and exactly when an arbitrage candidate is emitted
// (bot/profitability/net_profit.py, bot/profitability/slippage.py, bot/strategies/arbitrage.py).

module NetExact {
  import opened Prelude
  import opened DepthWalk
  import opened LedgerFacts
  import opened PaperExecution
  import opened PlacementFacts
  import opened Profitability
  import Arbitrage

  // ----- one leg against a book -----

  // How far sweeping the book for the quantity is from trading it all at the reference; what the book cannot
  // fill is taken at its last price.
  function LegImpact(levels: seq<Level>, quantity: real, reference: real): real
  {
    var swept, left := SweepBook(levels, quantity), quantity - TakeableDepth(levels);
    Abs(swept.notional - Value(swept.filled, reference))
    + if left > 0.0 && levels != [] && swept.filled > 0.0 then Value(left, Abs(levels[|levels| - 1].price - reference))
      else 0.0
  }

  // The charge for what the book cannot fill, in hundredths of a per cent of its worth at the reference.
  function LegPenalty(levels: seq<Level>, quantity: real, reference: real, bps: real): real
  {
    var left := quantity - TakeableDepth(levels);
    if left > 0.0 then Value(Value(left, reference), bps / 10000.0) else 0.0
  }

  // On any book without negative sizes, sorted or not, whatever the reference.
  lemma LegIs(s: Settings, levels: seq<Level>, quantity: real, reference: real)
    requires Sizes(levels) && quantity > 0.0
    ensures var walk, swept := BookImpact(s, quantity, reference, levels), SweepBook(levels, quantity);
            && walk.impact == LegImpact(levels, quantity, reference)
            && walk.thinPenalty == LegPenalty(levels, quantity, reference, s.thinBookBps)
            && walk.depthAvailable == TakeableDepth(levels)
            && walk.consumedRatio == 1.0
            && (walk.vwap.Some? <==> TakeableDepth(levels) > 0.0)
            && (walk.vwap.Some? ==> Value(swept.filled, walk.vwap.value) == swept.notional)
  {
    hide Value, SweepBook, RawSweep, TakeableDepth;
    var depth, swept := TakeableDepth(levels), SweepBook(levels, quantity);
    WalkersAgree(levels, quantity);
    SweepFills(levels, quantity);
    SideDepthIsTakeable(levels);
    if depth > 0.0 {
      AverageGap(swept.notional, swept.filled, reference);
      ValueOfAverage(swept.notional, swept.filled);
      SizeMeansLevels(levels);
      if quantity > depth { LeftoverTouchesAll(levels, quantity); } else { OneWhole(quantity); }
    } else {
      SweepOfNothing(levels, quantity);
      NothingIsFree(reference);
    }
  }

  lemma AverageGap(notional: real, filled: real, reference: real)
    requires filled > 0.0
    ensures Value(filled, Abs(notional / filled - reference)) == Abs(notional - Value(filled, reference))
  {
    assert notional / filled * filled == notional;
    assert Value(filled, notional / filled - reference) == notional - Value(filled, reference);
  }

  lemma OneWhole(quantity: real)
    requires quantity > 0.0
    ensures quantity / quantity == 1.0
  {
  }

  // ----- the whole estimate -----

  predicate BuysFirst(side: OpportunitySide) { side == BuySide || side == LongSide }

  function Bought(o: Opportunity, exitPrice: real): real
  {
    Value(o.quantity, if BuysFirst(o.side) then o.entryPrice else exitPrice)
  }

  function SoldFor(o: Opportunity, exitPrice: real): real
  {
    Value(o.quantity, if BuysFirst(o.side) then exitPrice else o.entryPrice)
  }

  function RateOf(s: Settings, role: FeeRole): real { if role == Maker then s.makerRate else s.takerRate }

  // What slippage is charged: on both legs in hundredths of a per cent, and on a book the impact and the
  // penalties of both legs, scaled.
  function Slipped(s: Settings, o: Opportunity, exitPrice: real, book: Option<OrderBook>): real
  {
    var base := Value(Bought(o, exitPrice) + SoldFor(o, exitPrice), s.slippageBps / 10000.0);
    if book.None? then base
    else
      var entry, exit := if BuysFirst(o.side) then book.value.asks else book.value.bids,
                         if BuysFirst(o.side) then book.value.bids else book.value.asks;
      base
      + Value(LegImpact(entry, o.quantity, o.entryPrice) + LegImpact(exit, o.quantity, exitPrice), s.impactFactor)
      + Value(LegPenalty(entry, o.quantity, o.entryPrice, s.thinBookBps)
              + LegPenalty(exit, o.quantity, exitPrice, s.thinBookBps), s.impactFactor)
  }

  // Who buys first pays positive funding, who sells first receives it.
  function Funding(s: Settings, o: Opportunity): real
  {
    if !s.applyFunding || o.fundingPeriods <= 0.0 then 0.0
    else
      var rate := if o.marketFunding.Some? then o.marketFunding.value else s.fundingRate;
      var paid := Value(Value(Value(o.quantity, o.entryPrice), rate), o.fundingPeriods);
      if BuysFirst(o.side) then paid else -paid
  }

  predicate IsEstimate(s: Settings, o: Opportunity, book: Option<OrderBook>, e: ProfitEstimate)
  {
    var exitPrice := if o.expectedExitPrice.Some? then o.expectedExitPrice.value else o.entryPrice;
    var used := if book.Some? then book else o.marketBook;
    var bought, sold := Bought(o, exitPrice), SoldFor(o, exitPrice);
    var (buyer, seller) := if BuysFirst(o.side) then (o.entryRole, o.exitRole) else (o.exitRole, o.entryRole);
    var entered := Value(o.quantity, o.entryPrice);
    && e.gross == sold - bought
    && e.buyFee == Value(bought, RateOf(s, buyer)) && e.sellFee == Value(sold, RateOf(s, seller))
    && e.slippage == Slipped(s, o, exitPrice, used)
    && e.funding == Funding(s, o)
    && e.buffer == Value(entered, s.bufferBps / 10000.0)
    && e.net == sold - bought - e.buyFee - e.sellFee - e.slippage - e.funding - e.buffer
    && (if entered > 0.0 then Value(entered, e.netReturn) == e.net else e.netReturn == 0.0)
    && (GrossOnly in e.reasons <==> e.gross > 0.0 && e.net <= 0.0)
    && (NetNotPositive in e.reasons <==> e.net <= 0.0)
    && (BelowMinimumProfit in e.reasons <==> e.net < s.minNetProfit)
    && (BelowMinimumReturn in e.reasons <==> e.netReturn < s.minNetReturn)
  }

  ghost predicate SizedBook(book: Option<OrderBook>)
  {
    book.Some? ==> Sizes(book.value.asks) && Sizes(book.value.bids)
  }

  lemma SlippageIs(s: Settings, o: Opportunity, exitPrice: real, book: Option<OrderBook>)
    requires o.quantity > 0.0 && SizedBook(book) && SizedBook(o.marketBook)
    ensures var slip, used := Slippage(s, o, exitPrice, book), if book.Some? then book else o.marketBook;
            && slip.total == Slipped(s, o, exitPrice, used) == slip.base + slip.marketImpact + slip.thinPenalty
            && slip.base == Value(Bought(o, exitPrice) + SoldFor(o, exitPrice), s.slippageBps / 10000.0)
            && (used.None? ==> slip.marketImpact == 0.0 && slip.thinPenalty == 0.0)
  {
    hide Value, BookImpact, LegImpact, LegPenalty, Sizes;
    var used := if book.Some? then book else o.marketBook;
    if used.Some? {
      LegIs(s, EntryLevels(o.side, used.value), o.quantity, o.entryPrice);
      LegIs(s, ExitLevels(o.side, used.value), o.quantity, exitPrice);
    }
  }

  lemma LegsAre(s: Settings, o: Opportunity, exitPrice: real)
    ensures var fees, bought, sold := Fees(s, o, exitPrice), Bought(o, exitPrice), SoldFor(o, exitPrice);
            var (buyer, seller) := if BuysFirst(o.side) then (o.entryRole, o.exitRole) else (o.exitRole, o.entryRole);
            && GrossProfit(o, exitPrice) == sold - bought
            && fees.buyFee == Value(bought, RateOf(s, buyer)) && fees.sellFee == Value(sold, RateOf(s, seller))
  {
    hide Value;
    ValueGap(o.quantity, o.entryPrice, exitPrice);
    ValueGap(o.quantity, exitPrice, o.entryPrice);
  }

  lemma FundingIs(s: Settings, o: Opportunity)
    ensures FundingCost(s, o, Value(o.quantity, o.entryPrice)) == Funding(s, o)
  {
    hide Value;
  }

  lemma ReturnIs(net: real, entered: real)
    requires entered > 0.0
    ensures Value(entered, net / entered) == net
  {
  }

  lemma ReasonsAre(s: Settings, net: real, netReturn: real, gross: real)
    ensures var reasons := DisallowReasons(s, net, netReturn, gross);
            && (GrossOnly in reasons <==> gross > 0.0 && net <= 0.0)
            && (NetNotPositive in reasons <==> net <= 0.0)
            && (BelowMinimumProfit in reasons <==> net < s.minNetProfit)
            && (BelowMinimumReturn in reasons <==> netReturn < s.minNetReturn)
  {
  }

  // Every figure of the estimate, for every side, role, book and setting.
  lemma EstimateIs(s: Settings, o: Opportunity, book: Option<OrderBook>)
    requires o.quantity > 0.0 && SizedBook(book) && SizedBook(o.marketBook)
    ensures IsEstimate(s, o, book, Estimate(s, o, book))
  {
    hide Value, Slipped, Slippage, FundingCost, Funding, Fees, GrossProfit, DisallowReasons, Bought, SoldFor, SizedBook,
         RateOf;
    var e, exitPrice := Estimate(s, o, book), ExitPrice(o);
    SlippageIs(s, o, exitPrice, book);
    LegsAre(s, o, exitPrice);
    FundingIs(s, o);
    ReasonsAre(s, e.net, e.netReturn, e.gross);
    var entered := Value(o.quantity, o.entryPrice);
    if entered > 0.0 { ReturnIs(e.net, entered); }
  }

  // ----- candidates -----

  // What a candidate nets: the cash of sweeping its levels with both taker fees paid, less the two charges in
  // hundredths of a per cent, for slippage on both legs and for execution on the bought one.
  function CandidateNet(s: Arbitrage.ArbitrageSettings, asks: seq<Level>, bids: seq<Level>, quantity: real): real
  {
    var paid, earned := SweepBook(asks, quantity).notional, SweepBook(bids, quantity).notional;
    earned - paid - Value(paid, s.costs.takerRate) - Value(earned, s.costs.takerRate)
    - Value(paid + earned, s.costs.slippageBps / 10000.0) - Value(paid, s.costs.bufferBps / 10000.0)
  }

  // The quantity a pair of venues is tried for.
  function Tried(s: Arbitrage.ArbitrageSettings, asks: seq<Level>, bids: seq<Level>): real
  {
    Min(Min(SideDepth(asks), SideDepth(bids)), s.maxQuantity)
  }

  ghost predicate IsCandidate(s: Arbitrage.ArbitrageSettings, buy: Arbitrage.Snapshot, sell: Arbitrage.Snapshot,
                              c: Arbitrage.Candidate)
    requires buy.book.Some? && sell.book.Some?
  {
    var asks, bids := buy.book.value.asks, sell.book.value.bids;
    && c.symbol == buy.symbol && c.buyExchange == buy.exchange && c.sellExchange == sell.exchange
    && c.quantity == Tried(s, asks, bids) && c.buyDepth == SideDepth(asks) && c.sellDepth == SideDepth(bids)
    && Value(c.quantity, c.buyVwap) == SweepBook(asks, c.quantity).notional
    && Value(c.quantity, c.sellVwap) == SweepBook(bids, c.quantity).notional
  }

  // A pair is reported exactly when what it nets is positive and clears both thresholds, the relative one
  // against what is paid; and then with exactly that NET and its parts.
  ghost predicate PairOutcome(s: Arbitrage.ArbitrageSettings, buy: Arbitrage.Snapshot, sell: Arbitrage.Snapshot,
                              outcome: Arbitrage.Outcome)
    requires buy.book.Some? && sell.book.Some?
  {
    var asks, bids := buy.book.value.asks, sell.book.value.bids;
    var quantity := Tried(s, asks, bids);
    var paid, earned := SweepBook(asks, quantity).notional, SweepBook(bids, quantity).notional;
    var net := CandidateNet(s, asks, bids, quantity);
    && (outcome.Emitted? <==>
          && buy.exchange != sell.exchange && s.minLiquidity <= quantity && paid < earned
          && 0.0 < net && s.minProfitEur <= net && Value(paid, s.minProfitPct) <= net)
    && (outcome.Emitted? ==>
          && IsCandidate(s, buy, sell, outcome.candidate)
          && outcome.estimate.gross == earned - paid && outcome.estimate.net == net
          && Value(paid, outcome.estimate.netReturn) == net && outcome.estimate.funding == 0.0)
    && (outcome.Skipped? <==> buy.exchange == sell.exchange)
    && (outcome.Dropped? ==>
          && (outcome.code == "insufficient_overlapping_liquidity" <==> quantity < s.minLiquidity)
          && (outcome.code == "no_depth_edge" <==> s.minLiquidity <= quantity && earned <= paid)
          && (outcome.code == "profitability" <==> s.minLiquidity <= quantity && paid < earned)
          && (outcome.edge <==> s.minLiquidity <= quantity && paid < earned))
  }

  lemma CandidateNets(s: Arbitrage.ArbitrageSettings, c: Arbitrage.Candidate)
    requires c.quantity > 0.0
    ensures var e := Estimate(Arbitrage.EngineSettings(s), Arbitrage.AsOpportunity(c), None);
            var paid, earned := Value(c.quantity, c.buyVwap), Value(c.quantity, c.sellVwap);
            && e.gross == earned - paid && e.funding == 0.0
            && e.net == earned - paid - Value(paid, s.costs.takerRate) - Value(earned, s.costs.takerRate)
                        - Value(paid + earned, s.costs.slippageBps / 10000.0) - Value(paid, s.costs.bufferBps / 10000.0)
            && (if paid > 0.0 then Value(paid, e.netReturn) == e.net else e.netReturn == 0.0)
  {
    hide Value, Estimate;
    EstimateIs(Arbitrage.EngineSettings(s), Arbitrage.AsOpportunity(c), None);
  }

  lemma FoundIff(s: Arbitrage.ArbitrageSettings, buy: Arbitrage.Snapshot, sell: Arbitrage.Snapshot)
    requires Arbitrage.Sensible(s) && buy.book.Some? && sell.book.Some?
    ensures var asks, bids := buy.book.value.asks, sell.book.value.bids;
            var quantity := Tried(s, asks, bids);
            var swept := SweepBook(asks, quantity).notional < SweepBook(bids, quantity).notional;
            match Arbitrage.Build(s, buy, sell)
            case Found(c) => s.minLiquidity <= quantity && swept && IsCandidate(s, buy, sell, c)
            case Refusal(code) =>
              && (quantity < s.minLiquidity ==> code == "insufficient_overlapping_liquidity")
              && (s.minLiquidity <= quantity ==> !swept && code == "no_depth_edge")
  {
    hide SideDepth, SweepBook, TakeableDepth, Value;
    var asks, bids := buy.book.value.asks, sell.book.value.bids;
    var quantity := Tried(s, asks, bids);
    Arbitrage.CandidateLegs(s, buy, sell);
    if s.minLiquidity <= quantity {
      SideDepthIsTakeable(asks);
      SideDepthIsTakeable(bids);
      SweepFills(asks, quantity);
      SweepFills(bids, quantity);
      SameOrder(SweepBook(asks, quantity).notional, SweepBook(bids, quantity).notional, quantity);
    }
  }

  lemma SameOrder(paid: real, earned: real, quantity: real)
    requires quantity > 0.0
    ensures paid / quantity < earned / quantity <==> paid < earned
  {
    assert paid / quantity * quantity == paid && earned / quantity * quantity == earned;
  }

  // The pair theorem: what becomes of an ordered pair of venues, from the two books and the settings alone.
  lemma PairTheorem(s: Arbitrage.ArbitrageSettings, buy: Arbitrage.Snapshot, sell: Arbitrage.Snapshot)
    requires Arbitrage.Sensible(s) && buy.book.Some? && sell.book.Some?
    requires PricedBook(buy.book.value) && PricedBook(sell.book.value)
    ensures PairOutcome(s, buy, sell, Arbitrage.Evaluate(s, buy, sell))
  {
    hide Value, SweepBook, SideDepth, Estimate, Arbitrage.Build, Arbitrage.EngineSettings, Arbitrage.AsOpportunity,
         PricedBook;
    FoundIff(s, buy, sell);
    CodesAre();
    if Arbitrage.Build(s, buy, sell).Found? {
      var c := Arbitrage.Build(s, buy, sell).candidate;
      PaidIsPositive(s, buy, sell, c);
      CandidateNets(s, c);
      Arbitrage.AllowedByEngine(s, c);
      Arbitrage.LaterGatesAreDead(s, c);
      var e := Estimate(Arbitrage.EngineSettings(s), Arbitrage.AsOpportunity(c), None);
      ReturnClears(Value(c.quantity, c.buyVwap), e.netReturn, e.net, s.minProfitPct);
    }
  }

  lemma PaidIsPositive(s: Arbitrage.ArbitrageSettings, buy: Arbitrage.Snapshot, sell: Arbitrage.Snapshot,
                       c: Arbitrage.Candidate)
    requires Arbitrage.Sensible(s) && buy.book.Some? && sell.book.Some? && PricedBook(buy.book.value)
    requires Arbitrage.Build(s, buy, sell) == Arbitrage.Found(c)
    ensures 0.0 < Value(c.quantity, c.buyVwap) && 0.0 < c.quantity
  {
    hide Value, SweepBook, SideDepth, Arbitrage.Build;
    Arbitrage.CandidateLegs(s, buy, sell);
    PositivePricesPositiveNotional(buy.book.value.asks, c.quantity);
  }

  lemma ReturnClears(paid: real, netReturn: real, net: real, threshold: real)
    requires paid > 0.0 && Value(paid, netReturn) == net
    ensures threshold <= netReturn <==> Value(paid, threshold) <= net
  {
  }

  lemma CodesAre()
    ensures Arbitrage.UNPROFITABLE == "profitability"
    ensures "profitability" != "no_depth_edge" && "profitability" != "insufficient_overlapping_liquidity"
    ensures "no_depth_edge" != "insufficient_overlapping_liquidity"
  {
    assert |"no_depth_edge"| == |"profitability"| && "no_depth_edge"[0] != "profitability"[0];
    assert |"insufficient_overlapping_liquidity"| != |"profitability"|;
  }
}
