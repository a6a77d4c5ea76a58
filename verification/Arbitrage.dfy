// Cross-exchange arbitrage: pricing a pair of venues from their depth, gating on NET profit, and the
// scan over all ordered pairs (bot/strategies/arbitrage.py).

module Arbitrage {
  import opened Prelude
  import opened DepthWalk
  import opened LedgerFacts
  import opened PaperExecution
  import opened PlacementFacts
  import opened Profitability

  datatype Snapshot = Snapshot(
    symbol: string,
    exchange: string,
    book: Option<OrderBook>,
    latencyMs: Option<real>,
    ageMs: real
  )

  datatype ArbitrageSettings = ArbitrageSettings(
    minProfitEur: real,
    minProfitPct: real,
    minLiquidity: real,
    maxQuantity: real,
    maxLatencyMs: real,
    maxBookAgeMs: real,
    costs: Profitability.Settings
  )

  predicate Sensible(s: ArbitrageSettings)
  {
    && s.minProfitEur >= 0.0 && s.minProfitPct >= 0.0 && s.minLiquidity > 0.0 && s.maxQuantity > 0.0
    && Configured(s.costs)
  }

  // The profitability engine the strategy builds: its own thresholds, and no funding.
  function EngineSettings(s: ArbitrageSettings): Profitability.Settings
  {
    s.costs.(minNetProfit := s.minProfitEur, minNetReturn := s.minProfitPct, applyFunding := false)
  }

  datatype DepthFill = DepthFill(vwap: real, filled: real, depthAvailable: real, levels: nat, sufficient: bool)

  // `walk_book`
  function WalkFill(levels: seq<Level>, quantity: real): DepthFill
  {
    var w := SweepBook(levels, quantity);
    if quantity <= 0.0 then DepthFill(0.0, 0.0, 0.0, 0, false)
    else if w.filled <= 0.0 then DepthFill(0.0, 0.0, SideDepth(levels), 0, false)
    else DepthFill(w.notional / w.filled, w.filled, SideDepth(levels), w.levels, quantity - w.filled <= 0.0)
  }

  method WalkBook(levels: seq<Level>, quantity: real) returns (fill: DepthFill)
    ensures fill == WalkFill(levels, quantity)
  {
    hide Value;
    if quantity <= 0.0 {
      return DepthFill(0.0, 0.0, 0.0, 0, false);
    }
    var remaining, notional, filled := quantity, 0.0, 0.0;
    var depth := SideDepth(levels);
    var consumed := 0;
    ghost var whole := SweepBook(levels, quantity);
    var i := 0;
    while i < |levels|
      invariant 0 <= i <= |levels|
      invariant remaining == quantity - filled
      invariant var rest := SweepBook(levels[i..], remaining);
                whole == Sweep(filled + rest.filled, notional + rest.notional, consumed + rest.levels)
    {
      var level := levels[i];
      assert levels[i..] == [level] + levels[i + 1..];
      if remaining <= 0.0 {
        break;
      }
      if level.amount > 0.0 {
        SweepOne(level, levels[i + 1..], remaining);
        var take := Min(remaining, level.amount);
        notional := notional + Value(take, level.price);
        filled := filled + take;
        remaining := remaining - take;
        consumed := consumed + 1;
      }
      i := i + 1;
    }
    if filled <= 0.0 {
      return DepthFill(0.0, 0.0, depth, 0, false);
    }
    fill := DepthFill(notional / filled, filled, depth, consumed, remaining <= 0.0);
  }

  // What the walk reports: the quantity it could take, its average, everything on the side, how many levels it
  // took from, and whether that was enough.
  lemma WalkFillMeans(levels: seq<Level>, quantity: real)
    requires quantity > 0.0
    ensures var fill := WalkFill(levels, quantity);
            && fill.filled == Min(quantity, TakeableDepth(levels))
            && Value(fill.filled, fill.vwap) == SweepBook(levels, quantity).notional
            && fill.depthAvailable == SideDepth(levels)
            && fill.levels == Touched(GreedyAllocation(levels, quantity))
            && (fill.sufficient <==> quantity <= TakeableDepth(levels))
  {
    hide Value, SweepBook, SideDepth, TakeableDepth, GreedyAllocation, Touched;
    SweepFills(levels, quantity);
    SweepTouches(levels, quantity);
    SideDepthIsTakeable(levels);
    var w := SweepBook(levels, quantity);
    if w.filled > 0.0 {
      ValueOfAverage(w.notional, w.filled);
    } else {
      SweepOfNothing(levels, quantity);
      NothingIsFree(0.0);
    }
  }

  datatype Candidate = Candidate(
    symbol: string,
    buyExchange: string,
    sellExchange: string,
    quantity: real,
    buyVwap: real,
    sellVwap: real,
    buyDepth: real,
    sellDepth: real
  )

  datatype Outcome =
    | Skipped                                                       // the same exchange on both ends
    | Dropped(code: string, edge: bool)                             // rejected, before or after a depth edge was found
    | Emitted(candidate: Candidate, estimate: ProfitEstimate)

  const OVERLAP := "insufficient_overlapping_liquidity"
  const NO_DEPTH := "insufficient_depth_for_quantity"
  const NO_EDGE := "no_depth_edge"
  const UNPROFITABLE := "profitability"
  const BELOW_EUR := "min_profit_eur"
  const BELOW_PCT := "min_profit_pct"

  // `_build_candidate`: the candidate, or the code it was rejected with.
  datatype Built = Found(candidate: Candidate) | Refusal(code: string)

  function Build(s: ArbitrageSettings, buy: Snapshot, sell: Snapshot): Built
    requires buy.book.Some? && sell.book.Some?
  {
    var asks, bids := buy.book.value.asks, sell.book.value.bids;
    var quantity := Min(Min(SideDepth(asks), SideDepth(bids)), s.maxQuantity);
    if quantity < s.minLiquidity then Refusal(OVERLAP)
    else
      var bought, sold := WalkFill(asks, quantity), WalkFill(bids, quantity);
      if !bought.sufficient || !sold.sufficient then Refusal(NO_DEPTH)
      else if sold.vwap <= bought.vwap then Refusal(NO_EDGE)
      else Found(Candidate(buy.symbol, buy.exchange, sell.exchange, quantity, bought.vwap, sold.vwap,
                           SideDepth(asks), SideDepth(bids)))
  }

  // The opportunity handed to the profitability engine: depth is already in the prices, so no book.
  function AsOpportunity(c: Candidate): Opportunity
  {
    Opportunity(BuySide, c.quantity, c.buyVwap, Some(c.sellVwap), None, None, Taker, Taker, 0.0)
  }

  // `_gate_candidate`: the code of a rejection, none when the opportunity is emitted.
  function GateCode(s: ArbitrageSettings, e: ProfitEstimate): Option<string>
  {
    if !e.TradeAllowed() then Some(UNPROFITABLE)
    else if e.net < s.minProfitEur then Some(BELOW_EUR)
    else if e.netReturn < s.minProfitPct then Some(BELOW_PCT)
    else None
  }

  function Evaluate(s: ArbitrageSettings, buy: Snapshot, sell: Snapshot): Outcome
    requires buy.book.Some? && sell.book.Some?
  {
    if buy.exchange == sell.exchange then Skipped
    else
      match Build(s, buy, sell)
      case Refusal(code) => Dropped(code, false)
      case Found(candidate) =>
        var estimate := Estimate(EngineSettings(s), AsOpportunity(candidate), None);
        var code := GateCode(s, estimate);
        if code.Some? then Dropped(code.value, true) else Emitted(candidate, estimate)
  }

  // ----- what a candidate is -----

  // Both legs of a candidate are filled in full, on any books: the smaller of the two depths can always be
  // taken from both sides, so the rejection for insufficient depth never fires.
  lemma CandidateLegs(s: ArbitrageSettings, buy: Snapshot, sell: Snapshot)
    requires Sensible(s) && buy.book.Some? && sell.book.Some?
    ensures Build(s, buy, sell) != Refusal(NO_DEPTH)
    ensures Build(s, buy, sell).Found? ==>
              var c := Build(s, buy, sell).candidate;
              var bought, sold := SweepBook(buy.book.value.asks, c.quantity), SweepBook(sell.book.value.bids, c.quantity);
              && s.minLiquidity <= c.quantity <= s.maxQuantity
              && c.quantity in {s.maxQuantity, SideDepth(buy.book.value.asks), SideDepth(sell.book.value.bids)}
              && bought.filled == c.quantity == sold.filled
              && Value(c.quantity, c.buyVwap) == bought.notional && Value(c.quantity, c.sellVwap) == sold.notional
              && c.buyVwap < c.sellVwap
  {
    hide Value, SweepBook, SideDepth, TakeableDepth;
    var asks, bids := buy.book.value.asks, sell.book.value.bids;
    var quantity := Min(Min(SideDepth(asks), SideDepth(bids)), s.maxQuantity);
    SideDepthIsTakeable(asks);
    SideDepthIsTakeable(bids);
    if s.minLiquidity <= quantity {
      SweepFills(asks, quantity);
      SweepFills(bids, quantity);
      ValueOfAverage(SweepBook(asks, quantity).notional, quantity);
      ValueOfAverage(SweepBook(bids, quantity).notional, quantity);
      CodesDiffer();
    }
  }

  lemma CodesDiffer()
    ensures NO_DEPTH != NO_EDGE && NO_DEPTH != OVERLAP
  {
    assert |NO_DEPTH| != |NO_EDGE|;
    assert |NO_DEPTH| != |OVERLAP|;
  }

  // ----- no cycles -----

  // A book as a venue publishes it: both sides in order, not empty, and not crossed.
  ghost predicate OrderlyVenue(v: Snapshot)
  {
    && v.book.Some?
    && var b := v.book.value;
       && b.asks != [] && b.bids != []
       && InTradingOrder(b.asks, Buy) && InTradingOrder(b.bids, Sell)
       && b.bids[0].price <= b.asks[0].price
  }

  function BestBid(v: Snapshot): real
    requires v.book.Some? && v.book.value.bids != []
  {
    v.book.value.bids[0].price
  }

  // Every candidate edge leads to a venue with a strictly higher best bid.
  lemma EdgeRaisesBid(s: ArbitrageSettings, buy: Snapshot, sell: Snapshot)
    requires Sensible(s) && OrderlyVenue(buy) && OrderlyVenue(sell)
    requires Build(s, buy, sell).Found?
    ensures BestBid(buy) < BestBid(sell)
  {
    hide Value, SweepBook, SideDepth;
    CandidateLegs(s, buy, sell);
    var c := Build(s, buy, sell).candidate;
    var asks, bids := buy.book.value.asks, sell.book.value.bids;
    HeadBounds(asks, Buy);
    HeadBounds(bids, Sell);
    PaidAtLeast(asks, c.quantity, asks[0].price);
    PaidAtMost(bids, c.quantity, bids[0].price);
    AverageWithin(c.quantity, asks[0].price, c.buyVwap);
    AverageWithin(c.quantity, c.sellVwap, bids[0].price);
  }

  lemma HeadBounds(levels: seq<Level>, side: Side)
    requires levels != [] && InTradingOrder(levels, side)
    ensures forall l :: l in levels ==> if side.Buy? then levels[0].price <= l.price else l.price <= levels[0].price
  {
    forall l | l in levels ensures if side.Buy? then levels[0].price <= l.price else l.price <= levels[0].price {
      var i :| 0 <= i < |levels| && levels[i] == l;
      if i > 0 { assert levels[0].price <= levels[i].price || levels[0].price >= levels[i].price; }
    }
  }

  lemma AverageWithin(quantity: real, low: real, high: real)
    requires quantity > 0.0 && Value(quantity, low) <= Value(quantity, high)
    ensures low <= high
  {
  }

  // A chain of venues in which each buys where the next one sells.
  ghost predicate EdgeChain(s: ArbitrageSettings, chain: seq<Snapshot>)
  {
    && (forall v :: v in chain ==> OrderlyVenue(v))
    && (forall i :: 0 <= i < |chain| - 1 ==> IsEdge(s, chain[i], chain[i + 1]))
  }

  ghost predicate IsEdge(s: ArbitrageSettings, buy: Snapshot, sell: Snapshot)
  {
    buy.book.Some? && sell.book.Some? && Build(s, buy, sell).Found?
  }

  // The candidate graph has no cycle, over any number of venues: following edges, the best bid only rises,
  // so no chain of edges returns to a book it has left. In particular no pair of venues trades both ways.
  lemma {:induction false} CandidatesAcyclic(s: ArbitrageSettings, chain: seq<Snapshot>)
    requires Sensible(s) && |chain| >= 2 && EdgeChain(s, chain)
    ensures chain[0] in chain && chain[|chain| - 1] in chain
    ensures BestBid(chain[0]) < BestBid(chain[|chain| - 1])
    ensures chain[0].book != chain[|chain| - 1].book
    decreases |chain|
  {
    hide Build;
    assert chain[0] in chain && chain[1] in chain;
    assert IsEdge(s, chain[0], chain[1]);
    EdgeRaisesBid(s, chain[0], chain[1]);
    if |chain| > 2 {
      var rest := chain[1..];
      forall i | 0 <= i < |rest| - 1 ensures IsEdge(s, rest[i], rest[i + 1]) {
        var j := i + 1;
        assert IsEdge(s, chain[j], chain[j + 1]);
      }
      CandidatesAcyclic(s, rest);
    }
  }

  // ----- cash -----

  // The two NET checks behind the engine's own verdict never reject: the engine was given the same thresholds.
  lemma LaterGatesAreDead(s: ArbitrageSettings, c: Candidate)
    ensures var code := GateCode(s, Estimate(EngineSettings(s), AsOpportunity(c), None));
            code == None || code == Some(UNPROFITABLE)
  {
    hide Estimate;
    AllowedByEngine(s, c);
  }

  lemma AllowedByEngine(s: ArbitrageSettings, c: Candidate)
    ensures var e := Estimate(EngineSettings(s), AsOpportunity(c), None);
            e.TradeAllowed() <==> e.net > 0.0 && e.net >= s.minProfitEur && e.netReturn >= s.minProfitPct
  {
    hide Value, Fees, Slippage, FundingCost, GrossProfit;
    AllowedIffNetClears(EngineSettings(s), AsOpportunity(c), None);
  }

  // The cash a candidate brings when it is swept on the two books, both taker fees paid.
  function SweptCash(s: ArbitrageSettings, buy: OrderBook, sell: OrderBook, quantity: real): real
  {
    var paid, earned := SweepBook(buy.asks, quantity).notional, SweepBook(sell.bids, quantity).notional;
    earned - paid - Value(paid, s.costs.takerRate) - Value(earned, s.costs.takerRate)
  }

  // An emitted opportunity is cash-positive on the very levels it was priced from: sweeping them for the
  // emitted quantity and paying both taker fees leaves at least the reported NET, which is positive and
  // clears the threshold; and no other way of taking that quantity from the two books leaves more.
  lemma EmittedIsCashPositive(s: ArbitrageSettings, buy: Snapshot, sell: Snapshot)
    requires Sensible(s) && buy.book.Some? && sell.book.Some?
    requires PricedBook(buy.book.value) && PricedBook(sell.book.value)
    requires Evaluate(s, buy, sell).Emitted?
    ensures var Emitted(c, e) := Evaluate(s, buy, sell);
            var cash := SweptCash(s, buy.book.value, sell.book.value, c.quantity);
            0.0 < e.net <= cash && s.minProfitEur <= e.net
  {
    hide Value, SweepBook, SideDepth, Estimate;
    CandidateLegs(s, buy, sell);
    var Emitted(c, e) := Evaluate(s, buy, sell);
    AllowedByEngine(s, c);
    PositivePricesPositiveNotional(buy.book.value.asks, c.quantity);
    PositivePricesPositiveNotional(sell.book.value.bids, c.quantity);
    NetWithinCash(s, c);
  }

  // NET is gross minus the two fees minus costs that are not negative.
  lemma NetWithinCash(s: ArbitrageSettings, c: Candidate)
    requires Sensible(s) && Value(c.quantity, c.buyVwap) >= 0.0 && Value(c.quantity, c.sellVwap) >= 0.0
    ensures var paid, earned := Value(c.quantity, c.buyVwap), Value(c.quantity, c.sellVwap);
            Estimate(EngineSettings(s), AsOpportunity(c), None).net
            <= earned - paid - Value(paid, s.costs.takerRate) - Value(earned, s.costs.takerRate)
  {
    hide Value;
    var paid, earned := Value(c.quantity, c.buyVwap), Value(c.quantity, c.sellVwap);
    ValueGap(c.quantity, c.buyVwap, c.sellVwap);
    ValuesMonotoneFromZero(paid + earned, s.costs.slippageBps / BPS);
    ValuesMonotoneFromZero(paid, s.costs.bufferBps / BPS);
  }

  // Taking the quantity in any other way from the two books pays no less and earns no more.
  lemma SweepIsBestCash(s: ArbitrageSettings, buy: Snapshot, sell: Snapshot, taken: seq<real>, given: seq<real>)
    requires Sensible(s) && s.costs.takerRate <= 1.0 && OrderlyVenue(buy) && OrderlyVenue(sell)
    requires Build(s, buy, sell).Found?
    requires Feasible(buy.book.value.asks, taken) && Feasible(sell.book.value.bids, given)
    requires Sum(taken) == Sum(given) == Build(s, buy, sell).candidate.quantity
    ensures var paid, earned := Notional(buy.book.value.asks, taken), Notional(sell.book.value.bids, given);
            earned - paid - Value(paid, s.costs.takerRate) - Value(earned, s.costs.takerRate)
            <= SweptCash(s, buy.book.value, sell.book.value, Sum(taken))
  {
    hide Value, SweepBook, Notional, Build;
    GreedyIsCheapest(buy.book.value.asks, taken);
    GreedyEarnsMost(sell.book.value.bids, given);
    var paid, earned := Notional(buy.book.value.asks, taken), Notional(sell.book.value.bids, given);
    ValueMonotoneQuantity(SweepBook(buy.book.value.asks, Sum(taken)).notional, paid, s.costs.takerRate);
    KeepsOrder(earned, SweepBook(sell.book.value.bids, Sum(given)).notional, s.costs.takerRate);
  }

  lemma KeepsOrder(less: real, more: real, rate: real)
    requires less <= more && rate <= 1.0
    ensures less - Value(less, rate) <= more - Value(more, rate)
  {
  }
}
