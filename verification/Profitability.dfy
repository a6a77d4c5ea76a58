// Expected NET profit: fees per leg, slippage with book impact, funding, buffer and the gates
// (bot/profitability/fee_calculator.py, bot/profitability/slippage.py, bot/profitability/net_profit.py).

module Profitability {
  import opened Prelude
  import opened DepthWalk
  import opened LedgerFacts
  import opened PaperExecution

  datatype OpportunitySide = BuySide | SellSide | LongSide | ShortSide
  {
    predicate Buys() { BuySide? || LongSide? }
  }

  datatype FeeRole = Maker | Taker

  datatype Opportunity = Opportunity(
    side: OpportunitySide,
    quantity: real,
    entryPrice: real,
    expectedExitPrice: Option<real>,
    marketBook: Option<OrderBook>,
    marketFunding: Option<real>,
    entryRole: FeeRole,
    exitRole: FeeRole,
    fundingPeriods: real
  )

  datatype Settings = Settings(
    makerRate: real,
    takerRate: real,
    slippageBps: real,
    impactFactor: real,
    thinBookBps: real,
    fundingRate: real,
    applyFunding: bool,
    bufferBps: real,
    minNetProfit: real,
    minNetReturn: real
  )

  // The configuration's own bounds: no rate, factor or threshold is negative.
  predicate Configured(s: Settings)
  {
    && s.makerRate >= 0.0 && s.takerRate >= 0.0 && s.slippageBps >= 0.0 && s.impactFactor >= 0.0
    && s.thinBookBps >= 0.0 && s.fundingRate >= 0.0 && s.bufferBps >= 0.0
    && s.minNetProfit >= 0.0 && s.minNetReturn >= 0.0
  }

  // ----- fees -----

  datatype FeeBreakdown = FeeBreakdown(buyFee: real, sellFee: real, buyNotional: real, sellNotional: real)

  function RateFor(s: Settings, role: FeeRole): real { if role.Maker? then s.makerRate else s.takerRate }

  function Fees(s: Settings, o: Opportunity, exitPrice: real): FeeBreakdown
  {
    var entry, exit := Value(o.quantity, o.entryPrice), Value(o.quantity, exitPrice);
    var (buys, sells, buyRole, sellRole) :=
      if o.side.Buys() then (entry, exit, o.entryRole, o.exitRole) else (exit, entry, o.exitRole, o.entryRole);
    FeeBreakdown(Value(buys, RateFor(s, buyRole)), Value(sells, RateFor(s, sellRole)), buys, sells)
  }

  // ----- slippage: the third depth walk -----

  // `_walk_book_impact` takes levels as they come, without skipping those that have no size.
  function RawSweep(levels: seq<Level>, quantity: real): Sweep
  {
    if quantity <= 0.0 || levels == [] then Sweep(0.0, 0.0, 0)
    else
      var take := Min(quantity, levels[0].amount);
      var rest := RawSweep(levels[1..], quantity - take);
      Sweep(take + rest.filled, Value(take, levels[0].price) + rest.notional, 1 + rest.levels)
  }

  lemma {:induction false} RawSweepLevels(levels: seq<Level>, quantity: real)
    ensures RawSweep(levels, quantity).levels <= |levels|
  {
    hide Value;
    if levels != [] && quantity > 0.0 {
      RawSweepLevels(levels[1..], quantity - Min(quantity, levels[0].amount));
    }
  }

  ghost predicate Sizes(levels: seq<Level>)
  {
    forall l :: l in levels ==> l.amount >= 0.0
  }

  // The impact walker agrees with `walk_book` on what is filled and paid, when no amount is negative.
  lemma {:induction false} WalkersAgree(levels: seq<Level>, quantity: real)
    requires Sizes(levels)
    ensures RawSweep(levels, quantity).filled == SweepBook(levels, quantity).filled
    ensures RawSweep(levels, quantity).notional == SweepBook(levels, quantity).notional
  {
    hide Value;
    if levels != [] && quantity > 0.0 {
      var l, rest := levels[0], levels[1..];
      assert l in levels;
      NothingIsFree(l.price);
      if l.amount == 0.0 {
        WalkersAgree(rest, quantity);
      } else if quantity <= l.amount {
        assert RawSweep(rest, 0.0) == Sweep(0.0, 0.0, 0);
      } else {
        WalkersAgree(rest, quantity - l.amount);
      }
    }
  }

  // With quantity left over, every level has been touched: the last price is the last level's.
  lemma {:induction false} LeftoverTouchesAll(levels: seq<Level>, quantity: real)
    requires Sizes(levels) && quantity > TakeableDepth(levels)
    ensures RawSweep(levels, quantity).levels == |levels|
  {
    hide Value;
    SideDepthIsTakeable(levels);
    if levels != [] {
      assert levels[0] in levels;
      SideDepthIsTakeable(levels[1..]);
      LeftoverTouchesAll(levels[1..], quantity - levels[0].amount);
    }
  }

  const BPS := 10000.0

  datatype BookWalk = BookWalk(
    impact: real,
    thinPenalty: real,
    depthAvailable: real,
    consumedRatio: real,
    vwap: Option<real>,
    levels: nat
  )

  function LastPrice(levels: seq<Level>, touched: nat, reference: real): real
    requires touched <= |levels|
  {
    if touched > 0 then levels[touched - 1].price else reference
  }

  // `_walk_book_impact`
  function BookImpact(s: Settings, quantity: real, reference: real, levels: seq<Level>): BookWalk
  {
    RawSweepLevels(levels, quantity);
    var walked := RawSweep(levels, quantity);
    var remaining := quantity - walked.filled;
    if walked.filled <= 0.0 then
      BookWalk(0.0, Value(Value(quantity, reference), s.thinBookBps / BPS), SideDepth(levels),
               if quantity > 0.0 then 1.0 else 0.0, None, 0)
    else
      var vwap := walked.notional / walked.filled;
      var impact := Value(walked.filled, Abs(vwap - reference));
      BookWalk(
        if remaining > 0.0 then
          impact + Value(remaining, Abs(LastPrice(levels, walked.levels, reference) - reference))
        else impact,
        if remaining > 0.0 then Value(Value(remaining, reference), s.thinBookBps / BPS) else 0.0,
        SideDepth(levels),
        if remaining > 0.0 then 1.0 else if quantity > 0.0 then (quantity - remaining) / quantity else 0.0,
        Some(vwap),
        walked.levels)
  }

  // The loop itself.
  method WalkBookImpact(s: Settings, quantity: real, reference: real, levels: seq<Level>) returns (walk: BookWalk)
    ensures walk == BookImpact(s, quantity, reference, levels)
  {
    hide Value;
    var remaining, notional, filled := quantity, 0.0, 0.0;
    var touched := 0;
    ghost var whole := RawSweep(levels, quantity);
    var i := 0;
    while i < |levels|
      invariant 0 <= i <= |levels| && touched <= i
      invariant remaining == quantity - filled
      invariant var rest := RawSweep(levels[i..], remaining);
                whole == Sweep(filled + rest.filled, notional + rest.notional, touched + rest.levels)
    {
      assert levels[i..][0] == levels[i] && levels[i..][1..] == levels[i + 1..];
      if remaining <= 0.0 {
        break;
      }
      var take := Min(remaining, levels[i].amount);
      notional := notional + Value(take, levels[i].price);
      filled := filled + take;
      remaining := remaining - take;
      touched := touched + 1;
      i := i + 1;
    }
    hide RawSweep;
    assert whole == Sweep(filled, notional, touched);
    if filled <= 0.0 {
      return BookWalk(0.0, Value(Value(quantity, reference), s.thinBookBps / BPS), SideDepth(levels),
                      if quantity > 0.0 then 1.0 else 0.0, None, 0);
    }
    var vwap := notional / filled;
    var impact, thin := Value(filled, Abs(vwap - reference)), 0.0;
    if remaining > 0.0 {
      thin := Value(Value(remaining, reference), s.thinBookBps / BPS);
      var last := if touched > 0 then levels[touched - 1].price else reference;
      impact := impact + Value(remaining, Abs(last - reference));
    }
    var ratio := if quantity > 0.0 then (quantity - remaining) / quantity else 0.0;
    if remaining > 0.0 {
      ratio := 1.0;
    }
    walk := BookWalk(impact, thin, SideDepth(levels), ratio, Some(vwap), touched);
  }

  function EntryLevels(side: OpportunitySide, book: OrderBook): seq<Level> { if side.Buys() then book.asks else book.bids }

  function ExitLevels(side: OpportunitySide, book: OrderBook): seq<Level> { if side.Buys() then book.bids else book.asks }

  datatype SlippageEstimate = SlippageEstimate(base: real, marketImpact: real, thinPenalty: real, total: real)

  // `SlippageModel.estimate`
  function Slippage(s: Settings, o: Opportunity, exitPrice: real, given: Option<OrderBook>): SlippageEstimate
  {
    var roundTrip := Value(o.quantity, o.entryPrice) + Value(o.quantity, exitPrice);
    var base := Value(roundTrip, s.slippageBps / BPS);
    var book := if given.Some? then given else o.marketBook;
    if book.None? then SlippageEstimate(base, 0.0, 0.0, base)
    else
      var entry := BookImpact(s, o.quantity, o.entryPrice, EntryLevels(o.side, book.value));
      var exit := BookImpact(s, o.quantity, exitPrice, ExitLevels(o.side, book.value));
      var impact := Value(entry.impact + exit.impact, s.impactFactor);
      var thin := Value(entry.thinPenalty + exit.thinPenalty, s.impactFactor);
      SlippageEstimate(base, impact, thin, base + impact + thin)
  }

  // ----- slippage grows with size -----

  // The reference is at or inside the top of the side that is walked.
  ghost predicate Inside(levels: seq<Level>, side: Side, reference: real)
  {
    && InTradingOrder(levels, side) && Sizes(levels) && reference >= 0.0
    && forall l :: l in levels ==> if side.Buy? then reference <= l.price else l.price <= reference
  }

  // What the walk pays beyond the reference; on an inside reference every level adds to it.
  function Excess(levels: seq<Level>, side: Side, quantity: real, reference: real): real
  {
    var w := SweepBook(levels, quantity);
    if side.Buy? then w.notional - Value(w.filled, reference) else Value(w.filled, reference) - w.notional
  }

  lemma ExcessGrows(levels: seq<Level>, side: Side, reference: real, a: real, more: real)
    requires Inside(levels, side, reference)
    requires 0.0 <= a && 0.0 <= more && a + more <= TakeableDepth(levels)
    ensures 0.0 <= Excess(levels, side, a, reference) <= Excess(levels, side, a + more, reference)
  {
    hide Value, SweepBook, TakeableDepth, Mirror, InTradingOrder;
    SweepFills(levels, a);
    SweepFills(levels, a + more);
    ValueAdds(a, more, reference);
    if side.Buy? {
      MarginalCostAtLeast(levels, reference, a, more);
      PaidAtLeast(levels, a, reference);
    } else {
      MarginalProceedsAtMost(levels, reference, a, more);
      PaidAtMost(levels, a, reference);
    }
  }

  // Every bid at most `ceiling`: each further unit earns at most `ceiling`.
  lemma MarginalProceedsAtMost(levels: seq<Level>, ceiling: real, a: real, more: real)
    requires 0.0 <= a && 0.0 <= more && a + more <= TakeableDepth(levels)
    requires forall l :: l in levels ==> l.price <= ceiling
    ensures SweepBook(levels, a + more).notional <= SweepBook(levels, a).notional + Value(more, ceiling)
  {
    hide Value, SweepBook, TakeableDepth, Mirror;
    MirrorWalk(levels, a);
    MirrorWalk(levels, a + more);
    MirrorMembers(levels);
    MirrorValue(more, ceiling);
    MarginalCostAtLeast(Mirror(levels), -ceiling, a, more);
  }

  lemma MirrorMembers(levels: seq<Level>)
    ensures forall m :: m in Mirror(levels) ==> Level(-m.price, m.amount) in levels
  {
    forall m | m in Mirror(levels) ensures Level(-m.price, m.amount) in levels {
      var i :| 0 <= i < |levels| && Mirror(levels)[i] == m;
      assert levels[i] == Level(-m.price, m.amount);
    }
  }

  // The impact of a leg: the excess over what is filled, and the last level's excess for the rest.
  function LastExcess(levels: seq<Level>, side: Side, reference: real): real
  {
    if levels == [] then 0.0
    else if side.Buy? then levels[|levels| - 1].price - reference
    else reference - levels[|levels| - 1].price
  }

  lemma ImpactIsExcess(s: Settings, levels: seq<Level>, side: Side, quantity: real, reference: real)
    requires Inside(levels, side, reference) && quantity > 0.0
    ensures var depth := TakeableDepth(levels);
            var walk := BookImpact(s, quantity, reference, levels);
            if depth == 0.0 then
              walk.impact == 0.0 && walk.thinPenalty == Value(Value(quantity, reference), s.thinBookBps / BPS)
            else if quantity <= depth then
              walk.impact == Excess(levels, side, quantity, reference) && walk.thinPenalty == 0.0
            else
              && walk.impact == Excess(levels, side, depth, reference)
                                + Value(quantity - depth, LastExcess(levels, side, reference))
              && walk.thinPenalty == Value(Value(quantity - depth, reference), s.thinBookBps / BPS)
  {
    hide Value, SweepBook, RawSweep, TakeableDepth, InTradingOrder;
    var depth := TakeableDepth(levels);
    SideDepthIsTakeable(levels);
    WalkersAgree(levels, quantity);
    SweepFills(levels, quantity);
    SweepSaturates(levels, quantity);
    var w := SweepBook(levels, quantity);
    if depth > 0.0 {
      AverageExcess(levels, side, quantity, reference);
      if quantity > depth {
        LeftoverTouchesAll(levels, quantity);
        SizeMeansLevels(levels);
        assert levels[|levels| - 1] in levels;
      }
    }
  }

  lemma SizeMeansLevels(levels: seq<Level>)
    requires TakeableDepth(levels) > 0.0
    ensures levels != []
  {
  }

  // |vwap - reference| * filled is the excess, because the average lies on the far side of the reference.
  lemma AverageExcess(levels: seq<Level>, side: Side, quantity: real, reference: real)
    requires Inside(levels, side, reference)
    requires SweepBook(levels, quantity).filled > 0.0
    ensures var w := SweepBook(levels, quantity);
            Value(w.filled, Abs(w.notional / w.filled - reference)) == Excess(levels, side, quantity, reference)
  {
    hide Value, SweepBook;
    var w := SweepBook(levels, quantity);
    var vwap := w.notional / w.filled;
    ValueOfAverage(w.notional, w.filled);
    if side.Buy? { PaidAtLeast(levels, quantity, reference); } else { PaidAtMost(levels, quantity, reference); }
    ValueGap(w.filled, reference, vwap);
    ValueGap(w.filled, vwap, reference);
    if side.Buy? && vwap < reference { ValueStrictQuantity(w.filled, vwap, reference); }
    if side.Sell? && reference < vwap { ValueStrictQuantity(w.filled, reference, vwap); }
  }

  lemma ValueStrictQuantity(quantity: real, low: real, high: real)
    requires quantity > 0.0 && low < high
    ensures Value(quantity, low) < Value(quantity, high)
  {
  }

  // One leg's impact and thin-book penalty are non-negative and never shrink as the quantity grows, also
  // across the point where the book runs out.
  lemma LegGrows(s: Settings, levels: seq<Level>, side: Side, reference: real, a: real, b: real)
    requires Configured(s) && Inside(levels, side, reference) && 0.0 < a <= b
    ensures var wa, wb := BookImpact(s, a, reference, levels), BookImpact(s, b, reference, levels);
            0.0 <= wa.impact <= wb.impact && 0.0 <= wa.thinPenalty <= wb.thinPenalty
  {
    hide Value, SweepBook, TakeableDepth, BookImpact, Excess, InTradingOrder;
    var depth, last := TakeableDepth(levels), LastExcess(levels, side, reference);
    SideDepthIsTakeable(levels);
    ImpactIsExcess(s, levels, side, a, reference);
    ImpactIsExcess(s, levels, side, b, reference);
    LastExcessNonNegative(levels, side, reference);
    if depth == 0.0 {
      PenaltyGrows(s, reference, a, b);
    } else if b <= depth {
      ExcessGrows(levels, side, reference, a, b - a);
    } else if a <= depth {
      ExcessGrows(levels, side, reference, a, depth - a);
      ValuesMonotoneFromZero(b - depth, last);
      PenaltyGrows(s, reference, 0.0, b - depth);
    } else {
      ExcessGrows(levels, side, reference, depth, 0.0);
      ValuesMonotoneFromZero(a - depth, last);
      ValueMonotoneQuantity(a - depth, b - depth, last);
      PenaltyGrows(s, reference, a - depth, b - depth);
    }
  }

  lemma LastExcessNonNegative(levels: seq<Level>, side: Side, reference: real)
    requires Inside(levels, side, reference)
    ensures LastExcess(levels, side, reference) >= 0.0
  {
    if levels != [] {
      assert levels[|levels| - 1] in levels;
    }
  }

  lemma ValuesMonotoneFromZero(quantity: real, price: real)
    requires quantity >= 0.0 && price >= 0.0
    ensures Value(quantity, price) >= 0.0
  {
  }

  lemma PenaltyGrows(s: Settings, reference: real, a: real, b: real)
    requires Configured(s) && reference >= 0.0 && 0.0 <= a <= b
    ensures 0.0 <= Value(Value(a, reference), s.thinBookBps / BPS) <= Value(Value(b, reference), s.thinBookBps / BPS)
  {
    hide Value;
    ValuesMonotoneFromZero(a, reference);
    ValueMonotoneQuantity(a, b, reference);
    ValuesMonotoneFromZero(Value(a, reference), s.thinBookBps / BPS);
    ValueMonotoneQuantity(Value(a, reference), Value(b, reference), s.thinBookBps / BPS);
  }

  // The whole estimate: non-negative, and a larger trade is never estimated to slip less.
  lemma SlippageGrows(s: Settings, o: Opportunity, exitPrice: real, book: OrderBook, b: real)
    requires Configured(s) && 0.0 < o.quantity <= b
    requires Inside(EntryLevels(o.side, book), if o.side.Buys() then Buy else Sell, o.entryPrice)
    requires Inside(ExitLevels(o.side, book), if o.side.Buys() then Sell else Buy, exitPrice)
    ensures 0.0 <= Slippage(s, o, exitPrice, Some(book)).total
                <= Slippage(s, o.(quantity := b), exitPrice, Some(book)).total
  {
    hide Value, BookImpact, Inside;
    InsideReference(EntryLevels(o.side, book), if o.side.Buys() then Buy else Sell, o.entryPrice);
    InsideReference(ExitLevels(o.side, book), if o.side.Buys() then Sell else Buy, exitPrice);
    LegGrows(s, EntryLevels(o.side, book), if o.side.Buys() then Buy else Sell, o.entryPrice, o.quantity, b);
    LegGrows(s, ExitLevels(o.side, book), if o.side.Buys() then Sell else Buy, exitPrice, o.quantity, b);
    BaseGrows(s, o.entryPrice, exitPrice, o.quantity, b);
    var ea, eb := BookImpact(s, o.quantity, o.entryPrice, EntryLevels(o.side, book)),
                  BookImpact(s, b, o.entryPrice, EntryLevels(o.side, book));
    var xa, xb := BookImpact(s, o.quantity, exitPrice, ExitLevels(o.side, book)),
                  BookImpact(s, b, exitPrice, ExitLevels(o.side, book));
    ValuesMonotoneFromZero(ea.impact + xa.impact, s.impactFactor);
    ValuesMonotoneFromZero(ea.thinPenalty + xa.thinPenalty, s.impactFactor);
    ValueMonotoneQuantity(ea.impact + xa.impact, eb.impact + xb.impact, s.impactFactor);
    ValueMonotoneQuantity(ea.thinPenalty + xa.thinPenalty, eb.thinPenalty + xb.thinPenalty, s.impactFactor);
  }

  lemma InsideReference(levels: seq<Level>, side: Side, reference: real)
    requires Inside(levels, side, reference)
    ensures reference >= 0.0
  {
  }

  lemma BaseGrows(s: Settings, entry: real, exit: real, a: real, b: real)
    requires Configured(s) && entry >= 0.0 && exit >= 0.0 && 0.0 <= a <= b
    ensures 0.0 <= Value(Value(a, entry) + Value(a, exit), s.slippageBps / BPS)
                <= Value(Value(b, entry) + Value(b, exit), s.slippageBps / BPS)
  {
    hide Value;
    ValuesMonotoneFromZero(a, entry);
    ValuesMonotoneFromZero(a, exit);
    ValueMonotoneQuantity(a, b, entry);
    ValueMonotoneQuantity(a, b, exit);
    ValuesMonotoneFromZero(Value(a, entry) + Value(a, exit), s.slippageBps / BPS);
    ValueMonotoneQuantity(Value(a, entry) + Value(a, exit), Value(b, entry) + Value(b, exit), s.slippageBps / BPS);
  }

  // ----- NET profit -----

  datatype Disallow = GrossOnly | NetNotPositive | BelowMinimumProfit | BelowMinimumReturn

  datatype ProfitEstimate = ProfitEstimate(
    gross: real,
    buyFee: real,
    sellFee: real,
    slippage: real,
    funding: real,
    buffer: real,
    net: real,
    netReturn: real,
    reasons: seq<Disallow>
  )
  {
    predicate TradeAllowed() { reasons == [] }
  }

  function ExitPrice(o: Opportunity): real
  {
    if o.expectedExitPrice.Some? then o.expectedExitPrice.value else o.entryPrice
  }

  function GrossProfit(o: Opportunity, exitPrice: real): real
  {
    Value(o.quantity, if o.side.SellSide? || o.side.ShortSide? then o.entryPrice - exitPrice else exitPrice - o.entryPrice)
  }

  function FundingCost(s: Settings, o: Opportunity, notional: real): real
  {
    if !s.applyFunding || o.fundingPeriods <= 0.0 then 0.0
    else
      var rate := if o.marketFunding.Some? then o.marketFunding.value else s.fundingRate;
      var raw := Value(Value(notional, rate), o.fundingPeriods);
      if o.side.SellSide? || o.side.ShortSide? then -raw else raw
  }

  // The reasons are all different, so removing repetitions changes nothing.
  function DisallowReasons(s: Settings, net: real, netReturn: real, gross: real): seq<Disallow>
  {
    (if gross > 0.0 && net <= 0.0 then [GrossOnly] else [])
    + (if net <= 0.0 then [NetNotPositive] else [])
    + (if net < s.minNetProfit then [BelowMinimumProfit] else [])
    + (if netReturn < s.minNetReturn then [BelowMinimumReturn] else [])
  }

  // `NetProfitCalculator.estimate`
  function Estimate(s: Settings, o: Opportunity, book: Option<OrderBook>): ProfitEstimate
  {
    var exitPrice := ExitPrice(o);
    var entryNotional := Value(o.quantity, o.entryPrice);
    var gross := GrossProfit(o, exitPrice);
    var fees := Fees(s, o, exitPrice);
    var slippage := Slippage(s, o, exitPrice, book).total;
    var funding := FundingCost(s, o, entryNotional);
    var buffer := Value(entryNotional, s.bufferBps / BPS);
    var net := gross - fees.buyFee - fees.sellFee - slippage - funding - buffer;
    var netReturn := if entryNotional > 0.0 then net / entryNotional else 0.0;
    ProfitEstimate(gross, fees.buyFee, fees.sellFee, slippage, funding, buffer, net, netReturn,
                   DisallowReasons(s, net, netReturn, gross))
  }

  // Gross profit is what the sold leg brings minus what the bought leg costs, whichever leg comes first.
  lemma GrossIsCashDifference(s: Settings, o: Opportunity, exitPrice: real)
    ensures GrossProfit(o, exitPrice) == Fees(s, o, exitPrice).sellNotional - Fees(s, o, exitPrice).buyNotional
  {
    hide Value;
    ValueGap(o.quantity, o.entryPrice, exitPrice);
    ValueGap(o.quantity, exitPrice, o.entryPrice);
  }

  // Going short is going long with the legs exchanged: same fees on the same legs, and funding the other way.
  lemma ShortMirrorsLong(s: Settings, o: Opportunity, exitPrice: real, notional: real)
    requires o.side.ShortSide? || o.side.SellSide?
    ensures var long := o.(side := LongSide, entryPrice := exitPrice, entryRole := o.exitRole, exitRole := o.entryRole);
            && Fees(s, o, exitPrice) == Fees(s, long, o.entryPrice)
            && GrossProfit(o, exitPrice) == GrossProfit(long, o.entryPrice)
            && FundingCost(s, o, notional) == -FundingCost(s, long, notional)
  {
    hide Value;
  }

  // What estimating a trade against a book means: on a book deep enough, with the reference prices inside it
  // and an impact factor of one, gross profit less market impact is exactly the cash from sweeping the bids
  // less the cash for sweeping the asks, and nothing is charged for thinness.
  lemma GrossLessImpactIsSweptCash(s: Settings, o: Opportunity, exitPrice: real, book: OrderBook)
    requires s.impactFactor == 1.0 && o.quantity > 0.0
    requires o.quantity <= TakeableDepth(book.asks) && o.quantity <= TakeableDepth(book.bids)
    requires Inside(book.asks, Buy, if o.side.Buys() then o.entryPrice else exitPrice)
    requires Inside(book.bids, Sell, if o.side.Buys() then exitPrice else o.entryPrice)
    ensures var estimate := Slippage(s, o, exitPrice, Some(book));
            && GrossProfit(o, exitPrice) - estimate.marketImpact
               == SweepBook(book.bids, o.quantity).notional - SweepBook(book.asks, o.quantity).notional
            && estimate.thinPenalty == 0.0
  {
    hide Value, BookImpact, Inside, SweepBook, TakeableDepth, Fees;
    var (ask, bid) := if o.side.Buys() then (o.entryPrice, exitPrice) else (exitPrice, o.entryPrice);
    ImpactIsExcess(s, book.asks, Buy, o.quantity, ask);
    ImpactIsExcess(s, book.bids, Sell, o.quantity, bid);
    SweepFills(book.asks, o.quantity);
    SweepFills(book.bids, o.quantity);
    ValueGap(o.quantity, ask, bid);
    TimesOne(BookImpact(s, o.quantity, ask, book.asks).impact + BookImpact(s, o.quantity, bid, book.bids).impact);
    TimesOne(BookImpact(s, o.quantity, bid, book.bids).impact + BookImpact(s, o.quantity, ask, book.asks).impact);
    TimesOne(0.0);
  }

  lemma TimesOne(amount: real)
    ensures Value(amount, 1.0) == amount
  {
  }

  // A trade is allowed exactly when its NET profit is positive and clears both thresholds; gross never matters.
  lemma AllowedIffNetClears(s: Settings, o: Opportunity, book: Option<OrderBook>)
    ensures var e := Estimate(s, o, book);
            e.TradeAllowed() <==> e.net > 0.0 && e.net >= s.minNetProfit && e.netReturn >= s.minNetReturn
  {
    hide Value, Fees, Slippage, FundingCost, GrossProfit;
  }
}
