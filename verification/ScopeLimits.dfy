// Why the ledger theorems are stated for the scope they are stated for: outside it the properties
// fail, and here is exactly when (bot/execution/paper_executor.py, bot/portfolio/accounting.py).

module ScopeLimits {
  import opened Prelude
  import opened DepthWalk
  import opened Ledger
  import opened LedgerFacts
  import opened PaperExecution
  import opened PlacementFacts

  // ----- fixed slippage -----

  // What a limit buy costs under fixed slippage: the slipped price is neither held to the limit nor to
  // what was reserved.
  function SlippedCost(cfg: Config, order: Order): real
    requires order.requestedPrice.Some?
  {
    var price := Value(order.requestedPrice.value, 1.0 + cfg.fixedSlippagePct / 100.0);
    var gross := Value(order.requestedQuantity, price);
    gross + Value(gross, cfg.feeRate)
  }

  // A fixed-slippage fill is for the full quantity whenever there is a positive reference, at a price moved
  // against the order by the given percentage of it, and it reports exactly that move as its slippage.
  lemma FixedFillIsAdverse(cfg: Config, order: Order, book: Option<OrderBook>)
    requires cfg.fixedSlippagePct >= 0.0
    ensures var reference, plan := FixedReference(order, book), FixedFill(cfg, order, book);
            && (plan.Some? <==> reference.Some? && reference.value > 0.0)
            && (plan.Some? ==>
                  var move := Value(reference.value, cfg.fixedSlippagePct / 100.0);
                  && plan.value.quantity == order.requestedQuantity && move >= 0.0
                  && plan.value.vwap == (if order.side.Buy? then reference.value + move else reference.value - move)
                  && plan.value.slippage == Value(order.requestedQuantity, move))
  {
    hide Value, FixedReference;
    var reference := FixedReference(order, book);
    if reference.Some? && reference.value > 0.0 {
      SlippedPrice(reference.value, cfg.fixedSlippagePct / 100.0);
      ValuePositive(reference.value, cfg.fixedSlippagePct / 100.0);
    }
  }

  lemma SlippedPrice(price: real, slip: real)
    ensures Value(price, 1.0 + slip) == price + Value(price, slip)
    ensures Value(price, 1.0 - slip) == price - Value(price, slip)
  {
  }

  lemma FixedPlan(cfg: Config, order: Order, book: OrderBook, symbols: set<string>)
    requires ScopedOrder(order, symbols) && order.side.Buy? && !cfg.orderBookMode && cfg.fixedSlippagePct >= 0.0
    ensures var plan := SimulateFill(cfg, order, Some(book));
            && plan.Some? && plan.value.quantity == order.requestedQuantity
            && plan.value.vwap == Value(order.requestedPrice.value, 1.0 + cfg.fixedSlippagePct / 100.0) > 0.0
            && plan.value.slippage >= 0.0
  {
    hide Value;
    var price := Value(order.requestedPrice.value, 1.0 + cfg.fixedSlippagePct / 100.0);
    ValuePositive(order.requestedPrice.value, 1.0 + cfg.fixedSlippagePct / 100.0);
    ValuePositive(order.requestedQuantity, Abs(price - order.requestedPrice.value));
  }

  lemma AdjustStaysSolvent(a: Account, order: Order, asset: string, reserved: real, plan: FillPlan, fee: real)
    requires Solvent(a)
    ensures Solvent(Adjust(a, order, asset, reserved, plan, fee))
  {
    hide Value, BaseAsset;
  }

  // The account just before a fixed-slippage fill is posted, and the fill.
  lemma FixedBuyFills(a: Account, cfg: Config, order: Order, book: OrderBook, fillId: string, symbols: set<string>)
    requires Solvent(a)
    requires ScopedOrder(order, symbols) && order.side.Buy? && Marketable(order, Some(book))
    requires !cfg.orderBookMode && cfg.fixedSlippagePct >= 0.0 && cfg.feeRate >= 0.0
    requires Claim(a.quote, cfg, order).1 <= BalanceOf(a.balances, a.quote).available
    ensures var stage := Prepare(a, cfg, order, Some(book), fillId);
            && stage.Fills? && WellFormed(stage.fill) && stage.fill.side.Buy?
            && stage.fill.id == fillId && stage.fill.symbol == order.symbol
            && stage.fill.Gross() + stage.fill.fee == SlippedCost(cfg, order)
            && stage.account.quote == a.quote && stage.account.positions == a.positions
            && stage.account.stats == a.stats && stage.account.processed == a.processed
            && BalanceOf(stage.account.balances, a.quote).Total() == BalanceOf(a.balances, a.quote).Total()
            && Solvent(stage.account)
  {
    hide Value, BaseAsset, Solvent, SimulateFill, Marketable, Adjust, Move, AssetBalance.Total;
    var amount := Claim(a.quote, cfg, order).1;
    FixedPlan(cfg, order, book, symbols);
    var plan := SimulateFill(cfg, order, Some(book)).value;
    ValuePositive(plan.quantity, plan.vwap);
    ValuePositive(Value(plan.quantity, plan.vwap), cfg.feeRate);
    ReservedAlready(a, cfg, order, amount);
    var held := if amount <= 0.0 then a else Move(a, a.quote, amount);
    HoldIsSolvent(a, amount);
    AdjustOnlyMoves(held, order, a.quote, amount, plan, Value(Value(plan.quantity, plan.vwap), cfg.feeRate), a.quote);
    AdjustStaysSolvent(held, order, a.quote, amount, plan, Value(Value(plan.quantity, plan.vwap), cfg.feeRate));
  }

  lemma ReservedAlready(a: Account, cfg: Config, order: Order, amount: real)
    requires order.side.Buy? && order.requestedPrice.Some? && order.requestedPrice.value > 0.0
    requires amount == Claim(a.quote, cfg, order).1 <= BalanceOf(a.balances, a.quote).available
    ensures ReservationNeeded(a, cfg, order) == (true, a.quote, amount)
    ensures Reserve(a, a.quote, amount) == (if amount <= 0.0 then a else Move(a, a.quote, amount), true)
  {
    hide Value, BaseAsset, Move;
  }

  lemma HoldIsSolvent(a: Account, amount: real)
    requires Solvent(a) && amount <= BalanceOf(a.balances, a.quote).available
    ensures var held := if amount <= 0.0 then a else Move(a, a.quote, amount);
            && Solvent(held) && BalanceOf(held.balances, a.quote).Total() == BalanceOf(a.balances, a.quote).Total()
            && held.quote == a.quote && held.positions == a.positions && held.stats == a.stats
            && held.processed == a.processed
  {
  }

  // Under fixed slippage an affordable, marketable limit buy keeps the accounting identity exactly when
  // all the quote there is, other orders' reservations included, covers the slipped cost.
  lemma FixedBuyKeepsBooksIff(a: Account, cfg: Config, order: Order, book: OrderBook, fillId: string,
                              symbols: set<string>, start: real)
    requires Universe(symbols, a.quote) && Sound(a, symbols, start) && fillId !in a.processed
    requires ScopedOrder(order, symbols) && order.side.Buy? && Marketable(order, Some(book))
    requires !cfg.orderBookMode && cfg.fixedSlippagePct >= 0.0 && cfg.feeRate >= 0.0
    requires Claim(a.quote, cfg, order).1 <= BalanceOf(a.balances, a.quote).available
    ensures var stage := Prepare(a, cfg, order, Some(book), fillId);
            stage.Fills? &&
            (Booked(Post(stage.account, stage.fill).0, start)
             <==> SlippedCost(cfg, order) <= BalanceOf(a.balances, a.quote).Total())
  {
    hide Value, BaseAsset, Solvent, LongOnly, Backed, Marked, Watched, Prepare, Total, CostBases, AssetBalance.Total,
         Claim, Marketable, Post, SlippedCost, WellFormed;
    FixedBuyFills(a, cfg, order, book, fillId, symbols);
    var stage := Prepare(a, cfg, order, Some(book), fillId);
    PostKeepsBooksIff(stage.account, stage.fill, start);
  }

  const SLIPPERY := Config(0.0, false, 50.0, true, false)
  const WHOLE_CAPITAL := Order("o", "XE", Buy, Limit, 1.0, Some(100.0), Pending, 0.0, None, 0.0, 0.0, [], None)
  const ONE_ASK := OrderBook([], [Level(100.0, 1.0)])

  // It does happen: a capital of 100 spent on one order at its limit, and half as much again in slippage.
  lemma FixedSlippageBreaksBooks(fillId: string)
    ensures var stage := Prepare(OpeningAccount("E", 100.0), SLIPPERY, WHOLE_CAPITAL, Some(ONE_ASK), fillId);
            stage.Fills? && !Booked(Post(stage.account, stage.fill).0, 100.0)
  {
    hide *;
    SlipperyFacts();
    CapitalFacts();
    FixedBuyKeepsBooksIff(OpeningAccount("E", 100.0), SLIPPERY, WHOLE_CAPITAL, ONE_ASK, fillId, {"XE"}, 100.0);
  }

  lemma SlipperyFacts()
    ensures ScopedOrder(WHOLE_CAPITAL, {"XE"}) && WHOLE_CAPITAL.side.Buy? && WHOLE_CAPITAL.requestedPrice.Some?
    ensures Marketable(WHOLE_CAPITAL, Some(ONE_ASK))
    ensures !SLIPPERY.orderBookMode && SLIPPERY.fixedSlippagePct >= 0.0 && SLIPPERY.feeRate >= 0.0
    ensures SlippedCost(SLIPPERY, WHOLE_CAPITAL) == 150.0 && Claim("E", SLIPPERY, WHOLE_CAPITAL).1 == 100.0
  {
  }

  lemma CapitalFacts()
    ensures var a := OpeningAccount("E", 100.0);
            && a.quote == "E" && Universe({"XE"}, a.quote) && Sound(a, {"XE"}, 100.0) && a.processed == {}
            && BalanceOf(a.balances, a.quote).Total() == 100.0 == BalanceOf(a.balances, a.quote).available
  {
    hide Sound, Observe, Equity, BaseAsset;
    BaseOfPair();
    OpeningIsSound("E", 100.0, {"XE"});
  }

  lemma BaseOfPair()
    ensures BaseAsset("XE", "E") == "X"
  {
    assert WithoutSeparators("E") == "E";
    assert WithoutSeparators("XE") == "XE";
  }

  // ----- fees above the proceeds -----

  // A sale keeps every balance non-negative exactly when its fee is covered by its proceeds and the cash
  // at hand; with a fee rate of at most one it always is.
  lemma SaleStaysSolventIff(a: Account, fill: Fill)
    requires BaseAsset(fill.symbol, a.quote) != a.quote
    requires fill.id !in a.processed && WellFormed(fill) && fill.side.Sell?
    requires Solvent(a) && Covered(a, fill)
    ensures Solvent(Post(a, fill).0)
            <==> fill.fee <= fill.Gross() + BalanceOf(a.balances, a.quote).available
  {
    hide Fill.Gross, BaseAsset, SettlePosition, SettleBalances, Value;
    var after := Post(a, fill).0;
    PostedBalances(a, fill, a.quote);
    QuoteStays(a, fill);
    forall x | x in after.balances && x != a.quote
      ensures after.balances[x].available >= 0.0 && after.balances[x].reserved >= 0.0
    {
      PostedBalances(a, fill, x);
      assert after.balances[x] == BalanceOf(after.balances, x);
    }
    assert after.balances[a.quote] == BalanceOf(after.balances, a.quote);
  }

  lemma QuoteStays(a: Account, fill: Fill)
    requires fill.id !in a.processed
    ensures a.quote in Post(a, fill).0.balances
  {
    hide Value, BaseAsset, SettlePosition;
  }
}
