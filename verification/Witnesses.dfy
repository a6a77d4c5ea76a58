// Inputs the program can receive, for each property that holds only under a condition: runs from an opening
// portfolio in which the condition fails, and the property with it.

module Witnesses {
  import opened Prelude
  import opened DepthWalk
  import opened Ledger
  import opened LedgerFacts
  import opened PaperExecution
  import opened PlacementFacts
  import opened Store
  import opened LedgerRuns
  import opened ScopeLimits
  import opened KillSwitch
  import opened RiskGate
  import opened RiskRuns
  import opened Engine
  import opened EngineRuns
  import opened EngineTheorems

  const UNIVERSE := {"XE"}

  lemma OneSymbol()
    ensures Universe(UNIVERSE, "E") && BaseAsset("XE", "E") == "X"
  {
    BaseOfPair();
    hide BaseAsset;
  }

  // ----- cancelling a partly filled order -----

  const FREE := Config(0.0, true, 0.0, true, false)
  const THIN_BOOK := OrderBook([], [Level(100.0, 1.0)])
  const RESTING := OrderRequest("resting", "XE", Buy, 1.0, Some(50.0))
  const PARTIAL := OrderRequest("partial", "XE", Buy, 2.0, Some(100.0))

  lemma RestingRests(a: Account, cfg: Config, fillId: string)
    requires cfg == FREE && a.quote == "E" && BalanceOf(a.balances, "E").available >= 50.0
    ensures Prepare(a, cfg, NewOrder(RESTING, Limit), Some(THIN_BOOK), fillId) == Rests(Move(a, "E", 50.0))
  {
    hide Move, SimulateFill, Fillable;
  }

  lemma PartialFills(a: Account, cfg: Config, fillId: string)
    requires cfg == FREE && a.quote == "E" && BalanceOf(a.balances, "E").available >= 200.0
    ensures var stage := Prepare(a, cfg, NewOrder(PARTIAL, Limit), Some(THIN_BOOK), fillId);
            stage.Fills? && stage.fill.quantity == 1.0
  {
    hide Move, Adjust;
    OneLevelWalk(100.0, 1.0, 2.0, Buy, 100.0);
    hide SweepBook, Reachable;
  }

  // A walk over a single level within the limit.
  lemma OneLevelWalk(price: real, amount: real, quantity: real, side: Side, limit: real)
    requires amount > 0.0 && quantity > 0.0 && !Beyond(Level(price, amount), side, limit)
    ensures var taken := Min(quantity, amount);
            SweepBook(Reachable([Level(price, amount)], side, Some(limit)), quantity) == Sweep(taken, Value(taken, price), 1)
  {
    hide Value;
    assert Reachable([Level(price, amount)], side, Some(limit)) == [Level(price, amount)];
  }

  lemma ThinBookIsPriced()
    ensures PricedBook(THIN_BOOK)
    ensures ScopedOrder(NewOrder(RESTING, Limit), UNIVERSE) && ScopedOrder(NewOrder(PARTIAL, Limit), UNIVERSE)
    ensures InScope(FREE)
  {
  }

  // The account after an order has come to rest.
  lemma AfterResting(w: World)
    requires w.account.quote == "E" && BalanceOf(w.account.balances, "E").available == 1000.0 && w.orders == map[]
    requires w.account.processed == {}
    ensures var after := Execute(w, FREE, NewOrder(RESTING, Limit), Some(THIN_BOOK), "f1").0;
            && after.orders == map["resting" := NewOrder(RESTING, Limit).(status := Open)]
            && after.account.quote == "E" && after.account.processed == {}
            && BalanceOf(after.account.balances, "E").available == 950.0
  {
    RestingRests(w.account, FREE, "f1");
    hide Prepare;
  }

  lemma FilledOrders(w: World, order: Order, stage: Stage)
    requires stage.Fills?
    ensures Conclude(w, order, stage).0.orders == w.orders[order.id := Attach(order.(status := Open), stage.fill)]
  {
    hide Post, ApplyFill, SetMark, Attach;
  }

  lemma PartialOrder(fill: Fill)
    requires fill.quantity == 1.0
    ensures var order := Attach(NewOrder(PARTIAL, Limit).(status := Open), fill);
            order.id == "partial" && order.side.Buy? && order.status.PartiallyFilled?
  {
    hide FillsNotional;
  }

  lemma AfterPartial(w: World)
    requires w.account.quote == "E" && BalanceOf(w.account.balances, "E").available == 950.0
    requires w.orders == map["resting" := NewOrder(RESTING, Limit).(status := Open)]
    ensures var after := Execute(w, FREE, NewOrder(PARTIAL, Limit), Some(THIN_BOOK), "f2").0;
            && "partial" in after.orders && after.orders["partial"].status.PartiallyFilled? && after.orders["partial"].side.Buy?
            && "resting" in after.orders && after.orders["resting"].status.Open? && after.orders["resting"].side.Buy?
  {
    hide Prepare, Attach, Conclude;
    var order := NewOrder(PARTIAL, Limit);
    PartialFills(w.account, FREE, "f2");
    var stage := Prepare(w.account, FREE, order, Some(THIN_BOOK), "f2");
    FilledOrders(w, order, stage);
    PartialOrder(stage.fill);
    assert order.id == "partial" != "resting" by { assert |"partial"| == |"resting"| && "partial"[0] != "resting"[0]; }
  }

  function TwoBuys(): seq<Action>
  {
    [Place(RESTING, Limit, Some(THIN_BOOK), "f1"), Place(PARTIAL, Limit, Some(THIN_BOOK), "f2")]
  }

  // One buy rests, another is filled in part, and cancelling the second takes back what it no longer holds,
  // from what the first had set aside.
  lemma CancelCanTakeFromOthers()
    ensures var z := OpeningSession("E", 1000.0);
            var w := Run(z, FREE, TwoBuys()).world;
            && AllAdmissible(z, FREE, UNIVERSE, TwoBuys())
            && Reconciled(w, FREE) && "partial" in w.orders
            && !Reconciled(Cancel(w, FREE, "partial", ""), FREE)
  {
    hide Execute, Sound, Surplus, Universe, Registered, ScopedOrder, PricedBook, InScope, OpeningAccount, Save, OnDisk,
         CancelClaim, Cancel, Reconciled, NewOrder;
    OneSymbol();
    ThinBookIsPriced();
    OpeningFunds(1000.0);
    var z := OpeningSession("E", 1000.0);
    AfterResting(z.world);
    var first := Execute(z.world, FREE, NewOrder(RESTING, Limit), Some(THIN_BOOK), "f1").0;
    AfterPartial(first);
    var w := Execute(first, FREE, NewOrder(PARTIAL, Limit), Some(THIN_BOOK), "f2").0;
    assert TwoBuys()[1..] == [Place(PARTIAL, Limit, Some(THIN_BOOK), "f2")];
    assert TwoBuys()[1..][1..] == [];
    OpeningInv("E", 1000.0, FREE, UNIVERSE);
    RunKeeps(z, FREE, UNIVERSE, 1000.0, TwoBuys());
    assert Run(z, FREE, TwoBuys()).world == w;
    StillReconciled(z.world, w, FREE);
    CancelReconcilesIff(w, FREE, UNIVERSE, 1000.0, "partial", "");
    OpenMeansReserved(w, FREE, UNIVERSE, 1000.0, "resting", "partial");
  }

  lemma StillReconciled(before: World, after: World, cfg: Config)
    requires Reconciled(before, cfg) && forall x :: Surplus(after, cfg, x) == Surplus(before, cfg, x)
    ensures Reconciled(after, cfg)
  {
    hide Surplus;
  }

  // With one buy open, cancelling another that is filled in part is not safe.
  lemma OpenMeansReserved(w: World, cfg: Config, symbols: set<string>, start: real, resting: string, partial: string)
    requires Inv(w, cfg, symbols, start) && resting in w.orders && partial in w.orders
    requires w.orders[resting].status.Open? && w.orders[partial].status.PartiallyFilled?
    requires w.orders[resting].side.Buy? && w.orders[partial].side.Buy?
    ensures !CancelIsSafe(w, cfg, w.orders[partial])
  {
    hide Sound, Surplus, Universe, Value, BalanceOf;
    CancelReturnsClaim(w, cfg, symbols, start, resting, "");
  }

  lemma OpeningFunds(start: real)
    ensures var a := OpeningAccount("E", start);
            && a.quote == "E" && a.processed == {} && a.positions == map[]
            && a.balances == map["E" := AssetBalance(start, 0.0)]
  {
    hide Observe, Equity;
  }

  // ----- restarting with an order open -----

  function RestAndSave(): seq<Action>
  {
    [Place(RESTING, Limit, Some(THIN_BOOK), "f1"), Persist, RestartFromStore]
  }

  // An order rests, the portfolio is saved, the process starts again: what the order had set aside stays
  // reserved for good.
  lemma RestartCanStrandReserves()
    ensures var z := OpeningSession("E", 1000.0);
            && AllAdmissible(z, FREE, UNIVERSE, RestAndSave())
            && !Reconciled(Run(z, FREE, RestAndSave()).world, FREE)
  {
    hide Execute, Sound, Surplus, Universe, Registered, ScopedOrder, PricedBook, InScope, OpeningAccount, Save, OnDisk,
         CancelClaim, Cancel, Reconciled, NewOrder, Restored;
    OneSymbol();
    ThinBookIsPriced();
    OpeningFunds(1000.0);
    var z := OpeningSession("E", 1000.0);
    AfterResting(z.world);
    var placed := Step(z, FREE, RestAndSave()[0]);
    var saved := Step(placed, FREE, Persist);
    assert RestAndSave()[1..] == [Persist, RestartFromStore];
    assert RestAndSave()[1..][1..] == [RestartFromStore];
    assert RestAndSave()[1..][1..][1..] == [];
    OpeningInv("E", 1000.0, FREE, UNIVERSE);
    StepKeeps(z, FREE, UNIVERSE, 1000.0, RestAndSave()[0]);
    StillReconciled(z.world, placed.world, FREE);
    RestartReconcilesIff(saved, placed.world, FREE, UNIVERSE, 1000.0);
  }

  // ----- a fee rate above one -----

  const TRIPLE := Config(2.0, true, 0.0, true, false)
  const TIGHT_BOOK := OrderBook([Level(100.0, 1.0)], [Level(100.0, 1.0)])
  const BUY_ONE := OrderRequest("buy", "XE", Buy, 1.0, Some(100.0))
  const SELL_ONE := OrderRequest("sell", "XE", Sell, 1.0, Some(100.0))

  function OneUnit(id: string, order: string, side: Side): Fill { Fill(id, order, "XE", side, 1.0, 100.0, 200.0, 0.0) }

  lemma BuyOneFills(a: Account)
    requires a.quote == "E" && BalanceOf(a.balances, "E").available == 300.0 && BalanceOf(a.balances, "E").reserved == 0.0
    ensures Prepare(a, TRIPLE, NewOrder(BUY_ONE, Limit), Some(TIGHT_BOOK), "f1")
            == Fills(Move(a, "E", 300.0), OneUnit("f1", "buy", Buy))
  {
    hide Move;
    OneLevelWalk(100.0, 1.0, 1.0, Buy, 100.0);
    hide SweepBook, Reachable;
  }

  lemma SellOneFills(a: Account)
    requires a.quote == "E" && BalanceOf(a.balances, "X").available == 1.0 && BalanceOf(a.balances, "X").reserved == 0.0
    ensures Prepare(a, TRIPLE, NewOrder(SELL_ONE, Limit), Some(TIGHT_BOOK), "f2")
            == Fills(Move(a, "X", 1.0), OneUnit("f2", "sell", Sell))
  {
    hide Move;
    BaseOfPair();
    hide BaseAsset;
    OneLevelWalk(100.0, 1.0, 1.0, Sell, 100.0);
    hide SweepBook, Reachable;
  }

  // Balances, positions and ids after an executed fill are those after posting it.
  lemma ExecutedLikePosted(w: World, order: Order, account: Account, fill: Fill)
    requires fill.id !in account.processed
    ensures var after := Conclude(w, order, Fills(account, fill)).0.account;
            var posted := Post(account, fill).0;
            && after.balances == posted.balances && after.positions == posted.positions
            && after.processed == posted.processed && after.quote == posted.quote
  {
    hide Observe, Equity, Total, SettlePosition, SettleBalances, Attach;
  }

  // All of a capital of 300 buys one unit, two thirds of it for the fee.
  lemma BoughtOne(a: Account)
    requires a.quote == "E" && a.balances == map["E" := AssetBalance(300.0, 0.0)]
    requires a.positions == map[] && a.processed == {}
    ensures var after := Post(Move(a, "E", 300.0), OneUnit("f1", "buy", Buy)).0;
            && after.quote == "E" && after.processed == {"f1"}
            && after.balances == map["E" := AssetBalance(0.0, 0.0), "X" := AssetBalance(1.0, 0.0)]
            && PositionOf(after.positions, "XE").quantity == 1.0
  {
    hide Post, Move, SettleBalances, SettlePosition, Value, Fill.Gross;
    var held, fill := Move(a, "E", 300.0), OneUnit("f1", "buy", Buy);
    MovedAll(a);
    MoveKeepsPositions(a, "E", 300.0);
    PostedParts(held, fill);
    BoughtBalances(held);
    BoughtPosition(fill);
  }

  lemma MovedAll(a: Account)
    requires a.balances == map["E" := AssetBalance(300.0, 0.0)]
    ensures Move(a, "E", 300.0).balances == map["E" := AssetBalance(0.0, 300.0)] && Move(a, "E", 300.0).quote == a.quote
  {
  }

  lemma PostedParts(a: Account, fill: Fill)
    requires fill.id !in a.processed
    ensures var after := Post(a, fill).0;
            && after.balances == SettleBalances(a.balances, a.quote, fill) && after.quote == a.quote
            && after.positions == a.positions[fill.symbol := SettlePosition(PositionOf(a.positions, fill.symbol), fill).0]
            && after.processed == a.processed + {fill.id}
  {
    hide SettleBalances, SettlePosition;
  }

  lemma BoughtBalances(a: Account)
    requires a.quote == "E" && a.balances == map["E" := AssetBalance(0.0, 300.0)]
    ensures SettleBalances(a.balances, "E", OneUnit("f1", "buy", Buy))
            == map["E" := AssetBalance(0.0, 0.0), "X" := AssetBalance(1.0, 0.0)]
  {
    BaseOfPair();
    OneUnitCosts();
    var fill := OneUnit("f1", "buy", Buy);
    assert fill.symbol == "XE" && fill.side.Buy? && fill.quantity == 1.0;
    hide BaseAsset, OneUnit, Fill.Gross, Value;
    assert Pay(AssetBalance(0.0, 300.0), 300.0) == AssetBalance(0.0, 0.0);
    hide Pay;
    var after := SettleBalances(a.balances, "E", fill);
    assert "E" != "X";
    assert after.Keys == {"E", "X"};
    assert after["E"] == AssetBalance(0.0, 0.0);
    assert after["X"] == AssetBalance(1.0, 0.0);
  }

  lemma OneUnitCosts()
    ensures OneUnit("f1", "buy", Buy).Gross() + OneUnit("f1", "buy", Buy).fee == 300.0
  {
  }

  lemma BoughtPosition(fill: Fill)
    requires fill == OneUnit("f1", "buy", Buy)
    ensures SettlePosition(NO_POSITION, fill).0.quantity == 1.0
  {
    hide Value;
  }

  lemma SellingOneOverdraws(a: Account)
    requires a.quote == "E" && a.processed == {"f1"} && PositionOf(a.positions, "XE").quantity == 1.0
    requires a.balances == map["E" := AssetBalance(0.0, 0.0), "X" := AssetBalance(1.0, 0.0)]
    ensures !Solvent(Post(Move(a, "X", 1.0), OneUnit("f2", "sell", Sell)).0)
  {
    BaseOfPair();
    hide BaseAsset, Post;
    assert "E" != "X";
    var held := Move(a, "X", 1.0);
    assert held.balances == map["E" := AssetBalance(0.0, 0.0), "X" := AssetBalance(0.0, 1.0)];
    SaleStaysSolventIff(held, OneUnit("f2", "sell", Sell));
  }

  // A fee rate of two is a setting the program accepts: buying one unit and selling it again leaves the
  // quote balance below zero.
  lemma FeeCanOverdraw()
    ensures var w := OpeningWorld("E", 300.0);
            var bought := Execute(w, TRIPLE, NewOrder(BUY_ONE, Limit), Some(TIGHT_BOOK), "f1").0;
            var sold := Execute(bought, TRIPLE, NewOrder(SELL_ONE, Limit), Some(TIGHT_BOOK), "f2").0;
            Solvent(bought.account) && !Solvent(sold.account)
  {
    hide Prepare, Post, Conclude, Move, OneUnit;
    OpeningFunds(300.0);
    var w := OpeningWorld("E", 300.0);
    BuyOneFills(w.account);
    UnitIds();
    MoveKeepsPositions(w.account, "E", 300.0);
    ExecutedLikePosted(w, NewOrder(BUY_ONE, Limit), Move(w.account, "E", 300.0), OneUnit("f1", "buy", Buy));
    BoughtOne(w.account);
    var bought := Execute(w, TRIPLE, NewOrder(BUY_ONE, Limit), Some(TIGHT_BOOK), "f1").0;
    SellOneFills(bought.account);
    MoveKeepsPositions(bought.account, "X", 1.0);
    ExecutedLikePosted(bought, NewOrder(SELL_ONE, Limit), Move(bought.account, "X", 1.0), OneUnit("f2", "sell", Sell));
    SellingOneOverdraws(bought.account);
    var sold := Execute(bought, TRIPLE, NewOrder(SELL_ONE, Limit), Some(TIGHT_BOOK), "f2").0;
    SolventByBalances(sold.account, Post(Move(bought.account, "X", 1.0), OneUnit("f2", "sell", Sell)).0);
  }

  lemma UnitIds()
    ensures OneUnit("f1", "buy", Buy).id == "f1" && OneUnit("f2", "sell", Sell).id == "f2" && "f1" != "f2"
  {
  }

  lemma SolventByBalances(a: Account, b: Account)
    requires a.balances == b.balances
    ensures Solvent(a) <==> Solvent(b)
  {
  }

  // ----- an approved opportunity -----

  const RULES := RiskSettings(1000.0, 100.0, 20.0, 5, 100.0, 10.0, 10.0, 5.0, 5.0, 0.0, 1.0, 1000.0, 1000.0, 5.0, 0.0, 1, 3, true)
  const CHARGED := Config(0.01, true, 0.0, true, false)
  const DEEP_BOOK := OrderBook([], [Level(100.0, 10.0)])
  const CALM := RiskContext(true, None, 0.0, None, None, None, None)

  // Two units at 100, which is all that a fifth of a capital of 1000 allows.
  function Offer(at: real, order: string): Opportunity
  {
    Opportunity("offer", "XE", Buy, 2.0, 100.0, None, true, 1.0, None, Some(DEEP_BOOK), CALM, order, order, at, at, 0)
  }

  lemma OfferScope(at: real, order: string)
    ensures Configured(RULES) && InScope(CHARGED) && PricedBook(DEEP_BOOK)
    ensures Offer(at, order).id == "offer" && Offer(at, order).side.Buy? && Offer(at, order).last.None?
    ensures Offer(at, order).quantity == 2.0 && Offer(at, order).entryPrice == 100.0 && Offer(at, order).symbol in UNIVERSE
    ensures Offer(at, order).book == Some(DEEP_BOOK) && Offer(at, order).stamped == at == Offer(at, order).checked
    ensures Offer(at, order).orderId == order == Offer(at, order).fillId
  {
  }

  lemma OpeningShows()
    ensures var shown := OpeningPlant("E", 1000.0).desk.snapshot;
            && shown.equity == 1000.0 && shown.recordedPeak == Some(1000.0) && shown.dailyRealizedPnl == 0.0
            && shown.openPositions == 0 && shown.exposure == 0.0
  {
    hide Value;
    var a := OpeningAccount("E", 1000.0);
    var opening := Account("E", map["E" := AssetBalance(1000.0, 0.0)], map[], NO_STATS.(peakEquity := 1000.0), map[], {});
    TotalZero({}, MarketValues(map[], map[]));
    assert MarketValues(map[], map[]) == map[];
    assert Equity(opening) == 1000.0;
    ObserveKeepsEquity(opening);
    TotalZero({}, Exposures(map[]));
    assert Exposures(map[]) == map[] && OpenSymbols(map[]) == {};
    assert a == ObserveEquity(opening);
  }

  // The gate approves it at any time, as long as it is new.
  lemma OfferIsApproved(shown: PortfolioSnapshot, at: real, order: string)
    requires shown.equity == 1000.0 && shown.recordedPeak == Some(1000.0) && shown.dailyRealizedPnl == 0.0
    requires shown.openPositions == 0 && shown.exposure == 0.0
    ensures var o := Offer(at, order);
            var decision := Decide(FRESH_GATE, RULES, o.Asked(), shown, o.context, at, at, 0).1;
            decision.Approved? && decision.quantity == 2.0
  {
    var o := Offer(at, order);
    assert FirstObjection(RULES, o.Asked(), shown, o.context) == None;
    assert Limits(RULES, o.Asked(), shown).breached == [];
    assert Limits(RULES, o.Asked(), shown).allowedQuantity == 2.0;
    hide FirstObjection, Limits, WarnedSwitch, CurrentConditions, DailyLossLimit;
  }

  lemma OfferFills(a: Account, order: string)
    requires a.quote == "E" && BalanceOf(a.balances, "E").available >= 202.0
    ensures var request := OrderRequest(order, "XE", Buy, 2.0, Some(100.0));
            var stage := Prepare(a, CHARGED, NewOrder(request, Limit), Some(DEEP_BOOK), order);
            stage.Fills? && stage.fill.side.Buy? && stage.fill.Gross() == 200.0 && stage.fill.fee == 2.0
  {
    hide Move, Adjust;
    OneLevelWalk(100.0, 10.0, 2.0, Buy, 100.0);
    hide SweepBook, Reachable;
  }

  // Considered at the opening of a plant, the offer is executed: the desk afterwards.
  lemma OfferIsExecuted(at: real, order: string)
    ensures var d, o := OpeningPlant("E", 1000.0).desk, Offer(at, order);
            var (next, outcome) := Consider(d, RULES, CHARGED, o);
            && Scoped(d, UNIVERSE, o) && Approves(d.gate, RULES, Question(d, o))
            && outcome.Executed? && outcome.decision.Approved? && outcome.decision.quantity == 2.0
            && Exposure(next.world.account.positions) == 202.0
  {
    hide Consider, Approves, Exposure, OpenSymbols, Inv, Configured, InScope, PricedBook, Universe, OnDisk, Audited,
         OpeningAccount, SnapshotOf, Offer, Decide, Prepare, ShareOf;
    OfferScope(at, order);
    OneSymbol();
    OpeningShows();
    OpeningFunds(1000.0);
    OpeningFits("E", 1000.0, RULES, CHARGED, UNIVERSE);
    var d, o := OpeningPlant("E", 1000.0).desk, Offer(at, order);
    OfferIsApproved(d.snapshot, at, order);
    ApprovesOffer(d, at, order);
    ApprovalKeepsCaps(d, RULES, CHARGED, UNIVERSE, 1000.0, o, 0, 0.0);
    OfferExposure(d, at, order);
  }

  lemma ApprovesOffer(d: Desk, at: real, order: string)
    requires d.gate == FRESH_GATE
    requires var o := Offer(at, order);
             var decision := Decide(FRESH_GATE, RULES, o.Asked(), d.snapshot, o.context, at, at, 0).1;
             decision.Approved? && decision.quantity == 2.0
    ensures Approves(d.gate, RULES, Question(d, Offer(at, order)))
  {
    hide Decide;
  }

  lemma OfferExposure(d: Desk, at: real, order: string)
    requires Inv(d.world, CHARGED, UNIVERSE, 1000.0) && d.gate == FRESH_GATE
    requires d.world.account.quote == "E" && d.world.account.positions == map[] && d.world.account.processed == {}
    requires BalanceOf(d.world.account.balances, "E").available == 1000.0 && d.world.orders == map[]
    requires var o := Offer(at, order);
             var decision := Decide(FRESH_GATE, RULES, o.Asked(), d.snapshot, o.context, at, at, 0).1;
             decision.Approved? && decision.quantity == 2.0
    ensures Exposure(Consider(d, RULES, CHARGED, Offer(at, order)).0.world.account.positions) == 202.0
  {
    hide Inv, Decide, Execute, Prepare, InScope, PricedBook, OpenSymbols, Refresh, Universe, RULES, CHARGED;
    OfferScope(at, order);
    var o := Offer(at, order);
    var request := OrderRequest(order, "XE", Buy, 2.0, Some(100.0));
    OfferFills(d.world.account, order);
    ExecutedCaps(d.world, CHARGED, UNIVERSE, 1000.0, NewOrder(request, Limit), DEEP_BOOK, order);
    NoExposure();
    var world := Dispatch(d.world, CHARGED, o, 2.0).0;
    var gate := Decide(d.gate, RULES, o.Asked(), d.snapshot, o.context, o.checked, o.stamped, o.now).0;
    RefreshShows(Desk(world, gate, d.snapshot), CHARGED, UNIVERSE, 1000.0);
  }

  lemma NoExposure()
    ensures Exposure(map[]) == 0.0
  {
    TotalZero({}, Exposures(map[]));
    assert Exposures(map[]) == map[];
  }

  // The exposure cap is passed by an approved opportunity: 202 where 200 are allowed, because of the fee.
  lemma FeeCanPassCap()
    ensures var d, o := OpeningPlant("E", 1000.0).desk, Offer(0.0, "a");
            var (next, outcome) := Consider(d, RULES, CHARGED, o);
            && Approves(d.gate, RULES, Question(d, o)) && outcome.Executed?
            && Exposure(next.world.account.positions) > ShareOf(d.snapshot.equity, RULES.maxExposurePct)
  {
    hide Consider, Approves, Exposure, Offer, OpeningPlant;
    OfferIsExecuted(0.0, "a");
    OpeningShows();
    assert ShareOf(1000.0, 20.0) == 200.0;
  }

  // ----- calls the gate does not see -----

  function AskOnceReplayOnce(): seq<Task>
  {
    [Deal(Offer(0.0, "a")), Manual(Offer(1.0, "b"), Ruling("offer", Approved(2.0, 100.0, 0.0, [])), 1.0)]
  }

  lemma ReplayReaches()
    ensures Reaches(Offer(1.0, "b"), Ruling("offer", Approved(2.0, 100.0, 0.0, [])))
    ensures Clocked(AskOnceReplayOnce())
  {
  }

  // The decision that was just used is used again one second later, for an order of its own: two orders within
  // a minute under a setting that allows one.
  lemma ReplayCanBreakRate()
    ensures var tasks := AskOnceReplayOnce();
            var log := Log(OpeningPlant("E", 1000.0), RULES, CHARGED, tasks, |tasks|);
            && Clocked(tasks)
            && CountIn(Times(log), 0.0) == 2 > RULES.maxTradesPerMinute
            && CountIn(Only(log, true), 0.0) == 1
  {
    hide Consider, Approves, OpeningPlant, Offer, ExecuteApproved, Reaches, Clocked;
    var tasks, p := AskOnceReplayOnce(), OpeningPlant("E", 1000.0);
    OfferScope(0.0, "a");
    OfferIsExecuted(0.0, "a");
    ReplayReaches();
    var first := Log(p, RULES, CHARGED, tasks, 1);
    NothingLogged(p, tasks);
    assert first == [Handover(0.0, true)];
    assert Log(p, RULES, CHARGED, tasks, 2) == first + [Handover(1.0, false)];
    TwoWithinAMinute(true, false);
  }

  lemma NothingLogged(p: Plant, tasks: seq<Task>)
    ensures Log(p, RULES, CHARGED, tasks, 0) == []
  {
  }

  lemma TwoWithinAMinute(one: bool, other: bool)
    ensures var log := [Handover(0.0, one), Handover(1.0, other)];
            && CountIn(Times(log), 0.0) == 2
            && CountIn(Only(log, true), 0.0) == (if one then 1 else 0) + (if other then 1 else 0)
  {
    var log := [Handover(0.0, one), Handover(1.0, other)];
    assert Times(log) == [0.0, 1.0];
    assert [0.0, 1.0][..1] == [0.0] && [0.0][..0] == [];
    CountOneMore([0.0], 1.0, 0.0);
    CountOneMore([], 0.0, 0.0);
    assert [] + [0.0] == [0.0] && [0.0] + [1.0] == [0.0, 1.0];
    OnlyOneMore([Handover(0.0, one)], Handover(1.0, other), true);
    OnlyOneMore([], Handover(0.0, one), true);
    assert [] + [Handover(0.0, one)] == [Handover(0.0, one)];
    assert [Handover(0.0, one)] + [Handover(1.0, other)] == log;
    CountOneMore([], 1.0, 0.0);
    assert [] + [1.0] == [1.0];
  }

  function AskRebootAsk(): seq<Task>
  {
    [Deal(Offer(0.0, "a")), Reboot(true), Deal(Offer(1.0, "b"))]
  }

  lemma RebootIsClocked()
    ensures Clocked(AskRebootAsk())
  {
  }

  // The first two entries of what was handed over, and the plant after them.
  lemma AskedAndRebooted()
    ensures var tasks, p := AskRebootAsk(), OpeningPlant("E", 1000.0);
            && Log(p, RULES, CHARGED, tasks, 2) == [Handover(0.0, false)]
            && PlantAfter(p, RULES, CHARGED, tasks, 2) == p
  {
    hide Consider, Approves, OpeningPlant, Offer, Restored, SnapshotOf;
    var tasks, p := AskRebootAsk(), OpeningPlant("E", 1000.0);
    OfferScope(0.0, "a");
    OfferIsExecuted(0.0, "a");
    NothingLogged(p, tasks);
    assert Log(p, RULES, CHARGED, tasks, 1) == [Handover(0.0, true)];
    assert PlantAfter(p, RULES, CHARGED, tasks, 1) == Work(p, RULES, CHARGED, tasks[0]);
    RebootStartsOver(Work(p, RULES, CHARGED, tasks[0]));
  }

  // A new risk engine has no record of the old one's approvals: again two orders within a minute.
  lemma RebootCanBreakRate()
    ensures var tasks := AskRebootAsk();
            var log := Log(OpeningPlant("E", 1000.0), RULES, CHARGED, tasks, |tasks|);
            && Clocked(tasks)
            && CountIn(Times(log), 0.0) == 2 > RULES.maxTradesPerMinute
  {
    hide Consider, Approves, OpeningPlant, Offer, Clocked, Work, PlantAfter, Times, Only, CountIn;
    var tasks, p := AskRebootAsk(), OpeningPlant("E", 1000.0);
    AskedAndRebooted();
    OfferScope(1.0, "b");
    OfferIsExecuted(1.0, "b");
    RebootIsClocked();
    assert Log(p, RULES, CHARGED, tasks, 3) == [Handover(0.0, false)] + [Handover(1.0, true)]
        == [Handover(0.0, false), Handover(1.0, true)];
    TwoWithinAMinute(false, true);
  }

  // As long as nothing was saved, a restart is back at the opening.
  lemma RebootStartsOver(p: Plant)
    requires p.disk == OpeningPlant("E", 1000.0).disk
    ensures Work(p, RULES, CHARGED, Reboot(true)) == OpeningPlant("E", 1000.0)
  {
    hide Restored, SnapshotOf, OpeningAccount, Save, Inv, Universe, OnDisk, Reconciled;
    OneSymbol();
    OfferScope(0.0, "a");
    OpeningInv("E", 1000.0, CHARGED, UNIVERSE);
  }

  // What a covered buy leaves available: everything but its cost.
  lemma BuyLeavesAvailable(w: World, cfg: Config, symbols: set<string>, start: real,
                           order: Order, book: OrderBook, fillId: string)
    requires Inv(w, cfg, symbols, start) && ScopedOrder(order, symbols) && PricedBook(book) && order.side.Buy?
    requires fillId !in w.account.processed && Prepare(w.account, cfg, order, Some(book), fillId).Fills?
    ensures var after := Execute(w, cfg, order, Some(book), fillId).0;
            var fill := Prepare(w.account, cfg, order, Some(book), fillId).fill;
            && BalanceOf(after.account.balances, w.account.quote).available
               == BalanceOf(w.account.balances, w.account.quote).available - (fill.Gross() + fill.fee)
            && after.account.processed == w.account.processed + {fillId}
            && after.orders.Keys == w.orders.Keys + {order.id}
  {
    hide Sound, PricedBook, ScopedOrder, InScope, Registered, Surplus, WellFormed, Prepare, Post, Move, Value, Universe,
         Fill.Gross, Conclude, BaseAsset;
    ScopedFacts(order, symbols);
    PlacementIsCovered(w.account, cfg, order, book, fillId, symbols, start);
    var Fills(account, fill) := Prepare(w.account, cfg, order, Some(book), fillId);
    var (asset, amount) := Claim(w.account.quote, cfg, order);
    assert asset == w.account.quote;
    hide Claim;
    MovedAvailable(w.account, asset, Used(fill));
    ExecutedLikePosted(w, order, account, fill);
    FilledOrders(w, order, Prepare(w.account, cfg, order, Some(book), fillId));
    AttachKeepsId(order, fill);
    BaseIsNotQuote(fill.symbol, symbols, w.account.quote);
    CoveredBuySpendsReserved(account, fill);
    PostedParts(account, fill);
  }

  lemma MovedAvailable(a: Account, asset: string, amount: real)
    ensures var after := Move(a, asset, amount);
            && BalanceOf(after.balances, asset).available == BalanceOf(a.balances, asset).available - amount
            && after.quote == a.quote && after.processed == a.processed
  {
  }

  lemma AttachKeepsId(order: Order, fill: Fill)
    ensures Attach(order.(status := Open), fill).id == order.id
  {
    hide FillsNotional;
  }

  lemma BaseIsNotQuote(symbol: string, symbols: set<string>, quote: string)
    requires Universe(symbols, quote) && symbol in symbols
    ensures BaseAsset(symbol, quote) != quote
  {
    hide BaseAsset;
  }

  lemma CoveredBuySpendsReserved(a: Account, fill: Fill)
    requires fill.side.Buy? && Covered(a, fill) && BaseAsset(fill.symbol, a.quote) != a.quote && fill.id !in a.processed
    ensures BalanceOf(Post(a, fill).0.balances, a.quote).available == BalanceOf(a.balances, a.quote).available
  {
    hide BaseAsset, SettleBalances, SettlePosition, Fill.Gross;
    PostedBalances(a, fill, a.quote);
  }

  // The opening desk after the offer.
  lemma AfterOffer()
    ensures var p := OpeningPlant("E", 1000.0);
            var next := Work(p, RULES, CHARGED, AskOnceReplayOnce()[0]);
            && PlantInv(next, RULES, CHARGED, UNIVERSE, 1000.0) && next.desk.world.account.quote == "E"
            && BalanceOf(next.desk.world.account.balances, "E").available == 798.0
            && "b" !in next.desk.world.account.processed && "b" !in next.desk.world.orders
            && Exposure(next.desk.world.account.positions) == 202.0
            && Fits(p, CHARGED, UNIVERSE, AskOnceReplayOnce()[0])
  {
    hide Consider, Inv, OnDisk, OpeningAccount, SnapshotOf, Offer, Audited, Configured, InScope, Universe, Exposure, Scoped,
         OpenSymbols, Capped, Prepare, Slackened;
    OfferScope(0.0, "a");
    OneSymbol();
    OpeningFunds(1000.0);
    OpeningShows();
    OpeningFits("E", 1000.0, RULES, CHARGED, UNIVERSE);
    OfferIsExecuted(0.0, "a");
    var p := OpeningPlant("E", 1000.0);
    WorkKeeps(p, RULES, CHARGED, UNIVERSE, 1000.0, AskOnceReplayOnce()[0], NO_SLACK);
    OfferIsApproved(p.desk.snapshot, 0.0, "a");
    OfferLeaves(p.desk);
  }

  lemma OfferLeaves(d: Desk)
    requires Inv(d.world, CHARGED, UNIVERSE, 1000.0) && d.gate == FRESH_GATE
    requires d.world.account.quote == "E" && d.world.account.processed == {} && d.world.orders == map[]
    requires BalanceOf(d.world.account.balances, "E").available == 1000.0
    requires var o := Offer(0.0, "a");
             var decision := Decide(FRESH_GATE, RULES, o.Asked(), d.snapshot, o.context, 0.0, 0.0, 0).1;
             decision.Approved? && decision.quantity == 2.0
    ensures var next := Consider(d, RULES, CHARGED, Offer(0.0, "a")).0;
            && BalanceOf(next.world.account.balances, "E").available == 798.0 && next.world.account.quote == "E"
            && "b" !in next.world.account.processed && "b" !in next.world.orders
  {
    hide Inv, Decide, Execute, Prepare, InScope, PricedBook, OpenSymbols, Exposure, Refresh, Universe, RULES, CHARGED;
    OfferScope(0.0, "a");
    var o := Offer(0.0, "a");
    var request := OrderRequest("a", "XE", Buy, 2.0, Some(100.0));
    OfferFills(d.world.account, "a");
    ExecutedCaps(d.world, CHARGED, UNIVERSE, 1000.0, NewOrder(request, Limit), DEEP_BOOK, "a");
    BuyLeavesAvailable(d.world, CHARGED, UNIVERSE, 1000.0, NewOrder(request, Limit), DEEP_BOOK, "a");
    var world := Dispatch(d.world, CHARGED, o, 2.0).0;
    var gate := Decide(d.gate, RULES, o.Asked(), d.snapshot, o.context, o.checked, o.stamped, o.now).0;
    RefreshShows(Desk(world, gate, d.snapshot), CHARGED, UNIVERSE, 1000.0);
    assert "a" != "b";
  }

  // And the replay takes the exposure past what the approval allowed: 404 where, with the fee, 202 were.
  lemma ReplayCanPassCap()
    ensures var tasks, p := AskOnceReplayOnce(), OpeningPlant("E", 1000.0);
            && AllFit(p, RULES, CHARGED, UNIVERSE, tasks)
            && Exposure(PlantAfter(p, RULES, CHARGED, tasks, 2).desk.world.account.positions) == 404.0
            && Allowance(RULES, CHARGED, p.desk.snapshot, Offer(0.0, "a")) == 202.0
  {
    hide Consider, Inv, OnDisk, OpeningPlant, Audited, Configured, InScope, Universe, Exposure, OpenSymbols,
         ExecuteApproved, Prepare, OpensPosition, PricedBook, ManualCost;
    var tasks, p := AskOnceReplayOnce(), OpeningPlant("E", 1000.0);
    AfterOffer();
    OfferScope(1.0, "b");
    OpeningShows();
    ReplayReaches();
    var next := PlantAfter(p, RULES, CHARGED, tasks, 1);
    assert next == Work(p, RULES, CHARGED, tasks[0]);
    OfferFills(next.desk.world.account, "b");
    ReplayScoped(next.desk);
    ManualCall(next.desk, CHARGED, UNIVERSE, 1000.0, Offer(1.0, "b"), Ruling("offer", Approved(2.0, 100.0, 0.0, [])));
    ReplayRequest();
    assert ShareOf(1000.0, 20.0) == 200.0;
  }

  lemma ReplayScoped(d: Desk)
    requires "b" !in d.world.orders && "b" !in d.world.account.processed
    ensures Scoped(d, UNIVERSE, Offer(1.0, "b"))
  {
  }

  lemma ReplayRequest()
    ensures Offer(1.0, "b").Request(2.0) == OrderRequest("b", "XE", Buy, 2.0, Some(100.0))
  {
  }
}
