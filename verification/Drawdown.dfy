// The drawdown statistics are kept in one streaming pass (`_update_drawdown`); here they are shown
// to equal the textbook definition over all pairs of observed equities, in every reachable state.

module Drawdown {
  import opened Prelude
  import opened DepthWalk
  import opened Ledger
  import opened LedgerFacts
  import opened PaperExecution
  import opened PlacementFacts
  import opened Store
  import opened LedgerRuns

  // The part of the statistics that watches equity.
  datatype Curve = Curve(peak: real, current: real, maximum: real)

  function CurveOf(s: Stats): Curve { Curve(s.peakEquity, s.currentDrawdown, s.maximumDrawdown) }

  function See(c: Curve, equity: real): Curve
  {
    CurveOf(Observe(NO_STATS.(peakEquity := c.peak, currentDrawdown := c.current, maximumDrawdown := c.maximum), equity))
  }

  function Watch(c: Curve, equities: seq<real>): Curve
    decreases |equities|
  {
    if equities == [] then c else Watch(See(c, equities[0]), equities[1..])
  }

  // The loss from a peak to a later trough, as a fraction of the peak.
  function Loss(peak: real, trough: real): real
    requires peak > 0.0
  {
    (peak - trough) / peak
  }

  // What the three numbers should be for a trail of observed equities: the highest, the loss of the last
  // against it, and the worst loss over all pairs of an earlier and a later observation.
  ghost predicate Describes(c: Curve, trail: seq<real>)
  {
    && trail != [] && trail[0] > 0.0
    && (forall i :: 0 <= i < |trail| ==> 0.0 <= trail[i] <= c.peak)
    && (exists i :: 0 <= i < |trail| && trail[i] == c.peak)
    && c.peak > 0.0
    && c.current == Loss(c.peak, trail[|trail| - 1])
    && (forall i, j :: 0 <= i <= j < |trail| && trail[i] > 0.0 ==> Loss(trail[i], trail[j]) <= c.maximum)
    && (exists i, j :: 0 <= i <= j < |trail| && trail[i] > 0.0 && Loss(trail[i], trail[j]) == c.maximum)
  }

  // A drawdown stays within one exactly as long as the equity does not fall below zero.
  lemma LossWithinOneIff(peak: real, trough: real)
    requires peak > 0.0
    ensures Loss(peak, trough) <= 1.0 <==> trough >= 0.0
  {
    assert Loss(peak, trough) * peak == peak - trough;
  }

  lemma LossBounds(peak: real, trough: real)
    requires peak > 0.0 && 0.0 <= trough
    ensures Loss(peak, trough) <= 1.0
    ensures trough <= peak ==> 0.0 <= Loss(peak, trough)
    ensures trough >= peak ==> Loss(peak, trough) <= 0.0
  {
    assert Loss(peak, trough) * peak == peak - trough;
  }

  lemma LossAgainstHigher(low: real, high: real, trough: real)
    requires 0.0 < low <= high && 0.0 <= trough
    ensures Loss(low, trough) <= Loss(high, trough)
  {
    var x, y := 1.0 - Loss(low, trough), 1.0 - Loss(high, trough);
    LossComplement(low, trough);
    LossComplement(high, trough);
    LossBounds(high, trough);
    hide Loss;
    assert y * low <= y * high;
    CancelFactor(y, x, low);
  }

  lemma LossComplement(peak: real, trough: real)
    requires peak > 0.0
    ensures (1.0 - Loss(peak, trough)) * peak == trough
  {
    assert Loss(peak, trough) * peak == peak - trough;
  }

  lemma CancelFactor(small: real, large: real, factor: real)
    requires 0.0 < factor && small * factor <= large * factor
    ensures small <= large
  {
  }

  lemma SeeExtends(c: Curve, trail: seq<real>, equity: real)
    requires Describes(c, trail) && equity >= 0.0
    ensures Describes(See(c, equity), trail + [equity])
  {
    var next, seen, n := See(c, equity), trail + [equity], |trail|;
    SeenCurve(c, equity);
    LossBounds(next.peak, equity);
    hide Loss, See;
    forall i, j | 0 <= i <= j < |seen| && seen[i] > 0.0 ensures Loss(seen[i], seen[j]) <= next.maximum {
      if j < n {
        assert seen[i] == trail[i] && seen[j] == trail[j];
      } else {
        assert seen[i] <= next.peak by { if i < n { assert seen[i] == trail[i]; } }
        LossAgainstHigher(seen[i], next.peak, equity);
      }
    }
    var top :| 0 <= top < n && trail[top] == c.peak;
    if equity > c.peak {
      assert seen[n] == next.peak;
    } else {
      assert seen[top] == next.peak;
    }
    if next.maximum == c.maximum {
      var i, j :| 0 <= i <= j < n && trail[i] > 0.0 && Loss(trail[i], trail[j]) == c.maximum;
      assert seen[i] == trail[i] && seen[j] == trail[j];
    } else {
      var at := if equity > c.peak then n else top;
      assert Loss(seen[at], seen[n]) == next.maximum;
    }
  }

  lemma SeenCurve(c: Curve, equity: real)
    requires c.peak > 0.0 && 0.0 <= equity
    ensures var next := See(c, equity);
            && next.peak == Max(c.peak, equity) > 0.0
            && next.current == Loss(next.peak, equity)
            && next.maximum == Max(c.maximum, next.current)
  {
    LossBounds(Max(c.peak, equity), equity);
  }

  lemma {:induction false} WatchDescribes(c: Curve, trail: seq<real>, equities: seq<real>)
    requires Describes(c, trail)
    requires forall i :: 0 <= i < |equities| ==> equities[i] >= 0.0
    ensures Describes(Watch(c, equities), trail + equities)
    decreases |equities|
  {
    hide Describes, See;
    if equities == [] {
      assert trail + equities == trail;
    } else {
      SeeExtends(c, trail, equities[0]);
      WatchDescribes(See(c, equities[0]), trail + [equities[0]], equities[1..]);
      assert trail + [equities[0]] + equities[1..] == trail + equities;
    }
  }

  // On non-negative equities the three numbers are fractions in order.
  lemma DescribedIsOrdered(c: Curve, trail: seq<real>)
    requires Describes(c, trail)
    ensures 0.0 <= c.current <= c.maximum <= 1.0
  {
    var last := |trail| - 1;
    LossBounds(c.peak, trail[last]);
    var top :| 0 <= top < |trail| && trail[top] == c.peak;
    assert Loss(trail[top], trail[last]) <= c.maximum;
    var i, j :| 0 <= i <= j < |trail| && trail[i] > 0.0 && Loss(trail[i], trail[j]) == c.maximum;
    LossBounds(trail[i], trail[j]);
  }

  // ----- along a run -----

  // The equities `_update_drawdown` gets to see in one action on the executor's world: after the fill, and
  // again after the fill's price has become the mark.
  ghost function SeenBy(w: World, cfg: Config, action: Action): seq<real>
  {
    match action
    case Place(request, orderType, book, fillId) =>
      (match Prepare(w.account, cfg, NewOrder(request, orderType), book, fillId)
       case Fills(account, fill) =>
         var filled := ApplyFill(account, fill);
         (if fill.id in account.processed then [] else [Equity(filled)])
         + [Equity(SetMark(filled, fill.symbol, fill.price))]
       case _ => [])
    case MarkPrice(symbol, price) => [Equity(SetMark(w.account, symbol, price))]
    case Redeliver(fill) => if fill.id in w.account.processed then [] else [Equity(ApplyFill(w.account, fill))]
    case CancelOrder(_, _) => []
    case Inspect => [Equity(ObserveEquity(MarkToMarket(w.account)))]
    case Persist => []
    case RestartFromStore => []
  }

  // The observations the statistics in memory rest on, and those the saved statistics rest on.
  datatype Trails = Trails(live: seq<real>, kept: seq<real>)

  // A save keeps the trail so far; a restart goes back to the kept one and looks once more.
  ghost function Observed(t: Trails, z: Session, cfg: Config, action: Action): Trails
  {
    match action
    case Persist => t.(kept := t.live)
    case RestartFromStore => t.(live := t.kept + [Equity(AsAccount(z.disk))])
    case _ => t.(live := t.live + SeenBy(z.world, cfg, action))
  }

  ghost function SeenAlong(t: Trails, z: Session, cfg: Config, actions: seq<Action>): Trails
    decreases |actions|
  {
    if actions == [] then t
    else SeenAlong(Observed(t, z, cfg, actions[0]), Step(z, cfg, actions[0]), cfg, actions[1..])
  }

  lemma {:induction false} WatchConcat(c: Curve, a: seq<real>, b: seq<real>)
    ensures Watch(c, a + b) == Watch(Watch(c, a), b)
    decreases |a|
  {
    hide See;
    if a == [] {
      assert a + b == b;
    } else {
      WatchConcat(See(c, a[0]), a[1..], b);
      assert (a + b)[1..] == a[1..] + b;
    }
  }

  lemma ObserveSees(a: Account)
    ensures CurveOf(ObserveEquity(a).stats) == See(CurveOf(a.stats), Equity(ObserveEquity(a)))
  {
    ObserveKeepsEquity(a);
    hide Equity;
  }

  lemma MarkSees(a: Account, symbol: string, price: real)
    ensures CurveOf(SetMark(a, symbol, price).stats) == See(CurveOf(a.stats), Equity(SetMark(a, symbol, price)))
  {
    hide Equity, Observe, See, TotalOver;
    ObserveSees(MarkToMarket(a.(marks := a.marks[symbol := price])));
    hide ObserveEquity;
  }

  lemma InspectSees(a: Account)
    ensures var after := ObserveEquity(MarkToMarket(a)); CurveOf(after.stats) == See(CurveOf(a.stats), Equity(after))
  {
    hide Equity, Observe, See, TotalOver, ObserveEquity;
    ObserveSees(MarkToMarket(a));
  }

  lemma FillSees(a: Account, fill: Fill)
    requires fill.id !in a.processed
    ensures CurveOf(ApplyFill(a, fill).stats) == See(CurveOf(a.stats), Equity(ApplyFill(a, fill)))
  {
    hide Equity, Observe, See, TotalOver, ObserveEquity, SettlePosition, SettleBalances;
    ObserveSees(MarkToMarket(Post(a, fill).0));
  }

  lemma WatchOne(c: Curve, e: real)
    ensures Watch(c, [e]) == See(c, e)
  {
    hide See;
    assert [e][1..] == [];
  }

  lemma PreparedStats(a: Account, cfg: Config, order: Order, book: Option<OrderBook>, fillId: string)
    ensures var stage := Prepare(a, cfg, order, book, fillId);
            && stage.account.stats == a.stats
            && (stage.Fills? ==> stage.fill.symbol == order.symbol)
  {
    hide Value, SimulateFill, ReservationNeeded, Marketable;
  }

  lemma AdvanceWatches(w: World, cfg: Config, action: Action)
    ensures CurveOf(Advance(w, cfg, action).account.stats) == Watch(CurveOf(w.account.stats), SeenBy(w, cfg, action))
  {
    hide See, Equity, Observe, SetMark, ApplyFill, Prepare, Attach, Cancel, SettlePosition, SettleBalances,
         Watch, ObserveEquity, MarkToMarket;
    var c := CurveOf(w.account.stats);
    NothingWatched(c);
    match action
    case Place(request, orderType, book, fillId) =>
      var order := NewOrder(request, orderType);
      PreparedStats(w.account, cfg, order, book, fillId);
      var stage := Prepare(w.account, cfg, order, book, fillId);
      if stage.Fills? { PlacedWatches(w, cfg, order, stage.account, stage.fill, book, fillId); }
    case MarkPrice(symbol, price) =>
      MarkSees(w.account, symbol, price);
      WatchOne(c, Equity(SetMark(w.account, symbol, price)));
    case Redeliver(fill) =>
      if fill.id !in w.account.processed {
        FillSees(w.account, fill);
        WatchOne(c, Equity(ApplyFill(w.account, fill)));
      }
    case CancelOrder(id, reason) =>
      if id in w.orders { CancelStats(w, cfg, id, reason); }
    case Inspect =>
      InspectSees(w.account);
      WatchOne(c, Equity(ObserveEquity(MarkToMarket(w.account))));
    case Persist =>
    case RestartFromStore =>
  }

  lemma NothingWatched(c: Curve)
    ensures Watch(c, []) == c
  {
  }

  lemma CancelStats(w: World, cfg: Config, id: string, reason: string)
    requires id in w.orders
    ensures Cancel(w, cfg, id, reason).account.stats == w.account.stats
  {
    hide CancelClaim;
  }

  lemma RestartSees(disk: SavedPortfolio)
    ensures CurveOf(Load(disk).stats) == See(CurveOf(disk.stats), Equity(AsAccount(disk)))
  {
    hide Observe, See, Equity, CurveOf;
    var a := AsAccount(disk);
    assert {} + a.processed == a.processed;
    assert Load(disk) == ObserveEquity(a);
    hide Load;
    ObserveSees(a);
    ObserveKeepsEquity(a);
  }

  lemma PlacedWatches(w: World, cfg: Config, order: Order, account: Account, fill: Fill,
                      book: Option<OrderBook>, fillId: string)
    requires Prepare(w.account, cfg, order, book, fillId) == Fills(account, fill)
    requires fill.symbol == order.symbol && account.stats == w.account.stats
    ensures var filled := ApplyFill(account, fill);
            CurveOf(Execute(w, cfg, order, book, fillId).0.account.stats)
            == Watch(CurveOf(w.account.stats),
                     (if fill.id in account.processed then [] else [Equity(filled)])
                     + [Equity(SetMark(filled, fill.symbol, fill.price))])
  {
    hide See, Equity, Observe, SetMark, Prepare, Attach, SettlePosition, SettleBalances, MarkToMarket, ObserveEquity,
         Watch;
    var c := CurveOf(account.stats);
    var filled := ApplyFill(account, fill);
    var first := if fill.id in account.processed then [] else [Equity(filled)];
    MarkSees(filled, fill.symbol, fill.price);
    WatchOne(CurveOf(filled.stats), Equity(SetMark(filled, fill.symbol, fill.price)));
    WatchConcat(c, first, [Equity(SetMark(filled, fill.symbol, fill.price))]);
    NothingWatched(c);
    if fill.id !in account.processed {
      FillSees(account, fill);
      WatchOne(c, Equity(filled));
    }
  }

  // Both sets of statistics are the streaming update, folded from the same start over their own trail.
  ghost predicate Watches(c: Curve, z: Session, t: Trails)
  {
    CurveOf(z.world.account.stats) == Watch(c, t.live) && CurveOf(z.disk.stats) == Watch(c, t.kept)
  }

  lemma StepWatches(c: Curve, t: Trails, z: Session, cfg: Config, action: Action)
    requires Watches(c, z, t)
    ensures Watches(c, Step(z, cfg, action), Observed(t, z, cfg, action))
  {
    hide See, Advance, SeenBy, CurveOf, Load, Equity, Watch;
    AdvanceWatches(z.world, cfg, action);
    WatchConcat(c, t.live, SeenBy(z.world, cfg, action));
    if action.RestartFromStore? {
      RestartSees(z.disk);
      WatchOne(CurveOf(z.disk.stats), Equity(AsAccount(z.disk)));
      WatchConcat(c, t.kept, [Equity(AsAccount(z.disk))]);
    }
  }

  lemma {:induction false} RunWatches(c: Curve, t: Trails, z: Session, cfg: Config, actions: seq<Action>)
    requires Watches(c, z, t)
    ensures Watches(c, Run(z, cfg, actions), SeenAlong(t, z, cfg, actions))
    decreases |actions|
  {
    hide Watches, Step, Observed;
    if actions != [] {
      StepWatches(c, t, z, cfg, actions[0]);
      RunWatches(c, Observed(t, z, cfg, actions[0]), Step(z, cfg, actions[0]), cfg, actions[1..]);
    }
  }

  // ----- equities are not negative when marks are not -----

  ghost predicate MarksPositive(a: Account)
  {
    forall s :: s in a.marks ==> a.marks[s] >= 0.0
  }

  ghost predicate SaneMark(action: Action)
  {
    action.MarkPrice? ==> action.price >= 0.0
  }

  lemma EquityNonNegative(a: Account, symbols: set<string>, start: real)
    requires Sound(a, symbols, start) && MarksPositive(a)
    ensures Equity(a) >= 0.0
  {
    hide TotalOver, Value, Backed, Booked, Marked, Watched;
    var values := MarketValues(a.positions, a.marks);
    forall s | s in values ensures values[s] >= 0.0 {
      ValuePositive(a.positions[s].quantity, MarkOf(a.marks, s, a.positions[s].averageEntry));
    }
    TotalNonNegative(values);
    BalanceIsSolvent(a, a.quote);
  }

  lemma AdvanceSeesNonNegative(w: World, cfg: Config, symbols: set<string>, start: real, action: Action)
    requires Inv(w, cfg, symbols, start) && Admissible(w, cfg, symbols, action)
    requires MarksPositive(w.account) && SaneMark(action)
    ensures MarksPositive(Advance(w, cfg, action).account)
    ensures forall i :: 0 <= i < |SeenBy(w, cfg, action)| ==> SeenBy(w, cfg, action)[i] >= 0.0
  {
    hide Sound, Equity, Surplus, Registered, ScopedOrder, PricedBook, Universe, InScope, ApplyFill, SetMark, Prepare,
         Attach, Cancel, Load, Save, ObserveEquity, MarkToMarket;
    match action
    case Place(request, orderType, book, fillId) =>
      PlaceSeesNonNegative(w, cfg, symbols, start, NewOrder(request, orderType), book.value, fillId);
    case MarkPrice(symbol, price) =>
      SetMarkKeeps(w.account, symbol, price, symbols, start);
      SetMarkMarks(w.account, symbol, price);
      EquityNonNegative(SetMark(w.account, symbol, price), symbols, start);
    case Redeliver(fill) =>
    case CancelOrder(id, reason) =>
      if id in w.orders { CancelMarks(w, cfg, id, reason); }
    case Inspect =>
      InspectKeeps(w, cfg, symbols, start);
      InspectMovesNothing(w, cfg);
      EquityNonNegative(Advance(w, cfg, Inspect).account, symbols, start);
    case Persist =>
    case RestartFromStore =>
  }

  lemma SetMarkMarks(a: Account, symbol: string, price: real)
    ensures SetMark(a, symbol, price).marks == a.marks[symbol := price]
  {
    hide Observe, Equity, TotalOver;
  }

  lemma CancelMarks(w: World, cfg: Config, id: string, reason: string)
    requires id in w.orders
    ensures Cancel(w, cfg, id, reason).account.marks == w.account.marks
  {
    hide CancelClaim;
  }

  lemma FillMarks(a: Account, fill: Fill)
    ensures ApplyFill(a, fill).marks == a.marks
  {
    hide Observe, Equity, TotalOver, SettlePosition, SettleBalances;
  }

  lemma MovingKeepsMarks(a: Account)
    ensures forall asset, amount :: Move(a, asset, amount).marks == a.marks
  {
  }

  lemma PreparedMarks(a: Account, cfg: Config, order: Order, book: Option<OrderBook>, fillId: string)
    ensures Prepare(a, cfg, order, book, fillId).account.marks == a.marks
  {
    hide Value, SimulateFill, ReservationNeeded, Marketable, BalanceOf, BaseAsset, Move;
    var (_, asset, amount) := ReservationNeeded(a, cfg, order);
    MovingKeepsMarks(a);
    MovingKeepsMarks(Reserve(a, asset, amount).0);
  }

  lemma PlaceSeesNonNegative(w: World, cfg: Config, symbols: set<string>, start: real,
                             order: Order, book: OrderBook, fillId: string)
    requires Inv(w, cfg, symbols, start) && MarksPositive(w.account)
    requires ScopedOrder(order, symbols) && PricedBook(book) && fillId !in w.account.processed
    ensures MarksPositive(Execute(w, cfg, order, Some(book), fillId).0.account)
    ensures var stage := Prepare(w.account, cfg, order, Some(book), fillId);
            stage.Fills? ==>
              && stage.fill.symbol == order.symbol
              && Equity(ApplyFill(stage.account, stage.fill)) >= 0.0
              && Equity(SetMark(ApplyFill(stage.account, stage.fill), stage.fill.symbol, stage.fill.price)) >= 0.0
  {
    hide Sound, Equity, Surplus, Registered, PricedBook, ScopedOrder, Universe, InScope, ApplyFill, SetMark, Prepare,
         Attach, Post, Claim, Covered, Move, Used, Fill.Gross, BaseAsset, ScopedFill;
    var a := w.account;
    ScopedFacts(order, symbols);
    PreparedMarks(a, cfg, order, Some(book), fillId);
    PlacementIsCovered(a, cfg, order, book, fillId, symbols, start);
    var stage := Prepare(a, cfg, order, Some(book), fillId);
    if stage.Fills? {
      var (asset, amount) := Claim(a.quote, cfg, order);
      UsedIsPositive(stage.fill);
      HoldKeeps(a, asset, Used(stage.fill), symbols, start);
      FillKeeps(stage.account, stage.fill, symbols, start);
      FillMarks(stage.account, stage.fill);
      var filled := ApplyFill(stage.account, stage.fill);
      EquityNonNegative(filled, symbols, start);
      SetMarkKeeps(filled, order.symbol, stage.fill.price, symbols, start);
      SetMarkMarks(filled, order.symbol, stage.fill.price);
      EquityNonNegative(SetMark(filled, order.symbol, stage.fill.price), symbols, start);
      FreshIsNoDuplicate(stage.account, stage.fill);
    }
  }

  ghost predicate NonNegative(trail: seq<real>)
  {
    forall i :: 0 <= i < |trail| ==> trail[i] >= 0.0
  }

  ghost predicate SaneSession(z: Session, t: Trails)
  {
    MarksPositive(z.world.account) && MarksPositive(AsAccount(z.disk)) && NonNegative(t.live) && NonNegative(t.kept)
  }

  lemma StepSeesNonNegative(t: Trails, z: Session, cfg: Config, symbols: set<string>, start: real, action: Action)
    requires SessionInv(z, cfg, symbols, start) && Admissible(z.world, cfg, symbols, action)
    requires SaneSession(z, t) && SaneMark(action)
    ensures SaneSession(Step(z, cfg, action), Observed(t, z, cfg, action))
  {
    hide Inv, Sound, Advance, SeenBy, Admissible, Equity, Observe, SaneMark;
    AdvanceSeesNonNegative(z.world, cfg, symbols, start, action);
    if action.RestartFromStore? {
      EquityNonNegative(AsAccount(z.disk), symbols, start);
    }
  }

  lemma {:induction false} RunSeesNonNegative(t: Trails, z: Session, cfg: Config, symbols: set<string>, start: real,
                                              actions: seq<Action>)
    requires SessionInv(z, cfg, symbols, start) && AllAdmissible(z, cfg, symbols, actions)
    requires SaneSession(z, t) && forall a :: a in actions ==> SaneMark(a)
    ensures SaneSession(Run(z, cfg, actions), SeenAlong(t, z, cfg, actions))
    decreases |actions|
  {
    hide SessionInv, Step, Observed, Admissible, SaneSession, SaneMark;
    if actions != [] {
      assert actions[0] in actions;
      StepSeesNonNegative(t, z, cfg, symbols, start, actions[0]);
      StepKeeps(z, cfg, symbols, start, actions[0]);
      RunSeesNonNegative(Observed(t, z, cfg, actions[0]), Step(z, cfg, actions[0]), cfg, symbols, start, actions[1..]);
    }
  }

  // The streaming statistics are the quadratic definition, in every reachable state: with the starting
  // capital as the first observation, the peak is the running maximum and the maximum drawdown the worst
  // loss from any observation to any later one. What was observed after the save a restart brings back is
  // forgotten with it.
  lemma StreamingDrawdownTheorem(quote: string, start: real, cfg: Config, symbols: set<string>, actions: seq<Action>)
    requires InScope(cfg) && Universe(symbols, quote) && start > 0.0
    requires AllAdmissible(OpeningSession(quote, start), cfg, symbols, actions)
    requires forall a :: a in actions ==> SaneMark(a)
    ensures var z := OpeningSession(quote, start);
            var c := CurveOf(Run(z, cfg, actions).world.account.stats);
            && Describes(c, [start] + SeenAlong(Trails([], []), z, cfg, actions).live)
            && 0.0 <= c.current <= c.maximum <= 1.0
  {
    hide SessionInv, Describes, SeenAlong, Run, AllAdmissible, Watch, SaneMark, Universe, InScope;
    var z := OpeningSession(quote, start);
    OpeningCurve(quote, start);
    OpeningInv(quote, start, cfg, symbols);
    NothingWatched(CurveOf(z.world.account.stats));
    RunWatches(CurveOf(z.world.account.stats), Trails([], []), z, cfg, actions);
    RunSeesNonNegative(Trails([], []), z, cfg, symbols, start, actions);
    WatchDescribes(CurveOf(z.world.account.stats), [start], SeenAlong(Trails([], []), z, cfg, actions).live);
    DescribedIsOrdered(CurveOf(Run(z, cfg, actions).world.account.stats),
                       [start] + SeenAlong(Trails([], []), z, cfg, actions).live);
  }

  lemma OpeningCurve(quote: string, start: real)
    requires start > 0.0
    ensures var a := OpeningWorld(quote, start).account;
            && MarksPositive(a)
            && Describes(CurveOf(a.stats), [start])
  {
    var a := Account(quote, map[quote := AssetBalance(start, 0.0)], map[], NO_STATS.(peakEquity := start), map[], {});
    assert MarketValues(a.positions, a.marks) == map[];
    TotalZero({}, MarketValues(a.positions, a.marks));
    assert Equity(a) == start;
    var c := CurveOf(OpeningWorld(quote, start).account.stats);
    assert [start][0] == c.peak;
    assert Loss([start][0], [start][0]) == c.maximum;
  }
}
