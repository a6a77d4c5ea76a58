// Everything the engine does to its portfolio is a run of the ledger: each task is a few of the ledger's own
// actions, the looks at the portfolio that the engine takes among them (bot/engine/orchestrator.py). So what
// is proved of every ledger run holds of every run of the engine.

module EngineLedger {
  import opened Prelude
  import opened Ledger
  import opened LedgerFacts
  import opened PaperExecution
  import opened PlacementFacts
  import opened Store
  import opened LedgerRuns
  import opened Drawdown
  import opened Tallies
  import opened RiskGate
  import opened Engine
  import opened EngineRuns
  import opened EngineTheorems

  // ----- a task as ledger actions -----

  // Nothing is placed when the order request refuses its quantity.
  function Placed(o: Opportunity, granted: real): seq<Action>
  {
    if o.Request(granted).quantity <= 0.0 then [] else [Place(o.Request(granted), Limit, o.book, o.fillId)]
  }

  function MarkedLast(o: Opportunity): seq<Action>
  {
    if o.last.Some? then [MarkPrice(o.symbol, o.last.value)] else []
  }

  // The mark, then the order if the gate approves, then the look at the portfolio unless an exception came first.
  ghost function DealActions(d: Desk, s: RiskSettings, cfg: Config, o: Opportunity): seq<Action>
  {
    match Consider(d, s, cfg, o).1
    case Turned(_) => MarkedLast(o)
    case Executed(decision, _) => MarkedLast(o) + (Placed(o, decision.quantity) + [Inspect])
    case Raised(decision) => MarkedLast(o) + Placed(o, decision.quantity)
  }

  ghost function ActionsOf(p: Plant, s: RiskSettings, cfg: Config, task: Task): seq<Action>
  {
    match task
    case Deal(o) => DealActions(p.desk, s, cfg, o)
    case Look => [Inspect]
    case OnSwitch(_, _) => []
    case Manual(o, ruling, _) => if Honoured(o, ruling) then Placed(o, ruling.decision.quantity) else []
    case Between(action) => [action]
    case Reboot(_) => [RestartFromStore]
  }

  ghost function ActionsSoFar(p: Plant, s: RiskSettings, cfg: Config, tasks: seq<Task>, n: nat): seq<Action>
    requires n <= |tasks|
  {
    if n == 0 then []
    else ActionsSoFar(p, s, cfg, tasks, n - 1) + ActionsOf(PlantAfter(p, s, cfg, tasks, n - 1), s, cfg, tasks[n - 1])
  }

  ghost function SessionOf(p: Plant): Session { Session(p.desk.world, p.disk) }

  // ----- runs in sequence -----

  lemma {:induction false} RunConcat(z: Session, cfg: Config, symbols: set<string>, a: seq<Action>, b: seq<Action>)
    ensures Run(z, cfg, a + b) == Run(Run(z, cfg, a), cfg, b)
    ensures AllAdmissible(z, cfg, symbols, a) && AllAdmissible(Run(z, cfg, a), cfg, symbols, b)
            ==> AllAdmissible(z, cfg, symbols, a + b)
    decreases |a|
  {
    hide Step, Admissible;
    if a == [] {
      assert a + b == b;
    } else {
      assert (a + b)[0] == a[0] && (a + b)[1..] == a[1..] + b;
      RunConcat(Step(z, cfg, a[0]), cfg, symbols, a[1..], b);
    }
  }

  lemma RunNone(z: Session, cfg: Config, symbols: set<string>)
    ensures Run(z, cfg, []) == z && AllAdmissible(z, cfg, symbols, [])
  {
  }

  lemma RunOne(z: Session, cfg: Config, symbols: set<string>, action: Action)
    ensures Run(z, cfg, [action]) == Step(z, cfg, action)
    ensures Admissible(z.world, cfg, symbols, action) ==> AllAdmissible(z, cfg, symbols, [action])
  {
    hide Step, Admissible;
    assert [action][1..] == [];
  }

  // ----- each part of a deal -----

  // What an opportunity needs of the world for its order to be admissible.
  ghost predicate Ready(w: World, symbols: set<string>, o: Opportunity)
  {
    && o.symbol in symbols && o.entryPrice > 0.0 && o.book.Some? && PricedBook(o.book.value)
    && o.orderId !in w.orders && o.fillId !in w.account.processed
  }

  lemma MarkingIsRun(z: Session, cfg: Config, symbols: set<string>, o: Opportunity)
    ensures Run(z, cfg, MarkedLast(o)) == z.(world := MarkLast(z.world, o))
    ensures AllAdmissible(z, cfg, symbols, MarkedLast(o))
    ensures Ready(z.world, symbols, o) ==> Ready(MarkLast(z.world, o), symbols, o)
  {
    hide SetMark, PricedBook, Run, AllAdmissible;
    RunNone(z, cfg, symbols);
    if o.last.Some? {
      RunOne(z, cfg, symbols, MarkPrice(o.symbol, o.last.value));
      MarkOnly(z.world.account, o.symbol, o.last.value);
    }
  }

  lemma PlacingIsRun(z: Session, cfg: Config, symbols: set<string>, o: Opportunity, granted: real)
    ensures Run(z, cfg, Placed(o, granted)) == z.(world := Dispatch(z.world, cfg, o, granted).0)
    ensures Ready(z.world, symbols, o) ==> AllAdmissible(z, cfg, symbols, Placed(o, granted))
  {
    hide Execute, PricedBook, Run, AllAdmissible;
    RunNone(z, cfg, symbols);
    if o.Request(granted).quantity > 0.0 {
      RunOne(z, cfg, symbols, Place(o.Request(granted), Limit, o.book, o.fillId));
    }
  }

  lemma LookingIsRun(d: Desk, disk: SavedPortfolio, cfg: Config, symbols: set<string>)
    ensures Run(Session(d.world, disk), cfg, [Inspect]) == Session(Refresh(d).world, disk)
    ensures AllAdmissible(Session(d.world, disk), cfg, symbols, [Inspect])
  {
    hide ObserveEquity, MarkToMarket, Run, AllAdmissible, SnapshotOf;
    RunOne(Session(d.world, disk), cfg, symbols, Inspect);
  }

  lemma DealIsRun(d: Desk, disk: SavedPortfolio, s: RiskSettings, cfg: Config, symbols: set<string>, o: Opportunity)
    ensures Run(Session(d.world, disk), cfg, DealActions(d, s, cfg, o)) == Session(Consider(d, s, cfg, o).0.world, disk)
    ensures Ready(d.world, symbols, o) ==> AllAdmissible(Session(d.world, disk), cfg, symbols, DealActions(d, s, cfg, o))
  {
    hide Run, AllAdmissible, Decide, Dispatch, Refresh, MarkLast, Ready, Placed, MarkedLast;
    var z := Session(d.world, disk);
    var (gate, decision) := Decide(d.gate, s, o.Asked(), d.snapshot, o.context, o.checked, o.stamped, o.now);
    var marked := MarkLast(d.world, o);
    MarkingIsRun(z, cfg, symbols, o);
    if decision.Approved? {
      var (world, result) := Dispatch(marked, cfg, o, decision.quantity);
      var placed := Placed(o, decision.quantity);
      PlacingIsRun(Session(marked, disk), cfg, symbols, o, decision.quantity);
      if result.None? {
        RunConcat(z, cfg, symbols, MarkedLast(o), placed);
      } else {
        LookingIsRun(Desk(world, gate, d.snapshot), disk, cfg, symbols);
        RunConcat(Session(marked, disk), cfg, symbols, placed, [Inspect]);
        RunConcat(z, cfg, symbols, MarkedLast(o), placed + [Inspect]);
      }
    }
  }

  // ----- each task, and every run -----

  lemma WorkIsRun(p: Plant, s: RiskSettings, cfg: Config, symbols: set<string>, task: Task)
    ensures SessionOf(Work(p, s, cfg, task)) == Run(SessionOf(p), cfg, ActionsOf(p, s, cfg, task))
    ensures Fits(p, cfg, symbols, task) ==> AllAdmissible(SessionOf(p), cfg, symbols, ActionsOf(p, s, cfg, task))
  {
    hide Run, AllAdmissible, Consider, DealActions, Dispatch, Refresh, Placed, Admissible, Step, PricedBook;
    match task
    case Deal(o) => DealIsRun(p.desk, p.disk, s, cfg, symbols, o);
    case Look => LookingIsRun(p.desk, p.disk, cfg, symbols);
    case OnSwitch(_, _) => RunNone(SessionOf(p), cfg, symbols);
    case Manual(o, ruling, _) =>
      RunNone(SessionOf(p), cfg, symbols);
      if Honoured(o, ruling) { PlacingIsRun(SessionOf(p), cfg, symbols, o, ruling.decision.quantity); }
    case Between(action) => RunOne(SessionOf(p), cfg, symbols, action);
    case Reboot(_) => RebootIsRun(p, s, cfg, symbols, task);
  }

  lemma RebootIsRun(p: Plant, s: RiskSettings, cfg: Config, symbols: set<string>, task: Task)
    requires task.Reboot?
    ensures SessionOf(Work(p, s, cfg, task)) == Run(SessionOf(p), cfg, [RestartFromStore])
    ensures AllAdmissible(SessionOf(p), cfg, symbols, [RestartFromStore])
  {
    hide Run, AllAdmissible, Restored, SnapshotOf;
    RunOne(SessionOf(p), cfg, symbols, RestartFromStore);
  }

  // The engine is a ledger run.
  lemma {:induction false} EngineIsLedgerRun(p: Plant, s: RiskSettings, cfg: Config, symbols: set<string>,
                                             tasks: seq<Task>, n: nat)
    requires n <= |tasks|
    ensures SessionOf(PlantAfter(p, s, cfg, tasks, n)) == Run(SessionOf(p), cfg, ActionsSoFar(p, s, cfg, tasks, n))
    ensures AllFit(p, s, cfg, symbols, tasks) ==>
              AllAdmissible(SessionOf(p), cfg, symbols, ActionsSoFar(p, s, cfg, tasks, n))
  {
    hide Run, AllAdmissible, ActionsOf, Work, Fits, SessionOf;
    if n == 0 {
      RunNone(SessionOf(p), cfg, symbols);
    } else {
      var before := PlantAfter(p, s, cfg, tasks, n - 1);
      EngineIsLedgerRun(p, s, cfg, symbols, tasks, n - 1);
      WorkIsRun(before, s, cfg, symbols, tasks[n - 1]);
      RunConcat(SessionOf(p), cfg, symbols, ActionsSoFar(p, s, cfg, tasks, n - 1),
                ActionsOf(before, s, cfg, tasks[n - 1]));
    }
  }

  // ----- what follows -----

  // Nothing negative, nothing short or unaccounted for, and the accounting identity.
  ghost predicate Books(w: World, symbols: set<string>, start: real)
  {
    var a := w.account;
    && Solvent(a)
    && (forall s :: s in symbols ==>
          0.0 <= PositionOf(a.positions, s).quantity == BalanceOf(a.balances, BaseAsset(s, a.quote)).Total())
    && BalanceOf(a.balances, a.quote).Total() + Total(CostBases(a.positions)) == start + a.stats.realizedPnl
    && Equity(a) == start + a.stats.realizedPnl + a.stats.unrealizedPnl
  }

  // The ledger theorem for the engine: after any tasks the books are sound, and if it was never restarted every
  // reserved unit belongs to an open order.
  lemma EngineLedgerTheorem(quote: string, start: real, s: RiskSettings, cfg: Config, symbols: set<string>,
                            tasks: seq<Task>)
    requires InScope(cfg) && Universe(symbols, quote) && start >= 0.0
    requires AllFit(OpeningPlant(quote, start), s, cfg, symbols, tasks)
    ensures var w := PlantAfter(OpeningPlant(quote, start), s, cfg, tasks, |tasks|).desk.world;
            && Books(w, symbols, start)
            && ((forall i :: 0 <= i < |tasks| ==> !tasks[i].Reboot?) ==> Reconciled(w, cfg))
  {
    hide Run, AllAdmissible, AllFit, PlantAfter, ActionsSoFar, Solvent, BaseAsset, Total, Equity, InScope, Universe,
         Reconciled, AssetBalance.Total, OpeningPlant, OpeningSession;
    var p := OpeningPlant(quote, start);
    EngineIsLedgerRun(p, s, cfg, symbols, tasks, |tasks|);
    OpeningIsOpening(quote, start);
    LedgerTheorem(quote, start, cfg, symbols, ActionsSoFar(p, s, cfg, tasks, |tasks|));
    if forall i :: 0 <= i < |tasks| ==> !tasks[i].Reboot? {
      NoRestarts(p, s, cfg, symbols, tasks, |tasks|);
    }
  }

  lemma OpeningIsOpening(quote: string, start: real)
    ensures SessionOf(OpeningPlant(quote, start)) == OpeningSession(quote, start)
  {
    hide OpeningAccount, Save, SnapshotOf;
  }

  lemma {:induction false} NoRestarts(p: Plant, s: RiskSettings, cfg: Config, symbols: set<string>,
                                      tasks: seq<Task>, n: nat)
    requires n <= |tasks| && AllFit(p, s, cfg, symbols, tasks)
    requires forall i :: 0 <= i < |tasks| ==> !tasks[i].Reboot?
    ensures RestartFromStore !in ActionsSoFar(p, s, cfg, tasks, n)
  {
    hide PlantAfter, Consider, Scoped, Admissible, Placed, MarkedLast;
    if n > 0 {
      NoRestarts(p, s, cfg, symbols, tasks, n - 1);
      var before, task := PlantAfter(p, s, cfg, tasks, n - 1), tasks[n - 1];
      assert Fits(before, cfg, symbols, task);
      if task.Deal? { OnlyPlaces(task.opportunity); }
      if task.Manual? { OnlyPlaces(task.called); }
    }
  }

  lemma OnlyPlaces(o: Opportunity)
    ensures RestartFromStore !in MarkedLast(o) && forall granted :: RestartFromStore !in Placed(o, granted)
  {
  }

  // No price that the engine is told is negative.
  ghost predicate SaneTask(task: Task)
  {
    match task
    case Deal(o) => o.last.Some? ==> o.last.value >= 0.0
    case Between(action) => SaneMark(action)
    case _ => true
  }

  lemma {:induction false} SaneActions(p: Plant, s: RiskSettings, cfg: Config, tasks: seq<Task>, n: nat)
    requires n <= |tasks| && forall i :: 0 <= i < |tasks| ==> SaneTask(tasks[i])
    ensures forall a :: a in ActionsSoFar(p, s, cfg, tasks, n) ==> SaneMark(a)
  {
    hide PlantAfter, ActionsOf, SaneTask, SaneMark;
    if n > 0 {
      SaneActions(p, s, cfg, tasks, n - 1);
      SaneWork(PlantAfter(p, s, cfg, tasks, n - 1), s, cfg, tasks[n - 1]);
    }
  }

  lemma SaneWork(p: Plant, s: RiskSettings, cfg: Config, task: Task)
    requires SaneTask(task)
    ensures forall a :: a in ActionsOf(p, s, cfg, task) ==> SaneMark(a)
  {
    hide Consider, Honoured;
  }

  // The drawdown theorem for the engine: after any tasks the statistics are those of the whole trail of equities
  // that were looked at, each of the engine's own snapshots included.
  lemma EngineDrawdownTheorem(quote: string, start: real, s: RiskSettings, cfg: Config, symbols: set<string>,
                              tasks: seq<Task>)
    requires InScope(cfg) && Universe(symbols, quote) && start > 0.0
    requires AllFit(OpeningPlant(quote, start), s, cfg, symbols, tasks)
    requires forall i :: 0 <= i < |tasks| ==> SaneTask(tasks[i])
    ensures var p := OpeningPlant(quote, start);
            var c := CurveOf(PlantAfter(p, s, cfg, tasks, |tasks|).desk.world.account.stats);
            var seen := SeenAlong(Trails([], []), SessionOf(p), cfg, ActionsSoFar(p, s, cfg, tasks, |tasks|)).live;
            Describes(c, [start] + seen) && 0.0 <= c.current <= c.maximum <= 1.0
  {
    hide Run, AllAdmissible, AllFit, PlantAfter, ActionsSoFar, Describes, SeenAlong, SaneMark, InScope, Universe,
         OpeningPlant, OpeningSession, SaneTask;
    var p := OpeningPlant(quote, start);
    EngineIsLedgerRun(p, s, cfg, symbols, tasks, |tasks|);
    OpeningIsOpening(quote, start);
    SaneActions(p, s, cfg, tasks, |tasks|);
    StreamingDrawdownTheorem(quote, start, cfg, symbols, ActionsSoFar(p, s, cfg, tasks, |tasks|));
  }

  // The tally theorem for the engine, with nothing asked of its tasks.
  lemma EngineTallyTheorem(quote: string, start: real, s: RiskSettings, cfg: Config, tasks: seq<Task>)
    ensures Tallied(PlantAfter(OpeningPlant(quote, start), s, cfg, tasks, |tasks|).desk.world.account)
  {
    hide Run, PlantAfter, ActionsSoFar, Tallied, AllAdmissible, AllFit, OpeningPlant, OpeningSession;
    var p := OpeningPlant(quote, start);
    EngineIsLedgerRun(p, s, cfg, {}, tasks, |tasks|);
    OpeningIsOpening(quote, start);
    TallyTheorem(quote, start, cfg, ActionsSoFar(p, s, cfg, tasks, |tasks|));
  }
}
