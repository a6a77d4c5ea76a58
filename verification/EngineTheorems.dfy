// The engine over whole runs: any sequence of opportunities, fresh looks at the portfolio, acts on the kill
// switch, calls of `execute_approved` with any ruling, cancellations, marks, redeliveries and saves in
// between, and restarts from what was saved last.

module EngineTheorems {
  import opened Prelude
  import opened Ledger
  import opened LedgerFacts
  import opened PaperExecution
  import opened PlacementFacts
  import opened Store
  import opened LedgerRuns
  import opened KillSwitch
  import opened RiskGate
  import opened RiskRuns
  import opened Engine
  import opened EngineRuns

  // The engine with the portfolio file.
  datatype Plant = Plant(desk: Desk, disk: SavedPortfolio)

  // The clock of the gate is also read when `execute_approved` is called, though the engine does not do so.
  // A restart brings back the saved portfolio; the risk engine lives in memory, so it is a new one after a
  // restart of the process, and the old one when only the runner is built again.
  datatype Task =
    | Deal(opportunity: Opportunity)
    | Look
    | OnSwitch(act: Act, now: int)
    | Manual(called: Opportunity, ruling: Ruling, at: real)
    | Between(action: Action)
    | Reboot(anew: bool)

  const FRESH_GATE := Gate(FRESH_SWITCH, [])

  ghost function Work(p: Plant, s: RiskSettings, cfg: Config, task: Task): Plant
  {
    match task
    case Deal(o) => p.(desk := Consider(p.desk, s, cfg, o).0)
    case Look => p.(desk := Refresh(p.desk))
    case OnSwitch(act, now) =>
      var switch := Perform(p.desk.gate.switch, s.failureLimit, s.requireManualRecovery, act, now);
      p.(desk := p.desk.(gate := p.desk.gate.(switch := switch)))
    case Manual(o, ruling, _) => p.(desk := ExecuteApproved(p.desk, cfg, o, ruling).0)
    case Between(action) =>
      var z := Step(Session(p.desk.world, p.disk), cfg, action);
      Plant(p.desk.(world := z.world), z.disk)
    case Reboot(anew) =>
      var world := Restored(p.disk);
      p.(desk := Desk(world, if anew then FRESH_GATE else p.desk.gate, SnapshotOf(world.account)))
  }

  // Orders come from the engine alone; everything else is what the ledger theorem admits. Rulings may be anything.
  ghost predicate Fits(p: Plant, cfg: Config, symbols: set<string>, task: Task)
  {
    match task
    case Deal(o) => Scoped(p.desk, symbols, o)
    case Manual(o, _, _) => Scoped(p.desk, symbols, o)
    case Between(action) => !action.Place? && !action.RestartFromStore? && Admissible(p.desk.world, cfg, symbols, action)
    case _ => true
  }

  ghost function PlantAfter(p: Plant, s: RiskSettings, cfg: Config, tasks: seq<Task>, n: nat): Plant
    requires n <= |tasks|
  {
    if n == 0 then p else Work(PlantAfter(p, s, cfg, tasks, n - 1), s, cfg, tasks[n - 1])
  }

  ghost predicate AllFit(p: Plant, s: RiskSettings, cfg: Config, symbols: set<string>, tasks: seq<Task>)
  {
    forall n :: 0 <= n < |tasks| ==> Fits(PlantAfter(p, s, cfg, tasks, n), cfg, symbols, tasks[n])
  }

  // ----- the gate in one task -----

  lemma WorkKeepsGate(p: Plant, s: RiskSettings, cfg: Config, task: Task)
    requires s.failureLimit > 0 && Audited(p.desk.gate.switch, s.failureLimit)
    ensures Audited(Work(p, s, cfg, task).desk.gate.switch, s.failureLimit)
  {
    hide Audited, Consider, Refresh, Perform, Step, Dispatch, Restored;
    match task
    case Deal(o) =>
      ConsiderAsks(p.desk, s, cfg, o);
      NextKeepsAudit(p.desk.gate, s, Question(p.desk, o));
    case Look => RefreshKeepsGate(p.desk);
    case OnSwitch(act, now) => NextKeepsAudit(p.desk.gate, s, Operate(act, now));
    case Manual(_, _, _) =>
    case Between(_) =>
    case Reboot(_) => FreshIsAudited(s.failureLimit);
  }

  // ----- how far the caps can be off -----

  // The calls of `execute_approved` that reached the executor so far, and since the gate was last shown the
  // portfolio; what the latter may have cost; and what the exposure has been allowed to reach.
  datatype Slack = Slack(manuals: nat, unseen: nat, drift: real, ceiling: real)

  function Slackened(k: Slack, p: Plant, s: RiskSettings, cfg: Config, task: Task): Slack
  {
    match task
    case Deal(o) =>
      if !Approves(p.desk.gate, s, Question(p.desk, o)) then k
      else
        k.(unseen := 0, drift := 0.0,
           ceiling := if o.side.Buy? then Max(k.ceiling, Allowance(s, cfg, p.desk.snapshot, o) + k.drift) else k.ceiling)
    case Manual(o, ruling, _) =>
      if !Reaches(o, ruling) then k
      else
        var cost := ManualCost(cfg, o, ruling.decision.quantity);
        Slack(k.manuals + 1, k.unseen + 1, k.drift + cost, k.ceiling + cost)
    case Look => k.(unseen := 0, drift := 0.0)
    case Reboot(_) => k.(unseen := 0, drift := 0.0)
    case OnSwitch(_, _) => k
    case Between(_) => k
  }

  ghost function SlackAfter(k: Slack, p: Plant, s: RiskSettings, cfg: Config, tasks: seq<Task>, n: nat): Slack
    requires n <= |tasks|
  {
    if n == 0 then k
    else Slackened(SlackAfter(k, p, s, cfg, tasks, n - 1), PlantAfter(p, s, cfg, tasks, n - 1), s, cfg, tasks[n - 1])
  }

  ghost predicate Capped(p: Plant, s: RiskSettings, k: Slack)
  {
    && Shown(p.desk, k.unseen, k.drift)
    && k.drift >= 0.0 && k.unseen <= k.manuals
    && p.desk.snapshot.openPositions + k.unseen <= s.maxOpen + k.manuals
    && Exposure(p.desk.world.account.positions) <= k.ceiling
    && |OpenSymbols(p.disk.positions)| <= s.maxOpen + k.manuals
    && 0.0 <= Exposure(p.disk.positions) <= k.ceiling
  }

  ghost predicate PlantInv(p: Plant, s: RiskSettings, cfg: Config, symbols: set<string>, start: real)
  {
    && Configured(s)
    && SessionInv(Session(p.desk.world, p.disk), cfg, symbols, start)
    && Audited(p.desk.gate.switch, s.failureLimit)
  }

  lemma BetweenKeepsPositions(w: World, cfg: Config, symbols: set<string>, start: real, action: Action)
    requires Inv(w, cfg, symbols, start) && !action.Place? && Admissible(w, cfg, symbols, action)
    ensures Advance(w, cfg, action).account.positions == w.account.positions
  {
    hide Universe, InScope, Registered, Surplus, Sound, Observe, Equity, Total, CancelIsSafe, CancelClaim;
    match action
    case CancelOrder(_, _) =>
    case MarkPrice(_, _) =>
    case Redeliver(fill) => RedeliveryChangesNothing(w, cfg, fill);
    case Inspect => InspectMovesNothing(w, cfg);
    case Persist =>
    case RestartFromStore =>
  }

  lemma DealKeeps(d: Desk, s: RiskSettings, cfg: Config, symbols: set<string>, start: real, o: Opportunity,
                  unseen: nat, drift: real)
    requires Configured(s) && Inv(d.world, cfg, symbols, start) && Shown(d, unseen, drift) && Scoped(d, symbols, o)
    ensures var next := Consider(d, s, cfg, o).0;
            && Inv(next.world, cfg, symbols, start) && next.world.account.quote == d.world.account.quote
            && (if Approves(d.gate, s, Question(d, o)) then
                  WithinCaps(d, s, cfg, o, Consider(d, s, cfg, o), unseen, drift)
                else
                  next.snapshot == d.snapshot && next.world.account.positions == d.world.account.positions)
  {
    hide Inv, Scoped, Approves, WithinCaps, Configured, Decide, Dispatch, Refresh, MarkLast, Shown;
    if Approves(d.gate, s, Question(d, o)) {
      ApprovalKeepsCaps(d, s, cfg, symbols, start, o, unseen, drift);
    } else {
      RejectionNeverExecutes(d, s, cfg, o);
      MarkLastKeeps(d.world, cfg, symbols, start, o);
      ConsiderAsks(d, s, cfg, o);
    }
  }

  lemma ApprovedDealIsCapped(p: Plant, s: RiskSettings, cfg: Config, o: Opportunity, k: Slack)
    requires Capped(p, s, k) && Approves(p.desk.gate, s, Question(p.desk, o))
    requires WithinCaps(p.desk, s, cfg, o, Consider(p.desk, s, cfg, o), k.unseen, k.drift)
    requires Exposure(Consider(p.desk, s, cfg, o).0.world.account.positions) >= 0.0
    ensures Capped(Work(p, s, cfg, Deal(o)), s, Slackened(k, p, s, cfg, Deal(o)))
  {
    hide Exposure, OpenSymbols, Allowance, Consider, Approves;
  }

  lemma ManualIsCapped(p: Plant, s: RiskSettings, cfg: Config, symbols: set<string>, start: real,
                       o: Opportunity, ruling: Ruling, at: real, k: Slack)
    requires Inv(p.desk.world, cfg, symbols, start) && Scoped(p.desk, symbols, o) && Capped(p, s, k)
    ensures var next := Work(p, s, cfg, Manual(o, ruling, at));
            && Capped(next, s, Slackened(k, p, s, cfg, Manual(o, ruling, at)))
            && Inv(next.desk.world, cfg, symbols, start) && next.desk.world.account.quote == p.desk.world.account.quote
  {
    hide Inv, Scoped, Exposure, OpenSymbols, ExecuteApproved, ManualCost, FillCost, OpensPosition, Reaches, Prepare;
    if Reaches(o, ruling) {
      ManualCall(p.desk, cfg, symbols, start, o, ruling);
    } else {
      RefusedCallChangesNothing(p.desk, cfg, o, ruling);
    }
  }

  // A portfolio that was looked at, or brought back and looked at, shows the gate everything.
  lemma LookIsCapped(p: Plant, next: Plant, s: RiskSettings, k: Slack)
    requires Capped(p, s, k) && next.disk == p.disk
    requires next.desk.world.account.positions in {p.desk.world.account.positions, p.disk.positions}
    requires next.desk.snapshot.openPositions == |OpenSymbols(next.desk.world.account.positions)|
    requires next.desk.snapshot.exposure == Exposure(next.desk.world.account.positions) >= 0.0
    ensures Capped(next, s, k.(unseen := 0, drift := 0.0))
  {
    hide Exposure, OpenSymbols;
  }

  lemma WorkKeeps(p: Plant, s: RiskSettings, cfg: Config, symbols: set<string>, start: real, task: Task, k: Slack)
    requires PlantInv(p, s, cfg, symbols, start) && Capped(p, s, k) && Fits(p, cfg, symbols, task)
    ensures PlantInv(Work(p, s, cfg, task), s, cfg, symbols, start)
    ensures Capped(Work(p, s, cfg, task), s, Slackened(k, p, s, cfg, task))
  {
    hide Inv, OnDisk, Scoped, Approves, Exposure, OpenSymbols, Allowance, Configured, Audited, Consider, Refresh, Perform,
         Admissible, Advance, Restored, ExecuteApproved, Capped, WithinCaps, Reaches, ManualCost, Save, Shown;
    assert s.failureLimit > 0 by { ConfiguredLimits(s); }
    WorkKeepsGate(p, s, cfg, task);
    match task
    case Deal(o) => DealKeepsPlant(p, s, cfg, symbols, start, o, k);
    case Look =>
      RefreshShows(p.desk, cfg, symbols, start);
      ExposureAtLeastZero(p.desk.world, cfg, symbols, start);
      LookIsCapped(p, Work(p, s, cfg, task), s, k);
    case OnSwitch(_, _) => SameBook(p, Work(p, s, cfg, task), s, k);
    case Manual(o, ruling, at) => ManualIsCapped(p, s, cfg, symbols, start, o, ruling, at, k);
    case Between(action) =>
      StepKeeps(Session(p.desk.world, p.disk), cfg, symbols, start, action);
      AdvanceKeeps(p.desk.world, cfg, symbols, start, action);
      BetweenKeepsPositions(p.desk.world, cfg, symbols, start, action);
      ExposureAtLeastZero(p.desk.world, cfg, symbols, start);
      SavedPositions(p.desk.world.account);
      SameBook(p, Work(p, s, cfg, task), s, k);
    case Reboot(_) =>
      ScopeOf(p, cfg, symbols, start);
      RestartRestores(p.disk, p.desk.world.account.quote, cfg, symbols, start);
      ExposureAtLeastZero(Restored(p.disk), cfg, symbols, start);
      BroughtBack(p.disk);
      LookIsCapped(p, Work(p, s, cfg, task), s, k);
  }

  lemma ScopeOf(p: Plant, cfg: Config, symbols: set<string>, start: real)
    requires SessionInv(Session(p.desk.world, p.disk), cfg, symbols, start)
    ensures InScope(cfg) && Universe(symbols, p.desk.world.account.quote) && p.disk.quote == p.desk.world.account.quote
  {
    hide Sound, InScope, Universe, Registered, Surplus;
  }

  lemma DealKeepsPlant(p: Plant, s: RiskSettings, cfg: Config, symbols: set<string>, start: real, o: Opportunity, k: Slack)
    requires PlantInv(p, s, cfg, symbols, start) && Capped(p, s, k) && Scoped(p.desk, symbols, o)
    ensures var next := Work(p, s, cfg, Deal(o));
            && SessionInv(Session(next.desk.world, next.disk), cfg, symbols, start)
            && Capped(next, s, Slackened(k, p, s, cfg, Deal(o)))
  {
    hide Inv, OnDisk, Scoped, Approves, Exposure, OpenSymbols, Allowance, Configured, Audited, Consider, WithinCaps;
    DealKeeps(p.desk, s, cfg, symbols, start, o, k.unseen, k.drift);
    ExposureAtLeastZero(Consider(p.desk, s, cfg, o).0.world, cfg, symbols, start);
    if Approves(p.desk.gate, s, Question(p.desk, o)) {
      ApprovedDealIsCapped(p, s, cfg, o, k);
    }
  }

  // Nothing that the caps are about has changed, but perhaps it has been saved.
  lemma SameBook(p: Plant, next: Plant, s: RiskSettings, k: Slack)
    requires Capped(p, s, k)
    requires next.desk.snapshot == p.desk.snapshot && next.desk.world.account.positions == p.desk.world.account.positions
    requires next.disk.positions == p.disk.positions
             || (next.disk.positions == p.desk.world.account.positions && Exposure(p.desk.world.account.positions) >= 0.0)
    ensures Capped(next, s, k)
  {
    hide Exposure, OpenSymbols;
  }

  lemma SavedPositions(a: Account)
    ensures Save(a).positions == a.positions
  {
  }

  lemma BroughtBack(disk: SavedPortfolio)
    ensures Restored(disk).account.positions == disk.positions && Restored(disk).account.quote == disk.quote
    ensures SnapshotOf(Restored(disk).account).openPositions == |OpenSymbols(disk.positions)|
    ensures SnapshotOf(Restored(disk).account).exposure == Exposure(disk.positions)
  {
    hide Observe, Equity, Total;
  }

  lemma ConfiguredLimits(s: RiskSettings)
    requires Configured(s)
    ensures s.failureLimit > 0
  {
  }

  // ----- caps over runs -----

  lemma {:induction false} RunKeepsCaps(p: Plant, s: RiskSettings, cfg: Config, symbols: set<string>, start: real,
                                        tasks: seq<Task>, n: nat, k: Slack)
    requires n <= |tasks|
    requires PlantInv(p, s, cfg, symbols, start) && Capped(p, s, k) && AllFit(p, s, cfg, symbols, tasks)
    ensures PlantInv(PlantAfter(p, s, cfg, tasks, n), s, cfg, symbols, start)
    ensures Capped(PlantAfter(p, s, cfg, tasks, n), s, SlackAfter(k, p, s, cfg, tasks, n))
  {
    hide PlantInv, Capped, Work, Slackened, Fits;
    if n > 0 {
      RunKeepsCaps(p, s, cfg, symbols, start, tasks, n - 1, k);
      WorkKeeps(PlantAfter(p, s, cfg, tasks, n - 1), s, cfg, symbols, start, tasks[n - 1],
                SlackAfter(k, p, s, cfg, tasks, n - 1));
    }
  }

  ghost function OpeningPlant(quote: string, start: real): Plant
  {
    var w := OpeningWorld(quote, start);
    Plant(Desk(w, FRESH_GATE, SnapshotOf(w.account)), Save(w.account))
  }

  const NO_SLACK := Slack(0, 0, 0.0, 0.0)

  lemma OpeningFits(quote: string, start: real, s: RiskSettings, cfg: Config, symbols: set<string>)
    requires Configured(s) && InScope(cfg) && Universe(symbols, quote) && start >= 0.0
    ensures PlantInv(OpeningPlant(quote, start), s, cfg, symbols, start)
    ensures Capped(OpeningPlant(quote, start), s, NO_SLACK)
  {
    hide Inv, Observe, Equity, Universe, InScope, OnDisk;
    OpeningInv(quote, start, cfg, symbols);
    FreshIsAudited(s.failureLimit);
    var w := OpeningWorld(quote, start);
    assert w.account.positions == map[];
    assert OpenSymbols(w.account.positions) == {};
    TotalZero({}, Exposures(map[]));
    assert Exposures(map[]) == map[];
  }

  // Without a call of `execute_approved` there is no slack at all.
  lemma {:induction false} NoManualNoSlack(p: Plant, s: RiskSettings, cfg: Config, tasks: seq<Task>, n: nat)
    requires n <= |tasks| && forall i :: 0 <= i < n ==> !tasks[i].Manual?
    ensures var k := SlackAfter(NO_SLACK, p, s, cfg, tasks, n); k.manuals == 0 && k.unseen == 0 && k.drift == 0.0
  {
    hide Slackened, Work;
    if n > 0 {
      NoManualNoSlack(p, s, cfg, tasks, n - 1);
      NoNewSlack(SlackAfter(NO_SLACK, p, s, cfg, tasks, n - 1), PlantAfter(p, s, cfg, tasks, n - 1), s, cfg, tasks[n - 1]);
    }
  }

  lemma NoNewSlack(k: Slack, p: Plant, s: RiskSettings, cfg: Config, task: Task)
    requires !task.Manual? && k.manuals == 0 && k.unseen == 0 && k.drift == 0.0
    ensures var after := Slackened(k, p, s, cfg, task); after.manuals == 0 && after.unseen == 0 && after.drift == 0.0
  {
    hide Approves, Allowance;
  }

  // The caps theorem. In every reachable state the ledger is sound and the kill switch agrees with its audit
  // trail; there are never more open positions than the maximum and one for each call of `execute_approved`
  // that reached the executor; and the exposure, which is what the open positions cost, never exceeds what
  // the approvals and those calls have allowed it: for an approval the cap at the equity the gate was shown
  // with the fee on the request, and what the calls it was not shown have cost.
  lemma CapsTheorem(quote: string, start: real, s: RiskSettings, cfg: Config, symbols: set<string>, tasks: seq<Task>)
    requires Configured(s) && InScope(cfg) && Universe(symbols, quote) && start >= 0.0
    requires AllFit(OpeningPlant(quote, start), s, cfg, symbols, tasks)
    ensures var opening := OpeningPlant(quote, start);
            var last := PlantAfter(opening, s, cfg, tasks, |tasks|);
            var k := SlackAfter(NO_SLACK, opening, s, cfg, tasks, |tasks|);
            var a := last.desk.world.account;
            && Inv(last.desk.world, cfg, symbols, start)
            && Audited(last.desk.gate.switch, s.failureLimit)
            && |OpenSymbols(a.positions)| <= s.maxOpen + k.manuals
            && Exposure(a.positions) == Total(CostBases(a.positions)) <= k.ceiling
            && ((forall i :: 0 <= i < |tasks| ==> !tasks[i].Manual?) ==> k.manuals == 0 && k.drift == 0.0)
  {
    hide Inv, Audited, Exposure, Total, OpenSymbols, AllFit, OpeningPlant, PlantAfter, SlackAfter, Configured, CostBases,
         InScope, Universe, OnDisk;
    var opening := OpeningPlant(quote, start);
    OpeningFits(quote, start, s, cfg, symbols);
    RunKeepsCaps(opening, s, cfg, symbols, start, tasks, |tasks|, NO_SLACK);
    ExposureIsBasis(PlantAfter(opening, s, cfg, tasks, |tasks|).desk.world, cfg, symbols, start);
    if forall i :: 0 <= i < |tasks| ==> !tasks[i].Manual? { NoManualNoSlack(opening, s, cfg, tasks, |tasks|); }
  }

  lemma ExposureIsBasis(w: World, cfg: Config, symbols: set<string>, start: real)
    requires Inv(w, cfg, symbols, start)
    ensures Exposure(w.account.positions) == Total(CostBases(w.account.positions))
  {
    hide Universe, InScope, Registered, Surplus, Solvent, LongOnly, Backed, Booked, Marked, Watched;
    ExposureIsCost(w.account.positions);
  }

  // ----- what was handed to the executor -----

  // When an order was handed over, and whether the gate has a record of it.
  datatype Handover = Handover(at: real, recorded: bool)

  function Forgotten(log: seq<Handover>): (r: seq<Handover>)
    ensures |r| == |log| && forall i :: 0 <= i < |log| ==> r[i] == Handover(log[i].at, false)
  {
    if log == [] then [] else Forgotten(log[..|log| - 1]) + [log[|log| - 1].(recorded := false)]
  }

  // An approval is stamped; a call of `execute_approved` is not; and a new risk engine knows of nothing.
  ghost function Logged(log: seq<Handover>, p: Plant, s: RiskSettings, cfg: Config, task: Task): seq<Handover>
  {
    match task
    case Deal(o) => if Consider(p.desk, s, cfg, o).1.Turned? then log else log + [Handover(o.stamped, true)]
    case Manual(o, ruling, at) => if Reaches(o, ruling) then log + [Handover(at, false)] else log
    case Reboot(anew) => if anew then Forgotten(log) else log
    case _ => log
  }

  ghost function Log(p: Plant, s: RiskSettings, cfg: Config, tasks: seq<Task>, n: nat): seq<Handover>
    requires n <= |tasks|
  {
    if n == 0 then [] else Logged(Log(p, s, cfg, tasks, n - 1), PlantAfter(p, s, cfg, tasks, n - 1), s, cfg, tasks[n - 1])
  }

  function Times(log: seq<Handover>): (r: seq<real>)
    ensures |r| == |log| && forall i :: 0 <= i < |log| ==> r[i] == log[i].at
  {
    if log == [] then [] else Times(log[..|log| - 1]) + [log[|log| - 1].at]
  }

  // The times of the handovers that are recorded, or are not.
  function Only(log: seq<Handover>, recorded: bool): seq<real>
  {
    if log == [] then []
    else Only(log[..|log| - 1], recorded) + if log[|log| - 1].recorded == recorded then [log[|log| - 1].at] else []
  }

  lemma OnlyOneMore(log: seq<Handover>, h: Handover, recorded: bool)
    ensures Only(log + [h], recorded) == Only(log, recorded) + if h.recorded == recorded then [h.at] else []
  {
    assert (log + [h])[..|log|] == log;
  }

  lemma {:induction false} NothingRecorded(log: seq<Handover>)
    ensures Only(Forgotten(log), true) == []
  {
    if log != [] {
      NothingRecorded(log[..|log| - 1]);
      OnlyOneMore(Forgotten(log[..|log| - 1]), log[|log| - 1].(recorded := false), true);
    }
  }

  lemma {:induction false} CountSplits(log: seq<Handover>, from: real)
    ensures CountIn(Times(log), from) == CountIn(Only(log, true), from) + CountIn(Only(log, false), from)
  {
    if log != [] {
      var rest, h := log[..|log| - 1], log[|log| - 1];
      CountSplits(rest, from);
      CountOneMore(Times(rest), h.at, from);
      CountOneMore(Only(rest, h.recorded), h.at, from);
      assert Only(rest, !h.recorded) + [] == Only(rest, !h.recorded);
    }
  }

  lemma CountOneMore(times: seq<real>, at: real, from: real)
    ensures CountIn(times + [at], from) == CountIn(times, from) + if from <= at <= from + WINDOW then 1 else 0
  {
    assert (times + [at])[..|times|] == times;
  }

  // ----- the gate's view of a run -----

  // What the gate in charge has been through, and what it started as.
  ghost function Happened(p: Plant, s: RiskSettings, cfg: Config, tasks: seq<Task>, n: nat): seq<Happening>
    requires n <= |tasks|
  {
    if n == 0 then []
    else
      var before := Happened(p, s, cfg, tasks, n - 1);
      match tasks[n - 1]
      case Deal(o) => before + [Question(PlantAfter(p, s, cfg, tasks, n - 1).desk, o)]
      case OnSwitch(act, now) => before + [Operate(act, now)]
      case Reboot(anew) => if anew then [] else before
      case _ => before
  }

  function Base(g: Gate, tasks: seq<Task>, n: nat): Gate
    requires n <= |tasks|
  {
    if n == 0 then g else if tasks[n - 1].Reboot? && tasks[n - 1].anew then FRESH_GATE else Base(g, tasks, n - 1)
  }

  lemma {:induction false} OneMoreHappening(g: Gate, s: RiskSettings, hs: seq<Happening>, h: Happening, n: nat)
    requires n <= |hs|
    ensures After(g, s, hs + [h], n) == After(g, s, hs, n)
    ensures Approvals(g, s, hs + [h], n) == Approvals(g, s, hs, n)
  {
    hide Next, Approves;
    if n > 0 {
      OneMoreHappening(g, s, hs, h, n - 1);
      assert (hs + [h])[n - 1] == hs[n - 1];
    }
  }

  lemma AppendHappening(g: Gate, s: RiskSettings, hs: seq<Happening>, h: Happening)
    ensures After(g, s, hs + [h], |hs| + 1) == Next(After(g, s, hs, |hs|), s, h)
    ensures Approvals(g, s, hs + [h], |hs| + 1)
            == Approvals(g, s, hs, |hs|) + (if Approves(After(g, s, hs, |hs|), s, h) then [h.stamped] else [])
  {
    hide Next, Approves;
    OneMoreHappening(g, s, hs, h, |hs|);
    assert (hs + [h])[|hs|] == h;
  }

  lemma NothingHappened(g: Gate, s: RiskSettings)
    ensures After(g, s, [], 0) == g && Approvals(g, s, [], 0) == []
  {
  }

  // The engine's gate is the gate of RiskRuns, and what it has a record of is exactly its own approvals.
  lemma {:induction false} RunIsGateRun(p: Plant, s: RiskSettings, cfg: Config, tasks: seq<Task>, n: nat)
    requires n <= |tasks|
    ensures var hs, base := Happened(p, s, cfg, tasks, n), Base(p.desk.gate, tasks, n);
            && PlantAfter(p, s, cfg, tasks, n).desk.gate == After(base, s, hs, |hs|)
            && Only(Log(p, s, cfg, tasks, n), true) == Approvals(base, s, hs, |hs|)
  {
    hide Consider, Refresh, Perform, Step, Approves, After, Approvals, Dispatch, Only, Restored, Reaches;
    if n == 0 {
      NothingHappened(p.desk.gate, s);
      OnlyNothing();
    } else {
      RunIsGateRun(p, s, cfg, tasks, n - 1);
      var before, hs := PlantAfter(p, s, cfg, tasks, n - 1), Happened(p, s, cfg, tasks, n - 1);
      var base, log := Base(p.desk.gate, tasks, n - 1), Log(p, s, cfg, tasks, n - 1);
      match tasks[n - 1]
      case Deal(o) =>
        ConsiderAsks(before.desk, s, cfg, o);
        AppendHappening(base, s, hs, Question(before.desk, o));
        OnlyOneMore(log, Handover(o.stamped, true), true);
        assert Approvals(base, s, hs, |hs|) + [] == Approvals(base, s, hs, |hs|);
      case Look => RefreshKeepsGate(before.desk);
      case OnSwitch(act, now) =>
        AppendHappening(base, s, hs, Operate(act, now));
        OperatingApprovesNothing(before.desk.gate, s, Operate(act, now));
        assert Approvals(base, s, hs, |hs|) + [] == Approvals(base, s, hs, |hs|);
      case Manual(o, ruling, at) =>
        OnlyOneMore(log, Handover(at, false), true);
        assert Only(log, true) + [] == Only(log, true);
      case Between(_) =>
      case Reboot(anew) =>
        if anew {
          NothingHappened(FRESH_GATE, s);
          NothingRecorded(log);
        }
    }
  }

  lemma OnlyNothing()
    ensures Only([], true) == []
  {
  }

  // ----- the rate -----

  predicate Reads(task: Task) { task.Deal? || task.Manual? }

  function FirstReading(task: Task): real
    requires Reads(task)
  {
    if task.Deal? then task.opportunity.checked else task.at
  }

  function LastReading(task: Task): real
    requires Reads(task)
  {
    if task.Deal? then task.opportunity.stamped else task.at
  }

  // The clock never runs backwards, across restarts included.
  predicate Clocked(tasks: seq<Task>)
  {
    && (forall i :: 0 <= i < |tasks| && Reads(tasks[i]) ==> FirstReading(tasks[i]) <= LastReading(tasks[i]))
    && (forall i, j :: 0 <= i < j < |tasks| && Reads(tasks[i]) && Reads(tasks[j]) ==>
          LastReading(tasks[i]) <= FirstReading(tasks[j]))
  }

  // Whatever has happened by then lies before every later reading.
  ghost predicate Past(hs: seq<Happening>, tasks: seq<Task>, n: nat)
  {
    forall i, j :: 0 <= i < |hs| && hs[i].Ask? && n <= j < |tasks| && Reads(tasks[j]) ==> hs[i].stamped <= FirstReading(tasks[j])
  }

  lemma {:induction false} HappenedTicks(p: Plant, s: RiskSettings, cfg: Config, tasks: seq<Task>, n: nat)
    requires n <= |tasks| && Clocked(tasks)
    ensures Ticking(Happened(p, s, cfg, tasks, n)) && Past(Happened(p, s, cfg, tasks, n), tasks, n)
  {
    hide Work;
    if n > 0 {
      HappenedTicks(p, s, cfg, tasks, n - 1);
    }
  }

  // Whether a task hands an order to the executor: the gate approves it, or `execute_approved` goes on.
  ghost predicate HandsOver(p: Plant, s: RiskSettings, cfg: Config, task: Task)
  {
    match task
    case Deal(o) => !Consider(p.desk, s, cfg, o).1.Turned?
    case Manual(o, ruling, _) => Reaches(o, ruling)
    case _ => false
  }

  lemma LoggedTimes(log: seq<Handover>, p: Plant, s: RiskSettings, cfg: Config, task: Task)
    ensures Times(Logged(log, p, s, cfg, task))
            == Times(log) + if HandsOver(p, s, cfg, task) then [LastReading(task)] else []
  {
    hide Consider, Reaches;
    assert Times(Forgotten(log)) == Times(log);
    if HandsOver(p, s, cfg, task) {
      var more := log + [Handover(LastReading(task), task.Deal?)];
      assert Times(more) == Times(log) + [LastReading(task)];
    } else {
      assert Times(log) + [] == Times(log);
    }
  }

  // The times so far are in order, and before every later reading.
  ghost predicate Follow(times: seq<real>, tasks: seq<Task>, n: nat)
  {
    && Ordered(times)
    && forall i, j :: 0 <= i < |times| && n <= j < |tasks| && Reads(tasks[j]) ==> times[i] <= FirstReading(tasks[j])
  }

  lemma FollowOneMore(times: seq<real>, tasks: seq<Task>, n: nat)
    requires 0 < n <= |tasks| && Clocked(tasks) && Follow(times, tasks, n - 1)
    ensures Follow(times, tasks, n)
    ensures Reads(tasks[n - 1]) ==> Follow(times + [LastReading(tasks[n - 1])], tasks, n)
  {
    if Reads(tasks[n - 1]) {
      var more := times + [LastReading(tasks[n - 1])];
      forall i | 0 <= i < |times| ensures times[i] <= LastReading(tasks[n - 1]) {
        assert times[i] <= FirstReading(tasks[n - 1]);
      }
    }
  }

  lemma {:induction false} LogIsOrdered(p: Plant, s: RiskSettings, cfg: Config, tasks: seq<Task>, n: nat)
    requires n <= |tasks| && Clocked(tasks)
    ensures Follow(Times(Log(p, s, cfg, tasks, n)), tasks, n)
  {
    hide Work, Logged, Times, Follow, Clocked, LastReading, Consider, Reaches;
    if n == 0 {
      FollowNothing(tasks);
    } else {
      assert Times(Log(p, s, cfg, tasks, n - 1)) + [] == Times(Log(p, s, cfg, tasks, n - 1));
      LogIsOrdered(p, s, cfg, tasks, n - 1);
      LoggedTimes(Log(p, s, cfg, tasks, n - 1), PlantAfter(p, s, cfg, tasks, n - 1), s, cfg, tasks[n - 1]);
      FollowOneMore(Times(Log(p, s, cfg, tasks, n - 1)), tasks, n);
    }
  }

  lemma FollowNothing(tasks: seq<Task>)
    ensures Follow(Times([]), tasks, 0)
  {
  }

  lemma BaseIsFresh(g: Gate, tasks: seq<Task>, n: nat)
    requires n <= |tasks| && g.stamps == []
    ensures Base(g, tasks, n).stamps == []
  {
  }

  // However the engine is used, a minute holds at most as many handovers to the executor as the setting
  // allows, and those the gate has no record of: calls of `execute_approved`, and what was handed over before
  // the risk engine was made anew.
  lemma DispatchRateTheorem(quote: string, start: real, s: RiskSettings, cfg: Config, tasks: seq<Task>, from: real)
    requires Clocked(tasks)
    ensures var log := Log(OpeningPlant(quote, start), s, cfg, tasks, |tasks|);
            && CountIn(Times(log), from) <= s.maxTradesPerMinute + CountIn(Only(log, false), from)
            && Spaced(Only(log, true), s.maxTradesPerMinute)
  {
    hide Clocked, Happened, Log, Only, Times, Approvals, After, PlantAfter, OpeningWorld, SnapshotOf, CountIn, Save,
         Ticking, Spaced, LatestOf, Past;
    var p, n := OpeningPlant(quote, start), |tasks|;
    RunIsGateRun(p, s, cfg, tasks, n);
    HappenedTicks(p, s, cfg, tasks, n);
    BaseIsFresh(p.desk.gate, tasks, n);
    var hs := Happened(p, s, cfg, tasks, n);
    RunKeepsRate(Base(p.desk.gate, tasks, n), s, hs, |hs|);
    var log := Log(p, s, cfg, tasks, n);
    SpacedBoundsMinutes(Only(log, true), s.maxTradesPerMinute, from);
    CountSplits(log, from);
  }

  // There is room for what a task hands over, if it hands over anything: fewer than the setting in the minute
  // that ends with it.
  ghost predicate RoomAt(p: Plant, s: RiskSettings, cfg: Config, tasks: seq<Task>, n: nat)
    requires n < |tasks|
  {
    HandsOver(PlantAfter(p, s, cfg, tasks, n), s, cfg, tasks[n]) ==>
      CountIn(Times(Log(p, s, cfg, tasks, n)), LastReading(tasks[n]) - WINDOW) < s.maxTradesPerMinute
  }

  // Exactly when the rate holds for everything handed over: there must be room for each handover when it comes.
  // For its own approvals the gate sees to that among those it records; `execute_approved` does not ask.
  lemma RateHoldsIff(quote: string, start: real, s: RiskSettings, cfg: Config, tasks: seq<Task>)
    requires Clocked(tasks)
    ensures var opening := OpeningPlant(quote, start);
            (forall from :: CountIn(Times(Log(opening, s, cfg, tasks, |tasks|)), from) <= s.maxTradesPerMinute)
            <==> forall n :: 0 <= n < |tasks| ==> RoomAt(opening, s, cfg, tasks, n)
  {
    hide Clocked, Log, Times, CountIn, Spaced, OpeningPlant, RoomAt;
    var opening := OpeningPlant(quote, start);
    LogIsOrdered(opening, s, cfg, tasks, |tasks|);
    SpacedIff(Times(Log(opening, s, cfg, tasks, |tasks|)), s.maxTradesPerMinute);
    LogIsSpacedIff(opening, s, cfg, tasks, |tasks|);
  }

  lemma {:induction false} LogIsSpacedIff(p: Plant, s: RiskSettings, cfg: Config, tasks: seq<Task>, n: nat)
    requires n <= |tasks| && Clocked(tasks)
    ensures Spaced(Times(Log(p, s, cfg, tasks, n)), s.maxTradesPerMinute)
            <==> forall i :: 0 <= i < n ==> RoomAt(p, s, cfg, tasks, i)
  {
    hide Clocked, Times, CountIn, Spaced, Logged, PlantAfter, Consider, Reaches, Follow;
    if n > 0 {
      var times := Times(Log(p, s, cfg, tasks, n - 1));
      LogIsSpacedIff(p, s, cfg, tasks, n - 1);
      LogIsOrdered(p, s, cfg, tasks, n);
      LoggedTimes(Log(p, s, cfg, tasks, n - 1), PlantAfter(p, s, cfg, tasks, n - 1), s, cfg, tasks[n - 1]);
      if HandsOver(PlantAfter(p, s, cfg, tasks, n - 1), s, cfg, tasks[n - 1]) {
        FollowIsOrdered(times + [LastReading(tasks[n - 1])], tasks, n);
        OneMoreKeepsSpacedIff(times, s.maxTradesPerMinute, LastReading(tasks[n - 1]));
        assert RoomAt(p, s, cfg, tasks, n - 1)
               <==> CountIn(times, LastReading(tasks[n - 1]) - WINDOW) < s.maxTradesPerMinute;
      } else {
        assert times + [] == times;
        assert RoomAt(p, s, cfg, tasks, n - 1);
      }
    } else {
      NothingIsSpaced(s.maxTradesPerMinute);
    }
  }

  lemma FollowIsOrdered(times: seq<real>, tasks: seq<Task>, n: nat)
    requires n <= |tasks| && Follow(times, tasks, n)
    ensures Ordered(times)
  {
  }

  lemma NothingIsSpaced(rate: nat)
    ensures Spaced(Times([]), rate)
  {
  }

  // Used through `run_once` alone, by one risk engine, the engine keeps the rate.
  lemma RunOnceKeepsRate(quote: string, start: real, s: RiskSettings, cfg: Config, tasks: seq<Task>, from: real)
    requires Clocked(tasks)
    requires forall i :: 0 <= i < |tasks| ==> !tasks[i].Manual? && !(tasks[i].Reboot? && tasks[i].anew)
    ensures CountIn(Times(Log(OpeningPlant(quote, start), s, cfg, tasks, |tasks|)), from) <= s.maxTradesPerMinute
  {
    hide Clocked, Log, Times, CountIn, Spaced, OpeningPlant, Only;
    DispatchRateTheorem(quote, start, s, cfg, tasks, from);
    AllRecorded(OpeningPlant(quote, start), s, cfg, tasks, |tasks|);
    assert CountIn([], from) == 0 by { CountNothing(from); }
  }

  lemma CountNothing(from: real)
    ensures CountIn([], from) == 0
  {
  }

  lemma {:induction false} AllRecorded(p: Plant, s: RiskSettings, cfg: Config, tasks: seq<Task>, n: nat)
    requires n <= |tasks| && forall i :: 0 <= i < n ==> !tasks[i].Manual? && !(tasks[i].Reboot? && tasks[i].anew)
    ensures Only(Log(p, s, cfg, tasks, n), false) == []
  {
    hide Consider, Work;
    if n > 0 {
      AllRecorded(p, s, cfg, tasks, n - 1);
      if tasks[n - 1].Deal? {
        OnlyOneMore(Log(p, s, cfg, tasks, n - 1), Handover(tasks[n - 1].opportunity.stamped, true), false);
      }
    }
  }

  // ----- a stopped engine -----

  // The switch is recovered, or the risk engine that carries it is replaced.
  ghost predicate ReleasesAt(p: Plant, s: RiskSettings, cfg: Config, tasks: seq<Task>, n: nat)
    requires n < |tasks|
  {
    || (tasks[n].OnSwitch?
        && AcceptedRecovery(PlantAfter(p, s, cfg, tasks, n).desk.gate, Operate(tasks[n].act, tasks[n].now)))
    || (tasks[n].Reboot? && tasks[n].anew)
  }

  // What `execute_approved` hands over between two points of a run.
  function ManualHandovers(tasks: seq<Task>, i: nat, j: nat): seq<Handover>
    requires i <= j <= |tasks|
    decreases j - i
  {
    if i == j then []
    else
      ManualHandovers(tasks, i, j - 1)
      + if tasks[j - 1].Manual? && Reaches(tasks[j - 1].called, tasks[j - 1].ruling) then [Handover(tasks[j - 1].at, false)]
        else []
  }

  // From the moment the switch blocks until it is recovered or replaced, it stays blocked, and what is handed
  // to the executor is exactly what `execute_approved` is called for: `run_once` hands over nothing.
  lemma {:induction false} StoppedEngineTradesNothing(p: Plant, s: RiskSettings, cfg: Config, tasks: seq<Task>, i: nat, j: nat)
    requires Configured(s) && Audited(p.desk.gate.switch, s.failureLimit)
    requires i <= j <= |tasks|
    requires PlantAfter(p, s, cfg, tasks, i).desk.gate.switch.Blocks()
    requires forall m :: i <= m < j ==> !ReleasesAt(p, s, cfg, tasks, m)
    ensures PlantAfter(p, s, cfg, tasks, j).desk.gate.switch.Blocks()
    ensures Log(p, s, cfg, tasks, j) == Log(p, s, cfg, tasks, i) + ManualHandovers(tasks, i, j)
    decreases j - i
  {
    hide Consider, Refresh, Perform, Step, Approves, Audited, AcceptedRecovery, Configured, Dispatch, Restored, Reaches;
    if i == j {
      assert Log(p, s, cfg, tasks, i) + [] == Log(p, s, cfg, tasks, i);
    } else {
      StoppedEngineTradesNothing(p, s, cfg, tasks, i, j - 1);
      var before := PlantAfter(p, s, cfg, tasks, j - 1);
      ConfiguredLimits(s);
      GateStaysAudited(p, s, cfg, tasks, j - 1);
      assert !ReleasesAt(p, s, cfg, tasks, j - 1);
      match tasks[j - 1]
      case Deal(o) =>
        ConsiderAsks(before.desk, s, cfg, o);
        BlockedNeverApproves(before.desk.gate, s, Question(before.desk, o));
        NextKeepsAudit(before.desk.gate, s, Question(before.desk, o));
        QuestionIsNoRecovery(before.desk, o);
      case Look => RefreshKeepsGate(before.desk);
      case OnSwitch(act, now) => NextKeepsAudit(before.desk.gate, s, Operate(act, now));
      case Manual(o, ruling, at) =>
      case Between(_) =>
      case Reboot(_) =>
    }
  }

  lemma QuestionIsNoRecovery(d: Desk, o: Opportunity)
    ensures !AcceptedRecovery(d.gate, Question(d, o))
  {
  }

  lemma {:induction false} GateStaysAudited(p: Plant, s: RiskSettings, cfg: Config, tasks: seq<Task>, n: nat)
    requires n <= |tasks| && s.failureLimit > 0 && Audited(p.desk.gate.switch, s.failureLimit)
    ensures Audited(PlantAfter(p, s, cfg, tasks, n).desk.gate.switch, s.failureLimit)
  {
    hide Audited, Work;
    if n > 0 {
      GateStaysAudited(p, s, cfg, tasks, n - 1);
      WorkKeepsGate(PlantAfter(p, s, cfg, tasks, n - 1), s, cfg, tasks[n - 1]);
    }
  }

  // ----- `run_once` is such a run -----

  function Deals(os: seq<Opportunity>): (r: seq<Task>)
    ensures |r| == |os|
  {
    if os == [] then [] else [Deal(os[0])] + Deals(os[1..])
  }

  lemma {:induction false} FirstTaskFirst(p: Plant, s: RiskSettings, cfg: Config, task: Task, rest: seq<Task>, n: nat)
    requires n <= |rest|
    ensures PlantAfter(p, s, cfg, [task] + rest, n + 1) == PlantAfter(Work(p, s, cfg, task), s, cfg, rest, n)
  {
    hide Work;
    if n > 0 {
      FirstTaskFirst(p, s, cfg, task, rest, n - 1);
      assert ([task] + rest)[n] == rest[n - 1];
    } else {
      assert PlantAfter(p, s, cfg, [task] + rest, 0) == p;
    }
  }

  lemma {:induction false} ConsideringIsDealing(p: Plant, s: RiskSettings, cfg: Config, os: seq<Opportunity>)
    ensures var (last, outcomes) := ConsiderAll(p.desk, s, cfg, os);
            && |outcomes| <= |os|
            && PlantAfter(p, s, cfg, Deals(os[..|outcomes|]), |outcomes|) == p.(desk := last)
    decreases |os|
  {
    hide Consider;
    if os != [] {
      var next := Work(p, s, cfg, Deal(os[0]));
      if Consider(p.desk, s, cfg, os[0]).1.Raised? {
        assert os[..1] == [os[0]];
        FirstTaskFirst(p, s, cfg, Deal(os[0]), [], 0);
        assert Deals(os[..1]) == [Deal(os[0])] + [];
      } else {
        ConsideringIsDealing(next, s, cfg, os[1..]);
        var k := |ConsiderAll(next.desk, s, cfg, os[1..]).1|;
        assert os[..k + 1][0] == os[0] && os[..k + 1][1..] == os[1..][..k];
        FirstTaskFirst(p, s, cfg, Deal(os[0]), Deals(os[1..][..k]), k);
      }
    }
  }

  // A cycle of the engine is a look and a deal for each opportunity it gets to, so whatever holds after every
  // sequence of tasks holds after every cycle.
  lemma RunOnceIsTasks(p: Plant, s: RiskSettings, cfg: Config, os: seq<Opportunity>)
    ensures var (last, outcomes) := RunOnce(p.desk, s, cfg, os);
            && |outcomes| <= |os|
            && PlantAfter(p, s, cfg, [Look] + Deals(os[..|outcomes|]), |outcomes| + 1) == p.(desk := last)
  {
    hide ConsiderAll, Refresh, Deals;
    var next := Work(p, s, cfg, Look);
    ConsideringIsDealing(next, s, cfg, os);
    var k := |ConsiderAll(next.desk, s, cfg, os).1|;
    FirstTaskFirst(p, s, cfg, Look, Deals(os[..k]), k);
  }
}
