// What the trading engine does with one opportunity, and with a cycle of them, told from the outside
// (bot/engine/orchestrator.py, `run_once`, `execute_approved`).

module EngineAnswer {
  import opened Prelude
  import opened Ledger
  import opened PaperExecution
  import opened ExecutionAnswer
  import opened RiskGate
  import opened Engine

  // The limit order for an opportunity: what was granted, or all of it when that is zero, at the entry price.
  function OrderFor(o: Opportunity, granted: real): Order
  {
    Order(o.orderId, o.symbol, o.side, Limit, if granted == 0.0 then o.quantity else granted, Some(o.entryPrice),
          Pending, 0.0, None, 0.0, 0.0, [], None)
  }

  // The order was handed to the executor and answered; or it was refused before that, and nothing happened.
  ghost predicate HandedOver(w: World, o: Opportunity, granted: real, after: World, answer: Option<ExecutionResult>)
  {
    var order := OrderFor(o, granted);
    if order.requestedQuantity <= 0.0 then after == w && answer == None
    else AnswerAgrees(w, order, after, answer, o.fillId)
  }

  lemma DispatchHandsOver(w: World, cfg: Config, o: Opportunity, granted: real)
    ensures var (after, answer) := Dispatch(w, cfg, o, granted); HandedOver(w, o, granted, after, answer)
  {
    hide Execute, AnswerAgrees;
    if o.Request(granted).quantity > 0.0 { AnswerIsWorld(w, cfg, o.Request(granted), Limit, o.book, o.fillId); }
  }

  // The world with the symbol's last price as its mark, when one is known.
  ghost predicate PriceMarked(w: World, o: Opportunity, marked: World)
  {
    && marked.orders == w.orders && marked.fills == w.fills && marked.results == w.results && marked.history == w.history
    && marked.account.balances == w.account.balances && marked.account.positions == w.account.positions
    && marked.account.processed == w.account.processed && marked.account.quote == w.account.quote
    && marked.account.marks == (if o.last.Some? then w.account.marks[o.symbol := o.last.value] else w.account.marks)
    && (o.last.None? ==> marked == w)
  }

  lemma LastIsMarked(w: World, o: Opportunity)
    ensures PriceMarked(w, o, MarkLast(w, o))
  {
    hide Observe, Equity, Total;
  }

  // The account as a look at the portfolio leaves it.
  ghost predicate LookedAt(a: Account, after: Account)
  {
    && after.balances == a.balances && after.positions == a.positions && after.marks == a.marks
    && after.processed == a.processed && after.quote == a.quote
    && after.stats.unrealizedPnl == Total(UnrealizedGains(a.positions, a.marks))
    && after.stats.realizedPnl == a.stats.realizedPnl && after.stats.trades == a.stats.trades
    && after.stats.peakEquity == Max(a.stats.peakEquity, Equity(a))
  }

  lemma LookSees(d: Desk)
    ensures var after := Refresh(d);
            && LookedAt(d.world.account, after.world.account)
            && after.world == d.world.(account := after.world.account)
            && after.snapshot == SnapshotOf(after.world.account) && after.gate == d.gate
  {
    hide Equity, Total;
    SameEquity(d.world.account);
  }

  lemma SameEquity(a: Account)
    ensures Equity(MarkToMarket(a)) == Equity(a)
  {
    hide Total, UnrealizedGains, MarketValues, BalanceOf;
  }

  // One opportunity: its price is marked, the gate is asked with what it is shown, and what it approves is handed
  // over for the quantity it grants. Only after an execution is the portfolio looked at again; a rejection and an
  // exception leave the gate with what it was shown before.
  ghost predicate Considered(d: Desk, s: RiskSettings, o: Opportunity, marked: World, handed: World, next: Desk,
                             outcome: Outcome)
  {
    var (gate, decision) := Decide(d.gate, s, o.Asked(), d.snapshot, o.context, o.checked, o.stamped, o.now);
    && next.gate == gate && outcome.decision == decision
    && PriceMarked(d.world, o, marked)
    && match outcome
       case Turned(_) => decision.Rejected? && next.world == marked && next.snapshot == d.snapshot
       case Raised(_) =>
         && decision.Approved? && HandedOver(marked, o, decision.quantity, handed, None)
         && next.world == handed && next.snapshot == d.snapshot
       case Executed(_, result) =>
         && decision.Approved? && HandedOver(marked, o, decision.quantity, handed, Some(result))
         && next.world == handed.(account := next.world.account) && LookedAt(handed.account, next.world.account)
         && next.snapshot == SnapshotOf(next.world.account)
  }

  lemma ConsiderTells(d: Desk, s: RiskSettings, cfg: Config, o: Opportunity)
    ensures var (next, outcome) := Consider(d, s, cfg, o);
            exists marked, handed :: Considered(d, s, o, marked, handed, next, outcome)
  {
    hide Decide, Dispatch, MarkLast, Refresh, HandedOver, PriceMarked, LookedAt;
    var (next, outcome) := Consider(d, s, cfg, o);
    var (gate, decision) := Decide(d.gate, s, o.Asked(), d.snapshot, o.context, o.checked, o.stamped, o.now);
    var marked := MarkLast(d.world, o);
    LastIsMarked(d.world, o);
    if decision.Rejected? {
      assert Considered(d, s, o, marked, marked, next, outcome);
    } else {
      var (handed, answer) := Dispatch(marked, cfg, o, decision.quantity);
      DispatchHandsOver(marked, cfg, o, decision.quantity);
      if answer.Some? { LookSees(Desk(handed, gate, d.snapshot)); }
      assert Considered(d, s, o, marked, handed, next, outcome);
    }
  }

  // The desks a cycle goes through, one after each opportunity.
  ghost predicate Cycle(desks: seq<Desk>, s: RiskSettings, cfg: Config, os: seq<Opportunity>, outcomes: seq<Outcome>)
  {
    && |outcomes| <= |os| && |desks| == |outcomes| + 1
    && (forall i :: 0 <= i < |outcomes| ==> Consider(desks[i], s, cfg, os[i]) == (desks[i + 1], outcomes[i]))
    && (forall i :: 0 <= i < |outcomes| - 1 ==> !outcomes[i].Raised?)
    && (|outcomes| < |os| ==> outcomes != [] && outcomes[|outcomes| - 1].Raised?)
  }

  // A cycle looks at the portfolio and then considers every opportunity in turn; only an exception ends it early.
  lemma {:induction false} EachIsConsidered(d: Desk, s: RiskSettings, cfg: Config, os: seq<Opportunity>)
    returns (desks: seq<Desk>)
    ensures var (next, outcomes) := ConsiderAll(d, s, cfg, os);
            Cycle(desks, s, cfg, os, outcomes) && desks[0] == d && desks[|outcomes|] == next
    decreases |os|
  {
    hide Consider;
    desks := [d];
    if os != [] {
      var (next, outcome) := Consider(d, s, cfg, os[0]);
      if outcome.Raised? {
        desks := [d, next];
      } else {
        var later := EachIsConsidered(next, s, cfg, os[1..]);
        desks := [d] + later;
        var outcomes := ConsiderAll(d, s, cfg, os).1;
        assert outcomes == [outcome] + ConsiderAll(next, s, cfg, os[1..]).1;
        forall i | 0 <= i < |outcomes| ensures Consider(desks[i], s, cfg, os[i]) == (desks[i + 1], outcomes[i]) {
          if i > 0 { assert os[1..][i - 1] == os[i]; }
        }
      }
    }
  }

  lemma CycleTheorem(d: Desk, s: RiskSettings, cfg: Config, os: seq<Opportunity>)
    ensures var (next, outcomes) := RunOnce(d, s, cfg, os);
            exists desks :: Cycle(desks, s, cfg, os, outcomes) && desks[0] == Refresh(d) && desks[|outcomes|] == next
  {
    hide Refresh, ConsiderAll, Consider;
    var desks := EachIsConsidered(Refresh(d), s, cfg, os);
  }
}
