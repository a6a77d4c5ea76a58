// The trading engine: the risk engine and the paper executor driven opportunity by opportunity
// (bot/engine/orchestrator.py). Proved against Engine.RunOnce, which EngineTheorems.RunOnceIsTasks takes apart into
// the tasks the theorems are about, and against Engine.ExecuteApproved.

module TradingEngine {
  import opened Prelude
  import opened Ledger
  import opened PaperExecution
  import opened KillSwitch
  import opened RiskGate
  import opened RiskEngine
  import opened Engine
  import PaperExecutor

  class TradingEngine {
    const risk: RiskEngine
    const executor: PaperExecutor.PaperExecutor

    constructor (risk: RiskEngine, executor: PaperExecutor.PaperExecutor)
      requires risk.Valid() && executor.Valid()
      ensures this.risk == risk && this.executor == executor && Valid()
    {
      this.risk, this.executor := risk, executor;
    }

    ghost predicate Valid()
      reads this, risk, risk.killSwitch, executor
    {
      risk.Valid() && executor.Valid()
    }

    ghost function View(snapshot: PortfolioSnapshot): Desk
      reads risk, risk.killSwitch, executor, executor.portfolio, executor.portfolio.state, executor.portfolio.accounting,
            executor.manager, executor.tracker
    {
      Desk(executor.View(), risk.View(), snapshot)
    }

    // `_execute_opportunity`: a limit order at the entry price for what was granted.
    method ExecuteOpportunity(o: Opportunity, decision: Decision) returns (result: Option<ExecutionResult>)
      requires Valid() && decision.Approved?
      modifies executor`history, executor.portfolio.state, executor.portfolio.accounting, executor.manager, executor.tracker
      ensures Valid() && risk.View() == old(risk.View())
      ensures (executor.View(), result) == Dispatch(old(executor.View()), executor.cfg, o, decision.quantity)
    {
      hide Execute, Audited;
      var quantity := if decision.quantity != 0.0 then decision.quantity else o.quantity;
      if quantity <= 0.0 {
        return None;
      }
      var request := OrderRequest(o.orderId, o.symbol, o.side, quantity, Some(o.entryPrice));
      result := executor.Execute(request, Limit, o.book, o.fillId);
    }

    // `execute_approved`. Not accepted means that the exception for a wrong decision leaves.
    method ExecuteApproved(o: Opportunity, ruling: Ruling, ghost shown: PortfolioSnapshot)
      returns (accepted: bool, result: Option<ExecutionResult>)
      requires Valid()
      modifies executor`history, executor.portfolio.state, executor.portfolio.accounting, executor.manager, executor.tracker
      ensures Valid() && accepted == Honoured(o, ruling)
      ensures (View(shown), result) == Engine.ExecuteApproved(old(View(shown)), executor.cfg, o, ruling)
    {
      hide Dispatch, Audited;
      if !ruling.decision.Approved? {
        return false, None;
      }
      if ruling.opportunityId != o.id {
        return false, None;
      }
      accepted := true;
      result := ExecuteOpportunity(o, ruling.decision);
    }

    // One turn of the loop of `run_once`.
    method ConsiderOne(o: Opportunity, shown: PortfolioSnapshot) returns (snapshot: PortfolioSnapshot, outcome: Outcome)
      requires Valid()
      modifies risk, risk.killSwitch, executor`history, executor.portfolio.state, executor.portfolio.accounting,
               executor.manager, executor.tracker
      ensures Valid()
      ensures (View(snapshot), outcome) == Consider(old(View(shown)), risk.settings, executor.cfg, o)
    {
      hide Dispatch, Audited, Decide, SetMark, SnapshotOf, MarkToMarket, ObserveEquity;
      snapshot := shown;
      if o.last.Some? {
        executor.portfolio.SetMarkPrice(o.symbol, o.last.value);
      }
      ghost var marked := executor.View();
      assert marked == MarkLast(old(executor.View()), o);
      assert risk.View() == old(risk.View());
      var decision := risk.Evaluate(o.Asked(), shown, o.context, o.checked, o.stamped, o.now);
      assert executor.View() == marked;
      if decision.Rejected? {
        outcome := Turned(decision);
        return;
      }
      var result := ExecuteOpportunity(o, decision);
      if result.None? {
        outcome := Raised(decision);
        return;
      }
      ghost var before := executor.View();
      ghost var gate := risk.View();
      snapshot := executor.portfolio.GetSnapshot();
      assert executor.View() == before.(account := ObserveEquity(MarkToMarket(before.account)));
      assert risk.View() == gate;
      outcome := Executed(decision, result.value);
    }

    // The loop of `run_once`. An exception ends it.
    method ConsiderEach(os: seq<Opportunity>, shown: PortfolioSnapshot)
      returns (outcomes: seq<Outcome>, snapshot: PortfolioSnapshot)
      requires Valid()
      modifies risk, risk.killSwitch, executor`history, executor.portfolio.state, executor.portfolio.accounting,
               executor.manager, executor.tracker
      ensures Valid()
      ensures (View(snapshot), outcomes) == ConsiderAll(old(View(shown)), risk.settings, executor.cfg, os)
    {
      hide Consider, View, RiskEngine.Valid, Joins;
      snapshot, outcomes := shown, [];
      var i := 0;
      ghost var whole := ConsiderAll(View(shown), risk.settings, executor.cfg, os);
      ghost var rest := whole;
      assert Joins(whole, [], rest) by { JoinStart(whole); }
      assert os[i..] == os;
      while i < |os|
        invariant 0 <= i <= |os|
        invariant Valid()
        invariant rest == ConsiderAll(View(snapshot), risk.settings, executor.cfg, os[i..])
        invariant Joins(whole, outcomes, rest)
      {
        assert os[i..][0] == os[i] && os[i..][1..] == os[i + 1..];
        var outcome;
        snapshot, outcome := ConsiderOne(os[i], snapshot);
        if outcome.Raised? {
          JoinEnd(whole, outcomes, rest, outcome);
          outcomes := outcomes + [outcome];
          return;
        }
        ghost var later := ConsiderAll(View(snapshot), risk.settings, executor.cfg, os[i + 1..]);
        JoinNext(whole, outcomes, rest, outcome, later);
        outcomes, rest := outcomes + [outcome], later;
        i := i + 1;
      }
      JoinNone(whole, outcomes, rest);
    }

    // `run_once`, given the opportunities.
    method RunOnce(os: seq<Opportunity>, ghost shown: PortfolioSnapshot)
      returns (outcomes: seq<Outcome>, snapshot: PortfolioSnapshot)
      requires Valid()
      modifies risk, risk.killSwitch, executor`history, executor.portfolio.state, executor.portfolio.accounting,
               executor.manager, executor.tracker
      ensures Valid()
      ensures (View(snapshot), outcomes) == Engine.RunOnce(old(View(shown)), risk.settings, executor.cfg, os)
    {
      hide ConsiderAll, Audited, SnapshotOf, MarkToMarket, ObserveEquity;
      var first := executor.portfolio.GetSnapshot();
      outcomes, snapshot := ConsiderEach(os, first);
    }
  }

  // The outcomes so far and those still to come make up the whole.
  ghost predicate Joins(whole: (Desk, seq<Outcome>), outcomes: seq<Outcome>, rest: (Desk, seq<Outcome>))
  {
    whole == (rest.0, outcomes + rest.1)
  }

  lemma JoinStart(whole: (Desk, seq<Outcome>))
    ensures Joins(whole, [], whole)
  {
    assert [] + whole.1 == whole.1;
  }

  lemma JoinNext(whole: (Desk, seq<Outcome>), outcomes: seq<Outcome>, rest: (Desk, seq<Outcome>), outcome: Outcome,
                 later: (Desk, seq<Outcome>))
    requires Joins(whole, outcomes, rest) && rest == (later.0, [outcome] + later.1)
    ensures Joins(whole, outcomes + [outcome], later)
  {
    assert outcomes + ([outcome] + later.1) == outcomes + [outcome] + later.1;
  }

  lemma JoinEnd(whole: (Desk, seq<Outcome>), outcomes: seq<Outcome>, rest: (Desk, seq<Outcome>), outcome: Outcome)
    requires Joins(whole, outcomes, rest) && rest.1 == [outcome]
    ensures whole == (rest.0, outcomes + [outcome])
  {
  }

  lemma JoinNone(whole: (Desk, seq<Outcome>), outcomes: seq<Outcome>, rest: (Desk, seq<Outcome>))
    requires Joins(whole, outcomes, rest) && rest.1 == []
    ensures whole == (rest.0, outcomes)
  {
    assert outcomes + [] == outcomes;
  }
}
