// The kill switch: RUNNING / WARNING / PAUSED / EMERGENCY_STOP, its audit events, and recovery
// (bot/risk/kill_switch.py).

module KillSwitch {
  import opened Prelude

  datatype State = Running | Warning | Paused | EmergencyStop

  // A reason as it is logged: the text and the figures written into it.
  datatype Reason = Reason(text: string, figures: seq<real>)

  datatype AuditEvent =
    | Activated(state: State, reason: Reason, code: Option<string>, previous: State)
    | Recovered(state: State, reason: Reason, code: Option<string>, previous: State)

  // The recovery conditions as last reported; a key that is missing counts as not met.
  datatype Conditions = Conditions(
    dailyLossOk: bool,
    drawdownOk: bool,
    marketDataFresh: bool,
    exchangeHealthy: bool,
    executionStable: bool
  )
  {
    predicate AllMet() { dailyLossOk && drawdownOk && marketDataFresh && exchangeHealthy && executionStable }
  }

  datatype Switch = Switch(
    state: State,
    reason: Option<Reason>,
    code: Option<string>,
    activatedAt: Option<int>,
    failures: nat,
    conditions: Option<Conditions>,
    events: seq<AuditEvent>
  )
  {
    predicate AllowsNewOrders() { state.Running? || state.Warning? }

    predicate Blocks() { state.Paused? || state.EmergencyStop? }

    predicate RecoveryConditionsMet() { conditions.Some? && conditions.value.AllMet() }
  }

  const FRESH_SWITCH := Switch(Running, None, None, None, 0, None, [])

  const WARNING_CLEARED := Reason("warning cleared", [])
  const RECOVERY_ACCEPTED := Reason("manual recovery accepted", [])

  // `_transition`
  function Transition(k: Switch, to: State, reason: Reason, code: Option<string>, now: int): Switch
  {
    if k.state == to && k.reason == Some(reason) then k
    else
      var moved := k.(state := to,
                      reason := if to.Running? then None else Some(reason),
                      code := if to.Running? then None else code,
                      activatedAt := if to.Paused? || to.EmergencyStop? then Some(now)
                                     else if to.Running? then None else k.activatedAt);
      if to.Paused? || to.EmergencyStop? then
        moved.(events := k.events + [Activated(to, reason, code, k.state)])
      else if k.Blocks() then
        moved.(events := k.events + [Recovered(to, reason, code, k.state)])
      else moved
  }

  // What can happen to the switch.
  datatype Act =
    | Warn(reason: Reason, code: Option<string>)
    | Pause(reason: Reason, code: Option<string>)
    | Stop(reason: Reason, code: Option<string>)
    | Succeed
    | Fail(reason: Reason)
    | Report(conditions: Conditions)
    | Recover(force: bool)

  function FailureReason(reason: Reason, failures: nat, limit: nat): Reason
  {
    Reason(reason.text, [failures as real, limit as real] + reason.figures)
  }

  // Whether `recover` says yes. The configuration's demand for manual recovery adds nothing: both
  // refusals test the same conditions.
  predicate Recovers(k: Switch, force: bool, requireManual: bool)
  {
    if k.state.Running? || k.state.Warning? then true
    else if !force && requireManual && !k.RecoveryConditionsMet() then false
    else if !force && !k.RecoveryConditionsMet() then false
    else true
  }

  function Perform(k: Switch, limit: nat, requireManual: bool, act: Act, now: int): Switch
  {
    match act
    case Warn(reason, code) => if k.Blocks() then k else Transition(k, Warning, reason, code, now)
    case Pause(reason, code) => if k.state.EmergencyStop? then k else Transition(k, Paused, reason, code, now)
    case Stop(reason, code) => Transition(k, EmergencyStop, reason, code, now)
    case Succeed => k.(failures := 0)
    case Fail(reason) =>
      var counted := k.(failures := k.failures + 1);
      if counted.failures >= limit then
        Transition(counted, EmergencyStop, FailureReason(reason, counted.failures, limit), Some("KILL_SWITCH"), now)
      else counted
    case Report(conditions) => k.(conditions := Some(conditions))
    case Recover(force) =>
      if k.state.Running? || !Recovers(k, force, requireManual) then k
      else if k.state.Warning? then Transition(k, Running, WARNING_CLEARED, None, now)
      else Transition(k, Running, RECOVERY_ACCEPTED, None, now).(failures := 0)
  }

  // ----- the audit trail tells the state -----

  // The switch blocks exactly when the last audit event is an activation, and then that event carries the
  // state and the reason; enough failures in a row mean an emergency stop; the activation time is kept
  // exactly while the switch blocks.
  predicate Audited(k: Switch, limit: nat)
  {
    && (k.Blocks() <==> |k.events| > 0 && k.events[|k.events| - 1].Activated?)
    && (k.Blocks() ==>
          var last := k.events[|k.events| - 1];
          last.state == k.state && k.reason == Some(last.reason) && k.code == last.code)
    && (k.failures >= limit ==> k.state.EmergencyStop?)
    && (k.activatedAt.Some? <==> k.Blocks())
    && (k.state.Running? ==> k.reason.None?)
  }

  lemma FreshIsAudited(limit: nat)
    requires limit > 0
    ensures Audited(FRESH_SWITCH, limit)
  {
  }

  lemma PerformKeepsAudit(k: Switch, limit: nat, requireManual: bool, act: Act, now: int)
    requires limit > 0 && Audited(k, limit)
    ensures Audited(Perform(k, limit, requireManual, act, now), limit)
    ensures k.events <= Perform(k, limit, requireManual, act, now).events
  {
  }

  function History(k: Switch, limit: nat, requireManual: bool, acts: seq<(Act, int)>): Switch
    decreases |acts|
  {
    if acts == [] then k
    else History(Perform(k, limit, requireManual, acts[0].0, acts[0].1), limit, requireManual, acts[1..])
  }

  // After any history at all, the last audit event decides whether new orders are allowed.
  lemma {:induction false} AuditTrailTheorem(k: Switch, limit: nat, requireManual: bool, acts: seq<(Act, int)>)
    requires limit > 0 && Audited(k, limit)
    ensures Audited(History(k, limit, requireManual, acts), limit)
    ensures k.events <= History(k, limit, requireManual, acts).events
    decreases |acts|
  {
    hide Audited, Perform;
    if acts != [] {
      PerformKeepsAudit(k, limit, requireManual, acts[0].0, acts[0].1);
      AuditTrailTheorem(Perform(k, limit, requireManual, acts[0].0, acts[0].1), limit, requireManual, acts[1..]);
    }
  }

  // ----- recovery -----

  // A blocked switch starts running again exactly through `recover`, forced or with all five conditions
  // reported as met; the setting that demands manual recovery makes no difference.
  lemma UnblocksIff(k: Switch, limit: nat, requireManual: bool, act: Act, now: int)
    requires k.Blocks()
    ensures !Perform(k, limit, requireManual, act, now).Blocks()
            <==> act.Recover? && (act.force || k.RecoveryConditionsMet())
    ensures Perform(k, limit, requireManual, act, now) == Perform(k, limit, !requireManual, act, now)
    ensures !Perform(k, limit, requireManual, act, now).Blocks() ==>
              && Perform(k, limit, requireManual, act, now).state.Running?
              && Perform(k, limit, requireManual, act, now).failures == 0
              && Perform(k, limit, requireManual, act, now).events
                 == k.events + [Recovered(Running, RECOVERY_ACCEPTED, None, k.state)]
  {
  }

  // The conditions are those last reported, not those of the moment: right after failures have stopped a
  // switch whose last report was good, an unforced recovery is accepted.
  lemma RecoveryUsesStaleConditions(k: Switch, limit: nat, requireManual: bool, reason: Reason, now: int)
    requires k.AllowsNewOrders() && k.RecoveryConditionsMet() && k.failures + 1 >= limit
    ensures var stopped := Perform(k, limit, requireManual, Fail(reason), now);
            && stopped.state.EmergencyStop? && stopped.failures >= limit
            && Perform(stopped, limit, requireManual, Recover(false), now).state.Running?
  {
  }

  // Once the instability has been reported, no unforced recovery succeeds until something else is reported:
  // acts other than a report and a forced recovery leave the switch blocked.
  lemma {:induction false} ReportedInstabilityHolds(k: Switch, limit: nat, requireManual: bool, acts: seq<(Act, int)>)
    requires k.Blocks() && k.conditions.Some? && !k.conditions.value.AllMet()
    requires forall i :: 0 <= i < |acts| ==> !acts[i].0.Report? && acts[i].0 != Recover(true)
    ensures History(k, limit, requireManual, acts).Blocks()
    decreases |acts|
  {
    if acts != [] {
      assert !acts[0].0.Report? && acts[0].0 != Recover(true);
      ReportedInstabilityHolds(Perform(k, limit, requireManual, acts[0].0, acts[0].1), limit, requireManual, acts[1..]);
    }
  }

  // ----- the object -----

  class KillSwitch {
    const failureLimit: nat
    const requireManualRecovery: bool
    var state: State
    var reason: Option<Reason>
    var code: Option<string>
    var activatedAt: Option<int>
    var failures: nat
    var conditions: Option<Conditions>
    var events: seq<AuditEvent>  // what the event handler has received

    ghost function View(): Switch
      reads this
    {
      Switch(state, reason, code, activatedAt, failures, conditions, events)
    }

    ghost predicate Valid()
      reads this
    {
      failureLimit > 0 && Audited(View(), failureLimit)
    }

    constructor (failureLimit: nat, requireManualRecovery: bool)
      requires failureLimit > 0
      ensures Valid() && View() == FRESH_SWITCH
      ensures this.failureLimit == failureLimit && this.requireManualRecovery == requireManualRecovery
    {
      this.failureLimit, this.requireManualRecovery := failureLimit, requireManualRecovery;
      state, reason, code, activatedAt := Running, None, None, None;
      failures, conditions, events := 0, None, [];
    }

    method Transit(to: State, why: Reason, code: Option<string>, now: int)
      modifies this
      ensures View() == Transition(old(View()), to, why, code, now)
    {
      var previous := state;
      if previous == to && reason == Some(why) {
        return;
      }
      state, reason, this.code := to, Some(why), code;
      if to.Paused? || to.EmergencyStop? {
        activatedAt := Some(now);
      }
      if to.Running? {
        activatedAt, reason, this.code := None, None, None;
      }
      if to.Paused? || to.EmergencyStop? {
        events := events + [Activated(to, why, code, previous)];
      } else if previous.Paused? || previous.EmergencyStop? {
        events := events + [Recovered(to, why, code, previous)];
      }
    }

    method DoWarn(why: Reason, code: Option<string>, now: int)
      requires Valid()
      modifies this
      ensures Valid() && View() == Perform(old(View()), failureLimit, requireManualRecovery, Warn(why, code), now)
    {
      PerformKeepsAudit(View(), failureLimit, requireManualRecovery, Warn(why, code), now);
      if state.Paused? || state.EmergencyStop? {
        return;
      }
      Transit(Warning, why, code, now);
    }

    method DoPause(why: Reason, code: Option<string>, now: int)
      requires Valid()
      modifies this
      ensures Valid() && View() == Perform(old(View()), failureLimit, requireManualRecovery, Pause(why, code), now)
    {
      PerformKeepsAudit(View(), failureLimit, requireManualRecovery, Pause(why, code), now);
      if state.EmergencyStop? {
        return;
      }
      Transit(Paused, why, code, now);
    }

    method DoStop(why: Reason, code: Option<string>, now: int)
      requires Valid()
      modifies this
      ensures Valid() && View() == Perform(old(View()), failureLimit, requireManualRecovery, Stop(why, code), now)
    {
      PerformKeepsAudit(View(), failureLimit, requireManualRecovery, Stop(why, code), now);
      Transit(EmergencyStop, why, code, now);
    }

    method RecordSuccess(now: int)
      requires Valid()
      modifies this
      ensures Valid() && View() == Perform(old(View()), failureLimit, requireManualRecovery, Succeed, now)
    {
      failures := 0;
    }

    method RecordFailure(why: Reason, now: int)
      requires Valid()
      modifies this
      ensures Valid() && View() == Perform(old(View()), failureLimit, requireManualRecovery, Fail(why), now)
    {
      PerformKeepsAudit(View(), failureLimit, requireManualRecovery, Fail(why), now);
      failures := failures + 1;
      if failures >= failureLimit {
        Transit(EmergencyStop, FailureReason(why, failures, failureLimit), Some("KILL_SWITCH"), now);
      }
    }

    method UpdateConditions(reported: Conditions, now: int)
      requires Valid()
      modifies this
      ensures Valid() && View() == Perform(old(View()), failureLimit, requireManualRecovery, Report(reported), now)
    {
      conditions := Some(reported);
    }

    method DoRecover(force: bool, now: int) returns (accepted: bool)
      requires Valid()
      modifies this
      ensures Valid() && View() == Perform(old(View()), failureLimit, requireManualRecovery, Recover(force), now)
      ensures accepted == Recovers(old(View()), force, requireManualRecovery)
    {
      PerformKeepsAudit(View(), failureLimit, requireManualRecovery, Recover(force), now);
      if state.Running? {
        return true;
      }
      if state.Warning? {
        Transit(Running, WARNING_CLEARED, None, now);
        return true;
      }
      var met := conditions.Some? && conditions.value.AllMet();
      if !force && requireManualRecovery {
        if !met {
          return false;
        }
      }
      if !force && !met {
        return false;
      }
      Transit(Running, RECOVERY_ACCEPTED, None, now);
      failures := 0;
      accepted := true;
    }
  }
}
