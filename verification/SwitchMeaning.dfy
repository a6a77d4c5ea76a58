// What each act does to the kill switch, field by field, and when failures in a row stop it
// (bot/risk/kill_switch.py).

module SwitchMeaning {
  import opened Prelude
  import opened KillSwitch

  // The switch in a new state, with what is written down about it.
  predicate MovedTo(k: Switch, after: Switch, state: State, reason: Reason, code: Option<string>, now: int)
  {
    var blocked := k.state == Paused || k.state == EmergencyStop;
    if k.state == state && k.reason == Some(reason) then after == k
    else
      && after.state == state && after.failures == k.failures && after.conditions == k.conditions
      && (if state == Running then after.reason == None && after.code == None && after.activatedAt == None
          else after.reason == Some(reason) && after.code == code)
      && (state == Warning ==> after.activatedAt == k.activatedAt)
      && (state == Paused || state == EmergencyStop ==>
            && after.activatedAt == Some(now)
            && after.events == k.events + [Activated(state, reason, code, k.state)])
      && (state == Running || state == Warning ==>
            after.events == if blocked then k.events + [Recovered(state, reason, code, k.state)] else k.events)
  }

  predicate Follows(k: Switch, limit: nat, act: Act, now: int, after: Switch)
  {
    var blocked := k.state == Paused || k.state == EmergencyStop;
    match act
    case Warn(reason, code) => if blocked then after == k else MovedTo(k, after, Warning, reason, code, now)
    case Pause(reason, code) =>
      if k.state == EmergencyStop then after == k else MovedTo(k, after, Paused, reason, code, now)
    case Stop(reason, code) => MovedTo(k, after, EmergencyStop, reason, code, now)
    case Succeed => after == k.(failures := 0)
    case Fail(reason) =>
      if k.failures + 1 < limit then after == k.(failures := k.failures + 1)
      else
        MovedTo(k.(failures := k.failures + 1), after, EmergencyStop,
                Reason(reason.text, [(k.failures + 1) as real, limit as real] + reason.figures), Some("KILL_SWITCH"), now)
    case Report(conditions) => after == k.(conditions := Some(conditions))
    case Recover(force) =>
      if k.state == Running then after == k
      else if k.state == Warning then MovedTo(k, after, Running, Reason("warning cleared", []), None, now)
      else if force || (k.conditions.Some? && k.conditions.value == Conditions(true, true, true, true, true)) then
        MovedTo(k.(failures := 0), after, Running, Reason("manual recovery accepted", []), None, now)
      else after == k
  }

  // Every act, in every state.
  lemma ActsFollow(k: Switch, limit: nat, requireManual: bool, act: Act, now: int)
    ensures Follows(k, limit, act, now, Perform(k, limit, requireManual, act, now))
  {
  }

  // `recover` says yes exactly when the switch is running afterwards.
  lemma RecoveryAnswers(k: Switch, limit: nat, force: bool, requireManual: bool, now: int)
    ensures Recovers(k, force, requireManual)
            <==> Perform(k, limit, requireManual, Recover(force), now).state == Running
  {
  }

  // The failures since the last success.
  function Streak(before: nat, outcomes: seq<bool>): nat
  {
    if outcomes == [] then before
    else if outcomes[|outcomes| - 1] then 0
    else Streak(before, outcomes[..|outcomes| - 1]) + 1
  }

  function Outcomes(outcomes: seq<bool>, reason: Reason, now: int): seq<(Act, int)>
  {
    seq(|outcomes|, i requires 0 <= i < |outcomes| => (if outcomes[i] then Succeed else Fail(reason), now))
  }

  ghost predicate NeverInARow(limit: nat, before: nat, outcomes: seq<bool>)
  {
    forall n :: 0 <= n <= |outcomes| ==> Streak(before, outcomes[..n]) < limit
  }

  lemma {:induction false} HistoryOneMore(k: Switch, limit: nat, requireManual: bool, acts: seq<(Act, int)>, act: (Act, int))
    ensures History(k, limit, requireManual, acts + [act])
            == Perform(History(k, limit, requireManual, acts), limit, requireManual, act.0, act.1)
    decreases |acts|
  {
    hide Perform;
    if acts == [] {
      assert [act][1..] == [];
      assert acts + [act] == [act];
    } else {
      assert (acts + [act])[0] == acts[0] && (acts + [act])[1..] == acts[1..] + [act];
      HistoryOneMore(Perform(k, limit, requireManual, acts[0].0, acts[0].1), limit, requireManual, acts[1..], act);
    }
  }

  // As long as there have never been `limit` failures in a row, executions that fail and succeed in any order
  // leave the state of the switch alone.
  lemma {:induction false} FewFailuresDoNothing(k: Switch, limit: nat, requireManual: bool, outcomes: seq<bool>,
                                                reason: Reason, now: int)
    requires NeverInARow(limit, k.failures, outcomes)
    ensures History(k, limit, requireManual, Outcomes(outcomes, reason, now))
            == k.(failures := Streak(k.failures, outcomes))
    decreases |outcomes|
  {
    if outcomes != [] {
      var n := |outcomes| - 1;
      var rest := outcomes[..n];
      forall m | 0 <= m <= |rest| ensures Streak(k.failures, rest[..m]) < limit { assert rest[..m] == outcomes[..m]; }
      assert outcomes[..|outcomes|] == outcomes;
      FewFailuresDoNothing(k, limit, requireManual, rest, reason, now);
      assert Outcomes(outcomes, reason, now) == Outcomes(rest, reason, now) + [Outcomes(outcomes, reason, now)[n]];
      HistoryOneMore(k, limit, requireManual, Outcomes(rest, reason, now), Outcomes(outcomes, reason, now)[n]);
    }
  }

  // And the failure that completes the row stops it.
  lemma FailureRowStops(k: Switch, limit: nat, requireManual: bool, outcomes: seq<bool>, reason: Reason, now: int)
    requires NeverInARow(limit, k.failures, outcomes) && Streak(k.failures, outcomes) + 1 == limit
    ensures History(k, limit, requireManual, Outcomes(outcomes + [false], reason, now)).state == EmergencyStop
  {
    hide NeverInARow, Streak;
    FewFailuresDoNothing(k, limit, requireManual, outcomes, reason, now);
    assert Outcomes(outcomes + [false], reason, now) == Outcomes(outcomes, reason, now) + [(Fail(reason), now)];
    HistoryOneMore(k, limit, requireManual, Outcomes(outcomes, reason, now), (Fail(reason), now));
  }
}
