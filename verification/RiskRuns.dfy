// Whole runs of the risk gate: what its audit events say about its approvals, and how many approvals
// fit into a minute (bot/risk/risk_engine.py, bot/risk/kill_switch.py).

module RiskRuns {
  import opened Prelude
  import opened DepthWalk
  import opened Ledger
  import opened KillSwitch
  import opened RiskGate

  // The gate is asked about an opportunity, or something else acts on its kill switch: a recorded
  // execution, an operator, a monitor. The clock is read at `checked` and, for an approval, at `stamped`.
  datatype Happening =
    | Ask(proposal: Proposal, portfolio: PortfolioSnapshot, context: RiskContext, checked: real, stamped: real, now: int)
    | Operate(act: Act, now: int)

  function Next(g: Gate, s: RiskSettings, h: Happening): Gate
  {
    match h
    case Ask(p, pf, ctx, checked, stamped, now) => Decide(g, s, p, pf, ctx, checked, stamped, now).0
    case Operate(act, now) => g.(switch := Perform(g.switch, s.failureLimit, s.requireManualRecovery, act, now))
  }

  predicate Approves(g: Gate, s: RiskSettings, h: Happening)
  {
    h.Ask? && Decide(g, s, h.proposal, h.portfolio, h.context, h.checked, h.stamped, h.now).1.Approved?
  }

  // The gate after the first `n` happenings.
  function After(g: Gate, s: RiskSettings, hs: seq<Happening>, n: nat): Gate
    requires n <= |hs|
  {
    if n == 0 then g else Next(After(g, s, hs, n - 1), s, hs[n - 1])
  }

  // ----- the audit trail -----

  // The audit trail gains an activation.
  predicate Activates(g: Gate, s: RiskSettings, h: Happening)
  {
    var events := Next(g, s, h).switch.events;
    |events| > |g.switch.events| && events[|events| - 1].Activated?
  }

  // Somebody asks for recovery, by force or after all five conditions were reported as met.
  predicate AcceptedRecovery(g: Gate, h: Happening)
  {
    h.Operate? && h.act.Recover? && (h.act.force || g.switch.RecoveryConditionsMet())
  }

  lemma WarningKeeps(s: RiskSettings, k: Switch, pf: PortfolioSnapshot, now: int)
    requires s.failureLimit > 0 && Audited(k, s.failureLimit) && !k.Blocks()
    ensures var w := WarnedSwitch(s, k, pf, now);
            Audited(w, s.failureLimit) && k.events == w.events && !w.Blocks()
  {
    hide Value, Audited, DrawdownFraction, DailyLoss;
    forall why: Reason, code: Option<string>, j: Switch | Audited(j, s.failureLimit) && !j.Blocks()
      ensures var w := Perform(j, s.failureLimit, s.requireManualRecovery, Warn(why, code), now);
              Audited(w, s.failureLimit) && j.events == w.events && !w.Blocks()
    {
      PerformKeepsAudit(j, s.failureLimit, s.requireManualRecovery, Warn(why, code), now);
    }
  }

  // Asking keeps the audit trail in step with the state, and never unblocks the switch.
  lemma DecideKeepsAudit(g: Gate, s: RiskSettings, p: Proposal, pf: PortfolioSnapshot, ctx: RiskContext,
                         checked: real, stamped: real, now: int)
    requires s.failureLimit > 0 && Audited(g.switch, s.failureLimit)
    ensures var after := Decide(g, s, p, pf, ctx, checked, stamped, now).0;
            && Audited(after.switch, s.failureLimit)
            && g.switch.events <= after.switch.events
            && (g.switch.Blocks() ==> after.switch.Blocks())
  {
    hide Value, Audited, WarnedSwitch, FirstObjection, Limits, Prune, DrawdownFraction, CurrentConditions, Perform;
    var report := Report(CurrentConditions(s, g.switch, pf, ctx));
    var k := Perform(g.switch, s.failureLimit, s.requireManualRecovery, report, now);
    PerformKeepsAudit(g.switch, s.failureLimit, s.requireManualRecovery, report, now);
    ReportOnly(g.switch, s.failureLimit, s.requireManualRecovery, report.conditions, now);
    if k.AllowsNewOrders() {
      var objection := FirstObjection(s, p, pf, ctx);
      if objection.Some? && objection.value.pause.Some? {
        PerformKeepsAudit(k, s.failureLimit, s.requireManualRecovery,
                          Pause(objection.value.pause.value, Some(objection.value.code)), now);
      }
      WarningKeeps(s, k, pf, now);
    }
  }

  lemma ReportOnly(k: Switch, limit: nat, requireManual: bool, conditions: Conditions, now: int)
    ensures Perform(k, limit, requireManual, Report(conditions), now) == k.(conditions := Some(conditions))
  {
  }

  lemma NextKeepsAudit(g: Gate, s: RiskSettings, h: Happening)
    requires s.failureLimit > 0 && Audited(g.switch, s.failureLimit)
    ensures Audited(Next(g, s, h).switch, s.failureLimit)
    ensures Activates(g, s, h) ==> Next(g, s, h).switch.Blocks()
    ensures g.switch.Blocks() && !Next(g, s, h).switch.Blocks() ==> AcceptedRecovery(g, h)
  {
    hide Decide, Perform;
    match h
    case Ask(p, pf, ctx, checked, stamped, now) => DecideKeepsAudit(g, s, p, pf, ctx, checked, stamped, now);
    case Operate(act, now) =>
      PerformKeepsAudit(g.switch, s.failureLimit, s.requireManualRecovery, act, now);
      if g.switch.Blocks() { UnblocksIff(g.switch, s.failureLimit, s.requireManualRecovery, act, now); }
  }

  lemma {:induction false} RunKeepsAudit(g: Gate, s: RiskSettings, hs: seq<Happening>, n: nat)
    requires n <= |hs|
    requires s.failureLimit > 0 && Audited(g.switch, s.failureLimit)
    ensures Audited(After(g, s, hs, n).switch, s.failureLimit)
  {
    hide Audited, Next;
    if n > 0 {
      RunKeepsAudit(g, s, hs, n - 1);
      NextKeepsAudit(After(g, s, hs, n - 1), s, hs[n - 1]);
    }
  }

  lemma BlockedNeverApproves(g: Gate, s: RiskSettings, h: Happening)
    requires g.switch.Blocks()
    ensures !Approves(g, s, h)
  {
    hide Value, FirstObjection, Limits, Prune, WarnedSwitch, CurrentConditions;
  }

  // A switch that blocks after `i` happenings and no longer does after `j` was recovered in between.
  lemma {:induction false} UnblockedInBetween(g: Gate, s: RiskSettings, hs: seq<Happening>, i: nat, j: nat) returns (m: nat)
    requires s.failureLimit > 0 && Audited(g.switch, s.failureLimit)
    requires i <= j <= |hs|
    requires After(g, s, hs, i).switch.Blocks() && !After(g, s, hs, j).switch.Blocks()
    ensures i <= m < j && AcceptedRecovery(After(g, s, hs, m), hs[m])
    decreases j - i
  {
    hide Audited, AcceptedRecovery, Activates, Next;
    RunKeepsAudit(g, s, hs, j - 1);
    if After(g, s, hs, j - 1).switch.Blocks() {
      NextKeepsAudit(After(g, s, hs, j - 1), s, hs[j - 1]);
      m := j - 1;
    } else {
      m := UnblockedInBetween(g, s, hs, i, j - 1);
    }
  }

  lemma BlockedAfterActivation(g: Gate, s: RiskSettings, hs: seq<Happening>, i: nat)
    requires s.failureLimit > 0 && Audited(g.switch, s.failureLimit)
    requires i < |hs| && Activates(After(g, s, hs, i), s, hs[i])
    ensures After(g, s, hs, i + 1).switch.Blocks()
  {
    hide Audited, Activates, Next;
    RunKeepsAudit(g, s, hs, i);
    NextKeepsAudit(After(g, s, hs, i), s, hs[i]);
  }

  lemma OpenAtApproval(g: Gate, s: RiskSettings, hs: seq<Happening>, j: nat)
    requires j < |hs| && Approves(After(g, s, hs, j), s, hs[j])
    ensures !After(g, s, hs, j).switch.Blocks()
  {
    hide Approves, After;
    if After(g, s, hs, j).switch.Blocks() { BlockedNeverApproves(After(g, s, hs, j), s, hs[j]); }
  }

  // Between an activation in the audit trail and any later approval somebody has recovered the switch,
  // by force or with all five conditions reported as met.
  lemma TraceSafetyTheorem(g: Gate, s: RiskSettings, hs: seq<Happening>, i: nat, j: nat)
    requires s.failureLimit > 0 && Audited(g.switch, s.failureLimit)
    requires i < j < |hs|
    requires Activates(After(g, s, hs, i), s, hs[i]) && Approves(After(g, s, hs, j), s, hs[j])
    ensures exists m :: i < m < j && AcceptedRecovery(After(g, s, hs, m), hs[m])
  {
    hide *;
    BlockedAfterActivation(g, s, hs, i);
    OpenAtApproval(g, s, hs, j);
    var m := UnblockedInBetween(g, s, hs, i + 1, j);
  }

  // ----- the rate -----

  // The clock never runs backwards.
  predicate Ticking(hs: seq<Happening>)
  {
    && (forall i :: 0 <= i < |hs| && hs[i].Ask? ==> hs[i].checked <= hs[i].stamped)
    && (forall i, j :: 0 <= i < j < |hs| && hs[i].Ask? && hs[j].Ask? ==> hs[i].stamped <= hs[j].checked)
  }

  // When the approvals among the first `n` happenings were given.
  function Approvals(g: Gate, s: RiskSettings, hs: seq<Happening>, n: nat): seq<real>
    requires n <= |hs|
  {
    if n == 0 then []
    else
      Approvals(g, s, hs, n - 1)
      + (if Approves(After(g, s, hs, n - 1), s, hs[n - 1]) then [hs[n - 1].stamped] else [])
  }

  // The window holds the latest approvals; those that dropped out are more than a minute old.
  predicate LatestOf(stamps: seq<real>, approvals: seq<real>, time: real)
  {
    && |stamps| <= |approvals|
    && stamps == approvals[|approvals| - |stamps|..]
    && (forall i :: 0 <= i < |approvals| ==> approvals[i] <= time)
    && (forall i :: 0 <= i < |approvals| - |stamps| ==> approvals[i] < time - WINDOW)
  }

  predicate Spaced(approvals: seq<real>, rate: nat)
  {
    && (forall i, j :: 0 <= i < j < |approvals| ==> approvals[i] <= approvals[j])
    && (forall i, j :: 0 <= i && j == i + rate < |approvals| ==> approvals[j] - approvals[i] > WINDOW)
  }

  lemma {:induction false} PruneDropsOld(stamps: seq<real>, cutoff: real)
    ensures var r := Prune(stamps, cutoff);
            && |r| <= |stamps| && r == stamps[|stamps| - |r|..]
            && (forall i :: 0 <= i < |stamps| - |r| ==> stamps[i] < cutoff)
            && (r != [] ==> cutoff <= r[0])
  {
    if stamps != [] && stamps[0] < cutoff {
      PruneDropsOld(stamps[1..], cutoff);
      var r := Prune(stamps, cutoff);
      forall i | 0 <= i < |stamps| - |r| ensures stamps[i] < cutoff {
        if i > 0 { assert stamps[i] == stamps[1..][i - 1]; }
      }
    }
  }

  lemma LatestAfterPrune(stamps: seq<real>, approvals: seq<real>, time: real)
    requires LatestOf(stamps, approvals, time)
    ensures LatestOf(Prune(stamps, time - WINDOW), approvals, time)
  {
    PruneDropsOld(stamps, time - WINDOW);
    var r := Prune(stamps, time - WINDOW);
    var k := |approvals| - |stamps|;
    assert r == approvals[|approvals| - |r|..];
    forall i | k <= i < |approvals| - |r| ensures approvals[i] < time - WINDOW {
      assert approvals[i] == stamps[i - k];
    }
  }

  // What deciding does to the window, whatever the verdict.
  lemma WindowAfter(g: Gate, s: RiskSettings, h: Happening)
    requires h.Ask?
    ensures var recent := Prune(g.stamps, h.checked - WINDOW);
            if Approves(g, s, h) then Next(g, s, h).stamps == recent + [h.stamped] && |recent| < s.maxTradesPerMinute
            else Next(g, s, h).stamps == g.stamps || Next(g, s, h).stamps == recent
  {
    hide Value, FirstObjection, Limits, Prune, WarnedSwitch, CurrentConditions, Perform;
  }

  lemma ApprovalKeepsSpacing(recent: seq<real>, approvals: seq<real>, rate: nat, checked: real, stamped: real)
    requires LatestOf(recent, approvals, checked) && Spaced(approvals, rate)
    requires |recent| < rate && checked <= stamped
    ensures Spaced(approvals + [stamped], rate)
    ensures LatestOf(recent + [stamped], approvals + [stamped], stamped)
  {
  }

  lemma LaterStillLatest(stamps: seq<real>, approvals: seq<real>, time: real, later: real)
    requires LatestOf(stamps, approvals, time) && time <= later
    ensures LatestOf(stamps, approvals, later)
  {
  }

  lemma {:induction false} RunKeepsRate(g: Gate, s: RiskSettings, hs: seq<Happening>, n: nat)
    requires n <= |hs| && Ticking(hs) && g.stamps == []
    ensures Spaced(Approvals(g, s, hs, n), s.maxTradesPerMinute)
    ensures forall j :: n <= j < |hs| && hs[j].Ask? ==>
              LatestOf(After(g, s, hs, n).stamps, Approvals(g, s, hs, n), hs[j].checked)
  {
    hide Spaced, LatestOf, Approves, Next, Prune;
    if n == 0 {
      NothingApproved(s.maxTradesPerMinute);
    } else {
      RunKeepsRate(g, s, hs, n - 1);
      var before, approvals, h := After(g, s, hs, n - 1), Approvals(g, s, hs, n - 1), hs[n - 1];
      assert approvals + [] == approvals;
      if h.Ask? {
        WindowAfter(before, s, h);
        LatestAfterPrune(before.stamps, approvals, h.checked);
        var recent := Prune(before.stamps, h.checked - WINDOW);
        if Approves(before, s, h) {
          ApprovalKeepsSpacing(recent, approvals, s.maxTradesPerMinute, h.checked, h.stamped);
        }
        forall j | n <= j < |hs| && hs[j].Ask?
          ensures LatestOf(After(g, s, hs, n).stamps, Approvals(g, s, hs, n), hs[j].checked)
        {
          if Approves(before, s, h) {
            LaterStillLatest(recent + [h.stamped], approvals + [h.stamped], h.stamped, hs[j].checked);
          } else {
            LaterStillLatest(recent, approvals, h.checked, hs[j].checked);
          }
        }
      } else {
        OperatingApprovesNothing(before, s, h);
      }
    }
  }

  lemma NothingApproved(rate: nat)
    ensures Spaced([], rate)
    ensures forall time :: LatestOf([], [], time)
  {
  }

  lemma OperatingApprovesNothing(g: Gate, s: RiskSettings, h: Happening)
    requires h.Operate?
    ensures !Approves(g, s, h) && Next(g, s, h).stamps == g.stamps
  {
    hide Perform, Decide;
  }

  // ----- counting -----

  // The position of the first time that is not before `from`.
  function FirstFrom(times: seq<real>, from: real): (r: nat)
    ensures r <= |times|
    ensures forall i :: 0 <= i < r ==> times[i] < from
    ensures r < |times| ==> times[r] >= from
  {
    if times == [] || times[0] >= from then 0
    else
      var r := 1 + FirstFrom(times[1..], from);
      assert forall i :: 0 < i < r ==> times[i] == times[1..][i - 1];
      r
  }

  function Indices(from: nat, count: nat): (r: set<nat>)
    ensures |r| == count && forall i :: i in r <==> from <= i < from + count
  {
    if count == 0 then {} else Indices(from, count - 1) + {from + (count - 1)}
  }

  // How many of the times lie in the minute that starts at `from`, both ends included.
  function CountIn(times: seq<real>, from: real): nat
  {
    if times == [] then 0
    else
      CountIn(times[..|times| - 1], from)
      + if from <= times[|times| - 1] <= from + WINDOW then 1 else 0
  }

  lemma {:induction false} CountIsSize(times: seq<real>, from: real)
    ensures CountIn(times, from) == |set i: nat | i < |times| && from <= times[i] <= from + WINDOW|
  {
    var all := set i: nat | i < |times| && from <= times[i] <= from + WINDOW;
    if times != [] {
      var rest, n := times[..|times| - 1], |times| - 1;
      CountIsSize(rest, from);
      var before := set i: nat | i < |rest| && from <= rest[i] <= from + WINDOW;
      assert all == if from <= times[n] <= from + WINDOW then before + {n} else before;
    } else {
      assert all == {};
    }
  }

  predicate Ordered(times: seq<real>)
  {
    forall i, j :: 0 <= i < j < |times| ==> times[i] <= times[j]
  }

  // Spaced times put at most `rate` of them into any minute.
  lemma SpacedBoundsMinutes(times: seq<real>, rate: nat, from: real)
    requires Spaced(times, rate)
    ensures CountIn(times, from) <= rate
  {
    CountIsSize(times, from);
    var first := FirstFrom(times, from);
    var within := set i: nat | i < |times| && from <= times[i] <= from + WINDOW;
    if first + rate < |times| {
      assert times[first + rate] - times[first] > WINDOW;
    }
    assert within <= Indices(first, rate);
    SubsetSize(within, Indices(first, rate));
  }

  lemma CloseTimesCrowd(times: seq<real>, rate: nat, i: nat)
    requires Ordered(times) && i + rate < |times| && times[i + rate] - times[i] <= WINDOW
    ensures CountIn(times, times[i]) > rate
  {
    hide CountIn;
    CountIsSize(times, times[i]);
    var within := set k: nat | k < |times| && times[i] <= times[k] <= times[i] + WINDOW;
    forall k | k in Indices(i, rate + 1) ensures k in within {
      assert i < k ==> times[i] <= times[k];
      assert k < i + rate ==> times[k] <= times[i + rate];
    }
    SubsetSize(Indices(i, rate + 1), within);
  }

  // And nothing less does: every minute holds at most `rate` of the times exactly when each is more than a
  // minute later than the one `rate` places before it.
  lemma SpacedIff(times: seq<real>, rate: nat)
    requires Ordered(times)
    ensures (forall from :: CountIn(times, from) <= rate) <==> Spaced(times, rate)
  {
    hide CountIn;
    if Spaced(times, rate) {
      forall from ensures CountIn(times, from) <= rate { SpacedBoundsMinutes(times, rate, from); }
    } else {
      hide Ordered;
      var i: nat :| i + rate < |times| && !(times[i + rate] - times[i] > WINDOW) by { NotSpaced(times, rate); }
      CloseTimesCrowd(times, rate, i);
    }
  }

  lemma NotSpaced(times: seq<real>, rate: nat)
    requires Ordered(times) && !Spaced(times, rate)
    ensures exists i: nat :: i + rate < |times| && !(times[i + rate] - times[i] > WINDOW)
  {
  }

  // What has to be asked before each of them: one more time keeps the spacing exactly when fewer than `rate`
  // of the times so far lie in the minute that ends with it.
  lemma OneMoreKeepsSpacedIff(times: seq<real>, rate: nat, at: real)
    requires Ordered(times + [at])
    ensures Spaced(times + [at], rate) <==> Spaced(times, rate) && CountIn(times, at - WINDOW) < rate
  {
    hide CountIn, Spaced;
    var more := times + [at];
    forall i | 0 <= i < |times| ensures times[i] <= at { assert more[i] <= more[|times|]; }
    forall i, j | 0 <= i < j < |times| ensures times[i] <= times[j] { assert more[i] <= more[j]; }
    OneMoreIsSpaced(times, rate, at);
    RoomLeft(times, rate, at);
  }

  // The time `rate` places before the next one is more than a minute old, if there is one.
  predicate Spare(times: seq<real>, rate: nat, at: real)
  {
    0 < rate && (rate <= |times| ==> at - times[|times| - rate] > WINDOW)
  }

  lemma OneMoreIsSpaced(times: seq<real>, rate: nat, at: real)
    requires Ordered(times) && forall i :: 0 <= i < |times| ==> times[i] <= at
    ensures Spaced(times + [at], rate) <==> Spaced(times, rate) && Spare(times, rate, at)
  {
    var more, n := times + [at], |times|;
    if rate == 0 {
      assert more[n] - more[n] <= WINDOW;
    } else if Spaced(more, rate) {
      forall i, j | 0 <= i && j == i + rate < n ensures times[j] - times[i] > WINDOW {
        assert more[j] - more[i] > WINDOW;
      }
      if rate <= n { assert more[n] - more[n - rate] > WINDOW; }
    } else if Spaced(times, rate) && Spare(times, rate, at) {
      forall i, j | 0 <= i && j == i + rate <= n ensures more[j] - more[i] > WINDOW {
        if j < n { assert times[j] - times[i] > WINDOW; }
      }
    }
  }

  lemma RoomLeft(times: seq<real>, rate: nat, at: real)
    requires Ordered(times) && forall i :: 0 <= i < |times| ==> times[i] <= at
    ensures CountIn(times, at - WINDOW) < rate <==> Spare(times, rate, at)
  {
    hide CountIn;
    var n, from := |times|, at - WINDOW;
    if n < rate {
      CountAtMost(times, 0, from);
    } else if 0 < rate && times[n - rate] < from {
      forall i | 0 <= i < n - rate + 1 ensures times[i] < from {
        assert i < n - rate ==> times[i] <= times[n - rate];
      }
      CountAtMost(times, n - rate + 1, from);
    } else {
      forall i | n - rate <= i < n ensures from <= times[i] {
        assert n - rate < i ==> times[n - rate] <= times[i];
      }
      CountAtLeast(times, n - rate, from);
    }
  }

  lemma {:induction false} CountAtMost(times: seq<real>, k: nat, from: real)
    requires k <= |times| && forall i :: 0 <= i < k ==> times[i] < from
    ensures CountIn(times, from) <= |times| - k
  {
    if times != [] {
      var n := |times| - 1;
      CountAtMost(times[..n], if k <= n then k else n, from);
    }
  }

  lemma {:induction false} CountAtLeast(times: seq<real>, k: nat, from: real)
    requires k <= |times| && forall i :: k <= i < |times| ==> from <= times[i] <= from + WINDOW
    ensures CountIn(times, from) >= |times| - k
  {
    if k < |times| { CountAtLeast(times[..|times| - 1], k, from); }
  }

  // Every minute, wherever it starts, contains at most as many approvals as the setting allows, although
  // the window is pruned at one reading of the clock and stamped at a later one.
  lemma RateBoundTheorem(g: Gate, s: RiskSettings, hs: seq<Happening>, from: real)
    requires Ticking(hs) && g.stamps == []
    ensures var approvals := Approvals(g, s, hs, |hs|);
            |set i: nat | i < |approvals| && from <= approvals[i] <= from + WINDOW| <= s.maxTradesPerMinute
  {
    hide Approvals, After, LatestOf, Spaced;
    RunKeepsRate(g, s, hs, |hs|);
    SpacedBoundsMinutes(Approvals(g, s, hs, |hs|), s.maxTradesPerMinute, from);
    CountIsSize(Approvals(g, s, hs, |hs|), from);
  }
}
