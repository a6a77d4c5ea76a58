// The risk engine as an object: the kill switch it drives and the window of approval times it prunes
// and extends (bot/risk/risk_engine.py). Proved against RiskGate.Decide.

module RiskEngine {
  import opened Prelude
  import opened DepthWalk
  import opened Ledger
  import opened KillSwitch
  import opened RiskGate

  class RiskEngine {
    const settings: RiskSettings
    const killSwitch: KillSwitch
    var tradeTimestamps: seq<real>

    ghost function View(): Gate
      reads this, killSwitch
    {
      Gate(killSwitch.View(), tradeTimestamps)
    }

    ghost predicate Valid()
      reads this, killSwitch
    {
      && killSwitch.Valid()
      && killSwitch.failureLimit == settings.failureLimit
      && killSwitch.requireManualRecovery == settings.requireManualRecovery
    }

    constructor (settings: RiskSettings)
      requires Configured(settings)
      ensures Valid() && fresh(killSwitch) && this.settings == settings
      ensures View() == Gate(FRESH_SWITCH, [])
    {
      this.settings := settings;
      this.killSwitch := new KillSwitch(settings.failureLimit, settings.requireManualRecovery);
      tradeTimestamps := [];
    }

    method PruneTradeWindow(checked: real)
      modifies this
      ensures tradeTimestamps == Prune(old(tradeTimestamps), checked - WINDOW)
    {
      var cutoff := checked - WINDOW;
      while tradeTimestamps != [] && tradeTimestamps[0] < cutoff
        invariant Prune(tradeTimestamps, cutoff) == Prune(old(tradeTimestamps), cutoff)
        decreases |tradeTimestamps|
      {
        tradeTimestamps := tradeTimestamps[1..];
      }
    }

    // `_maybe_activate_kill_switch`: whatever the name says, it only reports the conditions.
    method MaybeActivateKillSwitch(portfolio: PortfolioSnapshot, context: RiskContext, now: int)
      requires Valid()
      modifies killSwitch
      ensures Valid()
      ensures killSwitch.View()
              == old(killSwitch.View()).(conditions := Some(CurrentConditions(settings, old(killSwitch.View()), portfolio, context)))
    {
      var limit := DailyLossLimit(settings, portfolio.equity);
      var reported := Conditions(
        if limit > 0.0 then DailyLoss(portfolio) < limit else true,
        DrawdownFraction(portfolio) < settings.maxDrawdownPct / 100.0,
        context.dataAgeMs.None? || context.dataAgeMs.value <= settings.maxDataAgeMs,
        context.exchangeHealthy,
        killSwitch.failures < settings.failureLimit);
      killSwitch.UpdateConditions(reported, now);
    }

    // The checks of the opportunity itself.
    method ScreenProposal(p: Proposal) returns (objection: Option<Objection>)
      ensures objection == ProposalObjection(settings, p)
    {
      if p.leverage.Some? && p.leverage.value > 1.0 {
        return Some(Objection("LEVERAGE_FORBIDDEN", 100.0, 0.0, 0.0, None));
      }
      if !p.profitable {
        return Some(Objection("NOT_PROFITABLE", 40.0, 0.0, 0.0, None));
      }
      if p.netProfit < settings.minNetProfit {
        return Some(Objection("NOT_PROFITABLE", 35.0, 0.0, 0.0, None));
      }
      objection := None;
    }

    // The checks of the market. Two of them pause the kill switch on their way out.
    method ScreenMarket(quantity: real, context: RiskContext, now: int) returns (objection: Option<Objection>)
      requires Valid()
      modifies killSwitch
      ensures Valid()
      ensures objection == MarketObjection(settings, quantity, context)
      ensures killSwitch.View() == Held(objection, old(killSwitch.View()), now)
    {
      hide Value, Perform, Audited, AbnormalMove;
      if !context.exchangeHealthy {
        var why := Reason("Exchange connectivity unhealthy", []);
        killSwitch.DoPause(why, Some("EXCHANGE_UNHEALTHY"), now);
        return Some(Objection("EXCHANGE_UNHEALTHY", 90.0, 0.0, 0.0, Some(why)));
      }
      if context.dataAgeMs.Some? && context.dataAgeMs.value > settings.maxDataAgeMs {
        var why := Reason("Stale market data", [context.dataAgeMs.value]);
        killSwitch.DoPause(why, Some("STALE_MARKET_DATA"), now);
        return Some(Objection("STALE_MARKET_DATA", 85.0, 0.0, 0.0, Some(why)));
      }
      if context.latencyMs.Some? && context.latencyMs.value > settings.maxLatencyMs {
        return Some(Objection("EXECUTION_LATENCY", 70.0, 0.0, 0.0, None));
      }
      if context.slippagePct > settings.maxSlippagePct {
        return Some(Objection("EXCESSIVE_SLIPPAGE", 65.0, 0.0, 0.0, None));
      }
      if context.liquidity.Some? {
        if context.liquidity.value < settings.minLiquidity {
          return Some(Objection("INSUFFICIENT_LIQUIDITY", 60.0, 0.0, 0.0, None));
        }
        if quantity > context.liquidity.value {
          return Some(Objection("INSUFFICIENT_LIQUIDITY", 60.0, context.liquidity.value, 0.0, None));
        }
      }
      if AbnormalMove(settings, context) {
        return Some(Objection("ABNORMAL_PRICE_MOVEMENT", 80.0, 0.0, 0.0, None));
      }
      objection := None;
    }

    // The checks of the portfolio, from today's loss to the open positions.
    method ScreenPortfolio(portfolio: PortfolioSnapshot, now: int) returns (objection: Option<Objection>)
      requires Valid()
      modifies killSwitch
      ensures Valid()
      ensures objection == PortfolioObjection(settings, portfolio)
      ensures killSwitch.View() == Held(objection, old(killSwitch.View()), now)
    {
      hide Value, Perform, Audited, DailyLossLimit, DrawdownFraction, DailyLoss;
      var loss, limit := DailyLoss(portfolio), DailyLossLimit(settings, portfolio.equity);
      if loss >= limit && limit > 0.0 {
        var why := Reason("Daily loss reached limit", [loss, limit]);
        killSwitch.DoPause(why, Some("MAX_DAILY_LOSS"), now);
        return Some(Objection("MAX_DAILY_LOSS", 95.0, 0.0, limit, Some(why)));
      }
      var drawdown, maximum := DrawdownFraction(portfolio), settings.maxDrawdownPct / 100.0;
      if drawdown >= maximum && maximum > 0.0 {
        var why := Reason("Drawdown reached max", [drawdown, maximum]);
        killSwitch.DoPause(why, Some("MAX_DRAWDOWN"), now);
        return Some(Objection("MAX_DRAWDOWN", 95.0, 0.0, Value(PeakOf(portfolio), maximum), Some(why)));
      }
      if portfolio.openPositions >= settings.maxOpen {
        return Some(Objection("MAX_SIMULTANEOUS_POSITIONS", 55.0, 0.0, 0.0, None));
      }
      objection := None;
    }

    // What an objection does to the switch.
    function Held(objection: Option<Objection>, k: Switch, now: int): Switch
    {
      if objection.Some? && objection.value.pause.Some? then
        Perform(k, settings.failureLimit, settings.requireManualRecovery,
                Pause(objection.value.pause.value, Some(objection.value.code)), now)
      else k
    }

    // The checks from leverage to open positions.
    method Screen(p: Proposal, portfolio: PortfolioSnapshot, context: RiskContext, now: int)
      returns (objection: Option<Objection>)
      requires Valid()
      modifies killSwitch
      ensures Valid()
      ensures objection == FirstObjection(settings, p, portfolio, context)
      ensures killSwitch.View() == Held(objection, old(killSwitch.View()), now)
    {
      hide Perform, Audited, ProposalObjection, MarketObjection, PortfolioObjection;
      ProposalNeverPauses(p);
      objection := ScreenProposal(p);
      if objection.Some? {
        return;
      }
      objection := ScreenMarket(p.quantity, context, now);
      if objection.Some? {
        return;
      }
      objection := ScreenPortfolio(portfolio, now);
    }

    lemma ProposalNeverPauses(p: Proposal)
      ensures ProposalObjection(settings, p).Some? ==> ProposalObjection(settings, p).value.pause.None?
    {
    }

    // The warnings that accompany an approval, and what they add to its score.
    method SoftWarnings(portfolio: PortfolioSnapshot, now: int) returns (warnings: seq<Reason>, score: real)
      requires Valid()
      modifies killSwitch
      ensures Valid()
      ensures killSwitch.View() == WarnedSwitch(settings, old(killSwitch.View()), portfolio, now)
      ensures warnings == Warnings(settings, portfolio) && score == Value(15.0, |warnings| as real)
    {
      hide Perform, Audited, DrawdownFraction, DailyLoss;
      warnings, score := [], 0.0;
      if portfolio.equity > 0.0 {
        var lossPct := Value(DailyLoss(portfolio) / portfolio.equity, 100.0);
        if lossPct >= settings.warnDailyLossPct {
          warnings := warnings + [Reason("Daily loss approaching limit", [lossPct])];
          killSwitch.DoWarn(warnings[|warnings| - 1], Some("MAX_DAILY_LOSS"), now);
          score := score + 15.0;
        }
      }
      var drawdown := DrawdownFraction(portfolio);
      if drawdown >= settings.warnDrawdownPct / 100.0 {
        warnings := warnings + [Reason("Drawdown approaching limit", [drawdown])];
        killSwitch.DoWarn(warnings[|warnings| - 1], Some("MAX_DRAWDOWN"), now);
        score := score + 15.0;
      }
    }

    method Evaluate(p: Proposal, portfolio: PortfolioSnapshot, context: RiskContext,
                    checked: real, stamped: real, now: int)
      returns (decision: Decision)
      requires Valid()
      modifies this, killSwitch
      ensures Valid()
      ensures (View(), decision) == Decide(old(View()), settings, p, portfolio, context, checked, stamped, now)
    {
      hide Value, Audited, FirstObjection, CurrentConditions, WarnedSwitch, Prune, Limits, DailyLossLimit, Transition;
      MaybeActivateKillSwitch(portfolio, context, now);
      if killSwitch.state.Paused? || killSwitch.state.EmergencyStop? {
        return Reject("KILL_SWITCH", 100.0, 0.0, 0.0);
      }
      var objection := Screen(p, portfolio, context, now);
      if objection.Some? {
        return Reject(objection.value.code, objection.value.score, objection.value.allowed, objection.value.loss);
      }
      PruneTradeWindow(checked);
      if |tradeTimestamps| >= settings.maxTradesPerMinute {
        return Reject("MAX_TRADES_PER_MINUTE", 50.0, 0.0, 0.0);
      }
      var limits := Limits(settings, p, portfolio);
      if limits.breached != [] {
        return Reject(BreachCode(limits.breached[0]), 75.0, limits.allowedQuantity, BreachLoss(limits));
      }
      var warnings, score := SoftWarnings(portfolio, now);
      score := score + Min(40.0, Truncated(Value(context.slippagePct, 10.0)) as real);
      tradeTimestamps := tradeTimestamps + [stamped];
      decision := Approved(limits.allowedQuantity, Min(limits.allowedNotional, DailyLossLimit(settings, portfolio.equity)),
                           score, warnings);
    }
  }
}
