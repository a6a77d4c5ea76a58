// The risk gate as a function of its state: position limits, the ordered checks, the sliding window of
// approvals, and the decision (bot/risk/position_limits.py, bot/risk/risk_engine.py).

module RiskGate {
  import opened Prelude
  import opened DepthWalk
  import opened Ledger
  import opened KillSwitch

  datatype RiskSettings = RiskSettings(
    maxPositionAbs: real,
    maxPositionPct: real,
    maxExposurePct: real,
    maxOpen: nat,
    maxDailyLossAbs: real,
    maxDailyLossPct: real,
    maxDrawdownPct: real,
    warnDailyLossPct: real,
    warnDrawdownPct: real,
    minNetProfit: real,
    maxSlippagePct: real,
    maxDataAgeMs: real,
    maxLatencyMs: real,
    maxPriceMovePct: real,
    minLiquidity: real,
    maxTradesPerMinute: nat,
    failureLimit: nat,
    requireManualRecovery: bool
  )

  // The bounds the configuration itself imposes.
  predicate Configured(s: RiskSettings)
  {
    && s.maxPositionAbs > 0.0 && s.maxPositionPct > 0.0 && s.maxExposurePct > 0.0 && s.maxOpen > 0
    && s.maxDailyLossAbs > 0.0 && s.maxDailyLossPct > 0.0 && s.maxDrawdownPct > 0.0
    && s.maxTradesPerMinute > 0 && s.failureLimit > 0
  }

  // The opportunity as the gate sees it, with the profitability verdict.
  datatype Proposal = Proposal(
    quantity: real,
    entryPrice: real,
    leverage: Option<real>,
    profitable: bool,
    netProfit: real
  )

  datatype RiskContext = RiskContext(
    exchangeHealthy: bool,
    dataAgeMs: Option<real>,
    slippagePct: real,
    latencyMs: Option<real>,
    liquidity: Option<real>,
    referencePrice: Option<real>,
    currentPrice: Option<real>
  )

  // ----- position limits -----

  datatype Breach = MaxPositionSize | MaxPositionPercent | MaxTotalExposure

  datatype LimitResult = LimitResult(
    requested: real,
    allowedNotional: real,
    allowedQuantity: real,
    maxByPercent: real,
    remaining: real,
    breached: seq<Breach>
  )

  function ShareOf(equity: real, percent: real): real
  {
    if equity <= 0.0 then 0.0 else Value(equity, percent / 100.0)
  }

  // `PositionLimitCalculator.evaluate`
  function Limits(s: RiskSettings, p: Proposal, pf: PortfolioSnapshot): LimitResult
  {
    var requested := Value(p.quantity, p.entryPrice);
    var byPct := ShareOf(pf.equity, s.maxPositionPct);
    var cap := if byPct > 0.0 then Min(s.maxPositionAbs, byPct) else s.maxPositionAbs;
    var remaining := Max(ShareOf(pf.equity, s.maxExposurePct) - pf.exposure, 0.0);
    var allowed := Min(cap, remaining);
    var breached := (if requested > s.maxPositionAbs then [MaxPositionSize] else [])
                    + (if byPct > 0.0 && requested > byPct then [MaxPositionPercent] else [])
                    + (if requested > remaining then [MaxTotalExposure] else []);
    var quantity := if p.entryPrice > 0.0 then allowed / p.entryPrice else 0.0;
    if quantity > p.quantity then LimitResult(requested, requested, p.quantity, byPct, remaining, breached)
    else LimitResult(requested, allowed, quantity, byPct, remaining, breached)
  }

  function DailyLossLimit(s: RiskSettings, equity: real): real
  {
    if equity > 0.0 then Min(Value(equity, s.maxDailyLossPct / 100.0), s.maxDailyLossAbs) else s.maxDailyLossAbs
  }

  function DailyLoss(pf: PortfolioSnapshot): real { Max(-pf.dailyRealizedPnl, 0.0) }

  function PeakOf(pf: PortfolioSnapshot): real
  {
    if pf.recordedPeak.Some? && pf.recordedPeak.value > 0.0 then pf.recordedPeak.value
    else if pf.equity > 0.0 then pf.equity
    else 0.0
  }

  function DrawdownFraction(pf: PortfolioSnapshot): real
  {
    var peak := PeakOf(pf);
    if peak <= 0.0 || peak - pf.equity <= 0.0 then 0.0 else (peak - pf.equity) / peak
  }

  // ----- the ordered checks that do not touch the gate's own state -----

  // A rejection: its code and risk score, the quantity that would have been allowed, the loss it reports, and
  // why the switch is paused, if it is.
  datatype Objection = Objection(code: string, score: real, allowed: real, loss: real, pause: Option<Reason>)

  function ProposalObjection(s: RiskSettings, p: Proposal): Option<Objection>
  {
    if p.leverage.Some? && p.leverage.value > 1.0 then Some(Objection("LEVERAGE_FORBIDDEN", 100.0, 0.0, 0.0, None))
    else if !p.profitable then Some(Objection("NOT_PROFITABLE", 40.0, 0.0, 0.0, None))
    else if p.netProfit < s.minNetProfit then Some(Objection("NOT_PROFITABLE", 35.0, 0.0, 0.0, None))
    else None
  }

  function MarketObjection(s: RiskSettings, quantity: real, ctx: RiskContext): Option<Objection>
  {
    if !ctx.exchangeHealthy then
      Some(Objection("EXCHANGE_UNHEALTHY", 90.0, 0.0, 0.0, Some(Reason("Exchange connectivity unhealthy", []))))
    else if ctx.dataAgeMs.Some? && ctx.dataAgeMs.value > s.maxDataAgeMs then
      Some(Objection("STALE_MARKET_DATA", 85.0, 0.0, 0.0, Some(Reason("Stale market data", [ctx.dataAgeMs.value]))))
    else if ctx.latencyMs.Some? && ctx.latencyMs.value > s.maxLatencyMs then
      Some(Objection("EXECUTION_LATENCY", 70.0, 0.0, 0.0, None))
    else if ctx.slippagePct > s.maxSlippagePct then Some(Objection("EXCESSIVE_SLIPPAGE", 65.0, 0.0, 0.0, None))
    else if ctx.liquidity.Some? && ctx.liquidity.value < s.minLiquidity then
      Some(Objection("INSUFFICIENT_LIQUIDITY", 60.0, 0.0, 0.0, None))
    else if ctx.liquidity.Some? && quantity > ctx.liquidity.value then
      Some(Objection("INSUFFICIENT_LIQUIDITY", 60.0, ctx.liquidity.value, 0.0, None))
    else if AbnormalMove(s, ctx) then Some(Objection("ABNORMAL_PRICE_MOVEMENT", 80.0, 0.0, 0.0, None))
    else None
  }

  function PortfolioObjection(s: RiskSettings, pf: PortfolioSnapshot): Option<Objection>
  {
    var loss, limit := DailyLoss(pf), DailyLossLimit(s, pf.equity);
    var maximum := s.maxDrawdownPct / 100.0;
    if loss >= limit && limit > 0.0 then
      Some(Objection("MAX_DAILY_LOSS", 95.0, 0.0, limit, Some(Reason("Daily loss reached limit", [loss, limit]))))
    else if DrawdownFraction(pf) >= maximum && maximum > 0.0 then
      Some(Objection("MAX_DRAWDOWN", 95.0, 0.0, Value(PeakOf(pf), maximum),
                     Some(Reason("Drawdown reached max", [DrawdownFraction(pf), maximum]))))
    else if pf.openPositions >= s.maxOpen then Some(Objection("MAX_SIMULTANEOUS_POSITIONS", 55.0, 0.0, 0.0, None))
    else None
  }

  function FirstObjection(s: RiskSettings, p: Proposal, pf: PortfolioSnapshot, ctx: RiskContext): Option<Objection>
  {
    var proposal, market := ProposalObjection(s, p), MarketObjection(s, p.quantity, ctx);
    if proposal.Some? then proposal else if market.Some? then market else PortfolioObjection(s, pf)
  }

  predicate AbnormalMove(s: RiskSettings, ctx: RiskContext)
  {
    && ctx.referencePrice.Some? && ctx.currentPrice.Some?
    && ctx.currentPrice.value != 0.0 && ctx.referencePrice.value > 0.0
    && Value(Abs(ctx.currentPrice.value - ctx.referencePrice.value) / ctx.referencePrice.value, 100.0) > s.maxPriceMovePct
  }

  function BreachCode(b: Breach): string
  {
    match b
    case MaxPositionSize => "MAX_POSITION_SIZE"
    case MaxPositionPercent => "MAX_POSITION_PERCENT"
    case MaxTotalExposure => "MAX_TOTAL_EXPOSURE"
  }

  // ----- the gate -----

  // The warnings carry the texts that the kill switch is warned with.
  datatype Decision =
    | Approved(quantity: real, maximumLoss: real, score: real, warnings: seq<Reason>)
    | Rejected(code: string, allowed: real, maximumLoss: real, score: real)

  // `_reject`: a quantity that is not positive is no quantity.
  function Reject(code: string, score: real, allowed: real, loss: real): Decision
  {
    Rejected(code, Max(allowed, 0.0), loss, score)
  }

  // What a breached limit reports as the loss: for the exposure what remains of it, else what is allowed.
  function BreachLoss(limits: LimitResult): real
    requires limits.breached != []
  {
    if limits.breached[0].MaxTotalExposure? then limits.remaining else limits.allowedNotional
  }

  // The kill switch and the window of approval times.
  datatype Gate = Gate(switch: Switch, stamps: seq<real>)

  const WINDOW := 60.0

  // `_prune_trade_window`
  function Prune(stamps: seq<real>, cutoff: real): seq<real>
  {
    if stamps != [] && stamps[0] < cutoff then Prune(stamps[1..], cutoff) else stamps
  }

  function CurrentConditions(s: RiskSettings, k: Switch, pf: PortfolioSnapshot, ctx: RiskContext): Conditions
  {
    var limit := DailyLossLimit(s, pf.equity);
    Conditions(if limit > 0.0 then DailyLoss(pf) < limit else true,
               DrawdownFraction(pf) < s.maxDrawdownPct / 100.0,
               ctx.dataAgeMs.None? || ctx.dataAgeMs.value <= s.maxDataAgeMs,
               ctx.exchangeHealthy,
               k.failures < s.failureLimit)
  }

  // The warnings of an approval, in the order in which they are made.
  function LossWarning(s: RiskSettings, pf: PortfolioSnapshot): Option<Reason>
  {
    var lossPct := if pf.equity > 0.0 then Value(DailyLoss(pf) / pf.equity, 100.0) else 0.0;
    if pf.equity > 0.0 && lossPct >= s.warnDailyLossPct then Some(Reason("Daily loss approaching limit", [lossPct])) else None
  }

  function DrawdownWarning(s: RiskSettings, pf: PortfolioSnapshot): Option<Reason>
  {
    if DrawdownFraction(pf) >= s.warnDrawdownPct / 100.0 then
      Some(Reason("Drawdown approaching limit", [DrawdownFraction(pf)]))
    else None
  }

  function Listed(warning: Option<Reason>): seq<Reason>
  {
    if warning.Some? then [warning.value] else []
  }

  function Warnings(s: RiskSettings, pf: PortfolioSnapshot): seq<Reason>
  {
    Listed(LossWarning(s, pf)) + Listed(DrawdownWarning(s, pf))
  }

  // Python's `int`: towards zero.
  function Truncated(x: real): int { if x >= 0.0 then x.Floor else -(-x).Floor }

  // The risk score of an approval: 15 for each warning, and up to 40 for the slippage.
  function Score(warnings: seq<Reason>, slippagePct: real): real
  {
    Value(15.0, |warnings| as real) + Min(40.0, Truncated(Value(slippagePct, 10.0)) as real)
  }

  function WarnedSwitch(s: RiskSettings, k: Switch, pf: PortfolioSnapshot, now: int): Switch
  {
    var loss, drawdown := LossWarning(s, pf), DrawdownWarning(s, pf);
    var first :=
      if loss.Some? then Perform(k, s.failureLimit, s.requireManualRecovery, Warn(loss.value, Some("MAX_DAILY_LOSS")), now)
      else k;
    if drawdown.Some? then
      Perform(first, s.failureLimit, s.requireManualRecovery, Warn(drawdown.value, Some("MAX_DRAWDOWN")), now)
    else first
  }

  // `evaluate`. The clock is read twice: when the window is pruned and when an approval is stamped.
  function Decide(g: Gate, s: RiskSettings, p: Proposal, pf: PortfolioSnapshot, ctx: RiskContext,
                  checked: real, stamped: real, now: int): (Gate, Decision)
  {
    var k := Perform(g.switch, s.failureLimit, s.requireManualRecovery, Report(CurrentConditions(s, g.switch, pf, ctx)), now);
    if !k.AllowsNewOrders() then (g.(switch := k), Reject("KILL_SWITCH", 100.0, 0.0, 0.0))
    else
      var objection := FirstObjection(s, p, pf, ctx);
      if objection.Some? then
        var after :=
          if objection.value.pause.Some? then
            Perform(k, s.failureLimit, s.requireManualRecovery,
                    Pause(objection.value.pause.value, Some(objection.value.code)), now)
          else k;
        (g.(switch := after),
         Reject(objection.value.code, objection.value.score, objection.value.allowed, objection.value.loss))
      else
        var recent := Prune(g.stamps, checked - WINDOW);
        if |recent| >= s.maxTradesPerMinute then (Gate(k, recent), Reject("MAX_TRADES_PER_MINUTE", 50.0, 0.0, 0.0))
        else
          var limits := Limits(s, p, pf);
          if limits.breached != [] then
            (Gate(k, recent), Reject(BreachCode(limits.breached[0]), 75.0, limits.allowedQuantity, BreachLoss(limits)))
          else
            (Gate(WarnedSwitch(s, k, pf, now), recent + [stamped]),
             Approved(limits.allowedQuantity, Min(limits.allowedNotional, DailyLossLimit(s, pf.equity)),
                      Score(Warnings(s, pf), ctx.slippagePct), Warnings(s, pf)))
  }

  // ----- what an approval means -----

  // Without a breach the calculator allows exactly what was asked for.
  lemma UnbreachedIsFull(s: RiskSettings, p: Proposal, pf: PortfolioSnapshot)
    requires Configured(s) && p.quantity > 0.0 && p.entryPrice > 0.0 && pf.exposure >= 0.0
    requires Limits(s, p, pf).breached == []
    ensures var l := Limits(s, p, pf);
            && l.allowedQuantity == p.quantity
            && l.requested <= s.maxPositionAbs && l.requested <= ShareOf(pf.equity, s.maxPositionPct)
            && l.requested + pf.exposure <= ShareOf(pf.equity, s.maxExposurePct)
  {
    hide Value;
    var requested := Value(p.quantity, p.entryPrice);
    RequestIsPositive(p.quantity, p.entryPrice);
    SharesArePositive(s, pf.equity);
    var byPct, byExposure := ShareOf(pf.equity, s.maxPositionPct), ShareOf(pf.equity, s.maxExposurePct);
    hide ShareOf;
    var remaining := Max(byExposure - pf.exposure, 0.0);
    var cap := if byPct > 0.0 then Min(s.maxPositionAbs, byPct) else s.maxPositionAbs;
    assert requested <= remaining && requested <= cap;
    Divided(p.quantity, p.entryPrice, Min(cap, remaining));
  }

  // In every case the allowed quantity is worth the allowed notional, within all caps and the request; and it
  // is less than the request exactly when a breach is reported.
  lemma TrimmedIffBreached(s: RiskSettings, p: Proposal, pf: PortfolioSnapshot)
    requires Configured(s) && p.quantity > 0.0 && p.entryPrice > 0.0
    ensures var l := Limits(s, p, pf);
            && l.allowedNotional == Value(l.allowedQuantity, p.entryPrice)
            && 0.0 <= l.allowedNotional <= s.maxPositionAbs && l.allowedNotional <= l.remaining
            && (pf.equity > 0.0 ==> l.allowedNotional <= ShareOf(pf.equity, s.maxPositionPct))
            && l.allowedQuantity <= p.quantity
            && (l.allowedQuantity < p.quantity <==> l.breached != [])
  {
    hide Value, ShareOf;
    SharesArePositive(s, pf.equity);
    RequestIsPositive(p.quantity, p.entryPrice);
    var byPct := ShareOf(pf.equity, s.maxPositionPct);
    var remaining := Max(ShareOf(pf.equity, s.maxExposurePct) - pf.exposure, 0.0);
    var cap := if byPct > 0.0 then Min(s.maxPositionAbs, byPct) else s.maxPositionAbs;
    ValueOfQuotient(Min(cap, remaining), p.quantity, p.entryPrice);
  }

  lemma ValueOfQuotient(notional: real, quantity: real, price: real)
    requires price > 0.0
    ensures Value(notional / price, price) == notional
    ensures notional / price > quantity <==> notional > Value(quantity, price)
    ensures notional / price == quantity <==> notional == Value(quantity, price)
  {
    assert notional / price * price == notional;
  }

  lemma RequestIsPositive(quantity: real, price: real)
    requires quantity > 0.0 && price > 0.0
    ensures Value(quantity, price) > 0.0
  {
  }

  lemma SharesArePositive(s: RiskSettings, equity: real)
    requires Configured(s)
    ensures equity > 0.0 ==> ShareOf(equity, s.maxPositionPct) > 0.0 && ShareOf(equity, s.maxExposurePct) > 0.0
    ensures equity <= 0.0 ==> ShareOf(equity, s.maxPositionPct) == 0.0 == ShareOf(equity, s.maxExposurePct)
  {
  }

  lemma Divided(quantity: real, price: real, notional: real)
    requires price > 0.0 && Value(quantity, price) <= notional
    ensures quantity <= notional / price
  {
    assert (notional / price) * price == notional;
  }

  // ----- the limits in the settings' own terms -----

  // Today's loss has reached the amount, or the share of the equity, whichever is smaller.
  predicate LossReached(s: RiskSettings, pf: PortfolioSnapshot)
  {
    || s.maxDailyLossAbs <= -pf.dailyRealizedPnl
    || (pf.equity > 0.0 && Value(pf.equity, s.maxDailyLossPct / 100.0) <= -pf.dailyRealizedPnl)
  }

  // The equity has fallen from the recorded peak by the share of it.
  predicate DrawdownReached(s: RiskSettings, pf: PortfolioSnapshot)
  {
    && pf.recordedPeak.Some? && pf.recordedPeak.value > 0.0
    && Value(pf.recordedPeak.value, s.maxDrawdownPct / 100.0) <= pf.recordedPeak.value - pf.equity
  }

  // The price is further from the reference than the percentage of it.
  predicate PriceJumped(s: RiskSettings, ctx: RiskContext)
  {
    && ctx.referencePrice.Some? && ctx.currentPrice.Some? && ctx.referencePrice.value > 0.0 && ctx.currentPrice.value != 0.0
    && var reference, current := ctx.referencePrice.value, ctx.currentPrice.value;
       || Value(reference, s.maxPriceMovePct) < Value(current - reference, 100.0)
       || Value(reference, s.maxPriceMovePct) < Value(reference - current, 100.0)
  }

  lemma LossReachedIff(s: RiskSettings, pf: PortfolioSnapshot)
    requires Configured(s)
    ensures DailyLossLimit(s, pf.equity) > 0.0
    ensures DailyLoss(pf) >= DailyLossLimit(s, pf.equity) <==> LossReached(s, pf)
  {
    if pf.equity > 0.0 { RequestIsPositive(pf.equity, s.maxDailyLossPct / 100.0); }
    hide Value;
  }

  lemma DrawdownReachedIff(s: RiskSettings, pf: PortfolioSnapshot)
    requires Configured(s)
    ensures DrawdownFraction(pf) >= s.maxDrawdownPct / 100.0 <==> DrawdownReached(s, pf)
  {
    var share := s.maxDrawdownPct / 100.0;
    if pf.recordedPeak.Some? && pf.recordedPeak.value > 0.0 {
      var peak := pf.recordedPeak.value;
      FractionAtLeast(peak - pf.equity, peak, share);
      RequestIsPositive(peak, share);
    }
    hide Value;
  }

  lemma FractionAtLeast(part: real, whole: real, share: real)
    requires whole > 0.0
    ensures part / whole >= share <==> part >= Value(whole, share)
  {
    assert part / whole * whole == part;
  }

  lemma PriceJumpedIff(s: RiskSettings, ctx: RiskContext)
    ensures AbnormalMove(s, ctx) <==> PriceJumped(s, ctx)
  {
    if ctx.referencePrice.Some? && ctx.currentPrice.Some? && ctx.referencePrice.value > 0.0 {
      var reference, current := ctx.referencePrice.value, ctx.currentPrice.value;
      PercentAbove(current - reference, reference, s.maxPriceMovePct);
      PercentAbove(reference - current, reference, s.maxPriceMovePct);
      PercentAboveAbs(current - reference, reference, s.maxPriceMovePct);
    }
  }

  lemma PercentAbove(move: real, reference: real, percent: real)
    requires reference > 0.0
    ensures Value(move / reference, 100.0) > percent <==> Value(move, 100.0) > Value(reference, percent)
  {
    assert move / reference * reference == move;
  }

  lemma PercentAboveAbs(move: real, reference: real, percent: real)
    requires reference > 0.0
    ensures Value(Abs(move) / reference, 100.0) > percent
            <==> Value(move, 100.0) > Value(reference, percent) || Value(-move, 100.0) > Value(reference, percent)
  {
    PercentAbove(Abs(move), reference, percent);
  }

  // Everything the gate asks for, in the terms of whoever asks it.
  predicate Passes(g: Gate, s: RiskSettings, p: Proposal, pf: PortfolioSnapshot, ctx: RiskContext, checked: real)
  {
    var requested := Value(p.quantity, p.entryPrice);
    && (g.switch.state.Running? || g.switch.state.Warning?)
    && (p.leverage.Some? ==> p.leverage.value <= 1.0)
    && p.profitable && s.minNetProfit <= p.netProfit
    && ctx.exchangeHealthy
    && (ctx.dataAgeMs.Some? ==> ctx.dataAgeMs.value <= s.maxDataAgeMs)
    && (ctx.latencyMs.Some? ==> ctx.latencyMs.value <= s.maxLatencyMs)
    && ctx.slippagePct <= s.maxSlippagePct
    && (ctx.liquidity.Some? ==> s.minLiquidity <= ctx.liquidity.value && p.quantity <= ctx.liquidity.value)
    && !PriceJumped(s, ctx) && !LossReached(s, pf) && !DrawdownReached(s, pf)
    && pf.openPositions < s.maxOpen
    && |Prune(g.stamps, checked - 60.0)| < s.maxTradesPerMinute
    && pf.equity > 0.0
    && requested <= s.maxPositionAbs && requested <= Value(pf.equity, s.maxPositionPct / 100.0)
    && requested + pf.exposure <= Value(pf.equity, s.maxExposurePct / 100.0)
  }

  // The gate approves exactly what passes all of its checks, and it never trims: an approval is for the full
  // request.
  lemma ApprovalMeaning(g: Gate, s: RiskSettings, p: Proposal, pf: PortfolioSnapshot, ctx: RiskContext,
                        checked: real, stamped: real, now: int)
    requires Configured(s) && p.quantity > 0.0 && p.entryPrice > 0.0 && pf.exposure >= 0.0
    ensures var (after, decision) := Decide(g, s, p, pf, ctx, checked, stamped, now);
            && (decision.Approved? <==> Passes(g, s, p, pf, ctx, checked))
            && (decision.Approved? ==>
                  && decision.quantity == p.quantity
                  && after.stamps == Prune(g.stamps, checked - 60.0) + [stamped])
  {
    hide Value, ShareOf, Prune, DrawdownFraction, AbnormalMove, WarnedSwitch, CurrentConditions, DailyLoss, DailyLossLimit,
         Warnings, Score, PeakOf, PriceJumped, LossReached, DrawdownReached;
    LossReachedIff(s, pf);
    DrawdownReachedIff(s, pf);
    PriceJumpedIff(s, ctx);
    BreachFreeIff(s, p, pf);
    if Limits(s, p, pf).breached == [] { UnbreachedIsFull(s, p, pf); }
    hide Limits;
  }

  lemma BreachFreeIff(s: RiskSettings, p: Proposal, pf: PortfolioSnapshot)
    requires Configured(s) && p.quantity > 0.0 && p.entryPrice > 0.0 && pf.exposure >= 0.0
    ensures var requested := Value(p.quantity, p.entryPrice);
            Limits(s, p, pf).breached == []
            <==> && pf.equity > 0.0
                 && requested <= s.maxPositionAbs && requested <= Value(pf.equity, s.maxPositionPct / 100.0)
                 && requested + pf.exposure <= Value(pf.equity, s.maxExposurePct / 100.0)
  {
    hide Value;
    RequestIsPositive(p.quantity, p.entryPrice);
    SharesArePositive(s, pf.equity);
  }
}
