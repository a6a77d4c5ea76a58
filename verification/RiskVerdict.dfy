// The whole verdict of the risk gate, told from what its caller holds: which check speaks, in which order, with
// which code, score, quantity and loss, and what it does to the kill switch
// (bot/risk/risk_engine.py, `evaluate`; bot/risk/position_limits.py).

module RiskVerdict {
  import opened Prelude
  import opened DepthWalk
  import opened Ledger
  import opened KillSwitch
  import opened RiskGate

  datatype Check =
    | SwitchBlocks | Leveraged | NotProfitable | BelowMinimum | Unhealthy | Stale | Slow | Slippery | Illiquid | TooLarge
    | Jumped | LostToday | DrawnDown | Crowded | TooOften | AboveAmount | AboveShare | AboveExposure

  function CodeOf(c: Check): string
  {
    match c
    case SwitchBlocks => "KILL_SWITCH"
    case Leveraged => "LEVERAGE_FORBIDDEN"
    case NotProfitable => "NOT_PROFITABLE"
    case BelowMinimum => "NOT_PROFITABLE"
    case Unhealthy => "EXCHANGE_UNHEALTHY"
    case Stale => "STALE_MARKET_DATA"
    case Slow => "EXECUTION_LATENCY"
    case Slippery => "EXCESSIVE_SLIPPAGE"
    case Illiquid => "INSUFFICIENT_LIQUIDITY"
    case TooLarge => "INSUFFICIENT_LIQUIDITY"
    case Jumped => "ABNORMAL_PRICE_MOVEMENT"
    case LostToday => "MAX_DAILY_LOSS"
    case DrawnDown => "MAX_DRAWDOWN"
    case Crowded => "MAX_SIMULTANEOUS_POSITIONS"
    case TooOften => "MAX_TRADES_PER_MINUTE"
    case AboveAmount => "MAX_POSITION_SIZE"
    case AboveShare => "MAX_POSITION_PERCENT"
    case AboveExposure => "MAX_TOTAL_EXPOSURE"
  }

  function ScoreOf(c: Check): real
  {
    match c
    case SwitchBlocks => 100.0
    case Leveraged => 100.0
    case NotProfitable => 40.0
    case BelowMinimum => 35.0
    case Unhealthy => 90.0
    case Stale => 85.0
    case Slow => 70.0
    case Slippery => 65.0
    case Illiquid => 60.0
    case TooLarge => 60.0
    case Jumped => 80.0
    case LostToday => 95.0
    case DrawnDown => 95.0
    case Crowded => 55.0
    case TooOften => 50.0
    case _ => 75.0
  }

  predicate Pauses(c: Check) { c.Unhealthy? || c.Stale? || c.LostToday? || c.DrawnDown? }

  // Rejections that come after the window of approvals was pruned.
  predicate AfterPruning(c: Check) { c.TooOften? || c.AboveAmount? || c.AboveShare? || c.AboveExposure? }

  // Whether a check objects, by itself.
  predicate Objects(c: Check, g: Gate, s: RiskSettings, p: Proposal, pf: PortfolioSnapshot, ctx: RiskContext, checked: real)
  {
    var requested := Value(p.quantity, p.entryPrice);
    match c
    case SwitchBlocks => g.switch.state.Paused? || g.switch.state.EmergencyStop?
    case Leveraged => p.leverage.Some? && 1.0 < p.leverage.value
    case NotProfitable => !p.profitable
    case BelowMinimum => p.netProfit < s.minNetProfit
    case Unhealthy => !ctx.exchangeHealthy
    case Stale => ctx.dataAgeMs.Some? && s.maxDataAgeMs < ctx.dataAgeMs.value
    case Slow => ctx.latencyMs.Some? && s.maxLatencyMs < ctx.latencyMs.value
    case Slippery => s.maxSlippagePct < ctx.slippagePct
    case Illiquid => ctx.liquidity.Some? && ctx.liquidity.value < s.minLiquidity
    case TooLarge => ctx.liquidity.Some? && ctx.liquidity.value < p.quantity
    case Jumped => PriceJumped(s, ctx)
    case LostToday => LossReached(s, pf)
    case DrawnDown => DrawdownReached(s, pf)
    case Crowded => s.maxOpen <= pf.openPositions
    case TooOften => s.maxTradesPerMinute <= |Prune(g.stamps, checked - 60.0)|
    case AboveAmount => s.maxPositionAbs < requested
    case AboveShare => pf.equity > 0.0 && Value(pf.equity, s.maxPositionPct / 100.0) < requested
    case AboveExposure =>
      pf.equity <= 0.0 || Value(pf.equity, s.maxExposurePct / 100.0) < requested + pf.exposure
  }

  // The first check that objects to the proposal, to the market, to the portfolio.
  function FirstToProposal(g: Gate, s: RiskSettings, p: Proposal, pf: PortfolioSnapshot, ctx: RiskContext,
                           checked: real): Option<Check>
  {
    if Objects(Leveraged, g, s, p, pf, ctx, checked) then Some(Leveraged)
    else if Objects(NotProfitable, g, s, p, pf, ctx, checked) then Some(NotProfitable)
    else if Objects(BelowMinimum, g, s, p, pf, ctx, checked) then Some(BelowMinimum)
    else None
  }

  function FirstToMarket(g: Gate, s: RiskSettings, p: Proposal, pf: PortfolioSnapshot, ctx: RiskContext,
                         checked: real): Option<Check>
  {
    if Objects(Unhealthy, g, s, p, pf, ctx, checked) then Some(Unhealthy)
    else if Objects(Stale, g, s, p, pf, ctx, checked) then Some(Stale)
    else if Objects(Slow, g, s, p, pf, ctx, checked) then Some(Slow)
    else if Objects(Slippery, g, s, p, pf, ctx, checked) then Some(Slippery)
    else if Objects(Illiquid, g, s, p, pf, ctx, checked) then Some(Illiquid)
    else if Objects(TooLarge, g, s, p, pf, ctx, checked) then Some(TooLarge)
    else if Objects(Jumped, g, s, p, pf, ctx, checked) then Some(Jumped)
    else None
  }

  function FirstToPortfolio(g: Gate, s: RiskSettings, p: Proposal, pf: PortfolioSnapshot, ctx: RiskContext,
                            checked: real): Option<Check>
  {
    if Objects(LostToday, g, s, p, pf, ctx, checked) then Some(LostToday)
    else if Objects(DrawnDown, g, s, p, pf, ctx, checked) then Some(DrawnDown)
    else if Objects(Crowded, g, s, p, pf, ctx, checked) then Some(Crowded)
    else None
  }

  function FirstInScreening(g: Gate, s: RiskSettings, p: Proposal, pf: PortfolioSnapshot, ctx: RiskContext,
                            checked: real): Option<Check>
  {
    var proposal, market := FirstToProposal(g, s, p, pf, ctx, checked), FirstToMarket(g, s, p, pf, ctx, checked);
    if proposal.Some? then proposal else if market.Some? then market else FirstToPortfolio(g, s, p, pf, ctx, checked)
  }

  // The first check of all that objects.
  function FirstToObject(g: Gate, s: RiskSettings, p: Proposal, pf: PortfolioSnapshot, ctx: RiskContext,
                         checked: real): Option<Check>
  {
    var screening := FirstInScreening(g, s, p, pf, ctx, checked);
    if Objects(SwitchBlocks, g, s, p, pf, ctx, checked) then Some(SwitchBlocks)
    else if screening.Some? then screening
    else if Objects(TooOften, g, s, p, pf, ctx, checked) then Some(TooOften)
    else if Objects(AboveAmount, g, s, p, pf, ctx, checked) then Some(AboveAmount)
    else if Objects(AboveShare, g, s, p, pf, ctx, checked) then Some(AboveShare)
    else if Objects(AboveExposure, g, s, p, pf, ctx, checked) then Some(AboveExposure)
    else None
  }

  // The smaller of the two loss limits.
  function LossAllowed(s: RiskSettings, pf: PortfolioSnapshot): real
  {
    if pf.equity > 0.0 && Value(pf.equity, s.maxDailyLossPct / 100.0) < s.maxDailyLossAbs then
      Value(pf.equity, s.maxDailyLossPct / 100.0)
    else s.maxDailyLossAbs
  }

  function ExposureLeft(s: RiskSettings, pf: PortfolioSnapshot): real
  {
    if pf.equity > 0.0 && pf.exposure < Value(pf.equity, s.maxExposurePct / 100.0) then
      Value(pf.equity, s.maxExposurePct / 100.0) - pf.exposure
    else 0.0
  }

  // No more than the amount, the share, and what is left of the exposure.
  predicate IsRoom(room: real, s: RiskSettings, pf: PortfolioSnapshot)
  {
    var share := Value(pf.equity, s.maxPositionPct / 100.0);
    && room <= s.maxPositionAbs && room <= ExposureLeft(s, pf) && (pf.equity > 0.0 ==> room <= share)
    && (room == s.maxPositionAbs || room == ExposureLeft(s, pf) || (pf.equity > 0.0 && room == share))
  }

  // What a rejection says besides its code and score.
  predicate Says(c: Check, s: RiskSettings, p: Proposal, pf: PortfolioSnapshot, ctx: RiskContext, allowed: real, loss: real)
  {
    match c
    case TooLarge => allowed == (if ctx.liquidity.Some? then Max(ctx.liquidity.value, 0.0) else 0.0) && loss == 0.0
    case LostToday => allowed == 0.0 && loss == LossAllowed(s, pf)
    case DrawnDown =>
      allowed == 0.0 && pf.recordedPeak.Some? && loss == Value(pf.recordedPeak.value, s.maxDrawdownPct / 100.0)
    case AboveAmount => IsRoom(Value(allowed, p.entryPrice), s, pf) && loss == Value(allowed, p.entryPrice)
    case AboveShare => IsRoom(Value(allowed, p.entryPrice), s, pf) && loss == Value(allowed, p.entryPrice)
    case AboveExposure => IsRoom(Value(allowed, p.entryPrice), s, pf) && loss == ExposureLeft(s, pf)
    case _ => allowed == 0.0 && loss == 0.0
  }

  // Why the switch is paused: the text, and the figures that were compared.
  predicate Because(c: Check, s: RiskSettings, pf: PortfolioSnapshot, ctx: RiskContext, why: Reason)
  {
    match c
    case Unhealthy => why == Reason("Exchange connectivity unhealthy", [])
    case Stale => ctx.dataAgeMs.Some? && why == Reason("Stale market data", [ctx.dataAgeMs.value])
    case LostToday => why == Reason("Daily loss reached limit", [-pf.dailyRealizedPnl, LossAllowed(s, pf)])
    case DrawnDown =>
      && why.text == "Drawdown reached max" && |why.figures| == 2 && why.figures[1] == s.maxDrawdownPct / 100.0
      && pf.recordedPeak.Some? && Value(pf.recordedPeak.value, why.figures[0]) == pf.recordedPeak.value - pf.equity
    case _ => false
  }

  // What is true now of each recovery condition.
  predicate TellsConditions(told: Conditions, g: Gate, s: RiskSettings, pf: PortfolioSnapshot, ctx: RiskContext)
  {
    && (told.dailyLossOk <==> !LossReached(s, pf))
    && (told.drawdownOk <==> !DrawdownReached(s, pf))
    && (told.marketDataFresh <==> (ctx.dataAgeMs.Some? ==> ctx.dataAgeMs.value <= s.maxDataAgeMs))
    && (told.exchangeHealthy <==> ctx.exchangeHealthy)
    && (told.executionStable <==> g.switch.failures < s.failureLimit)
  }

  predicate RejectedBy(c: Check, g: Gate, s: RiskSettings, p: Proposal, pf: PortfolioSnapshot, ctx: RiskContext,
                       checked: real, now: int, after: Gate, decision: Decision)
  {
    && decision.Rejected? && decision.code == CodeOf(c) && decision.score == ScoreOf(c)
    && Says(c, s, p, pf, ctx, decision.allowed, decision.maximumLoss)
    && after.stamps == (if AfterPruning(c) then Prune(g.stamps, checked - 60.0) else g.stamps)
    && after.switch.conditions.Some? && TellsConditions(after.switch.conditions.value, g, s, pf, ctx)
    && (if Pauses(c) then
          && after.switch.state.Paused? && after.switch.code == Some(CodeOf(c)) && after.switch.activatedAt == Some(now)
          && after.switch.failures == g.switch.failures
          && after.switch.reason.Some? && Because(c, s, pf, ctx, after.switch.reason.value)
          && after.switch.events
             == g.switch.events + [Activated(Paused, after.switch.reason.value, Some(CodeOf(c)), g.switch.state)]
        else after.switch == g.switch.(conditions := after.switch.conditions))
  }

  // Which warnings an approval carries.
  predicate Warns(s: RiskSettings, pf: PortfolioSnapshot, warnings: seq<Reason>)
  {
    var lost := pf.equity > 0.0
                && Value(pf.equity, s.warnDailyLossPct) <= Value(Max(-pf.dailyRealizedPnl, 0.0), 100.0);
    var fallen := WarnedDrawdown(s, pf);
    && |warnings| == (if lost then 1 else 0) + (if fallen then 1 else 0)
    && (lost ==> warnings[0].text == "Daily loss approaching limit")
    && (fallen ==> warnings[|warnings| - 1].text == "Drawdown approaching limit")
  }

  // The drawdown, none without a fall from a recorded peak, against the share that is worth a warning.
  predicate WarnedDrawdown(s: RiskSettings, pf: PortfolioSnapshot)
  {
    if pf.recordedPeak.Some? && pf.recordedPeak.value > 0.0 && pf.equity < pf.recordedPeak.value then
      Value(pf.recordedPeak.value, s.warnDrawdownPct / 100.0) <= pf.recordedPeak.value - pf.equity
    else s.warnDrawdownPct <= 0.0
  }

  predicate ApprovedWith(g: Gate, s: RiskSettings, p: Proposal, pf: PortfolioSnapshot, ctx: RiskContext,
                         checked: real, stamped: real, after: Gate, decision: Decision)
  {
    && decision.Approved? && decision.quantity == p.quantity
    && decision.maximumLoss == Min(Value(p.quantity, p.entryPrice), LossAllowed(s, pf))
    && Warns(s, pf, decision.warnings)
    && decision.score - Value(15.0, |decision.warnings| as real) <= 40.0
    && (0.0 <= ctx.slippagePct < 4.0 ==>
          var part := decision.score - Value(15.0, |decision.warnings| as real);
          part == part.Floor as real && part <= Value(10.0, ctx.slippagePct) < part + 1.0)
    && (4.0 <= ctx.slippagePct ==> decision.score == Value(15.0, |decision.warnings| as real) + 40.0)
    && after.stamps == Prune(g.stamps, checked - 60.0) + [stamped]
    && after.switch.conditions.Some? && TellsConditions(after.switch.conditions.value, g, s, pf, ctx)
    && after.switch.failures == g.switch.failures && after.switch.events == g.switch.events
    && (if decision.warnings == [] then after.switch == g.switch.(conditions := after.switch.conditions)
        else IsWarned(g.switch, after.switch, decision.warnings[|decision.warnings| - 1]))
  }

  // The switch carries the last warning, under its code; the one it had carried that very warning under, if so.
  predicate IsWarned(k: Switch, after: Switch, last: Reason)
  {
    && after.state.Warning? && after.reason == Some(last)
    && ((k.state.Warning? && k.reason == Some(last) && after.code == k.code)
        || after.code == Some(if last.text == "Drawdown approaching limit" then "MAX_DRAWDOWN" else "MAX_DAILY_LOSS"))
  }

  predicate Verdict(g: Gate, s: RiskSettings, p: Proposal, pf: PortfolioSnapshot, ctx: RiskContext,
                    checked: real, stamped: real, now: int, after: Gate, decision: Decision)
  {
    match FirstToObject(g, s, p, pf, ctx, checked)
    case None => ApprovedWith(g, s, p, pf, ctx, checked, stamped, after, decision)
    case Some(c) => RejectedBy(c, g, s, p, pf, ctx, checked, now, after, decision)
  }

  lemma LossLimitIs(s: RiskSettings, pf: PortfolioSnapshot)
    requires Configured(s)
    ensures DailyLossLimit(s, pf.equity) == LossAllowed(s, pf) > 0.0
    ensures LossReached(s, pf) ==> DailyLoss(pf) == -pf.dailyRealizedPnl
  {
    LossReachedIff(s, pf);
    hide Value;
  }

  lemma DrawdownFigures(s: RiskSettings, pf: PortfolioSnapshot)
    requires Configured(s) && DrawdownReached(s, pf)
    ensures PeakOf(pf) == pf.recordedPeak.value && Value(PeakOf(pf), DrawdownFraction(pf)) == PeakOf(pf) - pf.equity
  {
    var peak := pf.recordedPeak.value;
    RequestIsPositive(peak, s.maxDrawdownPct / 100.0);
    WholeOfPart(peak - pf.equity, peak);
    hide Value;
  }

  lemma WholeOfPart(part: real, whole: real)
    requires whole > 0.0
    ensures Value(whole, part / whole) == part
  {
  }

  // What each check of the screening objects with.
  function ObjectionOf(c: Check, s: RiskSettings, pf: PortfolioSnapshot, ctx: RiskContext): Objection
  {
    match c
    case Unhealthy => Objection(CodeOf(c), ScoreOf(c), 0.0, 0.0, Some(Reason("Exchange connectivity unhealthy", [])))
    case Stale =>
      Objection(CodeOf(c), ScoreOf(c), 0.0, 0.0,
                if ctx.dataAgeMs.Some? then Some(Reason("Stale market data", [ctx.dataAgeMs.value])) else None)
    case TooLarge => Objection(CodeOf(c), ScoreOf(c), if ctx.liquidity.Some? then ctx.liquidity.value else 0.0, 0.0, None)
    case LostToday =>
      Objection(CodeOf(c), ScoreOf(c), 0.0, LossAllowed(s, pf),
                Some(Reason("Daily loss reached limit", [DailyLoss(pf), LossAllowed(s, pf)])))
    case DrawnDown =>
      Objection(CodeOf(c), ScoreOf(c), 0.0, Value(PeakOf(pf), s.maxDrawdownPct / 100.0),
                Some(Reason("Drawdown reached max", [DrawdownFraction(pf), s.maxDrawdownPct / 100.0])))
    case _ => Objection(CodeOf(c), ScoreOf(c), 0.0, 0.0, None)
  }

  lemma ScreeningIs(g: Gate, s: RiskSettings, p: Proposal, pf: PortfolioSnapshot, ctx: RiskContext, checked: real)
    requires Configured(s)
    ensures var first := FirstInScreening(g, s, p, pf, ctx, checked);
            FirstObjection(s, p, pf, ctx) == if first.None? then None else Some(ObjectionOf(first.value, s, pf, ctx))
  {
    hide FirstToProposal, FirstToMarket, FirstToPortfolio, ProposalObjection, MarketObjection, PortfolioObjection,
         ObjectionOf;
    ProposalIs(g, s, p, pf, ctx, checked);
    MarketIs(g, s, p, pf, ctx, checked);
    PortfolioIs(g, s, p, pf, ctx, checked);
  }

  lemma ProposalIs(g: Gate, s: RiskSettings, p: Proposal, pf: PortfolioSnapshot, ctx: RiskContext, checked: real)
    ensures var first := FirstToProposal(g, s, p, pf, ctx, checked);
            ProposalObjection(s, p) == if first.None? then None else Some(ObjectionOf(first.value, s, pf, ctx))
  {
    hide Value, DailyLoss, DrawdownFraction, PeakOf, LossAllowed;
  }

  lemma MarketIs(g: Gate, s: RiskSettings, p: Proposal, pf: PortfolioSnapshot, ctx: RiskContext, checked: real)
    ensures var first := FirstToMarket(g, s, p, pf, ctx, checked);
            MarketObjection(s, p.quantity, ctx) == if first.None? then None else Some(ObjectionOf(first.value, s, pf, ctx))
  {
    hide Value, DailyLoss, DrawdownFraction, PeakOf, LossAllowed, PriceJumped, AbnormalMove, LossReached, DrawdownReached,
         Prune, ScoreOf, CodeOf;
    MarketCodes();
    PriceJumpedIff(s, ctx);
  }

  lemma MarketCodes()
    ensures CodeOf(Unhealthy) == "EXCHANGE_UNHEALTHY" && ScoreOf(Unhealthy) == 90.0
    ensures CodeOf(Stale) == "STALE_MARKET_DATA" && ScoreOf(Stale) == 85.0
    ensures CodeOf(Slow) == "EXECUTION_LATENCY" && ScoreOf(Slow) == 70.0
    ensures CodeOf(Slippery) == "EXCESSIVE_SLIPPAGE" && ScoreOf(Slippery) == 65.0
    ensures CodeOf(Illiquid) == "INSUFFICIENT_LIQUIDITY" && ScoreOf(Illiquid) == 60.0
    ensures CodeOf(TooLarge) == "INSUFFICIENT_LIQUIDITY" && ScoreOf(TooLarge) == 60.0
    ensures CodeOf(Jumped) == "ABNORMAL_PRICE_MOVEMENT" && ScoreOf(Jumped) == 80.0
  {
  }

  lemma PortfolioIs(g: Gate, s: RiskSettings, p: Proposal, pf: PortfolioSnapshot, ctx: RiskContext, checked: real)
    requires Configured(s)
    ensures var first := FirstToPortfolio(g, s, p, pf, ctx, checked);
            PortfolioObjection(s, pf) == if first.None? then None else Some(ObjectionOf(first.value, s, pf, ctx))
  {
    hide Value, LossReached, DrawdownReached, DailyLoss, DailyLossLimit, DrawdownFraction, PeakOf, LossAllowed, Configured;
    LossReachedIff(s, pf);
    DrawdownReachedIff(s, pf);
    LossLimitIs(s, pf);
    DrawdownSetting(s);
  }

  lemma DrawdownSetting(s: RiskSettings)
    requires Configured(s)
    ensures s.maxDrawdownPct / 100.0 > 0.0
  {
  }

  // What a check objects with is what a caller can say of it.
  lemma ObjectionSays(c: Check, g: Gate, s: RiskSettings, p: Proposal, pf: PortfolioSnapshot, ctx: RiskContext, checked: real)
    requires Configured(s) && Objects(c, g, s, p, pf, ctx, checked) && !AfterPruning(c)
    ensures var o := ObjectionOf(c, s, pf, ctx);
            && o.code == CodeOf(c) && o.score == ScoreOf(c) && Says(c, s, p, pf, ctx, Max(o.allowed, 0.0), o.loss)
            && (o.pause.Some? <==> Pauses(c)) && (o.pause.Some? ==> Because(c, s, pf, ctx, o.pause.value))
  {
    hide Value, LossReached, DrawdownReached, PriceJumped, DailyLoss, DrawdownFraction, PeakOf, LossAllowed, Prune, IsRoom,
         ExposureLeft, Configured, CodeOf, ScoreOf;
    match c
    case LostToday => LossLimitIs(s, pf);
    case DrawnDown =>
      DrawdownFigures(s, pf);
      RecordedWhenReached(s, pf);
    case _ =>
  }

  lemma RecordedWhenReached(s: RiskSettings, pf: PortfolioSnapshot)
    ensures DrawdownReached(s, pf) ==> pf.recordedPeak.Some?
  {
  }

  lemma ConditionsAreTold(g: Gate, s: RiskSettings, pf: PortfolioSnapshot, ctx: RiskContext)
    requires Configured(s)
    ensures TellsConditions(CurrentConditions(s, g.switch, pf, ctx), g, s, pf, ctx)
  {
    hide LossReached, DrawdownReached, DailyLoss, DailyLossLimit, DrawdownFraction;
    LossReachedIff(s, pf);
    DrawdownReachedIff(s, pf);
  }

  // The first breach, and the room that a rejection reports.
  lemma LimitsAre(s: RiskSettings, p: Proposal, pf: PortfolioSnapshot)
    requires Configured(s) && p.quantity > 0.0 && p.entryPrice > 0.0 && pf.exposure >= 0.0
    ensures var l, requested := Limits(s, p, pf), Value(p.quantity, p.entryPrice);
            && (l.breached == [] <==>
                  && requested <= s.maxPositionAbs
                  && !(pf.equity > 0.0 && Value(pf.equity, s.maxPositionPct / 100.0) < requested)
                  && !(pf.equity <= 0.0 || Value(pf.equity, s.maxExposurePct / 100.0) < requested + pf.exposure))
            && (l.breached != [] ==>
                  && l.breached[0] == (if s.maxPositionAbs < requested then MaxPositionSize
                                       else if pf.equity > 0.0 && Value(pf.equity, s.maxPositionPct / 100.0) < requested
                                       then MaxPositionPercent else MaxTotalExposure)
                  && IsRoom(Value(l.allowedQuantity, p.entryPrice), s, pf) && l.allowedQuantity >= 0.0
                  && l.allowedNotional == Value(l.allowedQuantity, p.entryPrice) && l.remaining == ExposureLeft(s, pf))
            && (l.breached == [] ==> l.allowedNotional == requested && l.allowedQuantity == p.quantity)
  {
    hide Value, ShareOf;
    RequestIsPositive(p.quantity, p.entryPrice);
    SharesArePositive(s, pf.equity);
    SharesAre(s, pf.equity);
    TrimmedIffBreached(s, p, pf);
    var l := Limits(s, p, pf);
    if l.breached == [] { UnbreachedIsFull(s, p, pf); }
    QuantityIsNotNegative(l.allowedQuantity, p.entryPrice);
  }

  lemma SharesAre(s: RiskSettings, equity: real)
    ensures equity > 0.0 ==> ShareOf(equity, s.maxPositionPct) == Value(equity, s.maxPositionPct / 100.0)
    ensures equity > 0.0 ==> ShareOf(equity, s.maxExposurePct) == Value(equity, s.maxExposurePct / 100.0)
  {
  }

  lemma QuantityIsNotNegative(quantity: real, price: real)
    requires price > 0.0
    ensures Value(quantity, price) >= 0.0 ==> quantity >= 0.0
  {
  }

  // ----- warnings -----

  lemma WarningsAre(s: RiskSettings, pf: PortfolioSnapshot)
    ensures Warns(s, pf, Warnings(s, pf))
  {
    if pf.equity > 0.0 { PercentAbove100(DailyLoss(pf), pf.equity, s.warnDailyLossPct); }
    FallIsWarned(s, pf);
    hide Value, DrawdownFraction, WarnedDrawdown;
  }

  lemma PercentAbove100(part: real, whole: real, percent: real)
    requires whole > 0.0
    ensures Value(part / whole, 100.0) >= percent <==> Value(whole, percent) <= Value(part, 100.0)
  {
    assert part / whole * whole == part;
  }

  lemma FallIsWarned(s: RiskSettings, pf: PortfolioSnapshot)
    ensures DrawdownFraction(pf) >= s.warnDrawdownPct / 100.0 <==> WarnedDrawdown(s, pf)
  {
    if pf.recordedPeak.Some? && pf.recordedPeak.value > 0.0 {
      FractionAtLeast(pf.recordedPeak.value - pf.equity, pf.recordedPeak.value, s.warnDrawdownPct / 100.0);
    }
    hide Value;
  }

  // ----- the verdict -----


  lemma ScreenedOut(g: Gate, s: RiskSettings, p: Proposal, pf: PortfolioSnapshot, ctx: RiskContext,
                    checked: real, stamped: real, now: int, c: Check)
    requires Configured(s) && (g.switch.state.Running? || g.switch.state.Warning?)
    requires FirstInScreening(g, s, p, pf, ctx, checked) == Some(c)
    ensures var (after, decision) := Decide(g, s, p, pf, ctx, checked, stamped, now);
            RejectedBy(c, g, s, p, pf, ctx, checked, now, after, decision)
  {
    hide Value, FirstObjection, ObjectionOf, FirstInScreening, Limits, CurrentConditions, TellsConditions, WarnedSwitch, Says,
         Warnings, Score, Because, DailyLossLimit, IsRoom, ExposureLeft, LossAllowed, Configured, Perform, CodeOf, ScoreOf,
         Objects, AfterPruning, Prune;
    ConditionsAreTold(g, s, pf, ctx);
    ScreeningIs(g, s, p, pf, ctx, checked);
    ScreeningObjects(g, s, p, pf, ctx, checked);
    ObjectionSays(c, g, s, p, pf, ctx, checked);
    var told, o := CurrentConditions(s, g.switch, pf, ctx), ObjectionOf(c, s, pf, ctx);
    ReportIs(s, g.switch, told, now);
    if Pauses(c) { PauseIs(s, g.switch.(conditions := Some(told)), o.pause.value, o.code, now); }
  }

  lemma PauseIs(s: RiskSettings, k: Switch, why: Reason, code: string, now: int)
    requires k.state.Running? || k.state.Warning?
    ensures Perform(k, s.failureLimit, s.requireManualRecovery, Pause(why, Some(code)), now)
            == k.(state := Paused, reason := Some(why), code := Some(code), activatedAt := Some(now),
                  events := k.events + [Activated(Paused, why, Some(code), k.state)])
  {
  }

  lemma LateRejection(g: Gate, s: RiskSettings, p: Proposal, pf: PortfolioSnapshot, ctx: RiskContext,
                      checked: real, stamped: real, now: int, c: Check)
    requires Configured(s) && p.quantity > 0.0 && p.entryPrice > 0.0 && pf.exposure >= 0.0
    requires FirstToObject(g, s, p, pf, ctx, checked) == Some(c) && AfterPruning(c)
    ensures var (after, decision) := Decide(g, s, p, pf, ctx, checked, stamped, now);
            RejectedBy(c, g, s, p, pf, ctx, checked, now, after, decision)
  {
    hide Value, FirstObjection, ObjectionOf, FirstInScreening, Limits, CurrentConditions, TellsConditions, WarnedSwitch,
         Warnings, Score, Because, DailyLossLimit, IsRoom, ExposureLeft, LossAllowed, Configured, Perform, Prune;
    ConditionsAreTold(g, s, pf, ctx);
    ScreeningIs(g, s, p, pf, ctx, checked);
    ScreeningObjects(g, s, p, pf, ctx, checked);
    LimitsAre(s, p, pf);
    ReportIs(s, g.switch, CurrentConditions(s, g.switch, pf, ctx), now);
  }

  lemma BlockedRejection(g: Gate, s: RiskSettings, p: Proposal, pf: PortfolioSnapshot, ctx: RiskContext,
                         checked: real, stamped: real, now: int)
    requires Configured(s) && (g.switch.state.Paused? || g.switch.state.EmergencyStop?)
    ensures var (after, decision) := Decide(g, s, p, pf, ctx, checked, stamped, now);
            RejectedBy(SwitchBlocks, g, s, p, pf, ctx, checked, now, after, decision)
  {
    hide Value, FirstObjection, Limits, CurrentConditions, TellsConditions, WarnedSwitch, Warnings, Score, Because,
         DailyLossLimit, Configured, Perform, Prune;
    ConditionsAreTold(g, s, pf, ctx);
    ReportIs(s, g.switch, CurrentConditions(s, g.switch, pf, ctx), now);
  }

  lemma ScreeningObjects(g: Gate, s: RiskSettings, p: Proposal, pf: PortfolioSnapshot, ctx: RiskContext, checked: real)
    ensures var first := FirstInScreening(g, s, p, pf, ctx, checked);
            first.Some? ==> Objects(first.value, g, s, p, pf, ctx, checked) && !AfterPruning(first.value)
                            && !first.value.SwitchBlocks?
  {
    hide Objects;
  }

  lemma ApprovalIs(g: Gate, s: RiskSettings, p: Proposal, pf: PortfolioSnapshot, ctx: RiskContext,
                   checked: real, stamped: real, now: int)
    requires Configured(s) && p.quantity > 0.0 && p.entryPrice > 0.0 && pf.exposure >= 0.0
    requires FirstToObject(g, s, p, pf, ctx, checked) == None
    ensures var (after, decision) := Decide(g, s, p, pf, ctx, checked, stamped, now);
            ApprovedWith(g, s, p, pf, ctx, checked, stamped, after, decision)
  {
    hide Value, FirstObjection, ObjectionOf, FirstInScreening, Limits, CurrentConditions, TellsConditions,
         Warnings, Warns, DailyLossLimit, LossAllowed, Configured, Perform, Score, Prune, WarnedSwitch,
         LossReached, DrawdownReached, PriceJumped;
    ConditionsAreTold(g, s, pf, ctx);
    ScreeningIs(g, s, p, pf, ctx, checked);
    LimitsAre(s, p, pf);
    LossLimitIs(s, pf);
    WarningsAre(s, pf);
    ScoreIs(Warnings(s, pf), ctx.slippagePct);
    WarnedSwitchIs(s, g.switch.(conditions := Some(CurrentConditions(s, g.switch, pf, ctx))), pf, now);
    ReportIs(s, g.switch, CurrentConditions(s, g.switch, pf, ctx), now);
  }

  lemma ReportIs(s: RiskSettings, k: Switch, told: Conditions, now: int)
    ensures Perform(k, s.failureLimit, s.requireManualRecovery, Report(told), now) == k.(conditions := Some(told))
  {
  }

  lemma ScoreIs(warnings: seq<Reason>, slippagePct: real)
    ensures var part := Score(warnings, slippagePct) - Value(15.0, |warnings| as real);
            && part <= 40.0
            && (0.0 <= slippagePct < 4.0 ==> part == part.Floor as real && part <= Value(10.0, slippagePct) < part + 1.0)
            && (4.0 <= slippagePct ==> part == 40.0)
  {
    var scaled := Value(slippagePct, 10.0);
    assert Score(warnings, slippagePct) - Value(15.0, |warnings| as real) == Min(40.0, Truncated(scaled) as real);
    assert scaled == Value(10.0, slippagePct);
  }

  lemma WarnedSwitchIs(s: RiskSettings, k: Switch, pf: PortfolioSnapshot, now: int)
    requires k.state.Running? || k.state.Warning?
    ensures var after, warnings := WarnedSwitch(s, k, pf, now), Warnings(s, pf);
            && after.failures == k.failures && after.events == k.events && after.conditions == k.conditions
            && (if warnings == [] then after == k else IsWarned(k, after, warnings[|warnings| - 1]))
  {
    hide Value, DailyLoss, DrawdownFraction;
    WarningsDiffer();
  }

  lemma WarningsDiffer()
    ensures "Daily loss approaching limit" != "Drawdown approaching limit"
  {
    assert |"Daily loss approaching limit"| != |"Drawdown approaching limit"|;
  }

  lemma FirstIsOne(g: Gate, s: RiskSettings, p: Proposal, pf: PortfolioSnapshot, ctx: RiskContext, checked: real)
    ensures var first := FirstToObject(g, s, p, pf, ctx, checked);
            first.Some? ==>
              if first.value.SwitchBlocks? then g.switch.state.Paused? || g.switch.state.EmergencyStop?
              else
                && (g.switch.state.Running? || g.switch.state.Warning?)
                && (!AfterPruning(first.value) ==> FirstInScreening(g, s, p, pf, ctx, checked) == first)
  {
    hide Value, FirstInScreening, Prune;
    ScreeningObjects(g, s, p, pf, ctx, checked);
  }

  // The gate's verdict is that of the first check that objects, and an approval when none does.
  lemma VerdictTheorem(g: Gate, s: RiskSettings, p: Proposal, pf: PortfolioSnapshot, ctx: RiskContext,
                       checked: real, stamped: real, now: int)
    requires Configured(s) && p.quantity > 0.0 && p.entryPrice > 0.0 && pf.exposure >= 0.0
    ensures var (after, decision) := Decide(g, s, p, pf, ctx, checked, stamped, now);
            Verdict(g, s, p, pf, ctx, checked, stamped, now, after, decision)
  {
    hide Decide, FirstToObject, RejectedBy, ApprovedWith, Configured;
    var first := FirstToObject(g, s, p, pf, ctx, checked);
    if first.None? {
      ApprovalIs(g, s, p, pf, ctx, checked, stamped, now);
    } else {
      FirstIsOne(g, s, p, pf, ctx, checked);
      if first.value.SwitchBlocks? {
        BlockedRejection(g, s, p, pf, ctx, checked, stamped, now);
      } else if AfterPruning(first.value) {
        LateRejection(g, s, p, pf, ctx, checked, stamped, now, first.value);
      } else {
        ScreenedOut(g, s, p, pf, ctx, checked, stamped, now, first.value);
      }
    }
  }
}
