// One engine cycle as a function: mark the price, ask the risk gate, execute what it approves, look at
// the portfolio again (bot/engine/orchestrator.py). TradingEngine.dfy carries it out in place.

module Engine {
  import opened Prelude
  import opened DepthWalk
  import opened Ledger
  import opened PaperExecution
  import opened RiskGate

  // An opportunity with everything that is looked up or drawn for it on the way: the profitability
  // verdict, the risk context, the book to execute on, fresh ids, and the readings of the clock.
  datatype Opportunity = Opportunity(
    id: string,
    symbol: string,
    side: Side,
    quantity: real,
    entryPrice: real,
    leverage: Option<real>,
    profitable: bool,
    netProfit: real,
    last: Option<real>,
    book: Option<OrderBook>,
    context: RiskContext,
    orderId: string,
    fillId: string,
    checked: real,
    stamped: real,
    now: int
  )
  {
    function Asked(): Proposal { Proposal(quantity, entryPrice, leverage, profitable, netProfit) }

    // The order that `_execute_opportunity` builds once `granted` is allowed.
    function Request(granted: real): OrderRequest
    {
      OrderRequest(orderId, symbol, side, if granted != 0.0 then granted else quantity, Some(entryPrice))
    }
  }

  // A decision as it is handed around: with the opportunity it was made for.
  datatype Ruling = Ruling(opportunityId: string, decision: Decision)

  // The world of the executor, the gate, and the snapshot of the portfolio the gate is shown.
  datatype Desk = Desk(world: World, gate: Gate, snapshot: PortfolioSnapshot)

  datatype Outcome =
    | Turned(decision: Decision)
    | Executed(decision: Decision, result: ExecutionResult)
    | Raised(decision: Decision)

  // ----- the cycle -----

  // Looking at the portfolio also brings its statistics up to date.
  ghost function Refresh(d: Desk): Desk
  {
    var a := ObserveEquity(MarkToMarket(d.world.account));
    Desk(d.world.(account := a), d.gate, SnapshotOf(a))
  }

  ghost function MarkLast(w: World, o: Opportunity): World
  {
    if o.last.Some? then w.(account := SetMark(w.account, o.symbol, o.last.value)) else w
  }

  // `_execute_opportunity`. No result when an exception leaves: the order request refuses its quantity, or the
  // fill record its price.
  ghost function Dispatch(w: World, cfg: Config, o: Opportunity, granted: real): (World, Option<ExecutionResult>)
  {
    if o.Request(granted).quantity <= 0.0 then (w, None)
    else Execute(w, cfg, NewOrder(o.Request(granted), Limit), o.book, o.fillId)
  }

  ghost function Consider(d: Desk, s: RiskSettings, cfg: Config, o: Opportunity): (Desk, Outcome)
  {
    var marked := MarkLast(d.world, o);
    var (gate, decision) := Decide(d.gate, s, o.Asked(), d.snapshot, o.context, o.checked, o.stamped, o.now);
    if decision.Rejected? then (Desk(marked, gate, d.snapshot), Turned(decision))
    else
      var (world, result) := Dispatch(marked, cfg, o, decision.quantity);
      if result.None? then (Desk(world, gate, d.snapshot), Raised(decision))
      else (Refresh(Desk(world, gate, d.snapshot)), Executed(decision, result.value))
  }

  // `run_once` after the strategy has spoken. An exception ends the cycle.
  ghost function ConsiderAll(d: Desk, s: RiskSettings, cfg: Config, os: seq<Opportunity>): (Desk, seq<Outcome>)
    decreases |os|
  {
    if os == [] then (d, [])
    else
      var (next, outcome) := Consider(d, s, cfg, os[0]);
      if outcome.Raised? then (next, [outcome])
      else
        var (last, outcomes) := ConsiderAll(next, s, cfg, os[1..]);
        (last, [outcome] + outcomes)
  }

  ghost function RunOnce(d: Desk, s: RiskSettings, cfg: Config, os: seq<Opportunity>): (Desk, seq<Outcome>)
  {
    ConsiderAll(Refresh(d), s, cfg, os)
  }

  // ----- the other entry -----

  // Whether `execute_approved` goes on: the decision says approved and names the opportunity. It is not asked
  // when the decision was made, by whom, or whether it was used before.
  predicate Honoured(o: Opportunity, ruling: Ruling)
  {
    ruling.decision.Approved? && ruling.opportunityId == o.id
  }

  // `execute_approved`: no gate, no stamp, and no new look at the portfolio. None when it raises.
  ghost function ExecuteApproved(d: Desk, cfg: Config, o: Opportunity, ruling: Ruling): (Desk, Option<ExecutionResult>)
  {
    if !Honoured(o, ruling) then (d, None)
    else
      var (world, result) := Dispatch(d.world, cfg, o, ruling.decision.quantity);
      (d.(world := world), result)
  }
}
