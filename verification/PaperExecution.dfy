// What placing and cancelling a paper order does to the account, the order registry and the
// fill log, as functions on values (bot/execution/paper_executor.py, bot/execution/order_manager.py).
// PaperExecutor.dfy carries these out in place and is proved against them.

module PaperExecution {
  import opened Prelude
  import opened DepthWalk
  import opened Ledger

  datatype OrderType = Market | Limit

  datatype OrderStatus = Pending | Open | PartiallyFilled | Filled | Cancelled | Rejected | Failed

  datatype Order = Order(
    id: string,
    symbol: string,
    side: Side,
    orderType: OrderType,
    requestedQuantity: real,
    requestedPrice: Option<real>,
    status: OrderStatus,
    filledQuantity: real,
    averageFillPrice: Option<real>,
    fee: real,
    slippage: real,
    fills: seq<Fill>,
    rejectionReason: Option<string>
  )
  {
    function Remaining(): real { requestedQuantity - filledQuantity }
  }

  datatype OrderRequest = OrderRequest(
    id: string, symbol: string, side: Side, quantity: real, limitPrice: Option<real>)

  datatype OrderBook = OrderBook(bids: seq<Level>, asks: seq<Level>)

  datatype Config = Config(
    feeRate: real,
    orderBookMode: bool,
    fixedSlippagePct: real,
    partialOk: bool,
    rejectThin: bool
  )

  datatype FillPlan = FillPlan(levels: nat, quantity: real, vwap: real, slippage: real)

  datatype ExecutionResult = ExecutionResult(
    orderId: string,
    status: OrderStatus,
    filledQuantity: real,
    averagePrice: Option<real>,
    fees: real,
    rejectionReason: Option<string>
  )

  const INSUFFICIENT_BALANCE := "INSUFFICIENT_BALANCE"
  const INSUFFICIENT_LIQUIDITY := "INSUFFICIENT_LIQUIDITY"

  function NewOrder(request: OrderRequest, orderType: OrderType): Order
  {
    Order(request.id, request.symbol, request.side, orderType, request.quantity, request.limitPrice,
          Pending, 0.0, None, 0.0, 0.0, [], None)
  }

  // ----- the walk of `_walk_book` -----

  predicate Beyond(level: Level, side: Side, limit: real)
  {
    if side.Buy? then level.price > limit else level.price < limit
  }

  // The part of the book before the first level that has size and lies beyond the limit:
  // the walk breaks there, without looking at what may follow.
  function Reachable(levels: seq<Level>, side: Side, limit: Option<real>): seq<Level>
  {
    if levels == [] then []
    else if levels[0].amount > 0.0 && limit.Some? && Beyond(levels[0], side, limit.value) then []
    else [levels[0]] + Reachable(levels[1..], side, limit)
  }

  function LimitOf(order: Order): Option<real>
  {
    if order.orderType.Limit? then order.requestedPrice else None
  }

  function ReferencePrice(order: Order, levels: seq<Level>): Option<real>
  {
    if order.requestedPrice.None? && levels != [] then Some(levels[0].price) else order.requestedPrice
  }

  function SlippageCost(reference: Option<real>, vwap: real, filled: real): real
  {
    if reference.Some? && reference.value > 0.0 then Value(filled, Abs(vwap - reference.value)) else 0.0
  }

  function PlanFromWalk(cfg: Config, order: Order, levels: seq<Level>, walked: Sweep): Option<FillPlan>
  {
    if walked.filled <= 0.0 then None
    else if order.requestedQuantity - walked.filled > 0.0 && !cfg.partialOk then None
    else
      var vwap := walked.notional / walked.filled;
      Some(FillPlan(walked.levels, walked.filled, vwap,
                    SlippageCost(ReferencePrice(order, levels), vwap, walked.filled)))
  }

  function WalkForOrder(cfg: Config, order: Order, levels: seq<Level>): Option<FillPlan>
  {
    PlanFromWalk(cfg, order, levels,
                 SweepBook(Reachable(levels, order.side, LimitOf(order)), order.requestedQuantity))
  }

  // ----- fixed-percentage slippage -----

  function FixedReference(order: Order, book: Option<OrderBook>): Option<real>
  {
    if order.requestedPrice.Some? && order.requestedPrice.value > 0.0 then order.requestedPrice
    else if book.None? then None
    else if order.side.Buy? && book.value.asks != [] then Some(book.value.asks[0].price)
    else if order.side.Sell? && book.value.bids != [] then Some(book.value.bids[0].price)
    else order.requestedPrice
  }

  function FixedFill(cfg: Config, order: Order, book: Option<OrderBook>): Option<FillPlan>
  {
    var reference := FixedReference(order, book);
    if reference.None? || reference.value <= 0.0 then None
    else
      var slip := cfg.fixedSlippagePct / 100.0;
      var price := Value(reference.value, if order.side.Buy? then 1.0 + slip else 1.0 - slip);
      Some(FillPlan(1, order.requestedQuantity, price,
                    Value(order.requestedQuantity, Abs(price - reference.value))))
  }

  // `_simulate_fill`
  function SimulateFill(cfg: Config, order: Order, book: Option<OrderBook>): Option<FillPlan>
  {
    if cfg.orderBookMode && book.Some? then
      WalkForOrder(cfg, order, if order.side.Buy? then book.value.asks else book.value.bids)
    else FixedFill(cfg, order, book)
  }

  // `_limit_is_marketable`
  predicate Marketable(order: Order, book: Option<OrderBook>)
    requires order.requestedPrice.Some?
  {
    if book.None? then true
    else if order.side.Buy? then
      book.value.asks != [] && order.requestedPrice.value >= book.value.asks[0].price
    else
      book.value.bids != [] && order.requestedPrice.value <= book.value.bids[0].price
  }

  // ----- reservations -----

  // `_reservation_needed`: whether the funds are there, the asset, and the amount.
  function ReservationNeeded(a: Account, cfg: Config, order: Order): (bool, string, real)
  {
    if order.side.Buy? then
      var asked := order.requestedPrice;
      var price := if asked.None? || asked.value <= 0.0 then MarkOf(a.marks, order.symbol, 0.0) else asked.value;
      if price <= 0.0 then (true, a.quote, 0.0)
      else
        var amount := Value(Value(order.requestedQuantity, price), 1.0 + cfg.feeRate);
        (BalanceOf(a.balances, a.quote).available >= amount, a.quote, amount)
    else
      var base := BaseAsset(order.symbol, a.quote);
      (BalanceOf(a.balances, base).available >= order.requestedQuantity, base, order.requestedQuantity)
  }

  // `_adjust_reservation_after_fill`
  function Adjust(a: Account, order: Order, asset: string, reserved: real, plan: FillPlan, fee: real): Account
  {
    var used := Value(plan.quantity, plan.vwap) + fee;
    if reserved <= 0.0 then
      if order.side.Buy? then
        if BalanceOf(a.balances, a.quote).available >= used then Reserve(a, a.quote, used).0 else a
      else
        var base := BaseAsset(order.symbol, a.quote);
        if BalanceOf(a.balances, base).available >= plan.quantity then Reserve(a, base, plan.quantity).0 else a
    else if order.side.Buy? then
      var unused := reserved - used;
      if unused > 0.0 then Release(a, asset, unused)
      else if unused < 0.0 then Reserve(a, asset, -unused).0
      else a
    else Release(a, asset, reserved - plan.quantity)
  }

  // How far an order gets, and the account at that point.
  datatype Stage =
    | Refused(account: Account, reason: string)
    | Rests(account: Account)
    | Invalid(account: Account)  // the fill record fails validation: an exception leaves `execute`
    | Fills(account: Account, fill: Fill)

  // From a plan to the fill record: the fee, the part of the reservation that is kept, the validation.
  function Fillable(held: Account, cfg: Config, order: Order, asset: string, amount: real, plan: FillPlan,
                    fillId: string): Stage
  {
    var fee := Value(Value(plan.quantity, plan.vwap), cfg.feeRate);
    var adjusted := Adjust(held, order, asset, amount, plan, fee);
    if plan.vwap <= 0.0 || fee < 0.0 || plan.slippage < 0.0 then Invalid(adjusted)
    else Fills(adjusted, Fill(fillId, order.id, order.symbol, order.side, plan.quantity, plan.vwap, fee, plan.slippage))
  }

  // What becomes of an order whose funds are set aside: it rests, is refused, or fills.
  function Attempt(held: Account, cfg: Config, order: Order, book: Option<OrderBook>, asset: string, amount: real,
                   fillId: string): Stage
  {
    if order.orderType.Limit? && order.requestedPrice.Some? && !Marketable(order, book) then Rests(held)
    else
      var plan := SimulateFill(cfg, order, book);
      if plan.None? || plan.value.quantity <= 0.0 then Refused(Release(held, asset, amount), INSUFFICIENT_LIQUIDITY)
      else Fillable(held, cfg, order, asset, amount, plan.value, fillId)
  }

  // Reserve, check the limit, walk the book, give back what is not needed.
  function Prepare(a: Account, cfg: Config, order: Order, book: Option<OrderBook>, fillId: string): Stage
  {
    var (affordable, asset, amount) := ReservationNeeded(a, cfg, order);
    if !affordable then Refused(a, INSUFFICIENT_BALANCE)
    else
      var (held, granted) := Reserve(a, asset, amount);
      if !granted then Refused(held, INSUFFICIENT_BALANCE)
      else Attempt(held, cfg, order, book, asset, amount, fillId)
  }

  // ----- the order registry -----

  function FillsNotional(fills: seq<Fill>): real
  {
    if fills == [] then 0.0 else fills[0].Gross() + FillsNotional(fills[1..])
  }

  // `OrderManager.attach_fill`
  function Attach(order: Order, fill: Fill): Order
  {
    var fills := order.fills + [fill];
    var filled := order.filledQuantity + fill.quantity;
    order.(fills := fills,
           filledQuantity := filled,
           fee := order.fee + fill.fee,
           slippage := order.slippage + fill.slippage,
           averageFillPrice := if filled > 0.0 then Some(FillsNotional(fills) / filled) else order.averageFillPrice,
           status := if filled >= order.requestedQuantity then Filled
                     else if filled > 0.0 then PartiallyFilled
                     else order.status)
  }

  // ----- the whole system -----

  datatype World = World(
    account: Account,
    orders: map<string, Order>,
    fills: map<string, Fill>,
    results: seq<AccountingResult>,
    history: seq<ExecutionResult>
  )

  // `FillTracker.apply`
  ghost function Track(w: World, fill: Fill): World
  {
    var result := Post(w.account, fill).1;
    if result.duplicate then w
    else w.(account := ApplyFill(w.account, fill),
            fills := w.fills[fill.id := fill],
            results := w.results + [result])
  }

  function RejectedOrder(order: Order, reason: string): Order
  {
    order.(status := Rejected, rejectionReason := Some(reason))
  }

  // Recording how far an order got: in the registry, the history and, for a fill, the portfolio. No
  // result when an exception leaves.
  ghost function Conclude(w: World, order: Order, stage: Stage): (World, Option<ExecutionResult>)
  {
    match stage
    case Refused(account, reason) =>
      var result := ExecutionResult(order.id, Rejected, 0.0, None, 0.0, Some(reason));
      (w.(account := account,
          orders := w.orders[order.id := RejectedOrder(order, reason)],
          history := w.history + [result]),
       Some(result))
    case Rests(account) =>
      var result := ExecutionResult(order.id, Open, 0.0, None, 0.0, None);
      (w.(account := account,
          orders := w.orders[order.id := order.(status := Open)],
          history := w.history + [result]),
       Some(result))
    case Invalid(account) =>
      (w.(account := account, orders := w.orders[order.id := order.(status := Open)]), None)
    case Fills(account, fill) =>
      var filled := Attach(order.(status := Open), fill);
      var posted := Track(w.(account := account, orders := w.orders[order.id := filled]), fill);
      var result := ExecutionResult(order.id, filled.status, fill.quantity, Some(fill.price), fill.fee, None);
      (posted.(account := SetMark(posted.account, order.symbol, fill.price),
               history := posted.history + [result]),
       Some(result))
  }

  // `PaperExecutor.execute`
  ghost function Execute(w: World, cfg: Config, order: Order, book: Option<OrderBook>, fillId: string)
    : (World, Option<ExecutionResult>)
  {
    Conclude(w, order, Prepare(w.account, cfg, order, book, fillId))
  }

  // What cancelling gives back: the asset and the amount it asks to release.
  function CancelClaim(quote: string, cfg: Config, order: Order): (string, real)
  {
    if order.side.Buy? then
      var price :=
        if order.requestedPrice.Some? && order.requestedPrice.value != 0.0 then order.requestedPrice.value
        else if order.averageFillPrice.Some? then order.averageFillPrice.value
        else 0.0;
      (quote, Value(Value(order.Remaining(), price), 1.0 + cfg.feeRate))
    else (BaseAsset(order.symbol, quote), order.Remaining())
  }

  // `PaperExecutor.cancel` of a known order.
  function Cancel(w: World, cfg: Config, id: string, reason: string): World
    requires id in w.orders
  {
    var order := w.orders[id];
    if order.status in {Filled, Rejected, Failed} then w
    else
      var (asset, amount) := CancelClaim(w.account.quote, cfg, order);
      var account := if order.Remaining() > 0.0 then Release(w.account, asset, amount) else w.account;
      w.(account := account,
         orders := w.orders[id := order.(status := Cancelled, rejectionReason := Some(reason))])
  }
}
