// The paper-trading ledger over whole runs: any sequence of placed orders, cancellations, mark prices,
// redelivered fills, snapshots, saves, and restarts from whatever was saved last. Solvency, no short positions, the
// accounting identity and the reservation ledger hold in every reachable state.

module LedgerRuns {
  import opened Prelude
  import opened DepthWalk
  import opened Ledger
  import opened LedgerFacts
  import opened PaperExecution
  import opened PlacementFacts
  import opened Store

  // ----- the reservation ledger -----

  // What an order claims of an asset while it is open, as `cancel` will compute it.
  function OpenClaim(quote: string, cfg: Config, order: Order, asset: string): real
  {
    var (claimed, amount) := CancelClaim(quote, cfg, order);
    if order.status.Open? && claimed == asset then amount else 0.0
  }

  function Claims(orders: map<string, Order>, quote: string, cfg: Config, asset: string): map<string, real>
  {
    map id | id in orders :: OpenClaim(quote, cfg, orders[id], asset)
  }

  // Reserved beyond what the open orders claim.
  ghost function Surplus(w: World, cfg: Config, asset: string): real
  {
    BalanceOf(w.account.balances, asset).reserved - Total(Claims(w.orders, w.account.quote, cfg, asset))
  }

  // Each asset's reserved amount is exactly the sum of the claims of exactly the open orders.
  ghost predicate Reconciled(w: World, cfg: Config)
  {
    forall asset :: Surplus(w, cfg, asset) == 0.0
  }

  lemma ClaimsUpdate(orders: map<string, Order>, quote: string, cfg: Config, asset: string, id: string, order: Order)
    ensures Total(Claims(orders[id := order], quote, cfg, asset))
            == Total(Claims(orders, quote, cfg, asset))
               - (if id in orders then OpenClaim(quote, cfg, orders[id], asset) else 0.0)
               + OpenClaim(quote, cfg, order, asset)
  {
    hide TotalOver, OpenClaim;
    var before := Claims(orders, quote, cfg, asset);
    assert Claims(orders[id := order], quote, cfg, asset) == before[id := OpenClaim(quote, cfg, order, asset)];
    TotalUpdate(before, id, OpenClaim(quote, cfg, order, asset));
  }

  // ----- the registry -----

  predicate WellRegistered(order: Order, symbols: set<string>)
  {
    && order.symbol in symbols
    && order.requestedQuantity > 0.0
    && order.requestedPrice.Some? && order.requestedPrice.value > 0.0
    && 0.0 <= order.filledQuantity <= order.requestedQuantity
    && !order.status.Pending?
    && (order.status.Open? ==> order.filledQuantity == 0.0)
    && (order.status in {PartiallyFilled, Cancelled} ==> order.filledQuantity < order.requestedQuantity)
  }

  ghost predicate Registered(orders: map<string, Order>, symbols: set<string>)
  {
    forall id :: id in orders ==> WellRegistered(orders[id], symbols)
  }

  // An open order's cancel claim is the claim it was reserved with, and positive.
  lemma OpenClaimIsClaim(quote: string, cfg: Config, order: Order, symbols: set<string>)
    requires InScope(cfg) && WellRegistered(order, symbols)
    ensures order.Remaining() > 0.0 ==> CancelClaim(quote, cfg, order).1 > 0.0
    ensures order.filledQuantity == 0.0 ==> CancelClaim(quote, cfg, order) == Claim(quote, cfg, order)
  {
    hide Value, BaseAsset;
    ValuePositive(order.Remaining(), order.requestedPrice.value);
    ValuePositive(Value(order.Remaining(), order.requestedPrice.value), 1.0 + cfg.feeRate);
  }

  // ----- the invariant -----

  ghost predicate Inv(w: World, cfg: Config, symbols: set<string>, start: real)
  {
    && InScope(cfg) && Universe(symbols, w.account.quote)
    && Sound(w.account, symbols, start)
    && Registered(w.orders, symbols)
    && forall asset :: Surplus(w, cfg, asset) >= 0.0
  }

  // ----- how operations move the reserved amounts -----

  lemma ReservedAfterMove(a: Account, asset: string, amount: real, x: string)
    ensures BalanceOf(Move(a, asset, amount).balances, x).reserved
            == BalanceOf(a.balances, x).reserved + (if x == asset then amount else 0.0)
  {
  }

  function PaidFrom(quote: string, fill: Fill): string
  {
    if fill.side.Buy? then quote else BaseAsset(fill.symbol, quote)
  }

  lemma ReservedAfterPost(a: Account, fill: Fill, x: string)
    requires BaseAsset(fill.symbol, a.quote) != a.quote
    requires fill.id !in a.processed && Covered(a, fill)
    ensures BalanceOf(Post(a, fill).0.balances, x).reserved
            == BalanceOf(a.balances, x).reserved - (if x == PaidFrom(a.quote, fill) then Used(fill) else 0.0)
  {
    hide Fill.Gross, BaseAsset, SettlePosition, SettleBalances;
    PostedBalances(a, fill, x);
  }

  lemma ReservedAfterFill(a: Account, fill: Fill, price: real, x: string)
    requires fill.id !in a.processed
    ensures SetMark(ApplyFill(a, fill), fill.symbol, price).balances == Post(a, fill).0.balances
    ensures SetMark(ApplyFill(a, fill), fill.symbol, price).quote == a.quote
  {
    hide Observe, Equity, SettlePosition, SettleBalances, TotalOver;
  }

  // ----- one step -----

  datatype Action =
    | Place(request: OrderRequest, orderType: OrderType, book: Option<OrderBook>, fillId: string)
    | CancelOrder(id: string, reason: string)
    | MarkPrice(symbol: string, price: real)
    | Redeliver(fill: Fill)
    | Inspect
    | Persist
    | RestartFromStore

  // The executor's world and the portfolio file. As long as nothing was saved the file stands for the
  // opening portfolio, which is what a start without a file begins with.
  datatype Session = Session(world: World, disk: SavedPortfolio)

  // What happens to the executor's world itself. Cancelling an order that is not there raises and changes
  // nothing; taking a snapshot of the portfolio (`Inspect`) brings its derived statistics up to date.
  ghost function Advance(w: World, cfg: Config, action: Action): World
  {
    match action
    case Place(request, orderType, book, fillId) => Execute(w, cfg, NewOrder(request, orderType), book, fillId).0
    case CancelOrder(id, reason) => if id in w.orders then Cancel(w, cfg, id, reason) else w
    case MarkPrice(symbol, price) => w.(account := SetMark(w.account, symbol, price))
    case Redeliver(fill) => Track(w, fill)
    case Inspect => w.(account := ObserveEquity(MarkToMarket(w.account)))
    case Persist => w
    case RestartFromStore => w
  }

  // A restart brings back the portfolio and the processed ids as they were last saved, and an empty order
  // registry: the orders are in the file, but `load` does not read them back.
  ghost function Restored(disk: SavedPortfolio): World
  {
    World(Load(disk), map[], map[], [], [])
  }

  ghost function Step(z: Session, cfg: Config, action: Action): Session
  {
    match action
    case Persist => z.(disk := Save(z.world.account))
    case RestartFromStore => z.(world := Restored(z.disk))
    case _ => z.(world := Advance(z.world, cfg, action))
  }

  // When `cancel` leaves the reservation ledger alone: the order is open, or final, or there is
  // nothing reserved that could be taken from other orders.
  predicate CancelIsSafe(w: World, cfg: Config, order: Order)
  {
    || order.status in {Open, Filled, Rejected, Failed}
    || BalanceOf(w.account.balances, CancelClaim(w.account.quote, cfg, order).0).reserved == 0.0
  }

  ghost predicate Admissible(w: World, cfg: Config, symbols: set<string>, action: Action)
  {
    match action
    case Place(request, orderType, book, fillId) =>
      && ScopedOrder(NewOrder(request, orderType), symbols) && book.Some? && PricedBook(book.value)
      && request.id !in w.orders && fillId !in w.account.processed
    case CancelOrder(id, _) => id in w.orders ==> CancelIsSafe(w, cfg, w.orders[id])
    case MarkPrice(_, _) => true
    case Redeliver(fill) => fill.id in w.account.processed
    case Inspect => true
    case Persist => true
    case RestartFromStore => true
  }

  lemma PlaceKeepsAccount(w: World, cfg: Config, symbols: set<string>, start: real,
                          order: Order, book: OrderBook, fillId: string)
    requires Inv(w, cfg, symbols, start)
    requires ScopedOrder(order, symbols) && PricedBook(book) && fillId !in w.account.processed
    ensures var after := Execute(w, cfg, order, Some(book), fillId).0;
            Sound(after.account, symbols, start) && after.account.quote == w.account.quote
  {
    hide Sound, Universe, PricedBook, ScopedOrder, InScope, Registered, Surplus, Covered, Used, Claim,
         ApplyFill, SetMark, Attach, WellFormed, Fill.Gross, Post, Prepare, Move;
    var a := w.account;
    ScopedFacts(order, symbols);
    PlacementIsCovered(a, cfg, order, book, fillId, symbols, start);
    var (asset, amount) := Claim(a.quote, cfg, order);
    match Prepare(a, cfg, order, Some(book), fillId)
    case Refused(_, _) =>
    case Invalid(_) =>
    case Rests(after) =>
      HoldKeeps(a, asset, amount, symbols, start);
    case Fills(after, fill) =>
      UsedIsPositive(fill);
      HoldKeeps(a, asset, Used(fill), symbols, start);
      FilledAccount(after, fill, symbols, start);
  }

  lemma ScopedFacts(order: Order, symbols: set<string>)
    requires ScopedOrder(order, symbols)
    ensures order.requestedPrice.Some? && order.symbol in symbols
  {
  }

  lemma UsedIsPositive(fill: Fill)
    requires WellFormed(fill)
    ensures Used(fill) > 0.0
  {
    hide Value;
    ValuePositive(fill.quantity, fill.price);
  }

  lemma HoldKeeps(a: Account, asset: string, amount: real, symbols: set<string>, start: real)
    requires Sound(a, symbols, start) && 0.0 <= amount <= BalanceOf(a.balances, asset).available
    ensures Sound(Move(a, asset, amount), symbols, start)
    ensures Move(a, asset, amount).quote == a.quote && Move(a, asset, amount).processed == a.processed
  {
    hide Sound;
    SoundBalance(a, asset, symbols, start);
    MoveKeeps(a, asset, amount, symbols, start);
  }

  lemma FilledAccount(a: Account, fill: Fill, symbols: set<string>, start: real)
    requires Universe(symbols, a.quote) && ScopedFill(fill, symbols)
    requires Sound(a, symbols, start) && Covered(a, fill) && fill.id !in a.processed
    ensures Sound(SetMark(ApplyFill(a, fill), fill.symbol, fill.price), symbols, start)
    ensures SetMark(ApplyFill(a, fill), fill.symbol, fill.price).quote == a.quote
    ensures !Post(a, fill).1.duplicate
  {
    hide Sound, Universe, Covered, Observe, Equity, SettlePosition, SettleBalances, TotalOver, WellFormed, Fill.Gross;
    FillKeeps(a, fill, symbols, start);
    SetMarkKeeps(ApplyFill(a, fill), fill.symbol, fill.price, symbols, start);
  }

  predicate ScopedFill(fill: Fill, symbols: set<string>)
  {
    fill.symbol in symbols && WellFormed(fill) && fill.fee <= fill.Gross()
  }

  // Placing an order moves every asset's reserved amount exactly as it moves the open claims on it.
  lemma PlaceKeepsSurplus(w: World, cfg: Config, symbols: set<string>, start: real,
                          order: Order, book: OrderBook, fillId: string, x: string)
    requires Inv(w, cfg, symbols, start)
    requires ScopedOrder(order, symbols) && PricedBook(book)
    requires order.id !in w.orders && fillId !in w.account.processed
    ensures Surplus(Execute(w, cfg, order, Some(book), fillId).0, cfg, x) == Surplus(w, cfg, x)
  {
    hide Sound, PricedBook, ScopedOrder, InScope, Registered, Covered, Used, Claim, ApplyFill, SetMark, Claims,
         WellFormed, Fill.Gross, Post, Prepare, Move, BalanceOf, OpenClaim, BaseAsset, TotalOver, Total, FillsNotional;
    var a := w.account;
    ScopedFacts(order, symbols);
    PlacementIsCovered(a, cfg, order, book, fillId, symbols, start);
    var (asset, amount) := Claim(a.quote, cfg, order);
    match Prepare(a, cfg, order, Some(book), fillId)
    case Refused(_, reason) =>
      var refused := RejectedOrder(order, reason);
      ClaimsUpdate(w.orders, a.quote, cfg, x, order.id, refused);
      ClosedClaimsNothing(a.quote, cfg, refused, x);
    case Invalid(_) =>
    case Rests(after) =>
      var resting := order.(status := Open);
      ClaimsUpdate(w.orders, a.quote, cfg, x, order.id, resting);
      RestingClaim(a.quote, cfg, order, symbols, x);
      ReservedAfterMove(a, asset, amount, x);
      MoveFacts(a, asset, amount);
    case Fills(after, fill) =>
      var filled := Attach(order.(status := Open), fill);
      ClaimsUpdate(w.orders, a.quote, cfg, x, order.id, filled);
      AttachedIsClosed(order, fill, symbols);
      ClosedClaimsNothing(a.quote, cfg, filled, x);
      ReservedAfterMove(a, asset, Used(fill), x);
      MoveFacts(a, asset, Used(fill));
      ClaimedAsset(a.quote, cfg, order);
      ReservedAfterPost(after, fill, x);
      ReservedAfterFill(after, fill, fill.price, x);
      FreshIsNoDuplicate(after, fill);
  }

  lemma MoveFacts(a: Account, asset: string, amount: real)
    ensures Move(a, asset, amount).quote == a.quote && Move(a, asset, amount).processed == a.processed
  {
  }

  lemma FreshIsNoDuplicate(a: Account, fill: Fill)
    requires fill.id !in a.processed
    ensures !Post(a, fill).1.duplicate
  {
    hide SettlePosition, SettleBalances;
  }

  lemma ClaimedAsset(quote: string, cfg: Config, order: Order)
    requires order.requestedPrice.Some?
    ensures Claim(quote, cfg, order).0 == if order.side.Buy? then quote else BaseAsset(order.symbol, quote)
  {
    hide Value, BaseAsset;
  }

  lemma ClosedClaimsNothing(quote: string, cfg: Config, order: Order, x: string)
    requires !order.status.Open?
    ensures OpenClaim(quote, cfg, order, x) == 0.0
  {
    hide CancelClaim;
  }

  lemma RestingClaim(quote: string, cfg: Config, order: Order, symbols: set<string>, x: string)
    requires InScope(cfg) && ScopedOrder(order, symbols)
    ensures OpenClaim(quote, cfg, order.(status := Open), x)
            == if x == Claim(quote, cfg, order).0 then Claim(quote, cfg, order).1 else 0.0
  {
    hide Value, BaseAsset;
  }

  lemma AttachedIsClosed(order: Order, fill: Fill, symbols: set<string>)
    requires ScopedOrder(order, symbols) && WellFormed(fill) && fill.quantity <= order.requestedQuantity
    ensures var filled := Attach(order.(status := Open), fill);
            !filled.status.Open? && WellRegistered(filled, symbols)
  {
    hide FillsNotional;
  }

  lemma PlaceKeepsRegistry(w: World, cfg: Config, symbols: set<string>, start: real,
                           order: Order, book: OrderBook, fillId: string)
    requires Inv(w, cfg, symbols, start)
    requires ScopedOrder(order, symbols) && PricedBook(book) && fillId !in w.account.processed
    ensures Registered(Execute(w, cfg, order, Some(book), fillId).0.orders, symbols)
  {
    hide Sound, PricedBook, InScope, Surplus, Covered, Used, Claim, ApplyFill, SetMark, WellFormed, Fill.Gross, Post,
         Prepare, Move, BaseAsset, Attach;
    PlacementIsCovered(w.account, cfg, order, book, fillId, symbols, start);
    if Prepare(w.account, cfg, order, Some(book), fillId).Fills? {
      AttachedIsClosed(order, Prepare(w.account, cfg, order, Some(book), fillId).fill, symbols);
    }
  }

  // ----- cancelling -----

  // Cancelling an open order gives back exactly what was set aside for it, and nothing else moves.
  lemma CancelReturnsClaim(w: World, cfg: Config, symbols: set<string>, start: real, id: string, reason: string)
    requires Inv(w, cfg, symbols, start) && id in w.orders && w.orders[id].status.Open?
    ensures var (asset, amount) := Claim(w.account.quote, cfg, w.orders[id]);
            && Cancel(w, cfg, id, reason).account == Move(w.account, asset, -amount)
            && 0.0 < amount <= BalanceOf(w.account.balances, asset).reserved
  {
    hide Sound, Move, Claim, Value, BaseAsset, Total;
    var order := w.orders[id];
    OpenClaimIsClaim(w.account.quote, cfg, order, symbols);
    var (asset, amount) := CancelClaim(w.account.quote, cfg, order);
    var claims := Claims(w.orders, w.account.quote, cfg, asset);
    forall i | i in claims ensures claims[i] >= 0.0 {
      OpenClaimIsClaim(w.account.quote, cfg, w.orders[i], symbols);
    }
    TotalNonNegative(claims);
    assert claims[id] == amount;
    assert Surplus(w, cfg, asset) >= 0.0;
  }

  // A resting order cancelled at once leaves no trace in the account.
  lemma CancelUndoesResting(w: World, cfg: Config, symbols: set<string>, start: real,
                            order: Order, book: OrderBook, fillId: string, reason: string)
    requires Inv(w, cfg, symbols, start)
    requires ScopedOrder(order, symbols) && PricedBook(book) && fillId !in w.account.processed
    requires Prepare(w.account, cfg, order, Some(book), fillId).Rests?
    requires order.id !in w.orders
    ensures var rested := Execute(w, cfg, order, Some(book), fillId).0;
            && order.id in rested.orders && rested.orders[order.id].status.Open?
            && Cancel(rested, cfg, order.id, reason).account == w.account
  {
    hide Sound, PricedBook, Value, BaseAsset, Surplus, Prepare, Registered, Used, Covered, Claim, Move, ScopedOrder,
         InScope, Universe, WellFormed, Fill.Gross, Cancel, Execute;
    var a := w.account;
    ScopedFacts(order, symbols);
    PlacementIsCovered(a, cfg, order, book, fillId, symbols, start);
    var (asset, amount) := Claim(a.quote, cfg, order);
    SoundBalance(a, asset, symbols, start);
    RestedWorld(w, cfg, order, book, fillId);
    var rested := Execute(w, cfg, order, Some(book), fillId).0;
    CancelRested(rested, a, cfg, symbols, order, asset, amount, reason);
  }

  lemma RestedWorld(w: World, cfg: Config, order: Order, book: OrderBook, fillId: string)
    requires Prepare(w.account, cfg, order, Some(book), fillId).Rests?
    ensures var rested := Execute(w, cfg, order, Some(book), fillId).0;
            && rested.account == Prepare(w.account, cfg, order, Some(book), fillId).account
            && order.id in rested.orders && rested.orders[order.id] == order.(status := Open)
  {
    hide Prepare, Track, Attach, SetMark;
  }

  lemma CancelRested(w: World, a: Account, cfg: Config, symbols: set<string>, order: Order,
                     asset: string, amount: real, reason: string)
    requires InScope(cfg) && ScopedOrder(order, symbols) && (asset, amount) == Claim(a.quote, cfg, order)
    requires 0.0 < amount <= BalanceOf(a.balances, asset).available && 0.0 <= BalanceOf(a.balances, asset).reserved
    requires w.account == Move(a, asset, amount)
    requires order.id in w.orders && w.orders[order.id] == order.(status := Open)
    ensures Cancel(w, cfg, order.id, reason).account == a
  {
    hide Value, BaseAsset, Claim, CancelClaim, Move, Release, ScopedOrder, InScope;
    AvailableIsPresent(a, asset, amount);
    RegisteredOpen(cfg, order, symbols, a.quote);
    ReleaseUndoes(a, asset, amount);
    MoveFacts(a, asset, amount);
  }

  lemma AvailableIsPresent(a: Account, asset: string, amount: real)
    requires 0.0 < amount <= BalanceOf(a.balances, asset).available
    ensures asset in a.balances
  {
  }

  lemma RegisteredOpen(cfg: Config, order: Order, symbols: set<string>, quote: string)
    requires InScope(cfg) && ScopedOrder(order, symbols)
    ensures CancelClaim(quote, cfg, order.(status := Open)) == Claim(quote, cfg, order)
    ensures order.Remaining() > 0.0
  {
    hide Value, BaseAsset;
  }

  lemma CancelMoves(w: World, cfg: Config, symbols: set<string>, start: real, id: string, reason: string, x: string)
    requires Inv(w, cfg, symbols, start) && id in w.orders
    ensures var order := w.orders[id];
            var (asset, amount) := CancelClaim(w.account.quote, cfg, order);
            var held := BalanceOf(w.account.balances, asset).reserved;
            && held >= 0.0
            && (order.status.Open? ==> 0.0 < amount <= held)
            && (order.status in {PartiallyFilled, Cancelled} ==> 0.0 < amount)
            && (order.status in {PartiallyFilled, Cancelled} && x == asset ==>
                  Surplus(Cancel(w, cfg, id, reason), cfg, x) == Surplus(w, cfg, x) - Min(amount, held))
            && (order.status in {Open, Filled, Rejected, Failed} || x != asset ==>
                  Surplus(Cancel(w, cfg, id, reason), cfg, x) == Surplus(w, cfg, x))
  {
    hide Sound, Move, Claim, Value, BaseAsset, Total, Claims, OpenClaim, CancelClaim, Registered, InScope;
    var order, a := w.orders[id], w.account;
    var (asset, amount) := CancelClaim(a.quote, cfg, order);
    SoundBalance(a, asset, symbols, start);
    RegisteredAt(w.orders, id, symbols);
    OpenClaimIsClaim(a.quote, cfg, order, symbols);
    var cancelled := order.(status := Cancelled, rejectionReason := Some(reason));
    ClaimsUpdate(w.orders, a.quote, cfg, x, id, cancelled);
    ClosedClaimsNothing(a.quote, cfg, cancelled, x);
    ReservedAfterMove(a, asset, -Min(amount, BalanceOf(a.balances, asset).reserved), x);
    MoveFacts(a, asset, -Min(amount, BalanceOf(a.balances, asset).reserved));
    OpenClaimOf(a.quote, cfg, order, x);
    if order.status.Open? {
      CancelReturnsClaim(w, cfg, symbols, start, id, reason);
    }
  }

  lemma RegisteredAt(orders: map<string, Order>, id: string, symbols: set<string>)
    requires Registered(orders, symbols) && id in orders
    ensures WellRegistered(orders[id], symbols)
  {
  }

  lemma OpenClaimOf(quote: string, cfg: Config, order: Order, x: string)
    ensures OpenClaim(quote, cfg, order, x)
            == if order.status.Open? && CancelClaim(quote, cfg, order).0 == x then CancelClaim(quote, cfg, order).1
               else 0.0
  {
    hide CancelClaim;
  }

  lemma InvRegistered(w: World, cfg: Config, symbols: set<string>, start: real, id: string)
    requires Inv(w, cfg, symbols, start) && id in w.orders
    ensures !w.orders[id].status.Pending?
  {
    hide Sound, Surplus, Universe, InScope;
  }

  // Exactly when cancelling keeps the ledger: an order that was partly filled, or cancelled before, no
  // longer has anything set aside, so what `cancel` releases for it is taken from the other open orders.
  lemma CancelReconcilesIff(w: World, cfg: Config, symbols: set<string>, start: real, id: string, reason: string)
    requires Inv(w, cfg, symbols, start) && Reconciled(w, cfg) && id in w.orders
    ensures Reconciled(Cancel(w, cfg, id, reason), cfg) <==> CancelIsSafe(w, cfg, w.orders[id])
  {
    hide Sound, Surplus, CancelClaim, Cancel, Inv, BalanceOf;
    var order := w.orders[id];
    var asset := CancelClaim(w.account.quote, cfg, order).0;
    InvRegistered(w, cfg, symbols, start, id);
    CancelMoves(w, cfg, symbols, start, id, reason, asset);
    if CancelIsSafe(w, cfg, order) {
      forall x ensures Surplus(Cancel(w, cfg, id, reason), cfg, x) == 0.0 {
        CancelMoves(w, cfg, symbols, start, id, reason, x);
      }
    }
  }

  lemma CancelKeeps(w: World, cfg: Config, symbols: set<string>, start: real, id: string, reason: string)
    requires Inv(w, cfg, symbols, start) && id in w.orders && CancelIsSafe(w, cfg, w.orders[id])
    ensures Inv(Cancel(w, cfg, id, reason), cfg, symbols, start)
    ensures forall x :: Surplus(Cancel(w, cfg, id, reason), cfg, x) == Surplus(w, cfg, x)
  {
    hide Sound, Surplus, CancelClaim, Universe, InScope;
    var order := w.orders[id];
    var (asset, amount) := CancelClaim(w.account.quote, cfg, order);
    RegisteredAt(w.orders, id, symbols);
    ReleaseKeeps(w.account, asset, amount, symbols, start);
    assert Registered(Cancel(w, cfg, id, reason).orders, symbols) by { CancelKeepsRegistry(w, cfg, symbols, id, reason); }
    forall x ensures Surplus(Cancel(w, cfg, id, reason), cfg, x) == Surplus(w, cfg, x) {
      CancelMoves(w, cfg, symbols, start, id, reason, x);
    }
    hide Registered;
  }

  lemma CancelKeepsRegistry(w: World, cfg: Config, symbols: set<string>, id: string, reason: string)
    requires Registered(w.orders, symbols) && id in w.orders
    ensures Registered(Cancel(w, cfg, id, reason).orders, symbols)
  {
    hide CancelClaim, Release;
  }

  // ----- marks, redelivery, restart -----

  lemma MarkKeeps(w: World, cfg: Config, symbols: set<string>, start: real, symbol: string, price: real)
    requires Inv(w, cfg, symbols, start)
    ensures Inv(Advance(w, cfg, MarkPrice(symbol, price)), cfg, symbols, start)
    ensures forall x :: Surplus(Advance(w, cfg, MarkPrice(symbol, price)), cfg, x) == Surplus(w, cfg, x)
  {
    hide Sound, Universe, InScope, Registered, Surplus, SetMark;
    SetMarkKeeps(w.account, symbol, price, symbols, start);
    MarkMovesNothing(w, cfg, symbol, price);
  }

  lemma MarkMovesNothing(w: World, cfg: Config, symbol: string, price: real)
    ensures var after := Advance(w, cfg, MarkPrice(symbol, price));
            && after.account.quote == w.account.quote && after.orders == w.orders
            && forall x :: Surplus(after, cfg, x) == Surplus(w, cfg, x)
  {
    hide Observe, Equity, Total, Claims;
  }

  lemma InspectKeeps(w: World, cfg: Config, symbols: set<string>, start: real)
    requires Inv(w, cfg, symbols, start)
    ensures Inv(Advance(w, cfg, Inspect), cfg, symbols, start)
  {
    hide Universe, InScope, Registered, Surplus, Solvent, LongOnly, Backed, Booked, Marked, Watched, MarkToMarket,
         ObserveEquity;
    RefreshKeeps(w.account, symbols, start);
    InspectMovesNothing(w, cfg);
  }

  lemma InspectMovesNothing(w: World, cfg: Config)
    ensures var after := Advance(w, cfg, Inspect);
            && after.account.quote == w.account.quote && after.orders == w.orders
            && after.account.balances == w.account.balances && after.account.positions == w.account.positions
            && after.account.processed == w.account.processed && after.account.marks == w.account.marks
            && forall x :: Surplus(after, cfg, x) == Surplus(w, cfg, x)
  {
    hide Observe, Equity, Total, Claims;
  }

  lemma RedeliveryChangesNothing(w: World, cfg: Config, fill: Fill)
    requires fill.id in w.account.processed
    ensures Advance(w, cfg, Redeliver(fill)) == w
  {
  }

  // What a restart finds: the portfolio as it was when it was saved.
  ghost predicate OnDisk(disk: SavedPortfolio, quote: string, symbols: set<string>, start: real)
  {
    disk.quote == quote && Sound(AsAccount(disk), symbols, start)
  }

  ghost predicate SessionInv(z: Session, cfg: Config, symbols: set<string>, start: real)
  {
    Inv(z.world, cfg, symbols, start) && OnDisk(z.disk, z.world.account.quote, symbols, start)
  }

  lemma RestartRestores(disk: SavedPortfolio, quote: string, cfg: Config, symbols: set<string>, start: real)
    requires InScope(cfg) && Universe(symbols, quote) && OnDisk(disk, quote, symbols, start)
    ensures Restored(disk).account == AsAccount(disk)
    ensures Inv(Restored(disk), cfg, symbols, start)
    ensures forall x :: Surplus(Restored(disk), cfg, x) == BalanceOf(disk.balances, x).reserved
  {
    hide Universe, InScope, Solvent, LongOnly, Backed, Booked, Marked, Watched, Load, Save, BalanceOf;
    var a := AsAccount(disk);
    SavedIsAccount(a, disk);
    LoadSaveIff(a);
    forall x ensures Surplus(Restored(disk), cfg, x) == BalanceOf(disk.balances, x).reserved
                     && BalanceOf(disk.balances, x).reserved >= 0.0
    {
      TotalZero({}, Claims(map[], disk.quote, cfg, x));
      assert Claims(map[], disk.quote, cfg, x) == map[];
      SoundBalance(a, x, symbols, start);
    }
  }

  // The registry of a ledger that reconciles has an open order exactly when something is reserved.
  lemma NothingReservedIff(w: World, cfg: Config, symbols: set<string>, start: real)
    requires Inv(w, cfg, symbols, start) && Reconciled(w, cfg)
    ensures (forall x :: BalanceOf(w.account.balances, x).reserved == 0.0)
            <==> forall id :: id in w.orders ==> !w.orders[id].status.Open?
  {
    hide Sound, CancelClaim, Universe, BalanceOf;
    if forall id :: id in w.orders ==> !w.orders[id].status.Open? {
      forall x ensures BalanceOf(w.account.balances, x).reserved == 0.0 {
        assert Claims(w.orders, w.account.quote, cfg, x).Keys == w.orders.Keys;
        TotalZero(w.orders.Keys, Claims(w.orders, w.account.quote, cfg, x));
        assert Surplus(w, cfg, x) == 0.0;
      }
    } else {
      var id :| id in w.orders && w.orders[id].status.Open?;
      CancelReturnsClaim(w, cfg, symbols, start, id, "");
      assert BalanceOf(w.account.balances, Claim(w.account.quote, cfg, w.orders[id]).0).reserved > 0.0;
    }
  }

  // A restart keeps the ledger exactly when no order was open at the moment of the save it brings back: the
  // registry is not restored, so what those orders had set aside stays reserved with nothing left that could
  // release it. What has happened since the save does not matter.
  lemma RestartReconcilesIff(z: Session, saved: World, cfg: Config, symbols: set<string>, start: real)
    requires z.disk == Save(saved.account)
    requires Inv(saved, cfg, symbols, start) && Reconciled(saved, cfg)
    ensures Reconciled(Step(z, cfg, RestartFromStore).world, cfg)
            <==> forall id :: id in saved.orders ==> !saved.orders[id].status.Open?
  {
    hide Sound, Universe, BalanceOf, Surplus, InScope, Registered, Restored;
    SavedIsAccount(saved.account, z.disk);
    RestartRestores(z.disk, saved.account.quote, cfg, symbols, start);
    NothingReservedIff(saved, cfg, symbols, start);
    forall x ensures Surplus(Step(z, cfg, RestartFromStore).world, cfg, x) == BalanceOf(saved.account.balances, x).reserved {}
  }

  // ----- runs -----

  lemma AdvanceKeeps(w: World, cfg: Config, symbols: set<string>, start: real, action: Action)
    requires Inv(w, cfg, symbols, start) && Admissible(w, cfg, symbols, action)
    ensures Inv(Advance(w, cfg, action), cfg, symbols, start)
    ensures Advance(w, cfg, action).account.quote == w.account.quote
    ensures forall x :: Surplus(Advance(w, cfg, action), cfg, x) == Surplus(w, cfg, x)
  {
    hide Sound, Universe, InScope, Registered, Surplus, Execute, Cancel, ScopedOrder, PricedBook, CancelIsSafe,
         Track, SetMark, Load, Save, ObserveEquity, MarkToMarket;
    match action
    case Place(request, orderType, book, fillId) =>
      var order := NewOrder(request, orderType);
      PlaceKeepsAccount(w, cfg, symbols, start, order, book.value, fillId);
      PlaceKeepsRegistry(w, cfg, symbols, start, order, book.value, fillId);
      forall x ensures Surplus(Advance(w, cfg, action), cfg, x) == Surplus(w, cfg, x) {
        PlaceKeepsSurplus(w, cfg, symbols, start, order, book.value, fillId, x);
      }
    case CancelOrder(id, reason) =>
      if id in w.orders {
        CancelKeeps(w, cfg, symbols, start, id, reason);
        CancelKeepsQuote(w, cfg, id, reason);
      }
    case MarkPrice(symbol, price) =>
      MarkKeeps(w, cfg, symbols, start, symbol, price);
      MarkMovesNothing(w, cfg, symbol, price);
    case Redeliver(fill) =>
      RedeliveryChangesNothing(w, cfg, fill);
    case Inspect =>
      InspectKeeps(w, cfg, symbols, start);
      InspectMovesNothing(w, cfg);
    case Persist =>
    case RestartFromStore =>
  }

  lemma CancelKeepsQuote(w: World, cfg: Config, id: string, reason: string)
    requires id in w.orders
    ensures Cancel(w, cfg, id, reason).account.quote == w.account.quote
  {
    hide CancelClaim;
  }

  lemma StepKeeps(z: Session, cfg: Config, symbols: set<string>, start: real, action: Action)
    requires SessionInv(z, cfg, symbols, start) && Admissible(z.world, cfg, symbols, action)
    ensures SessionInv(Step(z, cfg, action), cfg, symbols, start)
    ensures !action.RestartFromStore? ==>
              forall x :: Surplus(Step(z, cfg, action).world, cfg, x) == Surplus(z.world, cfg, x)
  {
    hide Sound, Universe, InScope, Registered, Surplus, Advance, Restored, Save, Admissible;
    AdvanceKeeps(z.world, cfg, symbols, start, action);
    if action.Persist? {
      SavedIsAccount(z.world.account, Save(z.world.account));
      hide AsAccount;
    } else if action.RestartFromStore? {
      RestartRestores(z.disk, z.world.account.quote, cfg, symbols, start);
    }
  }

  ghost function Run(z: Session, cfg: Config, actions: seq<Action>): Session
    decreases |actions|
  {
    if actions == [] then z else Run(Step(z, cfg, actions[0]), cfg, actions[1..])
  }

  ghost predicate AllAdmissible(z: Session, cfg: Config, symbols: set<string>, actions: seq<Action>)
    decreases |actions|
  {
    actions != [] ==>
      && Admissible(z.world, cfg, symbols, actions[0])
      && AllAdmissible(Step(z, cfg, actions[0]), cfg, symbols, actions[1..])
  }

  lemma {:induction false} RunKeeps(z: Session, cfg: Config, symbols: set<string>, start: real, actions: seq<Action>)
    requires SessionInv(z, cfg, symbols, start) && AllAdmissible(z, cfg, symbols, actions)
    ensures SessionInv(Run(z, cfg, actions), cfg, symbols, start)
    ensures RestartFromStore !in actions ==>
              forall x :: Surplus(Run(z, cfg, actions).world, cfg, x) == Surplus(z.world, cfg, x)
    decreases |actions|
  {
    hide SessionInv, Surplus, Step, Admissible;
    if actions != [] {
      StepKeeps(z, cfg, symbols, start, actions[0]);
      RunKeeps(Step(z, cfg, actions[0]), cfg, symbols, start, actions[1..]);
      assert actions[0] in actions;
    }
  }

  ghost function OpeningWorld(quote: string, start: real): World
  {
    World(OpeningAccount(quote, start), map[], map[], [], [])
  }

  ghost function OpeningSession(quote: string, start: real): Session
  {
    Session(OpeningWorld(quote, start), Save(OpeningAccount(quote, start)))
  }

  lemma OpeningInv(quote: string, start: real, cfg: Config, symbols: set<string>)
    requires InScope(cfg) && Universe(symbols, quote) && start >= 0.0
    ensures SessionInv(OpeningSession(quote, start), cfg, symbols, start)
    ensures Reconciled(OpeningWorld(quote, start), cfg)
    ensures Restored(OpeningSession(quote, start).disk) == OpeningWorld(quote, start)
  {
    hide Sound, Universe, InScope, Observe, Equity, Save, Load;
    OpeningIsSound(quote, start, symbols);
    SavedIsAccount(OpeningAccount(quote, start), Save(OpeningAccount(quote, start)));
    hide AsAccount;
    RestartRestores(Save(OpeningAccount(quote, start)), quote, cfg, symbols, start);
    forall x ensures Surplus(OpeningWorld(quote, start), cfg, x) == 0.0 {
      TotalZero({}, Claims(map[], quote, cfg, x));
      assert Claims(map[], quote, cfg, x) == map[];
    }
  }

  // The ledger theorem. From any starting capital, after any run, saves and restarts from older saves
  // included: no balance is negative, no base asset is short or unaccounted for, cash plus cost basis is the
  // starting capital plus realized PnL, equity is that plus unrealized PnL, and without a restart every
  // reserved unit belongs to an open order.
  lemma LedgerTheorem(quote: string, start: real, cfg: Config, symbols: set<string>, actions: seq<Action>)
    requires InScope(cfg) && Universe(symbols, quote) && start >= 0.0
    requires AllAdmissible(OpeningSession(quote, start), cfg, symbols, actions)
    ensures var w := Run(OpeningSession(quote, start), cfg, actions).world;
            var a := w.account;
            && Solvent(a)
            && (forall s :: s in symbols ==>
                  0.0 <= PositionOf(a.positions, s).quantity
                      == BalanceOf(a.balances, BaseAsset(s, a.quote)).Total())
            && BalanceOf(a.balances, a.quote).Total() + Total(CostBases(a.positions)) == start + a.stats.realizedPnl
            && Equity(a) == start + a.stats.realizedPnl + a.stats.unrealizedPnl
            && (RestartFromStore !in actions ==> Reconciled(w, cfg))
  {
    hide AllAdmissible, OpeningWorld, Run, BaseAsset, Total, Equity, Universe, InScope, Registered, Surplus, Watched,
         AssetBalance.Total, OnDisk, Restored;
    var opening := OpeningSession(quote, start);
    OpeningInv(quote, start, cfg, symbols);
    RunKeeps(opening, cfg, symbols, start, actions);
    EquityIdentity(Run(opening, cfg, actions).world.account, start);
  }
}
