// What the account operations keep: solvency, base balances that equal positions, and the
// accounting identity  quote + cost basis == starting capital + realized PnL.

module LedgerFacts {
  import opened Prelude
  import opened DepthWalk
  import opened Ledger

  // One symbol per base asset, and no symbol whose base is the quote currency itself.
  ghost predicate Universe(symbols: set<string>, quote: string)
  {
    && (forall s :: s in symbols ==> BaseAsset(s, quote) != quote)
    && (forall s, t :: s in symbols && t in symbols && BaseAsset(s, quote) == BaseAsset(t, quote) ==> s == t)
  }

  ghost predicate Solvent(a: Account)
  {
    forall x :: x in a.balances ==> a.balances[x].available >= 0.0 && a.balances[x].reserved >= 0.0
  }

  ghost predicate LongOnly(positions: map<string, Position>)
  {
    forall s :: s in positions ==>
      && positions[s].quantity >= 0.0
      && positions[s].averageEntry >= 0.0
      && (positions[s].quantity > 0.0 ==> positions[s].averageEntry > 0.0)
  }

  // Every base asset's total is exactly the quantity of its position.
  ghost predicate Backed(a: Account, symbols: set<string>)
  {
    && a.positions.Keys <= symbols
    && forall s :: s in symbols ==>
         BalanceOf(a.balances, BaseAsset(s, a.quote)).Total() == PositionOf(a.positions, s).quantity
  }

  // The accounting identity.
  ghost predicate Booked(a: Account, start: real)
  {
    BalanceOf(a.balances, a.quote).Total() + Total(CostBases(a.positions)) == start + a.stats.realizedPnl
  }

  ghost predicate Marked(a: Account)
  {
    a.stats.unrealizedPnl == Total(UnrealizedGains(a.positions, a.marks))
  }

  // The drawdown statistics already account for the current equity.
  ghost predicate Watched(a: Account)
  {
    Observe(a.stats, Equity(a)) == a.stats
  }

  ghost predicate Sound(a: Account, symbols: set<string>, start: real)
  {
    Solvent(a) && LongOnly(a.positions) && Backed(a, symbols) && Booked(a, start) && Marked(a) && Watched(a)
  }

  // ----- money arithmetic -----

  lemma ValueOfAverage(notional: real, quantity: real)
    requires quantity != 0.0
    ensures Value(quantity, notional / quantity) == notional
  {
  }

  lemma ValueGap(quantity: real, low: real, high: real)
    ensures Value(quantity, high - low) == Value(quantity, high) - Value(quantity, low)
  {
  }

  lemma ValuePositive(quantity: real, price: real)
    ensures quantity >= 0.0 && price >= 0.0 ==> Value(quantity, price) >= 0.0
    ensures quantity > 0.0 && price > 0.0 ==> Value(quantity, price) > 0.0
    ensures quantity == 0.0 || price == 0.0 ==> Value(quantity, price) == 0.0
  {
  }

  lemma AverageIsPositive(notional: real, quantity: real)
    requires notional > 0.0 && quantity > 0.0
    ensures notional / quantity > 0.0
  {
  }

  lemma ValueStrict(a: real, b: real, price: real)
    requires a < b && price > 0.0
    ensures Value(a, price) < Value(b, price)
  {
  }

  // ----- equity -----

  // Equity is start + realized + unrealized: the identity as a reader of the dashboard sees it.
  lemma EquityIdentity(a: Account, start: real)
    requires Booked(a, start) && Marked(a)
    ensures Equity(a) == start + a.stats.realizedPnl + a.stats.unrealizedPnl
  {
    var keys := a.positions.Keys;
    var costs, gains, values := CostBases(a.positions), UnrealizedGains(a.positions, a.marks),
                                MarketValues(a.positions, a.marks);
    forall s | s in keys ensures values[s] == costs[s] + gains[s] {
      var p := a.positions[s];
      var mark := MarkOf(a.marks, s, p.averageEntry);
      ValueGap(p.quantity, p.averageEntry, mark);
      ValuePositive(p.quantity, p.averageEntry);
    }
    TotalAdd(keys, costs, gains, values);
    assert costs.Keys == gains.Keys == values.Keys == keys;
  }

  // ----- reserve and release -----

  // Moving an amount between available and reserved changes no total, hence nothing that is derived from totals.
  lemma MoveKeeps(a: Account, asset: string, amount: real, symbols: set<string>, start: real)
    requires Sound(a, symbols, start)
    requires -BalanceOf(a.balances, asset).reserved <= amount <= BalanceOf(a.balances, asset).available
    ensures Sound(Move(a, asset, amount), symbols, start)
  {
    hide Backed, Booked, Marked, Watched, LongOnly;
    MoveKeepsBacking(a, asset, amount, symbols);
    MoveKeepsBooks(a, asset, amount, start);
    MoveKeepsStats(a, asset, amount);
  }

  // Setting an amount aside is granted exactly when it is available, or nothing is asked for; then it is moved,
  // otherwise nothing is.
  lemma ReserveTells(a: Account, asset: string, amount: real, x: string)
    ensures var (after, granted) := Reserve(a, asset, amount);
            var b := BalanceOf(a.balances, x);
            && (granted <==> amount <= 0.0 || amount <= BalanceOf(a.balances, asset).available)
            && BalanceOf(after.balances, x)
               == (if x == asset && granted && 0.0 < amount then AssetBalance(b.available - amount, b.reserved + amount) else b)
            && after == a.(balances := after.balances)
  {
  }

  // Giving an amount back moves it, or all that is reserved if that is less.
  lemma ReleaseTells(a: Account, asset: string, amount: real, x: string)
    ensures var after, b := Release(a, asset, amount), BalanceOf(a.balances, x);
            var back := if amount < b.reserved then amount else b.reserved;
            && BalanceOf(after.balances, x)
               == (if x == asset && 0.0 < amount then AssetBalance(b.available + back, b.reserved - back) else b)
            && after == a.(balances := after.balances)
  {
  }

  lemma MoveKeepsBacking(a: Account, asset: string, amount: real, symbols: set<string>)
    requires Backed(a, symbols)
    ensures Backed(Move(a, asset, amount), symbols)
  {
    hide BaseAsset;
  }

  lemma MoveKeepsBooks(a: Account, asset: string, amount: real, start: real)
    requires Booked(a, start)
    ensures Booked(Move(a, asset, amount), start)
  {
    hide Value, TotalOver;
  }

  lemma MoveKeepsStats(a: Account, asset: string, amount: real)
    requires Marked(a) && Watched(a)
    ensures Marked(Move(a, asset, amount)) && Watched(Move(a, asset, amount))
  {
    hide Value, TotalOver, Observe;
    assert Equity(Move(a, asset, amount)) == Equity(a);
  }

  lemma BalanceIsSolvent(a: Account, asset: string)
    requires Solvent(a)
    ensures BalanceOf(a.balances, asset).available >= 0.0 && BalanceOf(a.balances, asset).reserved >= 0.0
  {
  }

  lemma SoundBalance(a: Account, asset: string, symbols: set<string>, start: real)
    requires Sound(a, symbols, start)
    ensures BalanceOf(a.balances, asset).available >= 0.0 && BalanceOf(a.balances, asset).reserved >= 0.0
  {
    hide Backed, Booked, Marked, Watched, LongOnly;
  }

  lemma ReleaseKeeps(a: Account, asset: string, amount: real, symbols: set<string>, start: real)
    requires Sound(a, symbols, start)
    ensures Sound(Release(a, asset, amount), symbols, start)
  {
    hide Sound, Move;
    SoundBalance(a, asset, symbols, start);
    if amount > 0.0 {
      MoveKeeps(a, asset, -Min(amount, BalanceOf(a.balances, asset).reserved), symbols, start);
    }
  }

  // ----- posting a fill -----

  // What a fill must find for the accounting not to clamp: the money, or the goods.
  predicate Covered(a: Account, fill: Fill)
  {
    if fill.side.Buy? then fill.Gross() + fill.fee <= BalanceOf(a.balances, a.quote).reserved
    else
      && fill.quantity <= BalanceOf(a.balances, BaseAsset(fill.symbol, a.quote)).reserved
      && fill.quantity <= PositionOf(a.positions, fill.symbol).quantity
  }

  predicate WellFormed(fill: Fill)
  {
    fill.quantity > 0.0 && fill.price > 0.0 && fill.fee >= 0.0
  }

  lemma PostedBalances(a: Account, fill: Fill, x: string)
    requires BaseAsset(fill.symbol, a.quote) != a.quote
    ensures var after := SettleBalances(a.balances, a.quote, fill);
            BalanceOf(after, x)
            == if x == a.quote then
                 (if fill.side.Buy? then Pay(BalanceOf(a.balances, x), fill.Gross() + fill.fee)
                  else Credit(BalanceOf(a.balances, x), fill.Gross() - fill.fee))
               else if x == BaseAsset(fill.symbol, a.quote) then
                 (if fill.side.Buy? then Credit(BalanceOf(a.balances, x), fill.quantity)
                  else Deliver(BalanceOf(a.balances, x), fill.quantity))
               else BalanceOf(a.balances, x)
  {
    hide Value, BaseAsset, Pay, Deliver, Credit, Fill.Gross;
  }

  // Exactly when a fill keeps the accounting identity. A buy must be affordable out of the quote
  // total; a sale must not exceed the position it is booked against; and a sale with nothing to
  // book against is neutral only if the fee eats the proceeds.
  predicate KeepsBooks(a: Account, fill: Fill)
  {
    var p := PositionOf(a.positions, fill.symbol);
    if fill.side.Buy? then fill.Gross() + fill.fee <= BalanceOf(a.balances, a.quote).Total()
    else if p.quantity > 0.0 && p.averageEntry > 0.0 then fill.quantity <= p.quantity
    else fill.Gross() == fill.fee
  }

  lemma SettledCost(p: Position, fill: Fill)
    requires WellFormed(fill) && p.quantity >= 0.0 && p.averageEntry >= 0.0
    ensures var (settled, realized) := SettlePosition(p, fill);
            && (fill.side.Buy? ==> CostBasis(settled) == CostBasis(p) + fill.Gross() + fill.fee && realized == 0.0)
            && (fill.side.Sell? && p.quantity > 0.0 && p.averageEntry > 0.0 ==>
                  (CostBasis(settled) - CostBasis(p) == realized - (fill.Gross() - fill.fee)
                   <==> fill.quantity <= p.quantity))
            && (fill.side.Sell? && !(p.quantity > 0.0 && p.averageEntry > 0.0) ==>
                  CostBasis(settled) == CostBasis(p) == 0.0 && realized == 0.0)
  {
    hide Value;
    ValuePositive(p.quantity, p.averageEntry);
    if fill.side.Buy? {
      ValueOfAverage(Value(p.quantity, p.averageEntry) + (fill.Gross() + fill.fee), p.quantity + fill.quantity);
    } else {
      var left := p.quantity - fill.quantity;
      ValuePositive(0.0, 0.0);
      ValuePositive(left, p.averageEntry);
      ValueAdds(left, fill.quantity, p.averageEntry);
      if p.averageEntry > 0.0 && left < 0.0 {
        ValueStrict(p.quantity, fill.quantity, p.averageEntry);
      }
    }
  }

  lemma PostedCosts(a: Account, fill: Fill)
    requires fill.id !in a.processed
    ensures var p := PositionOf(a.positions, fill.symbol);
            Total(CostBases(Post(a, fill).0.positions))
            == Total(CostBases(a.positions)) - CostBasis(p) + CostBasis(SettlePosition(p, fill).0)
  {
    hide Value, TotalOver, BaseAsset;
    var settled := SettlePosition(PositionOf(a.positions, fill.symbol), fill).0;
    assert CostBases(Post(a, fill).0.positions) == CostBases(a.positions)[fill.symbol := CostBasis(settled)];
    TotalUpdate(CostBases(a.positions), fill.symbol, CostBasis(settled));
    ValuePositive(0.0, 0.0);
  }

  lemma PayTotal(b: AssetBalance, cost: real)
    requires b.available >= 0.0 && b.reserved >= 0.0
    ensures Pay(b, cost).Total() == b.Total() - Min(cost, b.Total())
  {
  }

  // Paying takes from what is reserved first, then from what is available, and never more than there is.
  lemma PayTells(b: AssetBalance, cost: real)
    requires b.available >= 0.0 && b.reserved >= 0.0 && cost >= 0.0
    ensures var after, held := Pay(b, cost), if cost < b.reserved then cost else b.reserved;
            && after.reserved == b.reserved - held
            && after.available == (if cost - held < b.available then b.available - (cost - held) else 0.0)
  {
  }

  // From an overdrawn balance it takes what is reserved beyond the debt.
  lemma PayOverdrawn(b: AssetBalance, cost: real)
    requires b.available < 0.0 && b.reserved < cost
    ensures b.Total() <= 0.0 || Pay(b, cost) == AssetBalance(b.available, -b.available)
  {
  }

  // Delivering does the same, but for the limit: what is missing is owed.
  lemma DeliverTells(b: AssetBalance, quantity: real)
    requires b.reserved >= 0.0 && quantity >= 0.0
    ensures var after, held := Deliver(b, quantity), if quantity < b.reserved then quantity else b.reserved;
            after.reserved == b.reserved - held && after.available == b.available - (quantity - held)
  {
  }

  lemma CreditTotal(b: AssetBalance, amount: real)
    ensures Credit(b, amount).Total() == b.Total() + amount
  {
  }

  lemma DeliverTotal(b: AssetBalance, quantity: real)
    ensures Deliver(b, quantity).Total() == b.Total() - quantity
  {
  }

  lemma PostedQuote(a: Account, fill: Fill)
    requires BaseAsset(fill.symbol, a.quote) != a.quote
    requires fill.id !in a.processed && Solvent(a)
    ensures var before, after := BalanceOf(a.balances, a.quote).Total(),
                                 BalanceOf(Post(a, fill).0.balances, a.quote).Total();
            if fill.side.Buy? then after == before - Min(fill.Gross() + fill.fee, before)
            else after == before + (fill.Gross() - fill.fee)
  {
    hide Fill.Gross, BaseAsset, SettlePosition, SettleBalances, Solvent, Pay, Credit, AssetBalance.Total, Min;
    PostedBalances(a, fill, a.quote);
    BalanceIsSolvent(a, a.quote);
    PayTotal(BalanceOf(a.balances, a.quote), fill.Gross() + fill.fee);
    CreditTotal(BalanceOf(a.balances, a.quote), fill.Gross() - fill.fee);
  }

  lemma PostKeepsBooksIff(a: Account, fill: Fill, start: real)
    requires BaseAsset(fill.symbol, a.quote) != a.quote
    requires fill.id !in a.processed && WellFormed(fill)
    requires LongOnly(a.positions) && Solvent(a) && Booked(a, start)
    ensures Booked(Post(a, fill).0, start) <==> KeepsBooks(a, fill)
  {
    hide Value, Fill.Gross, TotalOver, BaseAsset, SettleBalances, CostBases, CostBasis, SettlePosition, Solvent,
         WellFormed;
    SettledCost(PositionOf(a.positions, fill.symbol), fill);
    PostedCosts(a, fill);
    PostedQuote(a, fill);
  }

  lemma PostedTotal(a: Account, fill: Fill, x: string)
    requires x != a.quote && BaseAsset(fill.symbol, a.quote) != a.quote && fill.id !in a.processed
    ensures BalanceOf(Post(a, fill).0.balances, x).Total()
            == BalanceOf(a.balances, x).Total()
               + (if x != BaseAsset(fill.symbol, a.quote) then 0.0
                  else if fill.side.Buy? then fill.quantity else -fill.quantity)
  {
    hide Fill.Gross, BaseAsset, SettlePosition, SettleBalances, Pay, Deliver, Credit, AssetBalance.Total;
    PostedBalances(a, fill, x);
    DeliverTotal(BalanceOf(a.balances, x), fill.quantity);
    CreditTotal(BalanceOf(a.balances, x), fill.quantity);
  }

  lemma PostedQuantity(a: Account, fill: Fill, s: string)
    requires fill.id !in a.processed && WellFormed(fill) && Covered(a, fill)
    ensures PositionOf(Post(a, fill).0.positions, s).quantity
            == PositionOf(a.positions, s).quantity
               + (if s != fill.symbol then 0.0 else if fill.side.Buy? then fill.quantity else -fill.quantity)
  {
    hide Value, BaseAsset, SettleBalances;
  }

  lemma PostedKeys(a: Account, fill: Fill)
    ensures Post(a, fill).0.quote == a.quote
    ensures fill.id !in a.processed ==> Post(a, fill).0.positions.Keys == a.positions.Keys + {fill.symbol}
  {
    hide SettlePosition, SettleBalances;
  }

  lemma PostKeepsBacking(a: Account, fill: Fill, symbols: set<string>)
    requires Universe(symbols, a.quote) && fill.symbol in symbols
    requires fill.id !in a.processed && WellFormed(fill)
    requires Solvent(a) && LongOnly(a.positions) && Backed(a, symbols) && Covered(a, fill)
    ensures Backed(Post(a, fill).0, symbols)
  {
    hide BaseAsset, Post, Covered, Solvent, LongOnly, WellFormed, AssetBalance.Total;
    var after := Post(a, fill).0;
    PostedKeys(a, fill);
    forall s | s in symbols
      ensures BalanceOf(after.balances, BaseAsset(s, a.quote)).Total() == PositionOf(after.positions, s).quantity
    {
      PostedTotal(a, fill, BaseAsset(s, a.quote));
      PostedQuantity(a, fill, s);
      assert s != fill.symbol ==> BaseAsset(s, a.quote) != BaseAsset(fill.symbol, a.quote);
    }
  }

  lemma PostKeepsSolvency(a: Account, fill: Fill)
    requires BaseAsset(fill.symbol, a.quote) != a.quote
    requires fill.id !in a.processed && WellFormed(fill) && fill.fee <= fill.Gross()
    requires Solvent(a) && LongOnly(a.positions) && Covered(a, fill)
    ensures Solvent(Post(a, fill).0) && LongOnly(Post(a, fill).0.positions)
  {
    var after := Post(a, fill).0;
    forall x | x in after.balances
      ensures after.balances[x].available >= 0.0 && after.balances[x].reserved >= 0.0
    {
      PostedBalances(a, fill, x);
      assert after.balances[x] == BalanceOf(after.balances, x);
    }
    var p := PositionOf(a.positions, fill.symbol);
    ValuePositive(p.quantity, p.averageEntry);
    ValuePositive(fill.quantity, fill.price);
    if fill.side.Buy? {
      AverageIsPositive(Value(p.quantity, p.averageEntry) + (fill.Gross() + fill.fee), p.quantity + fill.quantity);
    }
  }

  // ----- marking and watching -----

  lemma ObserveKeepsEquity(a: Account)
    ensures Equity(ObserveEquity(a)) == Equity(a)
  {
    hide Observe, Value, TotalOver, MarketValue, MarkOf, AssetBalance.Total;
  }

  lemma ObserveIsStable(s: Stats, equity: real)
    ensures Observe(Observe(s, equity), equity) == Observe(s, equity)
  {
  }

  lemma ObserveTwice(a: Account)
    ensures Watched(ObserveEquity(a))
  {
    hide Observe, Equity;
    ObserveKeepsEquity(a);
    ObserveIsStable(a.stats, Equity(a));
  }

  lemma RefreshKeeps(a: Account, symbols: set<string>, start: real)
    requires Solvent(a) && LongOnly(a.positions) && Backed(a, symbols) && Booked(a, start)
    ensures Sound(ObserveEquity(MarkToMarket(a)), symbols, start)
  {
    hide Value, TotalOver, BaseAsset, Equity, LongOnly, Watched, AssetBalance.Total;
    ObserveTwice(MarkToMarket(a));
  }

  lemma SetMarkKeeps(a: Account, symbol: string, price: real, symbols: set<string>, start: real)
    requires Sound(a, symbols, start)
    ensures Sound(SetMark(a, symbol, price), symbols, start)
  {
    RefreshKeeps(a.(marks := a.marks[symbol := price]), symbols, start);
  }

  // A covered fill keeps everything: solvency, backing, the identity, and the derived statistics.
  lemma FillKeeps(a: Account, fill: Fill, symbols: set<string>, start: real)
    requires Universe(symbols, a.quote) && fill.symbol in symbols
    requires WellFormed(fill) && fill.fee <= fill.Gross()
    requires Sound(a, symbols, start) && (fill.id in a.processed || Covered(a, fill))
    ensures Sound(ApplyFill(a, fill), symbols, start)
  {
    hide Value, Fill.Gross, TotalOver, Covered, BaseAsset, SettlePosition, SettleBalances, ObserveEquity, MarkToMarket,
         Solvent, LongOnly, Backed, Booked, Marked, Watched, WellFormed, KeepsBooks;
    if fill.id !in a.processed {
      PostKeepsSolvency(a, fill);
      PostKeepsBacking(a, fill, symbols);
      PostKeepsBooksIff(a, fill, start);
      assert KeepsBooks(a, fill) by { CoveredIsBookable(a, fill); }
      RefreshKeeps(Post(a, fill).0, symbols, start);
    }
  }

  lemma CoveredIsBookable(a: Account, fill: Fill)
    requires Solvent(a) && LongOnly(a.positions) && WellFormed(fill) && Covered(a, fill)
    ensures KeepsBooks(a, fill)
  {
  }

  lemma OpeningIsSound(quote: string, start: real, symbols: set<string>)
    requires Universe(symbols, quote) && start >= 0.0
    ensures Sound(OpeningAccount(quote, start), symbols, start)
  {
    var a := Account(quote, map[quote := AssetBalance(start, 0.0)], map[],
                     NO_STATS.(peakEquity := start), map[], {});
    TotalZero({}, CostBases(map[]));
    TotalZero({}, UnrealizedGains(map[], map[]));
    assert CostBases(map[]) == map[] && UnrealizedGains(map[], map[]) == map[];
    assert Equity(ObserveEquity(a)) == Equity(a);
  }
}
