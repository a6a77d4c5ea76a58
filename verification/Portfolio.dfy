// The mutable portfolio: PortfolioState, AccountingEngine and PaperPortfolio, updated in place
// (bot/portfolio/models.py, bot/portfolio/accounting.py, bot/portfolio/portfolio.py).
// Every method is proved to do to its objects what Ledger.dfy says it does to the account.

module Portfolio {
  import opened Prelude
  import opened DepthWalk
  import opened Ledger
  import opened Store

  lemma NothingTotals(m: map<string, real>)
    ensures TotalOver({}, m) == 0.0
  {
  }

  lemma ObservingIgnoresIds(a: Account, some: set<string>, others: set<string>)
    ensures ObserveEquity(a.(processed := others)) == ObserveEquity(a.(processed := some)).(processed := others)
  {
    hide Observe, Equity;
    EquityIgnoresIds(a, some);
    EquityIgnoresIds(a, others);
  }

  lemma EquityIgnoresIds(a: Account, ids: set<string>)
    ensures Equity(a.(processed := ids)) == Equity(a)
  {
    hide Total, BalanceOf, MarketValues, AssetBalance.Total;
  }

  class PortfolioState {
    const quote: string
    var balances: map<string, AssetBalance>
    var positions: map<string, Position>
    var stats: Stats
    var marks: map<string, real>

    constructor (saved: SavedPortfolio)
      ensures quote == saved.quote && balances == saved.balances && positions == saved.positions
      ensures stats == saved.stats && marks == saved.marks
    {
      quote, balances, positions, stats, marks := saved.quote, saved.balances, saved.positions, saved.stats, saved.marks;
    }

    // The state as a value, with the ids kept by the accounting engine.
    ghost function View(processed: set<string>): Account
      reads this
    {
      Account(quote, balances, positions, stats, marks, processed)
    }

    // `total_equity`: cash in the quote asset plus every position at its mark.
    method TotalEquity(ghost processed: set<string>) returns (equity: real)
      ensures equity == Equity(View(processed))
    {
      hide Value, TotalOver;
      equity := if quote in balances then balances[quote].Total() else 0.0;
      ghost var values := MarketValues(positions, marks);
      assert values.Keys == positions.Keys;
      NothingTotals(values);
      var todo := positions.Keys;
      while todo != {}
        invariant todo <= positions.Keys
        invariant equity + TotalOver(todo, values) == BalanceOf(balances, quote).Total() + Total(values)
        decreases todo
      {
        var symbol :| symbol in todo;
        TotalOverAt(todo, values, symbol);
        var position := positions[symbol];
        if position.quantity != 0.0 {
          var mark := if symbol in marks then marks[symbol] else position.averageEntry;
          equity := equity + Value(position.quantity, mark);
        }
        todo := todo - {symbol};
      }
    }
  }

  class AccountingEngine {
    var processed: set<string>

    constructor ()
      ensures processed == {}
    {
      processed := {};
    }

    method LoadProcessedIds(ids: set<string>)
      modifies this
      ensures processed == old(processed) + ids
    {
      processed := processed + ids;
    }

    // `apply_fill`: at most once per fill id.
    method ApplyFill(state: PortfolioState, fill: Fill) returns (result: AccountingResult)
      modifies this, state
      ensures (state.View(processed), result) == Post(old(state.View(processed)), fill)
    {
      hide Value, BaseAsset, Ledger.SettleBalances, SettlePosition;
      var position := PositionOf(state.positions, fill.symbol);
      if fill.id in processed {
        return AccountingResult(fill.id, fill.Gross(), fill.fee, 0.0, 0.0, position.quantity, position.averageEntry,
                                false, true);
      }
      var gross, fee, realized, netCash := fill.Gross(), fill.fee, 0.0, 0.0;
      SettleBalances(state, fill);
      if fill.side.Buy? {
        position := BuyInto(position, fill);
        netCash := -(gross + fee);
      } else {
        position, realized := SellFrom(position, fill);
        netCash := gross - fee;
      }
      state.positions := state.positions[fill.symbol := position];
      state.stats := CountTrade(state.stats, realized, fee, gross);
      processed := processed + {fill.id};
      result := AccountingResult(fill.id, gross, fee, netCash, realized, position.quantity, position.averageEntry,
                                 true, false);
    }

    // The two legs of a fill, each creating its balance entry if there is none.
    method SettleBalances(state: PortfolioState, fill: Fill)
      modifies state`balances
      ensures state.balances == Ledger.SettleBalances(old(state.balances), state.quote, fill)
    {
      hide Value, BaseAsset, Pay, Deliver;
      var quote, base := state.quote, BaseAsset(fill.symbol, state.quote);
      state.balances := state.balances[quote := BalanceOf(state.balances, quote)];
      state.balances := state.balances[base := BalanceOf(state.balances, base)];
      if fill.side.Buy? {
        SpendQuote(state, fill.Gross() + fill.fee);
        state.balances := state.balances[base := Credit(state.balances[base], fill.quantity)];
      } else {
        DeliverBase(state, base, fill.quantity);
        state.balances := state.balances[quote := Credit(state.balances[quote], fill.Gross() - fill.fee)];
      }
    }

    // Receiving base at average cost, the fee included.
    method BuyInto(position: Position, fill: Fill) returns (after: Position)
      requires fill.side.Buy?
      ensures (after, 0.0) == SettlePosition(position, fill)
    {
      hide Value;
      after := position;
      var cost := fill.Gross() + fill.fee;
      var quantity := position.quantity + fill.quantity;
      if quantity > 0.0 {
        after := after.(averageEntry := (Value(position.quantity, position.averageEntry) + cost) / quantity);
      }
      after := after.(quantity := quantity, feesPaid := after.feesPaid + fill.fee);
    }

    // Giving base away; what the proceeds exceed the average cost by is realized.
    method SellFrom(position: Position, fill: Fill) returns (after: Position, realized: real)
      requires fill.side.Sell?
      ensures (after, realized) == SettlePosition(position, fill)
    {
      hide Value;
      after, realized := position, 0.0;
      var proceeds := fill.Gross() - fill.fee;
      if position.quantity > 0.0 && position.averageEntry > 0.0 {
        realized := proceeds - Value(fill.quantity, position.averageEntry);
      }
      after := after.(quantity := position.quantity - fill.quantity);
      if after.quantity <= 0.0 {
        after := after.(quantity := 0.0, averageEntry := 0.0);
      }
      after := after.(realizedPnl := after.realizedPnl + realized, feesPaid := after.feesPaid + fill.fee);
    }

    method SpendQuote(state: PortfolioState, cost: real)
      requires state.quote in state.balances
      modifies state`balances
      ensures state.balances == old(state.balances[state.quote := Pay(state.balances[state.quote], cost)])
    {
      var b := state.balances[state.quote];
      if b.reserved >= cost {
        b := b.(reserved := b.reserved - cost);
      } else if b.reserved + b.available >= cost {
        var remainder := cost - b.reserved;
        b := AssetBalance(b.available - remainder, 0.0);
      } else {
        var spend := Min(cost, b.Total());
        if b.reserved >= spend {
          b := b.(reserved := b.reserved - spend);
        } else {
          b := AssetBalance(b.available - (spend - b.reserved), 0.0);
        }
      }
      state.balances := state.balances[state.quote := b];
    }

    method DeliverBase(state: PortfolioState, base: string, quantity: real)
      requires base in state.balances
      modifies state`balances
      ensures state.balances == old(state.balances[base := Deliver(state.balances[base], quantity)])
    {
      var b := state.balances[base];
      if b.reserved >= quantity {
        b := b.(reserved := b.reserved - quantity);
      } else {
        var fromReserved := Min(b.reserved, quantity);
        b := AssetBalance(b.available - (quantity - fromReserved), b.reserved - fromReserved);
      }
      state.balances := state.balances[base := b];
    }
  }

  class PaperPortfolio {
    const accounting: AccountingEngine
    var state: PortfolioState

    ghost function View(): Account
      reads this, state, accounting
    {
      state.View(accounting.processed)
    }

    constructor (quote: string, start: real)
      ensures View() == OpeningAccount(quote, start)
      ensures fresh(accounting) && fresh(state)
    {
      accounting := new AccountingEngine();
      state := new PortfolioState(SavedPortfolio(quote, map[quote := AssetBalance(start, 0.0)], map[],
                                                 NO_STATS.(peakEquity := start), map[], {}));
      new;
      UpdateDrawdown();
    }

    // `load_state`: the portfolio takes over a copy of the saved state and the ids that go with it.
    method LoadState(saved: SavedPortfolio)
      modifies this, accounting
      ensures fresh(state)
      ensures View() == Load(saved).(processed := old(accounting.processed) + saved.processed)
    {
      hide ObserveEquity;
      ObservingIgnoresIds(AsAccount(saved), saved.processed, accounting.processed + saved.processed);
      assert {} + saved.processed == saved.processed;
      state := new PortfolioState(saved);
      accounting.LoadProcessedIds(saved.processed);
      UpdateDrawdown();
    }

    method Available(asset: string) returns (amount: real)
      ensures amount == BalanceOf(View().balances, asset).available
    {
      amount := if asset in state.balances then state.balances[asset].available else 0.0;
    }

    // `reserve`
    method Reserve(asset: string, amount: real) returns (ok: bool)
      modifies state
      ensures (View(), ok) == Ledger.Reserve(old(View()), asset, amount)
    {
      if amount <= 0.0 {
        return true;
      }
      state.balances := state.balances[asset := BalanceOf(state.balances, asset)];
      var b := state.balances[asset];
      if b.available < amount {
        return false;
      }
      assert old(state.balances)[asset := b][asset := AssetBalance(b.available - amount, b.reserved + amount)]
          == old(state.balances)[asset := AssetBalance(b.available - amount, b.reserved + amount)];
      state.balances := state.balances[asset := AssetBalance(b.available - amount, b.reserved + amount)];
      ok := true;
    }

    // `release_reservation`
    method ReleaseReservation(asset: string, amount: real)
      modifies state
      ensures View() == Release(old(View()), asset, amount)
    {
      if amount <= 0.0 {
        return;
      }
      var b := BalanceOf(state.balances, asset);
      var release := Min(amount, b.reserved);
      state.balances := state.balances[asset := AssetBalance(b.available + release, b.reserved - release)];
    }

    // `apply_fill`
    method ApplyFill(fill: Fill) returns (result: AccountingResult)
      modifies state, accounting
      ensures View() == Ledger.ApplyFill(old(View()), fill)
      ensures result == Post(old(View()), fill).1
    {
      result := accounting.ApplyFill(state, fill);
      if result.applied {
        UpdateUnrealized();
        UpdateDrawdown();
      }
    }

    // `set_mark_price`
    method SetMarkPrice(symbol: string, price: real)
      modifies state
      ensures View() == SetMark(old(View()), symbol, price)
    {
      state.marks := state.marks[symbol := price];
      UpdateUnrealized();
      UpdateDrawdown();
    }

    // `get_snapshot`: brings the statistics up to date, then lists the balances and the open positions.
    method GetSnapshot() returns (snapshot: PortfolioSnapshot)
      modifies state
      ensures View() == ObserveEquity(MarkToMarket(old(View())))
      ensures snapshot == SnapshotOf(View())
    {
      hide Value, TotalOver, Equity, Observe, MarkToMarket, ObserveEquity, Listed;
      UpdateUnrealized();
      UpdateDrawdown();
      var listed := ListOpen();
      var count, exposure := CountOpen();
      var equity := state.TotalEquity(accounting.processed);
      snapshot := PortfolioSnapshot(state.balances, listed, equity, Some(state.stats.peakEquity), state.stats.realizedPnl,
                                    count, exposure);
    }

    // The open positions with what they have gained.
    method ListOpen() returns (listed: map<string, OpenPosition>)
      ensures listed == Listed(state.positions, state.marks)
    {
      hide Value;
      listed := map[];
      var todo := state.positions.Keys;
      while todo != {}
        invariant todo <= state.positions.Keys
        invariant listed.Keys == OpenSymbols(state.positions) - todo
        invariant forall s :: s in listed ==> listed[s] == Listed(state.positions, state.marks)[s]
        decreases todo
      {
        var symbol :| symbol in todo;
        var position := state.positions[symbol];
        if position.quantity != 0.0 {
          var mark := if symbol in state.marks then state.marks[symbol] else position.averageEntry;
          listed := listed[symbol := OpenPosition(position.quantity, position.averageEntry,
                                                  Value(position.quantity, mark - position.averageEntry))];
        }
        todo := todo - {symbol};
      }
    }

    // The number of open positions and what they cost.
    method CountOpen() returns (count: nat, exposure: real)
      ensures count == |OpenSymbols(state.positions)| && exposure == Exposure(state.positions)
    {
      hide Value, TotalOver;
      ghost var costs, open := Exposures(state.positions), OpenSymbols(state.positions);
      count, exposure := 0, 0.0;
      assert costs.Keys == state.positions.Keys;
      NothingTotals(costs);
      var todo := state.positions.Keys;
      assert open * todo == open;
      while todo != {}
        invariant todo <= state.positions.Keys
        invariant exposure + TotalOver(todo, costs) == Total(costs)
        invariant count + |open * todo| == |open|
        decreases todo
      {
        var symbol :| symbol in todo;
        TotalOverAt(todo, costs, symbol);
        var position := state.positions[symbol];
        if position.quantity != 0.0 {
          assert open * todo == open * (todo - {symbol}) + {symbol};
          count := count + 1;
          exposure := exposure + Abs(Value(position.quantity, position.averageEntry));
        } else {
          assert open * todo == open * (todo - {symbol});
        }
        todo := todo - {symbol};
      }
      assert open * todo == {};
    }

    // `_update_unrealized`
    method UpdateUnrealized()
      modifies state`stats
      ensures View() == MarkToMarket(old(View()))
    {
      var unrealized := 0.0;
      hide Value, TotalOver;
      ghost var gains := UnrealizedGains(state.positions, state.marks);
      assert gains.Keys == state.positions.Keys;
      NothingTotals(gains);
      var todo := state.positions.Keys;
      while todo != {}
        invariant todo <= state.positions.Keys
        invariant unrealized + TotalOver(todo, gains) == Total(gains)
        invariant state.stats == old(state.stats)
        decreases todo
      {
        var symbol :| symbol in todo;
        TotalOverAt(todo, gains, symbol);
        var position := state.positions[symbol];
        if position.quantity != 0.0 {
          var mark := if symbol in state.marks then state.marks[symbol] else position.averageEntry;
          unrealized := unrealized + Value(position.quantity, mark - position.averageEntry);
        }
        todo := todo - {symbol};
      }
      state.stats := state.stats.(unrealizedPnl := unrealized);
    }

    // `_update_drawdown`
    method UpdateDrawdown()
      modifies state`stats
      ensures View() == ObserveEquity(old(View()))
    {
      hide Equity;
      var equity := state.TotalEquity(accounting.processed);
      var stats := state.stats;
      if equity > stats.peakEquity {
        stats := stats.(peakEquity := equity);
      }
      var peak := stats.peakEquity;
      if peak > 0.0 {
        var drawdown := (peak - equity) / peak;
        stats := stats.(currentDrawdown := Max(drawdown, 0.0));
        if stats.currentDrawdown > stats.maximumDrawdown {
          stats := stats.(maximumDrawdown := stats.currentDrawdown);
        }
      } else {
        stats := stats.(currentDrawdown := 0.0);
      }
      state.stats := stats;
    }
  }
}
