// The performance tracker: one log of trades and three running rollups of it, by strategy, by exchange
// pair and by hour of the day (bot/paper/tracker.py, bot/paper/models.py).

module Tracker {
  import opened Prelude
  import opened DepthWalk
  import opened Ledger
  import opened PaperExecution

  datatype Lifecycle = Seen | Allowed | Denied | Ran | Done | Profitable | Unprofitable

  datatype Tracked = Tracked(
    id: string,
    strategy: string,
    buyExchange: string,
    sellExchange: string,
    hour: int,
    grossProfit: real,
    fees: real,
    slippage: real,
    sellVwap: Option<real>,
    status: Lifecycle,
    realized: Option<real>
  )

  datatype Trade = Trade(
    strategy: string, buyExchange: string, sellExchange: string, hour: int, fees: real, slippage: real, realized: real)

  datatype StrategyStats = StrategyStats(
    opportunities: nat, executions: nat, trades: nat, winning: nat, losing: nat,
    netPnl: real, fees: real, slippage: real, grossWins: real, grossLosses: real)

  datatype PairStats = PairStats(
    opportunities: nat, approved: nat, executed: nat, trades: nat, winning: nat,
    netPnl: real, fees: real, slippage: real, failures: nat)

  datatype HourStats = HourStats(opportunities: nat, trades: nat, winning: nat, netPnl: real)

  const NO_STRATEGY := StrategyStats(0, 0, 0, 0, 0, 0.0, 0.0, 0.0, 0.0, 0.0)
  const NO_PAIR := PairStats(0, 0, 0, 0, 0, 0.0, 0.0, 0.0, 0)
  const NO_HOUR := HourStats(0, 0, 0, 0.0)

  // The counters of the lifecycle.
  datatype Counts = Counts(approved: nat, rejected: nat, executed: nat, failures: nat)

  // The running totals over all trades and fills.
  datatype Sums = Sums(gross: real, fees: real, slippage: real, volume: real)

  datatype Board = Board(
    opportunities: seq<Tracked>,
    byId: map<string, nat>,  // where in the list the opportunity last recorded under an id stands
    trades: seq<Trade>,
    tradePnls: seq<real>,
    realizedPnl: real,
    sums: Sums,
    strategies: map<string, StrategyStats>,
    pairs: map<string, PairStats>,
    hourly: map<int, HourStats>,
    counts: Counts
  )

  const QUIET_DAY: map<int, HourStats> := map h: int | 0 <= h < 24 :: NO_HOUR

  const FRESH_BOARD :=
    Board([], map[], [], [], 0.0, Sums(0.0, 0.0, 0.0, 0.0), map[], map[], QUIET_DAY,
          Counts(0, 0, 0, 0))

  function At<K, V>(m: map<K, V>, k: K, default: V): V
  {
    if k in m then m[k] else default
  }

  function PairKey(buy: string, sell: string): string { buy + "->" + sell }

  function One(yes: bool): nat { if yes then 1 else 0 }

  // ----- what the calls do -----

  // `record_detected`
  function Detected(b: Board, t: Tracked): Board
  {
    var pair := PairKey(t.buyExchange, t.sellExchange);
    var s, p, h := At(b.strategies, t.strategy, NO_STRATEGY), At(b.pairs, pair, NO_PAIR), At(b.hourly, t.hour, NO_HOUR);
    b.(opportunities := b.opportunities + [t],
       byId := b.byId[t.id := |b.opportunities|],
       strategies := b.strategies[t.strategy := s.(opportunities := s.opportunities + 1)],
       pairs := b.pairs[pair := p.(opportunities := p.opportunities + 1)],
       hourly := b.hourly[t.hour := h.(opportunities := h.opportunities + 1)])
  }

  predicate Indexed(b: Board)
  {
    forall id :: id in b.byId ==> b.byId[id] < |b.opportunities|
  }

  // `record_risk`
  function Judged(b: Board, id: string, approved: bool): Board
    requires Indexed(b)
  {
    if id !in b.byId then b
    else
      var t := b.opportunities[b.byId[id]];
      var marked := b.(opportunities := b.opportunities[b.byId[id] := t.(status := if approved then Allowed else Denied)]);
      if approved then
        var pair := PairKey(t.buyExchange, t.sellExchange);
        var p := At(b.pairs, pair, NO_PAIR);
        marked.(counts := b.counts.(approved := b.counts.approved + 1), pairs := b.pairs[pair := p.(approved := p.approved + 1)])
      else marked.(counts := b.counts.(rejected := b.counts.rejected + 1))
  }

  datatype Execution = Execution(status: OrderStatus, filledQuantity: real, fills: seq<Fill>, equityChange: Option<real>)
  {
    predicate Failed() { status in {OrderStatus.Rejected, OrderStatus.Failed, Cancelled} }
  }

  function SumOf(fills: seq<Fill>, amount: Fill -> real): real
  {
    if fills == [] then 0.0 else amount(fills[0]) + SumOf(fills[1..], amount)
  }

  // `_estimate_realized`
  function EstimateRealized(t: Tracked, e: Execution): Option<real>
  {
    var quantity := SumOf(e.fills, (f: Fill) => f.quantity);
    if t.sellVwap.None? || e.fills == [] || quantity <= 0.0 then None
    else
      Some(Value(quantity, t.sellVwap.value) - SumOf(e.fills, (f: Fill) => f.Gross())
           - SumOf(e.fills, (f: Fill) => f.fee) - SumOf(e.fills, (f: Fill) => f.slippage))
  }

  function TradedStrategy(s: StrategyStats, t: Tracked, realized: real): StrategyStats
  {
    s.(trades := s.trades + 1,
       netPnl := s.netPnl + realized,
       fees := s.fees + t.fees,
       slippage := s.slippage + t.slippage,
       winning := s.winning + One(realized > 0.0),
       losing := s.losing + One(realized < 0.0),
       grossWins := s.grossWins + Max(realized, 0.0),
       grossLosses := s.grossLosses + Max(-realized, 0.0))
  }

  function TradedPair(p: PairStats, t: Tracked, realized: real): PairStats
  {
    p.(trades := p.trades + 1,
       netPnl := p.netPnl + realized,
       fees := p.fees + t.fees,
       slippage := p.slippage + t.slippage,
       winning := p.winning + One(realized > 0.0))
  }

  function TradedHour(h: HourStats, realized: real): HourStats
  {
    h.(trades := h.trades + 1, netPnl := h.netPnl + realized, winning := h.winning + One(realized > 0.0))
  }

  function TradeOf(t: Tracked, realized: real): Trade
  {
    Trade(t.strategy, t.buyExchange, t.sellExchange, t.hour, t.fees, t.slippage, realized)
  }

  // `_register_trade`: the log and its rollups move together.
  function Registered(b: Board, t: Tracked, realized: real): Board
  {
    var pair := PairKey(t.buyExchange, t.sellExchange);
    b.(trades := b.trades + [TradeOf(t, realized)],
       tradePnls := b.tradePnls + [realized],
       realizedPnl := b.realizedPnl + realized,
       sums := b.sums.(gross := b.sums.gross + t.grossProfit),
       strategies := b.strategies[t.strategy := TradedStrategy(At(b.strategies, t.strategy, NO_STRATEGY), t, realized)],
       pairs := b.pairs[pair := TradedPair(At(b.pairs, pair, NO_PAIR), t, realized)],
       hourly := b.hourly[t.hour := TradedHour(At(b.hourly, t.hour, NO_HOUR), realized)])
  }

  // The executions are counted whatever comes of them.
  function Counted(b: Board, t: Tracked, failed: bool): Board
  {
    var pair := PairKey(t.buyExchange, t.sellExchange);
    var s, p := At(b.strategies, t.strategy, NO_STRATEGY), At(b.pairs, pair, NO_PAIR);
    b.(counts := b.counts.(executed := b.counts.executed + 1, failures := b.counts.failures + One(failed)),
       strategies := b.strategies[t.strategy := s.(executions := s.executions + 1)],
       pairs := b.pairs[pair := p.(executed := p.executed + 1, failures := p.failures + One(failed))])
  }

  lemma CountedKeeps(b: Board, t: Tracked, failed: bool)
    ensures Counted(b, t, failed).opportunities == b.opportunities && Counted(b, t, failed).byId == b.byId
    ensures Counted(b, t, failed).sums == b.sums
  {
  }

  lemma RegisteredKeeps(b: Board, t: Tracked, realized: real)
    ensures Registered(b, t, realized).byId == b.byId
  {
    hide PairKey, At;
  }

  // The opportunity after an execution, and what it realized, if that is known.
  function Concluded(t: Tracked, e: Execution): (Tracked, Option<real>)
  {
    if e.Failed() || e.filledQuantity <= 0.0 then (t.(status := Ran), None)
    else
      var fees, slippage := SumOf(e.fills, (f: Fill) => f.fee), SumOf(e.fills, (f: Fill) => f.slippage);
      var paid := t.(fees := if fees > 0.0 then fees else t.fees,
                     slippage := if slippage > 0.0 then slippage else t.slippage);
      var estimate := EstimateRealized(paid, e);
      var realized := if estimate.None? then e.equityChange else estimate;
      if realized.None? then (paid.(status := Done), None)
      else (paid.(status := if realized.value > 0.0 then Profitable else Unprofitable, realized := realized), realized)
  }

  function Charged(s: Sums, fills: seq<Fill>): Sums
  {
    s.(fees := s.fees + SumOf(fills, (f: Fill) => f.fee),
       slippage := s.slippage + SumOf(fills, (f: Fill) => f.slippage),
       volume := s.volume + SumOf(fills, (f: Fill) => f.Gross()))
  }

  // `record_execution`
  function Recorded(b: Board, id: string, e: Execution): Board
    requires Indexed(b)
  {
    if id !in b.byId then b
    else
      var t := b.opportunities[b.byId[id]];
      var (after, realized) := Concluded(t, e);
      var counted := Counted(b, t, e.Failed()).(opportunities := b.opportunities[b.byId[id] := after]);
      if e.Failed() || e.filledQuantity <= 0.0 then counted
      else
        var paid := counted.(sums := Charged(b.sums, e.fills));
        if realized.None? then paid else Registered(paid, after, realized.value)
  }

  // ----- the log is the truth -----

  datatype Tally = Tally(
    trades: nat, winning: nat, losing: nat, netPnl: real, fees: real, slippage: real, grossWins: real, grossLosses: real)

  const NO_TALLY := Tally(0, 0, 0, 0.0, 0.0, 0.0, 0.0, 0.0)

  function Plus(a: Tally, t: Trade): Tally
  {
    Tally(a.trades + 1, a.winning + One(t.realized > 0.0), a.losing + One(t.realized < 0.0), a.netPnl + t.realized,
          a.fees + t.fees, a.slippage + t.slippage, a.grossWins + Max(t.realized, 0.0), a.grossLosses + Max(-t.realized, 0.0))
  }

  // The trades with one key, added up.
  function Fold<K(==)>(log: seq<Trade>, keyOf: Trade -> K, key: K): Tally
  {
    if log == [] then NO_TALLY
    else
      var last := log[|log| - 1];
      var before := Fold(log[..|log| - 1], keyOf, key);
      if keyOf(last) == key then Plus(before, last) else before
  }

  function ByStrategy(t: Trade): string { t.strategy }

  function ByPair(t: Trade): string { PairKey(t.buyExchange, t.sellExchange) }

  function ByHour(t: Trade): int { t.hour }

  function RealizedOf(log: seq<Trade>): seq<real>
  {
    seq(|log|, i requires 0 <= i < |log| => log[i].realized)
  }

  predicate StrategyAgrees(s: StrategyStats, t: Tally)
  {
    && s.trades == t.trades && s.winning == t.winning && s.losing == t.losing && s.netPnl == t.netPnl
    && s.fees == t.fees && s.slippage == t.slippage && s.grossWins == t.grossWins && s.grossLosses == t.grossLosses
  }

  predicate PairAgrees(p: PairStats, t: Tally)
  {
    && p.trades == t.trades && p.winning == t.winning && p.netPnl == t.netPnl
    && p.fees == t.fees && p.slippage == t.slippage
  }

  predicate HourAgrees(h: HourStats, t: Tally)
  {
    h.trades == t.trades && h.winning == t.winning && h.netPnl == t.netPnl
  }

  ghost predicate StrategiesRolledUp(m: map<string, StrategyStats>, log: seq<Trade>)
  {
    forall s :: StrategyAgrees(At(m, s, NO_STRATEGY), Fold(log, ByStrategy, s))
  }

  ghost predicate PairsRolledUp(m: map<string, PairStats>, log: seq<Trade>)
  {
    forall p :: PairAgrees(At(m, p, NO_PAIR), Fold(log, ByPair, p))
  }

  ghost predicate HoursRolledUp(m: map<int, HourStats>, log: seq<Trade>)
  {
    forall h :: HourAgrees(At(m, h, NO_HOUR), Fold(log, ByHour, h))
  }

  // Every bucket of every dimension is the fold of the trades with its key, and the list of results is the log's.
  ghost predicate RolledUp(b: Board)
  {
    && StrategiesRolledUp(b.strategies, b.trades)
    && PairsRolledUp(b.pairs, b.trades)
    && HoursRolledUp(b.hourly, b.trades)
    && b.tradePnls == RealizedOf(b.trades)
    && b.realizedPnl == Sum(b.tradePnls)
  }

  function StrategySeen(m: map<string, StrategyStats>): map<string, real> { map s | s in m :: m[s].opportunities as real }

  function StrategyRun(m: map<string, StrategyStats>): map<string, real> { map s | s in m :: m[s].executions as real }

  function PairSeen(m: map<string, PairStats>): map<string, real> { map p | p in m :: m[p].opportunities as real }

  function PairAllowed(m: map<string, PairStats>): map<string, real> { map p | p in m :: m[p].approved as real }

  function PairRun(m: map<string, PairStats>): map<string, real> { map p | p in m :: m[p].executed as real }

  function PairFailed(m: map<string, PairStats>): map<string, real> { map p | p in m :: m[p].failures as real }

  // The counters that have no log agree across the dimensions.
  ghost predicate CountersAgree(b: Board)
  {
    && |b.opportunities| as real == Total(StrategySeen(b.strategies)) == Total(PairSeen(b.pairs))
    && b.counts.executed as real == Total(StrategyRun(b.strategies)) == Total(PairRun(b.pairs))
    && b.counts.approved as real == Total(PairAllowed(b.pairs))
    && b.counts.failures as real == Total(PairFailed(b.pairs))
  }

  // ----- the object -----

  class PerformanceTracker {
    var opportunities: seq<Tracked>
    var byId: map<string, nat>
    var trades: seq<Trade>
    var tradePnls: seq<real>
    var realizedPnl: real
    var sums: Sums
    var strategies: map<string, StrategyStats>
    var pairs: map<string, PairStats>
    var hourly: map<int, HourStats>
    var counts: Counts

    ghost function View(): Board
      reads this
    {
      Board(opportunities, byId, trades, tradePnls, realizedPnl, sums, strategies, pairs, hourly, counts)
    }

    constructor ()
      ensures View() == FRESH_BOARD
    {
      opportunities, byId, trades, tradePnls := [], map[], [], [];
      realizedPnl, sums := 0.0, Sums(0.0, 0.0, 0.0, 0.0);
      strategies, pairs, hourly := map[], map[], QUIET_DAY;
      counts := Counts(0, 0, 0, 0);
    }

    method RecordDetected(t: Tracked)
      modifies this
      ensures View() == Detected(old(View()), t)
    {
      hide At, PairKey;
      byId := byId[t.id := |opportunities|];
      opportunities := opportunities + [t];
      var s := At(strategies, t.strategy, NO_STRATEGY);
      strategies := strategies[t.strategy := s.(opportunities := s.opportunities + 1)];
      var key := PairKey(t.buyExchange, t.sellExchange);
      var p := At(pairs, key, NO_PAIR);
      pairs := pairs[key := p.(opportunities := p.opportunities + 1)];
      var h := At(hourly, t.hour, NO_HOUR);
      hourly := hourly[t.hour := h.(opportunities := h.opportunities + 1)];
    }

    method RecordRisk(id: string, allowed: bool) returns (known: bool)
      requires Indexed(View())
      modifies this
      ensures View() == Judged(old(View()), id, allowed) && known == (id in byId)
    {
      hide At, PairKey;
      if id !in byId {
        return false;
      }
      var i := byId[id];
      var t := opportunities[i];
      if allowed {
        opportunities := opportunities[i := t.(status := Allowed)];
        counts := counts.(approved := counts.approved + 1);
        var key := PairKey(t.buyExchange, t.sellExchange);
        var p := At(pairs, key, NO_PAIR);
        pairs := pairs[key := p.(approved := p.approved + 1)];
      } else {
        opportunities := opportunities[i := t.(status := Denied)];
        counts := counts.(rejected := counts.rejected + 1);
      }
      known := true;
    }

    // The three rollups of a trade.
    method TradeInStrategy(t: Tracked, realized: real)
      modifies this`strategies
      ensures strategies
              == old(strategies)[t.strategy := TradedStrategy(At(old(strategies), t.strategy, NO_STRATEGY), t, realized)]
    {
      hide At;
      var s := At(strategies, t.strategy, NO_STRATEGY);
      s := s.(trades := s.trades + 1, netPnl := s.netPnl + realized, fees := s.fees + t.fees,
              slippage := s.slippage + t.slippage);
      if realized > 0.0 {
        s := s.(winning := s.winning + 1, grossWins := s.grossWins + realized);
      } else if realized < 0.0 {
        s := s.(losing := s.losing + 1, grossLosses := s.grossLosses + Abs(realized));
      }
      strategies := strategies[t.strategy := s];
    }

    method TradeInPair(t: Tracked, realized: real)
      modifies this`pairs
      ensures var key := PairKey(t.buyExchange, t.sellExchange);
              pairs == old(pairs)[key := TradedPair(At(old(pairs), key, NO_PAIR), t, realized)]
    {
      hide At, PairKey;
      var key := PairKey(t.buyExchange, t.sellExchange);
      var p := At(pairs, key, NO_PAIR);
      p := p.(trades := p.trades + 1, netPnl := p.netPnl + realized, fees := p.fees + t.fees,
              slippage := p.slippage + t.slippage);
      if realized > 0.0 {
        p := p.(winning := p.winning + 1);
      }
      pairs := pairs[key := p];
    }

    method TradeInHour(t: Tracked, realized: real)
      modifies this`hourly
      ensures hourly == old(hourly)[t.hour := TradedHour(At(old(hourly), t.hour, NO_HOUR), realized)]
    {
      hide At;
      var h := At(hourly, t.hour, NO_HOUR);
      h := h.(trades := h.trades + 1, netPnl := h.netPnl + realized);
      if realized > 0.0 {
        h := h.(winning := h.winning + 1);
      }
      hourly := hourly[t.hour := h];
    }

    method RegisterTrade(t: Tracked, realized: real)
      modifies this
      ensures View() == Registered(old(View()), t, realized)
    {
      hide At, PairKey, TradedStrategy, TradedPair, TradedHour;
      tradePnls := tradePnls + [realized];
      realizedPnl := realizedPnl + realized;
      sums := sums.(gross := sums.gross + t.grossProfit);
      TradeInStrategy(t, realized);
      TradeInPair(t, realized);
      TradeInHour(t, realized);
      trades := trades + [TradeOf(t, realized)];
    }

    // The executions are counted before anything is known about their outcome.
    method CountExecution(t: Tracked, failed: bool)
      modifies this`counts, this`strategies, this`pairs
      ensures View() == Counted(old(View()), t, failed)
    {
      hide At, PairKey;
      counts := counts.(executed := counts.executed + 1);
      var s := At(strategies, t.strategy, NO_STRATEGY);
      strategies := strategies[t.strategy := s.(executions := s.executions + 1)];
      var key := PairKey(t.buyExchange, t.sellExchange);
      var p := At(pairs, key, NO_PAIR);
      p := p.(executed := p.executed + 1);
      if failed {
        counts := counts.(failures := counts.failures + 1);
        p := p.(failures := p.failures + 1);
      }
      pairs := pairs[key := p];
    }

    // The opportunity after a fill, and what it realized, if that is known.
    static method Conclude(tracked: Tracked, e: Execution) returns (t: Tracked, realized: Option<real>)
      ensures (t, realized) == Concluded(tracked, e)
    {
      hide SumOf, EstimateRealized;
      if e.Failed() || e.filledQuantity <= 0.0 {
        return tracked.(status := Ran), None;
      }
      t := tracked;
      var fees, slippage := SumOf(e.fills, (f: Fill) => f.fee), SumOf(e.fills, (f: Fill) => f.slippage);
      if fees > 0.0 {
        t := t.(fees := fees);
      }
      if slippage > 0.0 {
        t := t.(slippage := slippage);
      }
      realized := EstimateRealized(t, e);
      if e.equityChange.Some? && realized.None? {
        realized := e.equityChange;
      }
      t := t.(status := Done);
      if realized.Some? {
        t := t.(realized := realized, status := if realized.value > 0.0 then Profitable else Unprofitable);
      }
    }

    // What the fills cost and how much they moved.
    method Charge(fills: seq<Fill>)
      modifies this`sums
      ensures sums == Charged(old(sums), fills)
    {
      hide SumOf;
      var paid, slipped := SumOf(fills, (f: Fill) => f.fee), SumOf(fills, (f: Fill) => f.slippage);
      sums := sums.(fees := sums.fees + paid, slippage := sums.slippage + slipped,
                    volume := sums.volume + SumOf(fills, (f: Fill) => f.Gross()));
    }

    method RecordExecution(id: string, e: Execution) returns (known: bool)
      requires Indexed(View())
      modifies this
      ensures View() == Recorded(old(View()), id, e) && known == (id in byId)
    {
      hide Concluded, Counted, Charged, Registered;
      if id !in byId {
        return false;
      }
      known := true;
      var i := byId[id];
      var t := opportunities[i];
      CountedKeeps(View(), t, e.Failed());
      CountExecution(t, e.Failed());
      var after, realized := Conclude(t, e);
      opportunities := opportunities[i := after];
      if e.Failed() || e.filledQuantity <= 0.0 {
        return;
      }
      Charge(e.fills);
      if realized.Some? {
        RegisteredKeeps(View(), after, realized.value);
        RegisterTrade(after, realized.value);
      }
    }
  }
}
