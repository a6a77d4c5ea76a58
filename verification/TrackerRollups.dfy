// Whatever is recorded, in whatever order: the rollups are the log, and all dimensions add up to the
// same totals (bot/paper/tracker.py).

module TrackerRollups {
  import opened Prelude
  import opened Tracker

  datatype Call =
    | Detect(opportunity: Tracked)
    | Judge(id: string, approved: bool)
    | Record(id: string, execution: Execution)

  function Apply(b: Board, call: Call): Board
    requires Indexed(b)
  {
    match call
    case Detect(t) => Detected(b, t)
    case Judge(id, approved) => Judged(b, id, approved)
    case Record(id, e) => Recorded(b, id, e)
  }

  lemma ApplyKeepsIndex(b: Board, call: Call)
    requires Indexed(b)
    ensures Indexed(Apply(b, call))
  {
    hide SumOf, PairKey, At, EstimateRealized;
  }

  function BoardAfter(b: Board, calls: seq<Call>): Board
    requires Indexed(b)
    decreases |calls|
  {
    if calls == [] then b
    else
      ApplyKeepsIndex(b, calls[0]);
      BoardAfter(Apply(b, calls[0]), calls[1..])
  }

  // ----- the rollups -----

  lemma FoldOne<K>(log: seq<Trade>, t: Trade, keyOf: Trade -> K, key: K)
    ensures Fold(log + [t], keyOf, key)
            == if keyOf(t) == key then Plus(Fold(log, keyOf, key), t) else Fold(log, keyOf, key)
  {
    hide Plus;
    assert (log + [t])[..|log|] == log && (log + [t])[|log|] == t;
  }

  lemma StrategyTradeRollsUp(m: map<string, StrategyStats>, log: seq<Trade>, t: Tracked, realized: real)
    requires StrategiesRolledUp(m, log)
    ensures StrategiesRolledUp(m[t.strategy := TradedStrategy(At(m, t.strategy, NO_STRATEGY), t, realized)],
                               log + [TradeOf(t, realized)])
  {
    hide Fold;
    forall s { FoldOne(log, TradeOf(t, realized), ByStrategy, s); }
  }

  lemma PairTradeRollsUp(m: map<string, PairStats>, log: seq<Trade>, t: Tracked, realized: real)
    requires PairsRolledUp(m, log)
    ensures var pair := PairKey(t.buyExchange, t.sellExchange);
            PairsRolledUp(m[pair := TradedPair(At(m, pair, NO_PAIR), t, realized)], log + [TradeOf(t, realized)])
  {
    hide Fold, PairKey;
    forall p { FoldOne(log, TradeOf(t, realized), ByPair, p); }
  }

  lemma HourTradeRollsUp(m: map<int, HourStats>, log: seq<Trade>, t: Tracked, realized: real)
    requires HoursRolledUp(m, log)
    ensures HoursRolledUp(m[t.hour := TradedHour(At(m, t.hour, NO_HOUR), realized)], log + [TradeOf(t, realized)])
  {
    hide Fold;
    forall h { FoldOne(log, TradeOf(t, realized), ByHour, h); }
  }

  lemma RegisteredRollsUp(b: Board, t: Tracked, realized: real)
    requires RolledUp(b)
    ensures RolledUp(Registered(b, t, realized))
  {
    hide PairKey, StrategiesRolledUp, PairsRolledUp, HoursRolledUp, TradedStrategy, TradedPair, TradedHour, At, Sum;
    StrategyTradeRollsUp(b.strategies, b.trades, t, realized);
    PairTradeRollsUp(b.pairs, b.trades, t, realized);
    HourTradeRollsUp(b.hourly, b.trades, t, realized);
    SumConcat(b.tradePnls, [realized]);
    SumOne(realized);
  }

  lemma SumOne(x: real)
    ensures Sum([x]) == x
  {
  }

  // Counting an opportunity, an approval or an execution changes no figure that comes from the log.
  lemma CountingKeepsStrategies(m: map<string, StrategyStats>, log: seq<Trade>, key: string, v: StrategyStats)
    requires StrategiesRolledUp(m, log)
    requires v == At(m, key, NO_STRATEGY).(opportunities := v.opportunities, executions := v.executions)
    ensures StrategiesRolledUp(m[key := v], log)
  {
    hide Fold;
  }

  lemma CountingKeepsPairs(m: map<string, PairStats>, log: seq<Trade>, key: string, v: PairStats)
    requires PairsRolledUp(m, log)
    requires v == At(m, key, NO_PAIR).(opportunities := v.opportunities, approved := v.approved, executed := v.executed,
                                       failures := v.failures)
    ensures PairsRolledUp(m[key := v], log)
  {
    hide Fold;
  }

  lemma CountingKeepsHours(m: map<int, HourStats>, log: seq<Trade>, key: int, v: HourStats)
    requires HoursRolledUp(m, log)
    requires v == At(m, key, NO_HOUR).(opportunities := v.opportunities)
    ensures HoursRolledUp(m[key := v], log)
  {
    hide Fold;
  }

  lemma ApplyRollsUp(b: Board, call: Call)
    requires Indexed(b) && RolledUp(b)
    ensures RolledUp(Apply(b, call))
  {
    hide SumOf, PairKey, EstimateRealized, Registered, Concluded, StrategiesRolledUp, PairsRolledUp, HoursRolledUp, At, Sum;
    match call
    case Detect(t) =>
      var after, pair := Detected(b, t), PairKey(t.buyExchange, t.sellExchange);
      CountingKeepsStrategies(b.strategies, b.trades, t.strategy, after.strategies[t.strategy]);
      CountingKeepsPairs(b.pairs, b.trades, pair, after.pairs[pair]);
      CountingKeepsHours(b.hourly, b.trades, t.hour, after.hourly[t.hour]);
    case Judge(id, approved) =>
      if id in b.byId && approved {
        var t := b.opportunities[b.byId[id]];
        var pair := PairKey(t.buyExchange, t.sellExchange);
        CountingKeepsPairs(b.pairs, b.trades, pair, Judged(b, id, approved).pairs[pair]);
      }
    case Record(id, e) =>
      if id in b.byId {
        var t := b.opportunities[b.byId[id]];
        CountedRollsUp(b, t, e.Failed());
        var (after, realized) := Concluded(t, e);
        var counted := Counted(b, t, e.Failed()).(opportunities := b.opportunities[b.byId[id] := after]);
        if realized.Some? { RegisteredRollsUp(counted.(sums := Charged(b.sums, e.fills)), after, realized.value); }
      }
  }

  lemma CountedRollsUp(b: Board, t: Tracked, failed: bool)
    requires RolledUp(b)
    ensures RolledUp(Counted(b, t, failed))
  {
    hide PairKey, StrategiesRolledUp, PairsRolledUp, HoursRolledUp, At, Sum;
    var after, pair := Counted(b, t, failed), PairKey(t.buyExchange, t.sellExchange);
    CountingKeepsStrategies(b.strategies, b.trades, t.strategy, after.strategies[t.strategy]);
    CountingKeepsPairs(b.pairs, b.trades, pair, after.pairs[pair]);
  }

  // ----- the counters -----

  lemma StrategyCountsMove(m: map<string, StrategyStats>, key: string, v: StrategyStats)
    ensures Total(StrategySeen(m[key := v]))
            == Total(StrategySeen(m)) - At(m, key, NO_STRATEGY).opportunities as real + v.opportunities as real
    ensures Total(StrategyRun(m[key := v]))
            == Total(StrategyRun(m)) - At(m, key, NO_STRATEGY).executions as real + v.executions as real
  {
    hide TotalOver;
    assert StrategySeen(m[key := v]) == StrategySeen(m)[key := v.opportunities as real];
    TotalUpdate(StrategySeen(m), key, v.opportunities as real);
    assert StrategyRun(m[key := v]) == StrategyRun(m)[key := v.executions as real];
    TotalUpdate(StrategyRun(m), key, v.executions as real);
  }

  lemma PairCountsMove(m: map<string, PairStats>, key: string, v: PairStats)
    ensures Total(PairSeen(m[key := v])) == Total(PairSeen(m)) - At(m, key, NO_PAIR).opportunities as real + v.opportunities as real
    ensures Total(PairAllowed(m[key := v])) == Total(PairAllowed(m)) - At(m, key, NO_PAIR).approved as real + v.approved as real
    ensures Total(PairRun(m[key := v])) == Total(PairRun(m)) - At(m, key, NO_PAIR).executed as real + v.executed as real
    ensures Total(PairFailed(m[key := v])) == Total(PairFailed(m)) - At(m, key, NO_PAIR).failures as real + v.failures as real
  {
    hide TotalOver;
    assert PairSeen(m[key := v]) == PairSeen(m)[key := v.opportunities as real];
    TotalUpdate(PairSeen(m), key, v.opportunities as real);
    assert PairAllowed(m[key := v]) == PairAllowed(m)[key := v.approved as real];
    TotalUpdate(PairAllowed(m), key, v.approved as real);
    assert PairRun(m[key := v]) == PairRun(m)[key := v.executed as real];
    TotalUpdate(PairRun(m), key, v.executed as real);
    assert PairFailed(m[key := v]) == PairFailed(m)[key := v.failures as real];
    TotalUpdate(PairFailed(m), key, v.failures as real);
  }

  lemma RegisteredKeepsCounters(b: Board, t: Tracked, realized: real)
    requires CountersAgree(b)
    ensures CountersAgree(Registered(b, t, realized))
  {
    hide Total, StrategySeen, StrategyRun, PairSeen, PairAllowed, PairRun, PairFailed, PairKey, At;
    var after, pair := Registered(b, t, realized), PairKey(t.buyExchange, t.sellExchange);
    StrategyCountsMove(b.strategies, t.strategy, after.strategies[t.strategy]);
    PairCountsMove(b.pairs, pair, after.pairs[pair]);
  }

  lemma CountedKeepsCounters(b: Board, t: Tracked, failed: bool)
    requires CountersAgree(b)
    ensures CountersAgree(Counted(b, t, failed))
  {
    hide Total, StrategySeen, StrategyRun, PairSeen, PairAllowed, PairRun, PairFailed, PairKey, At;
    var after, pair := Counted(b, t, failed), PairKey(t.buyExchange, t.sellExchange);
    StrategyCountsMove(b.strategies, t.strategy, after.strategies[t.strategy]);
    PairCountsMove(b.pairs, pair, after.pairs[pair]);
  }

  lemma ApplyKeepsCounters(b: Board, call: Call)
    requires Indexed(b) && CountersAgree(b)
    ensures CountersAgree(Apply(b, call))
  {
    hide SumOf, PairKey, EstimateRealized, Registered, Concluded, At, Counted,
         Total, StrategySeen, StrategyRun, PairSeen, PairAllowed, PairRun, PairFailed;
    match call
    case Detect(t) =>
      var after, pair := Detected(b, t), PairKey(t.buyExchange, t.sellExchange);
      StrategyCountsMove(b.strategies, t.strategy, after.strategies[t.strategy]);
      PairCountsMove(b.pairs, pair, after.pairs[pair]);
    case Judge(id, approved) =>
      if id in b.byId && approved {
        var t := b.opportunities[b.byId[id]];
        var pair := PairKey(t.buyExchange, t.sellExchange);
        PairCountsMove(b.pairs, pair, Judged(b, id, approved).pairs[pair]);
      }
    case Record(id, e) =>
      if id in b.byId {
        var t := b.opportunities[b.byId[id]];
        CountedKeepsCounters(b, t, e.Failed());
        CountedKeepsList(b, t, e.Failed());
        var (after, realized) := Concluded(t, e);
        var counted := Counted(b, t, e.Failed()).(opportunities := b.opportunities[b.byId[id] := after]);
        if realized.Some? { RegisteredKeepsCounters(counted.(sums := Charged(b.sums, e.fills)), after, realized.value); }
      }
  }

  lemma CountedKeepsList(b: Board, t: Tracked, failed: bool)
    ensures Counted(b, t, failed).opportunities == b.opportunities
  {
  }

  // ----- all dimensions add up to the same -----

  lemma FoldFinds<K>(log: seq<Trade>, keyOf: Trade -> K, i: nat)
    requires i < |log|
    ensures Fold(log, keyOf, keyOf(log[i])).trades > 0
  {
    if i < |log| - 1 { FoldFinds(log[..|log| - 1], keyOf, i); }
  }

  // Splitting the log by any key splits its result: the buckets add up to the whole.
  lemma {:induction false} BucketsAddUp<K(!new)>(log: seq<Trade>, keyOf: Trade -> K, buckets: map<K, real>)
    requires forall i :: 0 <= i < |log| ==> keyOf(log[i]) in buckets
    requires forall k :: k in buckets ==> buckets[k] == Fold(log, keyOf, k).netPnl
    ensures Total(buckets) == Sum(RealizedOf(log))
  {
    hide TotalOver;
    if log == [] {
      TotalZero(buckets.Keys, buckets);
    } else {
      var rest, last := log[..|log| - 1], log[|log| - 1];
      var before := map k | k in buckets :: Fold(rest, keyOf, k).netPnl;
      BucketsAddUp(rest, keyOf, before);
      var key := keyOf(last);
      assert buckets == before[key := before[key] + last.realized];
      TotalUpdate(before, key, before[key] + last.realized);
      assert RealizedOf(log) == RealizedOf(rest) + [last.realized];
      SumConcat(RealizedOf(rest), [last.realized]);
      SumOne(last.realized);
    }
  }

  function StrategyNets(m: map<string, StrategyStats>): map<string, real> { map s | s in m :: m[s].netPnl }

  function PairNets(m: map<string, PairStats>): map<string, real> { map p | p in m :: m[p].netPnl }

  function HourNets(m: map<int, HourStats>): map<int, real> { map h | h in m :: m[h].netPnl }

  lemma StrategiesAddUp(m: map<string, StrategyStats>, log: seq<Trade>)
    requires StrategiesRolledUp(m, log)
    ensures Total(StrategyNets(m)) == Sum(RealizedOf(log))
  {
    hide Fold, Total, Sum, RealizedOf;
    forall i | 0 <= i < |log| ensures ByStrategy(log[i]) in m { FoldFinds(log, ByStrategy, i); }
    forall s | s in m ensures m[s].netPnl == Fold(log, ByStrategy, s).netPnl {
      assert StrategyAgrees(At(m, s, NO_STRATEGY), Fold(log, ByStrategy, s));
    }
    BucketsAddUp(log, ByStrategy, StrategyNets(m));
  }

  lemma PairsAddUp(m: map<string, PairStats>, log: seq<Trade>)
    requires PairsRolledUp(m, log)
    ensures Total(PairNets(m)) == Sum(RealizedOf(log))
  {
    hide Fold, Total, Sum, RealizedOf, PairKey;
    forall i | 0 <= i < |log| ensures ByPair(log[i]) in m { FoldFinds(log, ByPair, i); }
    forall p | p in m ensures m[p].netPnl == Fold(log, ByPair, p).netPnl {
      assert PairAgrees(At(m, p, NO_PAIR), Fold(log, ByPair, p));
    }
    BucketsAddUp(log, ByPair, PairNets(m));
  }

  lemma HoursAddUp(m: map<int, HourStats>, log: seq<Trade>)
    requires HoursRolledUp(m, log)
    ensures Total(HourNets(m)) == Sum(RealizedOf(log))
  {
    hide Fold, Total, Sum, RealizedOf;
    forall i | 0 <= i < |log| ensures ByHour(log[i]) in m { FoldFinds(log, ByHour, i); }
    forall h | h in m ensures m[h].netPnl == Fold(log, ByHour, h).netPnl {
      assert HourAgrees(At(m, h, NO_HOUR), Fold(log, ByHour, h));
    }
    BucketsAddUp(log, ByHour, HourNets(m));
  }

  // ----- runs -----

  lemma {:induction false} CallsKeep(b: Board, calls: seq<Call>)
    requires Indexed(b) && RolledUp(b) && CountersAgree(b)
    ensures RolledUp(BoardAfter(b, calls)) && CountersAgree(BoardAfter(b, calls))
    decreases |calls|
  {
    hide RolledUp, CountersAgree, Apply;
    if calls != [] {
      ApplyKeepsIndex(b, calls[0]);
      ApplyRollsUp(b, calls[0]);
      ApplyKeepsCounters(b, calls[0]);
      CallsKeep(Apply(b, calls[0]), calls[1..]);
    }
  }

  lemma FreshBoardAgrees()
    ensures RolledUp(FRESH_BOARD) && CountersAgree(FRESH_BOARD)
  {
    TotalZero({}, StrategySeen(map[]));
    TotalZero({}, PairSeen(map[]));
    assert StrategySeen(map[]) == StrategyRun(map[]) == map[];
    assert PairSeen(map[]) == PairAllowed(map[]) == PairRun(map[]) == PairFailed(map[]) == map[];
  }

  // After any calls, each bucket of each dimension is the fold of the trade log with its key, the three
  // dimensions and the list of results sum to the same realized PnL, and the counters agree.
  lemma RollupTheorem(calls: seq<Call>)
    ensures var b := BoardAfter(FRESH_BOARD, calls);
            && RolledUp(b) && CountersAgree(b)
            && Total(StrategyNets(b.strategies)) == Total(PairNets(b.pairs)) == Total(HourNets(b.hourly))
               == Sum(RealizedOf(b.trades)) == b.realizedPnl
  {
    hide Fold, Total, Sum, StrategiesRolledUp, PairsRolledUp, HoursRolledUp, CountersAgree, BoardAfter;
    FreshBoardAgrees();
    CallsKeep(FRESH_BOARD, calls);
    var b := BoardAfter(FRESH_BOARD, calls);
    StrategiesAddUp(b.strategies, b.trades);
    PairsAddUp(b.pairs, b.trades);
    HoursAddUp(b.hourly, b.trades);
  }
}
