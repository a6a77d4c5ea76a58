// What each call of the performance tracker records, told from the call: the result of an execution fill by
// fill, and where it goes (bot/paper/tracker.py, `record_detected`, `record_risk`, `record_execution`).

module TrackerMeaning {
  import opened Prelude
  import opened DepthWalk
  import opened Ledger
  import opened PaperExecution
  import opened FillSums
  import opened Tracker
  import opened TrackerRollups

  // ----- the result of an execution -----

  // What the fills leave when all of it is sold at a price: for each the difference to the price it was bought
  // at, less its own fee and slippage.
  function Result(fills: seq<Fill>, sellPrice: real): real
  {
    if fills == [] then 0.0
    else
      var f := fills[0];
      Value(f.quantity, sellPrice - f.price) - f.fee - f.slippage + Result(fills[1..], sellPrice)
  }

  lemma {:induction false} SumsAre(fills: seq<Fill>, sellPrice: real)
    ensures SumOf(fills, (f: Fill) => f.quantity) == FilledBy(fills)
    ensures SumOf(fills, (f: Fill) => f.fee) == FeesOf(fills)
    ensures SumOf(fills, (f: Fill) => f.slippage) == SlippageOf(fills)
    ensures SumOf(fills, (f: Fill) => f.Gross()) == VolumeOf(fills)
    ensures Value(FilledBy(fills), sellPrice) - VolumeOf(fills) - FeesOf(fills) - SlippageOf(fills)
            == Result(fills, sellPrice)
  {
    hide Value;
    if fills == [] {
      NothingIsFree(sellPrice);
    } else {
      SumsAre(fills[1..], sellPrice);
      ValueAdds(fills[0].quantity, FilledBy(fills[1..]), sellPrice);
      PriceGap(fills[0].quantity, sellPrice, fills[0].price);
    }
  }

  lemma PriceGap(quantity: real, high: real, low: real)
    ensures Value(quantity, high - low) == Value(quantity, high) - Value(quantity, low)
  {
  }

  // The result of a filled execution: that of its fills against the expected selling price, or else the change
  // of equity that came with it, if either is known.
  function ResultOf(t: Tracked, e: Execution): Option<real>
  {
    if t.sellVwap.Some? && e.fills != [] && 0.0 < FilledBy(e.fills) then Some(Result(e.fills, t.sellVwap.value))
    else e.equityChange
  }

  // ----- recording an execution -----

  predicate WentWrong(e: Execution)
  {
    e.status == OrderStatus.Rejected || e.status == OrderStatus.Failed || e.status == Cancelled
  }

  // The opportunity as it was, but for how far it got, what it cost and what it brought.
  predicate RecordedOpportunity(t: Tracked, e: Execution, after: Tracked)
  {
    var fees, slippage := FeesOf(e.fills), SlippageOf(e.fills);
    var charged := t.(fees := if fees > 0.0 then fees else t.fees,
                      slippage := if slippage > 0.0 then slippage else t.slippage);
    if WentWrong(e) || e.filledQuantity <= 0.0 then after == t.(status := Ran)
    else
      match ResultOf(t, e)
      case None => after == charged.(status := Done)
      case Some(x) => after == charged.(status := if 0.0 < x then Profitable else Unprofitable, realized := Some(x))
  }

  // One trade for an execution whose result is known, and no trade for any other.
  predicate RecordedTrade(b: Board, t: Tracked, e: Execution, after: Board)
  {
    var fees, slippage := FeesOf(e.fills), SlippageOf(e.fills);
    if WentWrong(e) || e.filledQuantity <= 0.0 then
      after.trades == b.trades && after.tradePnls == b.tradePnls && after.realizedPnl == b.realizedPnl && after.sums == b.sums
    else
      && after.sums.fees == b.sums.fees + fees && after.sums.slippage == b.sums.slippage + slippage
      && after.sums.volume == b.sums.volume + VolumeOf(e.fills)
      && (match ResultOf(t, e)
          case None =>
            && after.trades == b.trades && after.tradePnls == b.tradePnls && after.realizedPnl == b.realizedPnl
            && after.sums.gross == b.sums.gross
          case Some(x) =>
            && after.trades == b.trades + [Trade(t.strategy, t.buyExchange, t.sellExchange, t.hour,
                                                 if fees > 0.0 then fees else t.fees,
                                                 if slippage > 0.0 then slippage else t.slippage, x)]
            && after.tradePnls == b.tradePnls + [x] && after.realizedPnl == b.realizedPnl + x
            && after.sums.gross == b.sums.gross + t.grossProfit)
  }

  predicate RecordedCounts(b: Board, t: Tracked, e: Execution, after: Board)
  {
    var pair := t.buyExchange + "->" + t.sellExchange;
    var failed := if WentWrong(e) then 1 else 0;
    && after.counts == b.counts.(executed := b.counts.executed + 1, failures := b.counts.failures + failed)
    && At(after.strategies, t.strategy, NO_STRATEGY).executions == At(b.strategies, t.strategy, NO_STRATEGY).executions + 1
    && At(after.pairs, pair, NO_PAIR).executed == At(b.pairs, pair, NO_PAIR).executed + 1
    && At(after.pairs, pair, NO_PAIR).failures == At(b.pairs, pair, NO_PAIR).failures + failed
  }

  lemma ConclusionIs(t: Tracked, e: Execution)
    ensures RecordedOpportunity(t, e, Concluded(t, e).0)
    ensures Concluded(t, e).1 == if WentWrong(e) || e.filledQuantity <= 0.0 then None else ResultOf(t, e)
  {
    hide Value, SumOf, Result, FilledBy, FeesOf, SlippageOf, VolumeOf;
    SumsAre(e.fills, if t.sellVwap.Some? then t.sellVwap.value else 0.0);
  }

  // What an execution leaves in the opportunity, in the log and the totals, and in the counters. An id that was
  // never detected leaves everything as it was.
  lemma RecordMeans(b: Board, id: string, e: Execution)
    requires Indexed(b)
    ensures var after := Recorded(b, id, e);
            if id !in b.byId then after == b
            else
              var i := b.byId[id];
              && after.byId == b.byId && |after.opportunities| == |b.opportunities|
              && (forall j :: 0 <= j < |b.opportunities| && j != i ==> after.opportunities[j] == b.opportunities[j])
              && RecordedOpportunity(b.opportunities[i], e, after.opportunities[i])
              && RecordedTrade(b, b.opportunities[i], e, after)
              && RecordedCounts(b, b.opportunities[i], e, after)
  {
    hide Value, SumOf, Result, FilledBy, FeesOf, SlippageOf, VolumeOf, Concluded, ResultOf, WentWrong, Execution.Failed;
    if id in b.byId {
      ConclusionIs(b.opportunities[b.byId[id]], e);
      SumsAre(e.fills, 0.0);
      FailedIs(e);
    }
  }

  lemma FailedIs(e: Execution)
    ensures e.Failed() <==> WentWrong(e)
  {
  }

  // ----- detecting and judging -----

  // A detected opportunity is listed last, found under its id from then on, and counted once under its strategy,
  // its pair and its hour, where nothing else changes.
  lemma DetectMeans(b: Board, t: Tracked)
    ensures var after, pair := Detected(b, t), t.buyExchange + "->" + t.sellExchange;
            && after.opportunities == b.opportunities + [t]
            && after.byId == b.byId[t.id := |b.opportunities|]
            && (forall s :: var was := At(b.strategies, s, NO_STRATEGY);
                            At(after.strategies, s, NO_STRATEGY)
                            == if s == t.strategy then was.(opportunities := was.opportunities + 1) else was)
            && (forall p :: var was := At(b.pairs, p, NO_PAIR);
                            At(after.pairs, p, NO_PAIR)
                            == if p == pair then was.(opportunities := was.opportunities + 1) else was)
            && (forall h :: var was := At(b.hourly, h, NO_HOUR);
                            At(after.hourly, h, NO_HOUR)
                            == if h == t.hour then was.(opportunities := was.opportunities + 1) else was)
            && after.trades == b.trades && after.tradePnls == b.tradePnls && after.realizedPnl == b.realizedPnl
            && after.sums == b.sums && after.counts == b.counts
  {
  }

  // A verdict marks the opportunity last detected under the id, and counts once: an approval also under the
  // pair. Under an unknown id it changes nothing.
  lemma JudgeMeans(b: Board, id: string, approved: bool)
    requires Indexed(b)
    ensures var after := Judged(b, id, approved);
            if id !in b.byId then after == b
            else
              var i := b.byId[id];
              var t := b.opportunities[i];
              && after.opportunities == b.opportunities[i := t.(status := if approved then Allowed else Denied)]
              && after.byId == b.byId && after.strategies == b.strategies && after.hourly == b.hourly
              && after.trades == b.trades && after.tradePnls == b.tradePnls && after.realizedPnl == b.realizedPnl
              && after.sums == b.sums
              && after.counts == (if approved then b.counts.(approved := b.counts.approved + 1)
                                  else b.counts.(rejected := b.counts.rejected + 1))
              && (forall p :: var was := At(b.pairs, p, NO_PAIR);
                              At(after.pairs, p, NO_PAIR)
                              == if approved && p == t.buyExchange + "->" + t.sellExchange
                                 then was.(approved := was.approved + 1) else was)
  {
  }

  // ----- the rollups -----

  // The trades with a key.
  function With<K(==)>(log: seq<Trade>, keyOf: Trade -> K, key: K): seq<Trade>
  {
    if log == [] then []
    else
      var last := log[|log| - 1];
      With(log[..|log| - 1], keyOf, key) + if keyOf(last) == key then [last] else []
  }

  function Gains(log: seq<Trade>): real
  {
    if log == [] then 0.0
    else Gains(log[..|log| - 1]) + if 0.0 < log[|log| - 1].realized then log[|log| - 1].realized else 0.0
  }

  function LossesOf(log: seq<Trade>): real
  {
    if log == [] then 0.0
    else LossesOf(log[..|log| - 1]) + if log[|log| - 1].realized < 0.0 then -log[|log| - 1].realized else 0.0
  }

  function FeesIn(log: seq<Trade>): real
  {
    if log == [] then 0.0 else FeesIn(log[..|log| - 1]) + log[|log| - 1].fees
  }

  function SlippageIn(log: seq<Trade>): real
  {
    if log == [] then 0.0 else SlippageIn(log[..|log| - 1]) + log[|log| - 1].slippage
  }

  function Winners(log: seq<Trade>): set<int> { set i | 0 <= i < |log| && 0.0 < log[i].realized }

  function Losers(log: seq<Trade>): set<int> { set i | 0 <= i < |log| && log[i].realized < 0.0 }

  lemma WinnersOneMore(log: seq<Trade>, t: Trade)
    ensures |Winners(log + [t])| == |Winners(log)| + if 0.0 < t.realized then 1 else 0
  {
    var more := log + [t];
    assert forall i :: 0 <= i < |log| ==> more[i] == log[i];
    assert Winners(more) == if 0.0 < t.realized then Winners(log) + {|log|} else Winners(log);
  }

  lemma LosersOneMore(log: seq<Trade>, t: Trade)
    ensures |Losers(log + [t])| == |Losers(log)| + if t.realized < 0.0 then 1 else 0
  {
    var more := log + [t];
    assert forall i :: 0 <= i < |log| ==> more[i] == log[i];
    assert Losers(more) == if t.realized < 0.0 then Losers(log) + {|log|} else Losers(log);
  }

  // What a bucket says of the trades with its key: how many there are, how many of them gained and lost, and what
  // they brought, gains less losses.
  lemma {:induction false} FoldMeans<K>(log: seq<Trade>, keyOf: Trade -> K, key: K)
    ensures var tally, its := Fold(log, keyOf, key), With(log, keyOf, key);
            && tally.trades == |its| && tally.winning == |Winners(its)| && tally.losing == |Losers(its)|
            && tally.grossWins == Gains(its) && tally.grossLosses == LossesOf(its)
            && tally.netPnl == tally.grossWins - tally.grossLosses
            && tally.fees == FeesIn(its) && tally.slippage == SlippageIn(its)
  {
    if log != [] {
      var last, rest := log[|log| - 1], log[..|log| - 1];
      FoldMeans(rest, keyOf, key);
      var its := With(rest, keyOf, key);
      hide Winners, Losers;
      if keyOf(last) == key {
        WinnersOneMore(its, last);
        LosersOneMore(its, last);
        assert (its + [last])[..|its|] == its && (its + [last])[|its|] == last;
      } else {
        assert its + [] == its;
      }
    } else {
      assert Winners([]) == {} && Losers([]) == {};
    }
  }

  // ----- the totals over runs -----

  // The fills that a call charges, and the gross profit it books.
  function ChargedBy(b: Board, call: Call): seq<Fill>
  {
    if call.Record? && call.id in b.byId && !WentWrong(call.execution) && 0.0 < call.execution.filledQuantity
    then call.execution.fills else []
  }

  function BookedBy(b: Board, call: Call): real
    requires Indexed(b)
  {
    if call.Record? && call.id in b.byId && !WentWrong(call.execution) && 0.0 < call.execution.filledQuantity
       && ResultOf(b.opportunities[b.byId[call.id]], call.execution).Some?
    then b.opportunities[b.byId[call.id]].grossProfit else 0.0
  }

  function ChargedAlong(b: Board, calls: seq<Call>): seq<Fill>
    requires Indexed(b)
    decreases |calls|
  {
    if calls == [] then []
    else
      ApplyKeepsIndex(b, calls[0]);
      ChargedBy(b, calls[0]) + ChargedAlong(Apply(b, calls[0]), calls[1..])
  }

  function BookedAlong(b: Board, calls: seq<Call>): real
    requires Indexed(b)
    decreases |calls|
  {
    if calls == [] then 0.0
    else
      ApplyKeepsIndex(b, calls[0]);
      BookedBy(b, calls[0]) + BookedAlong(Apply(b, calls[0]), calls[1..])
  }

  lemma CallCharges(b: Board, call: Call)
    requires Indexed(b)
    ensures var after, fills := Apply(b, call), ChargedBy(b, call);
            && after.sums.fees == b.sums.fees + FeesOf(fills)
            && after.sums.slippage == b.sums.slippage + SlippageOf(fills)
            && after.sums.volume == b.sums.volume + VolumeOf(fills)
            && after.sums.gross == b.sums.gross + BookedBy(b, call)
  {
    hide Recorded, Judged, Detected, RecordedOpportunity, RecordedCounts, ResultOf, Value;
    match call
    case Detect(t) => DetectMeans(b, t);
    case Judge(id, approved) => JudgeMeans(b, id, approved);
    case Record(id, e) => RecordMeans(b, id, e);
  }

  lemma {:induction false} RunCharges(b: Board, calls: seq<Call>)
    requires Indexed(b)
    ensures var after, fills := BoardAfter(b, calls), ChargedAlong(b, calls);
            && after.sums.fees == b.sums.fees + FeesOf(fills)
            && after.sums.slippage == b.sums.slippage + SlippageOf(fills)
            && after.sums.volume == b.sums.volume + VolumeOf(fills)
            && after.sums.gross == b.sums.gross + BookedAlong(b, calls)
    decreases |calls|
  {
    hide Apply, ChargedBy, BookedBy;
    if calls != [] {
      ApplyKeepsIndex(b, calls[0]);
      CallCharges(b, calls[0]);
      RunCharges(Apply(b, calls[0]), calls[1..]);
      SumsConcat(ChargedBy(b, calls[0]), ChargedAlong(Apply(b, calls[0]), calls[1..]));
    }
  }

  // After any calls the totals are those of all fills of executions that went right, each once, and of the gross
  // profits of the trades; a new board has a bucket for each hour of the day, all empty.
  lemma TotalsTheorem(calls: seq<Call>)
    ensures Indexed(FRESH_BOARD)
    ensures var after, fills := BoardAfter(FRESH_BOARD, calls), ChargedAlong(FRESH_BOARD, calls);
            after.sums == Sums(BookedAlong(FRESH_BOARD, calls), FeesOf(fills), SlippageOf(fills), VolumeOf(fills))
    ensures forall h :: h in FRESH_BOARD.hourly <==> 0 <= h < 24
    ensures forall h :: h in FRESH_BOARD.hourly ==> FRESH_BOARD.hourly[h] == HourStats(0, 0, 0, 0.0)
  {
    RunCharges(FRESH_BOARD, calls);
  }
}
