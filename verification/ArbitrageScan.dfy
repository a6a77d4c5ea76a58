// The scan of CrossExchangeArbitrageStrategy: grouping fresh venue books by symbol, trying every ordered
// pair, counting what became of each (bot/strategies/arbitrage.py, `evaluate_markets`, `_evaluate_symbol`,
// `_group_valid_snapshots`, `_reject`, `scan_stats`).

module ArbitrageScan {
  import opened Prelude
  import opened DepthWalk
  import opened Profitability
  import opened Arbitrage

  // `_venue_rejection_reason`: the code, none when the snapshot may be used.
  function VenueCode(s: ArbitrageSettings, v: Snapshot): Option<string>
  {
    if v.exchange == "" then Some("missing_exchange")
    else if v.book.None? then Some("missing_order_book")
    else if v.book.value.asks == [] || v.book.value.bids == [] then Some("empty_book")
    else if SideDepth(v.book.value.asks) < s.minLiquidity || SideDepth(v.book.value.bids) < s.minLiquidity then
      Some("insufficient_liquidity")
    else if v.latencyMs.Some? && v.latencyMs.value > s.maxLatencyMs then Some("latency")
    else if v.ageMs > s.maxBookAgeMs then Some("stale_book")
    else None
  }

  predicate Usable(s: ArbitrageSettings, v: Snapshot) { VenueCode(s, v).None? }

  ghost predicate Priced(venues: seq<Snapshot>)
  {
    forall i :: 0 <= i < |venues| ==> venues[i].book.Some?
  }

  // ----- what the scan should find -----

  function PairEmissions(s: ArbitrageSettings, buy: Snapshot, sells: seq<Snapshot>): seq<Outcome>
    requires buy.book.Some? && Priced(sells)
  {
    if sells == [] then []
    else
      var o := Evaluate(s, buy, sells[0]);
      (if o.Emitted? then [o] else []) + PairEmissions(s, buy, sells[1..])
  }

  // Every ordered pair of different exchanges, buyers in order, for each all sellers in order.
  function SymbolEmissions(s: ArbitrageSettings, buys: seq<Snapshot>, venues: seq<Snapshot>): seq<Outcome>
    requires Priced(buys) && Priced(venues)
  {
    if buys == [] then [] else PairEmissions(s, buys[0], venues) + SymbolEmissions(s, buys[1..], venues)
  }

  function OtherVenues(exchange: string, venues: seq<Snapshot>): nat
  {
    if venues == [] then 0
    else (if venues[0].exchange == exchange then 0 else 1) + OtherVenues(exchange, venues[1..])
  }

  function OrderedPairs(buys: seq<Snapshot>, venues: seq<Snapshot>): nat
  {
    if buys == [] then 0 else OtherVenues(buys[0].exchange, venues) + OrderedPairs(buys[1..], venues)
  }

  // The usable snapshots of a symbol, in the order they came.
  function UsableFor(s: ArbitrageSettings, symbol: string, snapshots: seq<Snapshot>): (r: seq<Snapshot>)
    ensures Priced(r)
  {
    if snapshots == [] then []
    else (if Usable(s, snapshots[0]) && snapshots[0].symbol == symbol then [snapshots[0]] else [])
         + UsableFor(s, symbol, snapshots[1..])
  }

  // The symbols that have a usable snapshot, each where it first appears.
  function Symbols(s: ArbitrageSettings, snapshots: seq<Snapshot>, seen: seq<string>): seq<string>
  {
    if snapshots == [] then seen
    else
      var v := snapshots[0];
      Symbols(s, snapshots[1..], if Usable(s, v) && v.symbol !in seen then seen + [v.symbol] else seen)
  }

  function GroupEmissions(s: ArbitrageSettings, venues: seq<Snapshot>): seq<Outcome>
    requires Priced(venues)
  {
    if |venues| < 2 then [] else SymbolEmissions(s, venues, venues)
  }

  function MarketEmissions(s: ArbitrageSettings, symbols: seq<string>, snapshots: seq<Snapshot>): seq<Outcome>
  {
    if symbols == [] then []
    else
      GroupEmissions(s, UsableFor(s, symbols[0], snapshots)) + MarketEmissions(s, symbols[1..], snapshots)
  }

  // Between venues that passed the screening, the rejection for too little overlap depends on the settings
  // alone, and otherwise there is a candidate exactly when sweeping the bids brings more than sweeping the
  // asks costs, for the largest quantity both sides and the settings allow.
  lemma ScreenedPairIff(s: ArbitrageSettings, buy: Snapshot, sell: Snapshot)
    requires Sensible(s) && Usable(s, buy) && Usable(s, sell)
    ensures var asks, bids := buy.book.value.asks, sell.book.value.bids;
            var quantity := Min(Min(SideDepth(asks), SideDepth(bids)), s.maxQuantity);
            && (Build(s, buy, sell) == Refusal(OVERLAP) <==> s.maxQuantity < s.minLiquidity)
            && (Build(s, buy, sell).Found? <==>
                  s.minLiquidity <= s.maxQuantity
                  && SweepBook(asks, quantity).notional < SweepBook(bids, quantity).notional)
  {
    hide SideDepth, SweepBook, TakeableDepth, Value;
    var asks, bids := buy.book.value.asks, sell.book.value.bids;
    var quantity := Min(Min(SideDepth(asks), SideDepth(bids)), s.maxQuantity);
    CodesDiffer();
    EdgeIsNoOverlap();
    if s.minLiquidity <= s.maxQuantity {
      SideDepthIsTakeable(asks);
      SideDepthIsTakeable(bids);
      SweepFills(asks, quantity);
      SweepFills(bids, quantity);
      AveragesCompare(SweepBook(asks, quantity).notional, SweepBook(bids, quantity).notional, quantity);
    }
  }

  lemma EdgeIsNoOverlap()
    ensures NO_EDGE != OVERLAP
  {
    assert |NO_EDGE| != |OVERLAP|;
  }

  lemma AveragesCompare(paid: real, earned: real, quantity: real)
    requires quantity > 0.0
    ensures paid / quantity < earned / quantity <==> paid < earned
  {
    assert paid / quantity * quantity == paid && earned / quantity * quantity == earned;
  }

  // An outcome is reported for a symbol exactly when some ordered pair of its venues emits it.
  lemma {:induction false} EmittedIff(s: ArbitrageSettings, buys: seq<Snapshot>, venues: seq<Snapshot>, o: Outcome)
    requires Priced(buys) && Priced(venues)
    ensures o in SymbolEmissions(s, buys, venues)
            <==> o.Emitted? && exists i, j :: 0 <= i < |buys| && 0 <= j < |venues| && Evaluate(s, buys[i], venues[j]) == o
  {
    hide Evaluate, PairEmissions;
    if buys != [] {
      PairEmittedIff(s, buys[0], venues, o);
      EmittedIff(s, buys[1..], venues, o);
      if i, j :| 0 <= i < |buys| && 0 <= j < |venues| && Evaluate(s, buys[i], venues[j]) == o {
        if i > 0 { assert buys[1..][i - 1] == buys[i]; }
      }
      if i, j :| 0 <= i < |buys[1..]| && 0 <= j < |venues| && Evaluate(s, buys[1..][i], venues[j]) == o {
        assert buys[1..][i] == buys[i + 1];
      }
    }
  }

  lemma {:induction false} PairEmittedIff(s: ArbitrageSettings, buy: Snapshot, sells: seq<Snapshot>, o: Outcome)
    requires buy.book.Some? && Priced(sells)
    ensures o in PairEmissions(s, buy, sells)
            <==> o.Emitted? && exists j :: 0 <= j < |sells| && Evaluate(s, buy, sells[j]) == o
  {
    hide Evaluate;
    if sells != [] {
      PairEmittedIff(s, buy, sells[1..], o);
      if j :| 0 <= j < |sells| && Evaluate(s, buy, sells[j]) == o {
        if j > 0 { assert sells[1..][j - 1] == sells[j]; }
      }
      if j :| 0 <= j < |sells[1..]| && Evaluate(s, buy, sells[1..][j]) == o {
        assert sells[1..][j] == sells[j + 1];
      }
    }
  }

  // ----- the codes of the rejections, in the order in which they are counted -----

  function VenueCodes(s: ArbitrageSettings, snapshots: seq<Snapshot>): seq<string>
  {
    if snapshots == [] then []
    else
      var code := VenueCode(s, snapshots[0]);
      (if code.Some? then [code.value] else []) + VenueCodes(s, snapshots[1..])
  }

  function PairCodes(s: ArbitrageSettings, buy: Snapshot, sells: seq<Snapshot>): seq<string>
    requires buy.book.Some? && Priced(sells)
  {
    if sells == [] then []
    else
      var o := Evaluate(s, buy, sells[0]);
      (if o.Dropped? then [o.code] else []) + PairCodes(s, buy, sells[1..])
  }

  function SymbolCodes(s: ArbitrageSettings, buys: seq<Snapshot>, venues: seq<Snapshot>): seq<string>
    requires Priced(buys) && Priced(venues)
  {
    if buys == [] then [] else PairCodes(s, buys[0], venues) + SymbolCodes(s, buys[1..], venues)
  }

  function GroupCodes(s: ArbitrageSettings, venues: seq<Snapshot>): seq<string>
    requires Priced(venues)
  {
    if |venues| < 2 then ["insufficient_venues"] else SymbolCodes(s, venues, venues)
  }

  function MarketCodes(s: ArbitrageSettings, symbols: seq<string>, snapshots: seq<Snapshot>): seq<string>
  {
    if symbols == [] then []
    else
      GroupCodes(s, UsableFor(s, symbols[0], snapshots)) + MarketCodes(s, symbols[1..], snapshots)
  }

  // Pairs that got as far as a candidate.
  function PairEdges(s: ArbitrageSettings, buy: Snapshot, sells: seq<Snapshot>): nat
    requires buy.book.Some? && Priced(sells)
  {
    if sells == [] then 0
    else
      var o := Evaluate(s, buy, sells[0]);
      (if o.Emitted? || (o.Dropped? && o.edge) then 1 else 0) + PairEdges(s, buy, sells[1..])
  }

  function SymbolEdges(s: ArbitrageSettings, buys: seq<Snapshot>, venues: seq<Snapshot>): nat
    requires Priced(buys) && Priced(venues)
  {
    if buys == [] then 0 else PairEdges(s, buys[0], venues) + SymbolEdges(s, buys[1..], venues)
  }

  function GroupEdges(s: ArbitrageSettings, venues: seq<Snapshot>): nat
    requires Priced(venues)
  {
    if |venues| < 2 then 0 else SymbolEdges(s, venues, venues)
  }

  function MarketEdges(s: ArbitrageSettings, symbols: seq<string>, snapshots: seq<Snapshot>): nat
  {
    if symbols == [] then 0
    else
      GroupEdges(s, UsableFor(s, symbols[0], snapshots)) + MarketEdges(s, symbols[1..], snapshots)
  }

  // Counting codes one after the other.
  function Counted(counts: map<string, nat>, codes: seq<string>): map<string, nat>
    decreases |codes|
  {
    if codes == [] then counts else Counted(counts[codes[0] := CountOf(counts, codes[0]) + 1], codes[1..])
  }

  lemma {:induction false} CountedConcat(counts: map<string, nat>, a: seq<string>, b: seq<string>)
    ensures Counted(counts, a + b) == Counted(Counted(counts, a), b)
    decreases |a|
  {
    if a == [] {
      assert a + b == b;
    } else {
      assert (a + b)[0] == a[0] && (a + b)[1..] == a[1..] + b;
      CountedConcat(counts[a[0] := CountOf(counts, a[0]) + 1], a[1..], b);
    }
  }

  lemma NothingCounted(counts: map<string, nat>)
    ensures Counted(counts, []) == counts
  {
  }

  lemma CountedOne(counts: map<string, nat>, code: string)
    ensures Counted(counts, [code]) == counts[code := CountOf(counts, code) + 1]
  {
    assert [code][1..] == [];
  }

  // Snapshots that may not be used, and symbols left with fewer than two venues.
  function Unusable(s: ArbitrageSettings, snapshots: seq<Snapshot>): nat
  {
    if snapshots == [] then 0 else (if Usable(s, snapshots[0]) then 0 else 1) + Unusable(s, snapshots[1..])
  }

  function Lonely(s: ArbitrageSettings, symbols: seq<string>, snapshots: seq<Snapshot>): nat
  {
    if symbols == [] then 0
    else (if |UsableFor(s, symbols[0], snapshots)| < 2 then 1 else 0) + Lonely(s, symbols[1..], snapshots)
  }

  // The scan of the symbols from the i-th on is that of the i-th and that of the rest.
  lemma MarketStep(s: ArbitrageSettings, symbols: seq<string>, i: nat, snapshots: seq<Snapshot>)
    requires i < |symbols|
    ensures var venues := UsableFor(s, symbols[i], snapshots);
            && MarketEmissions(s, symbols[i..], snapshots)
               == GroupEmissions(s, venues) + MarketEmissions(s, symbols[i + 1..], snapshots)
            && MarketCodes(s, symbols[i..], snapshots) == GroupCodes(s, venues) + MarketCodes(s, symbols[i + 1..], snapshots)
            && MarketEdges(s, symbols[i..], snapshots) == GroupEdges(s, venues) + MarketEdges(s, symbols[i + 1..], snapshots)
            && Lonely(s, symbols[i..], snapshots)
               == (if |venues| < 2 then 1 else 0) + Lonely(s, symbols[i + 1..], snapshots)
  {
    hide UsableFor, GroupEmissions, GroupCodes, GroupEdges;
    assert symbols[i..][0] == symbols[i] && symbols[i..][1..] == symbols[i + 1..];
  }

  lemma MarketEnd(s: ArbitrageSettings, symbols: seq<string>, snapshots: seq<Snapshot>)
    ensures MarketEmissions(s, symbols[|symbols|..], snapshots) == [] && MarketCodes(s, symbols[|symbols|..], snapshots) == []
    ensures MarketEdges(s, symbols[|symbols|..], snapshots) == 0 == Lonely(s, symbols[|symbols|..], snapshots)
  {
  }

  function GroupOf(groups: map<string, seq<Snapshot>>, symbol: string): seq<Snapshot>
  {
    if symbol in groups then groups[symbol] else []
  }

  // The groups hold, in order, what was usable in the part of `all` before `rest`.
  ghost predicate GroupedBefore(s: ArbitrageSettings, groups: map<string, seq<Snapshot>>, rest: seq<Snapshot>,
                                all: seq<Snapshot>)
  {
    forall k :: GroupOf(groups, k) + UsableFor(s, k, rest) == UsableFor(s, k, all)
  }

  lemma NothingGrouped(s: ArbitrageSettings, all: seq<Snapshot>)
    ensures GroupedBefore(s, map[], all[0..], all)
  {
    hide UsableFor;
    assert all[0..] == all;
    forall k ensures GroupOf(map[], k) + UsableFor(s, k, all) == UsableFor(s, k, all) {}
  }

  lemma AllGrouped(s: ArbitrageSettings, groups: map<string, seq<Snapshot>>, all: seq<Snapshot>)
    requires GroupedBefore(s, groups, all[|all|..], all)
    ensures forall k :: k in groups ==> groups[k] == UsableFor(s, k, all)
  {
    forall k | k in groups ensures groups[k] == UsableFor(s, k, all) {
      assert GroupOf(groups, k) + UsableFor(s, k, []) == UsableFor(s, k, all);
      assert groups[k] + [] == groups[k];
    }
  }

  lemma GroupNext(s: ArbitrageSettings, groups: map<string, seq<Snapshot>>, rest: seq<Snapshot>, all: seq<Snapshot>)
    requires rest != [] && GroupedBefore(s, groups, rest, all)
    ensures var v := rest[0];
            GroupedBefore(s, if Usable(s, v) then groups[v.symbol := GroupOf(groups, v.symbol) + [v]] else groups,
                          rest[1..], all)
  {
    hide Usable, UsableFor, GroupOf;
    var v := rest[0];
    var after := if Usable(s, v) then groups[v.symbol := GroupOf(groups, v.symbol) + [v]] else groups;
    forall k ensures GroupOf(after, k) + UsableFor(s, k, rest[1..]) == UsableFor(s, k, all) {
      GroupNextAt(s, groups, rest, k);
    }
  }

  lemma GroupNextAt(s: ArbitrageSettings, groups: map<string, seq<Snapshot>>, rest: seq<Snapshot>, k: string)
    requires rest != []
    ensures var v := rest[0];
            var after := if Usable(s, v) then groups[v.symbol := GroupOf(groups, v.symbol) + [v]] else groups;
            GroupOf(after, k) + UsableFor(s, k, rest[1..]) == GroupOf(groups, k) + UsableFor(s, k, rest)
  {
    hide Usable;
    var v, had, later := rest[0], GroupOf(groups, k), UsableFor(s, k, rest[1..]);
    assert had + ([v] + later) == had + [v] + later;
    assert [] + later == later;
  }

  function AsReals(counts: map<string, nat>): map<string, real>
  {
    map k | k in counts :: counts[k] as real
  }

  function CountOf(counts: map<string, nat>, code: string): nat
  {
    if code in counts then counts[code] else 0
  }

  lemma CountOne(counts: map<string, nat>, code: string)
    ensures Total(AsReals(counts[code := CountOf(counts, code) + 1])) == Total(AsReals(counts)) + 1.0
  {
    var before := CountOf(counts, code);
    hide TotalOver;
    assert AsReals(counts[code := before + 1]) == AsReals(counts)[code := (before + 1) as real];
    TotalUpdate(AsReals(counts), code, (before + 1) as real);
  }

  class ArbitrageStrategy {
    const settings: ArbitrageSettings
    var pairsEvaluated: nat
    var depthEdgesFound: nat
    var scanRejections: nat
    var opportunitiesEmitted: nat
    var rejectCounts: map<string, nat>

    // The counts by code add up to the number of rejections.
    ghost predicate Valid()
      reads this
    {
      Total(AsReals(rejectCounts)) == scanRejections as real
    }

    constructor (settings: ArbitrageSettings)
      ensures Valid() && this.settings == settings
      ensures pairsEvaluated == depthEdgesFound == scanRejections == opportunitiesEmitted == 0
    {
      this.settings := settings;
      pairsEvaluated, depthEdgesFound, scanRejections, opportunitiesEmitted := 0, 0, 0, 0;
      rejectCounts := map[];
      new;
      TotalZero({}, AsReals(map[]));
      assert AsReals(map[]) == map[];
    }

    // `_reject`
    method Reject(code: string)
      requires Valid()
      modifies this`scanRejections, this`rejectCounts
      ensures Valid() && scanRejections == old(scanRejections) + 1
      ensures rejectCounts == old(rejectCounts)[code := CountOf(old(rejectCounts), code) + 1]
    {
      hide Total;
      CountOne(rejectCounts, code);
      scanRejections := scanRejections + 1;
      rejectCounts := rejectCounts[code := CountOf(rejectCounts, code) + 1];
    }

    // `_build_candidate`, with the walks as loops.
    method BuildCandidate(buy: Snapshot, sell: Snapshot) returns (built: Built)
      requires Valid() && buy.book.Some? && sell.book.Some?
      modifies this`scanRejections, this`rejectCounts
      ensures Valid() && built == Build(settings, buy, sell)
      ensures scanRejections == old(scanRejections) + if built.Refusal? then 1 else 0
      ensures rejectCounts == if built.Refusal? then old(rejectCounts)[built.code := CountOf(old(rejectCounts), built.code) + 1]
                              else old(rejectCounts)
    {
      hide SideDepth, SweepBook, Valid;
      var asks, bids := buy.book.value.asks, sell.book.value.bids;
      var buyDepth, sellDepth := SideDepth(asks), SideDepth(bids);
      var quantity := Min(Min(buyDepth, sellDepth), settings.maxQuantity);
      if quantity < settings.minLiquidity {
        Reject(OVERLAP);
        return Refusal(OVERLAP);
      }
      var bought := WalkBook(asks, quantity);
      var sold := WalkBook(bids, quantity);
      if !bought.sufficient || !sold.sufficient {
        Reject(NO_DEPTH);
        return Refusal(NO_DEPTH);
      }
      if sold.vwap <= bought.vwap {
        Reject(NO_EDGE);
        return Refusal(NO_EDGE);
      }
      built := Found(Candidate(buy.symbol, buy.exchange, sell.exchange, quantity, bought.vwap, sold.vwap, buyDepth,
                               sellDepth));
    }

    // One ordered pair.
    method EvaluatePair(buy: Snapshot, sell: Snapshot) returns (outcome: Outcome)
      requires Valid() && buy.book.Some? && sell.book.Some? && buy.exchange != sell.exchange
      modifies this
      ensures Valid() && outcome == Evaluate(settings, buy, sell)
      ensures pairsEvaluated == old(pairsEvaluated) + 1
      ensures scanRejections == old(scanRejections) + if outcome.Dropped? then 1 else 0
      ensures rejectCounts == if outcome.Dropped? then
                                old(rejectCounts)[outcome.code := CountOf(old(rejectCounts), outcome.code) + 1]
                              else old(rejectCounts)
      ensures opportunitiesEmitted == old(opportunitiesEmitted) + if outcome.Emitted? then 1 else 0
      ensures depthEdgesFound == old(depthEdgesFound) + if outcome.Emitted? || outcome.edge then 1 else 0
    {
      hide Build, Estimate, GateCode, AsReals;
      pairsEvaluated := pairsEvaluated + 1;
      var built := BuildCandidate(buy, sell);
      if built.Refusal? {
        return Dropped(built.code, false);
      }
      depthEdgesFound := depthEdgesFound + 1;
      var estimate := Estimate(EngineSettings(settings), AsOpportunity(built.candidate), None);
      var code := GateCode(settings, estimate);
      if code.Some? {
        Reject(code.value);
        return Dropped(code.value, true);
      }
      opportunitiesEmitted := opportunitiesEmitted + 1;
      outcome := Emitted(built.candidate, estimate);
    }

    // `_evaluate_symbol`. Every evaluated pair ends as exactly one emission or one rejection.
    method EvaluateSymbol(venues: seq<Snapshot>) returns (found: seq<Outcome>)
      requires Valid() && Priced(venues)
      modifies this
      ensures Valid() && found == SymbolEmissions(settings, venues, venues)
      ensures pairsEvaluated == old(pairsEvaluated) + OrderedPairs(venues, venues)
      ensures opportunitiesEmitted == old(opportunitiesEmitted) + |found|
      ensures pairsEvaluated - old(pairsEvaluated) == |found| + (scanRejections - old(scanRejections))
      ensures rejectCounts == Counted(old(rejectCounts), SymbolCodes(settings, venues, venues))
      ensures depthEdgesFound == old(depthEdgesFound) + SymbolEdges(settings, venues, venues)
    {
      hide Evaluate, Valid, PairEmissions, PairCodes, PairEdges, OtherVenues, Counted;
      found := [];
      NothingCounted(rejectCounts);
      for i := 0 to |venues|
        invariant Valid()
        invariant found + SymbolEmissions(settings, venues[i..], venues) == SymbolEmissions(settings, venues, venues)
        invariant pairsEvaluated + OrderedPairs(venues[i..], venues) == old(pairsEvaluated) + OrderedPairs(venues, venues)
        invariant opportunitiesEmitted == old(opportunitiesEmitted) + |found|
        invariant pairsEvaluated - old(pairsEvaluated) == |found| + (scanRejections - old(scanRejections))
        invariant Counted(rejectCounts, SymbolCodes(settings, venues[i..], venues))
                  == Counted(old(rejectCounts), SymbolCodes(settings, venues, venues))
        invariant depthEdgesFound + SymbolEdges(settings, venues[i..], venues)
                  == old(depthEdgesFound) + SymbolEdges(settings, venues, venues)
      {
        CountedConcat(rejectCounts, PairCodes(settings, venues[i], venues), SymbolCodes(settings, venues[i + 1..], venues));
        var more := EvaluateBuyer(venues[i], venues);
        assert venues[i..][0] == venues[i] && venues[i..][1..] == venues[i + 1..];
        assert found + (more + SymbolEmissions(settings, venues[i + 1..], venues))
            == (found + more) + SymbolEmissions(settings, venues[i + 1..], venues);
        found := found + more;
      }
      assert found + [] == found;
      NothingCounted(rejectCounts);
    }

    // The inner loop.
    method EvaluateBuyer(buy: Snapshot, venues: seq<Snapshot>) returns (found: seq<Outcome>)
      requires Valid() && buy.book.Some? && Priced(venues)
      modifies this
      ensures Valid() && found == PairEmissions(settings, buy, venues)
      ensures pairsEvaluated == old(pairsEvaluated) + OtherVenues(buy.exchange, venues)
      ensures opportunitiesEmitted == old(opportunitiesEmitted) + |found|
      ensures pairsEvaluated - old(pairsEvaluated) == |found| + (scanRejections - old(scanRejections))
      ensures rejectCounts == Counted(old(rejectCounts), PairCodes(settings, buy, venues))
      ensures depthEdgesFound == old(depthEdgesFound) + PairEdges(settings, buy, venues)
    {
      hide Valid, Build, Estimate, GateCode, Counted;
      found := [];
      NothingCounted(rejectCounts);
      for j := 0 to |venues|
        invariant Valid()
        invariant found + PairEmissions(settings, buy, venues[j..]) == PairEmissions(settings, buy, venues)
        invariant pairsEvaluated + OtherVenues(buy.exchange, venues[j..])
                  == old(pairsEvaluated) + OtherVenues(buy.exchange, venues)
        invariant opportunitiesEmitted == old(opportunitiesEmitted) + |found|
        invariant pairsEvaluated - old(pairsEvaluated) == |found| + (scanRejections - old(scanRejections))
        invariant Counted(rejectCounts, PairCodes(settings, buy, venues[j..]))
                  == Counted(old(rejectCounts), PairCodes(settings, buy, venues))
        invariant depthEdgesFound + PairEdges(settings, buy, venues[j..])
                  == old(depthEdgesFound) + PairEdges(settings, buy, venues)
      {
        assert venues[j..][0] == venues[j] && venues[j..][1..] == venues[j + 1..];
        ghost var later := PairCodes(settings, buy, venues[j + 1..]);
        ghost var before := rejectCounts;
        if buy.exchange != venues[j].exchange {
          var outcome := EvaluatePair(buy, venues[j]);
          if outcome.Dropped? {
            CountedConcat(before, [outcome.code], later);
            CountedOne(before, outcome.code);
          } else {
            assert [] + later == later;
          }
          if outcome.Emitted? {
            assert found + ([outcome] + PairEmissions(settings, buy, venues[j + 1..]))
                == (found + [outcome]) + PairEmissions(settings, buy, venues[j + 1..]);
            found := found + [outcome];
          }
        } else {
          assert [] + later == later;
        }
      }
      assert found + [] == found;
      NothingCounted(rejectCounts);
    }

    // `_group_valid_snapshots`
    method GroupValid(snapshots: seq<Snapshot>) returns (order: seq<string>, groups: map<string, seq<Snapshot>>)
      requires Valid()
      modifies this`scanRejections, this`rejectCounts
      ensures Valid() && scanRejections == old(scanRejections) + Unusable(settings, snapshots)
      ensures rejectCounts == Counted(old(rejectCounts), VenueCodes(settings, snapshots))
      ensures order == Symbols(settings, snapshots, [])
      ensures forall k :: k in order ==> k in groups && groups[k] == UsableFor(settings, k, snapshots)
    {
      hide VenueCode, Valid, GroupedBefore, UsableFor, Counted;
      order, groups := [], map[];
      NothingCounted(rejectCounts);
      NothingGrouped(settings, snapshots);
      for i := 0 to |snapshots|
        invariant Valid()
        invariant scanRejections + Unusable(settings, snapshots[i..]) == old(scanRejections) + Unusable(settings, snapshots)
        invariant Symbols(settings, snapshots[i..], order) == Symbols(settings, snapshots, [])
        invariant forall k :: k in order <==> k in groups
        invariant GroupedBefore(settings, groups, snapshots[i..], snapshots)
        invariant Counted(rejectCounts, VenueCodes(settings, snapshots[i..]))
                  == Counted(old(rejectCounts), VenueCodes(settings, snapshots))
      {
        var v := snapshots[i];
        assert snapshots[i..][0] == v && snapshots[i..][1..] == snapshots[i + 1..];
        GroupNext(settings, groups, snapshots[i..], snapshots);
        var code := VenueCode(settings, v);
        ghost var later := VenueCodes(settings, snapshots[i + 1..]);
        if code.Some? {
          CountedConcat(rejectCounts, [code.value], later);
          CountedOne(rejectCounts, code.value);
          Reject(code.value);
        } else {
          assert [] + later == later;
          if v.symbol !in groups {
            order := order + [v.symbol];
          }
          groups := groups[v.symbol := GroupOf(groups, v.symbol) + [v]];
        }
      }
      AllGrouped(settings, groups, snapshots);
      NothingCounted(rejectCounts);
    }

    // One symbol of `evaluate_markets`: with fewer than two venues it is left alone.
    method EvaluateGroup(venues: seq<Snapshot>) returns (found: seq<Outcome>)
      requires Valid() && Priced(venues)
      modifies this
      ensures Valid() && found == GroupEmissions(settings, venues)
      ensures opportunitiesEmitted == old(opportunitiesEmitted) + |found|
      ensures scanRejections - old(scanRejections) + |found|
              == (pairsEvaluated - old(pairsEvaluated)) + if |venues| < 2 then 1 else 0
      ensures rejectCounts == Counted(old(rejectCounts), GroupCodes(settings, venues))
      ensures depthEdgesFound == old(depthEdgesFound) + GroupEdges(settings, venues)
    {
      hide Valid, Evaluate, SymbolEmissions, SymbolCodes, SymbolEdges, Counted, OrderedPairs;
      if |venues| < 2 {
        CountedOne(rejectCounts, "insufficient_venues");
        Reject("insufficient_venues");
        return [];
      }
      found := EvaluateSymbol(venues);
    }

    // `evaluate_markets`. Nothing is lost: every snapshot that was refused, every symbol left alone and
    // every pair that did not emit is one rejection.
    method EvaluateMarkets(snapshots: seq<Snapshot>) returns (found: seq<Outcome>)
      requires Valid()
      modifies this
      ensures Valid()
      ensures found == MarketEmissions(settings, Symbols(settings, snapshots, []), snapshots)
      ensures opportunitiesEmitted == old(opportunitiesEmitted) + |found|
      ensures scanRejections - old(scanRejections) + |found|
              == (pairsEvaluated - old(pairsEvaluated)) + Unusable(settings, snapshots)
                 + Lonely(settings, Symbols(settings, snapshots, []), snapshots)
      ensures rejectCounts
              == Counted(old(rejectCounts),
                         VenueCodes(settings, snapshots)
                         + MarketCodes(settings, Symbols(settings, snapshots, []), snapshots))
      ensures depthEdgesFound == old(depthEdgesFound) + MarketEdges(settings, Symbols(settings, snapshots, []), snapshots)
    {
      hide VenueCode, Valid, Evaluate, GroupEmissions, GroupCodes, GroupEdges, UsableFor, Symbols, Unusable, VenueCodes,
           Counted, MarketEmissions, MarketCodes, MarketEdges, Lonely;
      var order, groups := GroupValid(snapshots);
      CountedConcat(old(rejectCounts), VenueCodes(settings, snapshots), MarketCodes(settings, order, snapshots));
      ghost var grouped := rejectCounts;
      ghost var refused := scanRejections - old(scanRejections);
      found := [];
      assert order[0..] == order;
      for i := 0 to |order|
        invariant Valid()
        invariant found + MarketEmissions(settings, order[i..], snapshots) == MarketEmissions(settings, order, snapshots)
        invariant opportunitiesEmitted == old(opportunitiesEmitted) + |found|
        invariant scanRejections - old(scanRejections) + |found| + Lonely(settings, order[i..], snapshots)
                  == (pairsEvaluated - old(pairsEvaluated)) + refused + Lonely(settings, order, snapshots)
        invariant Counted(rejectCounts, MarketCodes(settings, order[i..], snapshots))
                  == Counted(grouped, MarketCodes(settings, order, snapshots))
        invariant depthEdgesFound + MarketEdges(settings, order[i..], snapshots)
                  == old(depthEdgesFound) + MarketEdges(settings, order, snapshots)
      {
        assert order[i] in order;
        MarketStep(settings, order, i, snapshots);
        var venues := groups[order[i]];
        ghost var later := MarketEmissions(settings, order[i + 1..], snapshots);
        CountedConcat(rejectCounts, GroupCodes(settings, venues), MarketCodes(settings, order[i + 1..], snapshots));
        var more := EvaluateGroup(venues);
        assert found + (more + later) == (found + more) + later;
        found := found + more;
      }
      MarketEnd(settings, order, snapshots);
      assert found + [] == found;
      NothingCounted(rejectCounts);
    }
  }
}
