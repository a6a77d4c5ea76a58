// What a scan of the markets finds and counts, told from the snapshots: which snapshots may be used, which
// pairs are tried, what is reported, and how often each reason is counted
// (bot/strategies/arbitrage.py, `_venue_rejection_reason`, `evaluate_markets`).

module ScanMeaning {
  import opened Prelude
  import opened DepthWalk
  import opened Arbitrage
  import opened ArbitrageScan

  // ----- one snapshot -----

  // The first fault of a snapshot.
  ghost predicate FaultIs(s: ArbitrageSettings, v: Snapshot, code: Option<string>)
  {
    if v.exchange == "" then code == Some("missing_exchange")
    else if v.book.None? then code == Some("missing_order_book")
    else
      var asks, bids := v.book.value.asks, v.book.value.bids;
      if |asks| == 0 || |bids| == 0 then code == Some("empty_book")
      else if SideDepth(asks) < s.minLiquidity || SideDepth(bids) < s.minLiquidity then
        code == Some("insufficient_liquidity")
      else if v.latencyMs.Some? && s.maxLatencyMs < v.latencyMs.value then code == Some("latency")
      else if s.maxBookAgeMs < v.ageMs then code == Some("stale_book")
      else code == None
  }

  lemma FaultOfVenue(s: ArbitrageSettings, v: Snapshot)
    ensures FaultIs(s, v, VenueCode(s, v))
  {
    hide SideDepth;
  }

  // A snapshot may be used exactly when it names its exchange, has a book with both sides, each with the least
  // size, and is neither late nor old.
  lemma UsableIff(s: ArbitrageSettings, v: Snapshot)
    ensures Usable(s, v)
            <==> && v.exchange != "" && v.book.Some?
                 && v.book.value.asks != [] && v.book.value.bids != []
                 && s.minLiquidity <= SideDepth(v.book.value.asks) && s.minLiquidity <= SideDepth(v.book.value.bids)
                 && (v.latencyMs.Some? ==> v.latencyMs.value <= s.maxLatencyMs) && v.ageMs <= s.maxBookAgeMs
  {
    hide SideDepth;
  }

  // ----- the groups -----

  lemma {:induction false} InUsableFor(s: ArbitrageSettings, symbol: string, snapshots: seq<Snapshot>, v: Snapshot)
    ensures v in UsableFor(s, symbol, snapshots) <==> v in snapshots && Usable(s, v) && v.symbol == symbol
  {
    hide Usable;
    if snapshots != [] { InUsableFor(s, symbol, snapshots[1..], v); }
  }

  ghost predicate AllDifferent(symbols: seq<string>)
  {
    forall i, j :: 0 <= i < j < |symbols| ==> symbols[i] != symbols[j]
  }

  // The symbols are those with a usable snapshot, each once.
  lemma {:induction false} SymbolsAre(s: ArbitrageSettings, snapshots: seq<Snapshot>, seen: seq<string>)
    requires AllDifferent(seen)
    ensures AllDifferent(Symbols(s, snapshots, seen))
    ensures forall k :: k in Symbols(s, snapshots, seen)
                        <==> || k in seen
                             || exists i :: 0 <= i < |snapshots| && Usable(s, snapshots[i]) && snapshots[i].symbol == k
    decreases |snapshots|
  {
    hide Usable;
    if snapshots != [] {
      var v, rest := snapshots[0], snapshots[1..];
      var next := if Usable(s, v) && v.symbol !in seen then seen + [v.symbol] else seen;
      SymbolsAre(s, rest, next);
      forall k
        ensures k in Symbols(s, snapshots, seen)
                <==> k in seen || exists i :: 0 <= i < |snapshots| && Usable(s, snapshots[i]) && snapshots[i].symbol == k
      {
        if i :| 0 <= i < |rest| && Usable(s, rest[i]) && rest[i].symbol == k {
          assert snapshots[i + 1] == rest[i];
        }
        if i :| 0 <= i < |snapshots| && Usable(s, snapshots[i]) && snapshots[i].symbol == k {
          if i > 0 { assert rest[i - 1] == snapshots[i]; }
        }
      }
    }
  }

  // ----- what is reported -----

  ghost predicate FromSymbol(s: ArbitrageSettings, k: string, snapshots: seq<Snapshot>, o: Outcome)
  {
    var venues := UsableFor(s, k, snapshots);
    |venues| >= 2 && o in SymbolEmissions(s, venues, venues)
  }

  lemma {:induction false} InMarketEmissions(s: ArbitrageSettings, symbols: seq<string>, snapshots: seq<Snapshot>,
                                             o: Outcome)
    ensures o in MarketEmissions(s, symbols, snapshots) <==> exists k :: k in symbols && FromSymbol(s, k, snapshots, o)
    decreases |symbols|
  {
    hide SymbolEmissions, UsableFor;
    if symbols != [] {
      InMarketEmissions(s, symbols[1..], snapshots, o);
      assert forall k :: k in symbols <==> k == symbols[0] || k in symbols[1..];
      assert FromSymbol(s, symbols[0], snapshots, o)
             <==> |UsableFor(s, symbols[0], snapshots)| >= 2
                  && o in SymbolEmissions(s, UsableFor(s, symbols[0], snapshots), UsableFor(s, symbols[0], snapshots));
    }
  }

  // Both books are usable, of one symbol, and trying the pair reports the outcome.
  ghost predicate Reported(s: ArbitrageSettings, buy: Snapshot, sell: Snapshot, o: Outcome)
  {
    && Usable(s, buy) && Usable(s, sell) && buy.symbol == sell.symbol
    && buy.book.Some? && sell.book.Some? && Evaluate(s, buy, sell) == o
  }

  // The scan theorem. Whatever the order and the number of the snapshots: an opportunity is reported exactly when
  // some two of the usable snapshots of one symbol, tried as buyer and seller, give it.
  lemma ScanTheorem(s: ArbitrageSettings, snapshots: seq<Snapshot>, o: Outcome)
    ensures o in MarketEmissions(s, Symbols(s, snapshots, []), snapshots)
            <==> o.Emitted? && exists buy, sell :: buy in snapshots && sell in snapshots && Reported(s, buy, sell, o)
  {
    hide Evaluate, UsableFor, SymbolEmissions, Symbols, MarketEmissions, Usable;
    var symbols := Symbols(s, snapshots, []);
    InMarketEmissions(s, symbols, snapshots, o);
    SymbolsAre(s, snapshots, []);
    if k :| k in symbols && FromSymbol(s, k, snapshots, o) {
      var venues := UsableFor(s, k, snapshots);
      EmittedIff(s, venues, venues, o);
      var i, j :| 0 <= i < |venues| && 0 <= j < |venues| && Evaluate(s, venues[i], venues[j]) == o;
      InUsableFor(s, k, snapshots, venues[i]);
      InUsableFor(s, k, snapshots, venues[j]);
      assert Reported(s, venues[i], venues[j], o);
    }
    if o.Emitted? {
      if buy, sell :| buy in snapshots && sell in snapshots && Reported(s, buy, sell, o) {
        ReportedIsFound(s, snapshots, buy, sell, o);
      }
    }
  }

  lemma ReportedIsFound(s: ArbitrageSettings, snapshots: seq<Snapshot>, buy: Snapshot, sell: Snapshot, o: Outcome)
    requires buy in snapshots && sell in snapshots && Reported(s, buy, sell, o) && o.Emitted?
    ensures o in MarketEmissions(s, Symbols(s, snapshots, []), snapshots)
  {
    hide Evaluate, UsableFor, SymbolEmissions, Symbols, MarketEmissions, Usable;
    var symbols, k := Symbols(s, snapshots, []), buy.symbol;
    var venues := UsableFor(s, k, snapshots);
    InMarketEmissions(s, symbols, snapshots, o);
    SymbolsAre(s, snapshots, []);
    InUsableFor(s, k, snapshots, buy);
    InUsableFor(s, k, snapshots, sell);
    assert k in symbols;
    var i :| 0 <= i < |venues| && venues[i] == buy;
    var j :| 0 <= j < |venues| && venues[j] == sell;
    EmittedIff(s, venues, venues, o);
    OthersOnly(s, buy, sell);
    assert |venues| >= 2;
    assert FromSymbol(s, k, snapshots, o);
  }

  // A venue is not tried against itself.
  lemma OthersOnly(s: ArbitrageSettings, buy: Snapshot, sell: Snapshot)
    requires buy.book.Some? && sell.book.Some?
    ensures Evaluate(s, buy, sell).Skipped? <==> buy.exchange == sell.exchange
  {
    hide Build;
  }

  // ----- what is counted -----

  // Each code is counted as often as it is given.
  lemma {:induction false} CountedMeans(counts: map<string, nat>, codes: seq<string>, code: string)
    ensures CountOf(Counted(counts, codes), code) == CountOf(counts, code) + multiset(codes)[code]
    decreases |codes|
  {
    if codes != [] {
      var next := counts[codes[0] := CountOf(counts, codes[0]) + 1];
      CountedMeans(next, codes[1..], code);
      assert codes == [codes[0]] + codes[1..];
    }
  }

  function Faulty(s: ArbitrageSettings, snapshots: seq<Snapshot>): set<int>
  {
    set i | 0 <= i < |snapshots| && VenueCode(s, snapshots[i]).Some?
  }

  // The snapshots that are refused, each with its fault.
  lemma {:induction false} VenueCodesAre(s: ArbitrageSettings, snapshots: seq<Snapshot>)
    ensures |VenueCodes(s, snapshots)| == Unusable(s, snapshots)
            == |Faulty(s, snapshots)|
    ensures forall code :: code in VenueCodes(s, snapshots)
                           <==> exists i :: 0 <= i < |snapshots| && VenueCode(s, snapshots[i]) == Some(code)
  {
    hide VenueCode;
    if snapshots != [] {
      var rest := snapshots[1..];
      VenueCodesAre(s, rest);
      FaultyCount(s, snapshots);
      assert forall i :: 0 <= i < |rest| ==> rest[i] == snapshots[i + 1];
      forall code
        ensures code in VenueCodes(s, snapshots)
                <==> exists i :: 0 <= i < |snapshots| && VenueCode(s, snapshots[i]) == Some(code)
      {
        if i :| 0 <= i < |snapshots| && VenueCode(s, snapshots[i]) == Some(code) {
          if i > 0 { assert VenueCode(s, rest[i - 1]) == Some(code); }
        }
      }
    }
  }

  lemma FaultyCount(s: ArbitrageSettings, snapshots: seq<Snapshot>)
    requires snapshots != []
    ensures |Faulty(s, snapshots)|
            == (if VenueCode(s, snapshots[0]).Some? then 1 else 0) + |Faulty(s, snapshots[1..])|
  {
    hide VenueCode, Faulty;
    var all, rest := Faulty(s, snapshots), snapshots[1..];
    forall i ensures i in all - {0} <==> i - 1 in Faulty(s, rest) { FaultyShift(s, snapshots, i); }
    ShiftKeepsSize(Faulty(s, rest), all - {0});
    FaultyShift(s, snapshots, 0);
    if 0 in all { assert all == (all - {0}) + {0}; } else { assert all == all - {0}; }
  }

  lemma FaultyShift(s: ArbitrageSettings, snapshots: seq<Snapshot>, i: int)
    requires snapshots != []
    ensures i in Faulty(s, snapshots) && i != 0 <==> i - 1 in Faulty(s, snapshots[1..])
    ensures 0 in Faulty(s, snapshots) <==> VenueCode(s, snapshots[0]).Some?
  {
    hide VenueCode;
    if 0 < i < |snapshots| { assert snapshots[1..][i - 1] == snapshots[i]; }
  }

  lemma {:induction false} ShiftKeepsSize(a: set<int>, b: set<int>)
    requires forall i :: i in b <==> i - 1 in a
    ensures |a| == |b|
    decreases |a|
  {
    if exists x :: x in a {
      var x :| x in a;
      assert x + 1 in b;
      ShiftKeepsSize(a - {x}, b - {x + 1});
    } else {
      assert forall x :: x in b ==> x - 1 in a;
      assert b == {} && a == {};
    }
  }

  // ----- the funnel -----

  // A pair gets as far as a candidate exactly when it is reported or dropped as unprofitable.
  lemma EdgeOrUnprofitable(s: ArbitrageSettings, buy: Snapshot, sell: Snapshot)
    requires buy.book.Some? && sell.book.Some?
    ensures var o := Evaluate(s, buy, sell);
            && (o.Dropped? ==> (o.edge <==> o.code == "profitability"))
            && (o.Emitted? || (o.Dropped? && o.edge) <==> buy.exchange != sell.exchange && Build(s, buy, sell).Found?)
  {
    hide WalkFill, SideDepth;
    if Build(s, buy, sell).Found? { LaterGatesAreDead(s, Build(s, buy, sell).candidate); }
    assert |OVERLAP| != |"profitability"| && |NO_DEPTH| != |"profitability"|;
    assert NO_EDGE[0] != "profitability"[0];
  }

  lemma {:induction false} PairFunnel(s: ArbitrageSettings, buy: Snapshot, sells: seq<Snapshot>)
    requires buy.book.Some? && Priced(sells)
    ensures PairEdges(s, buy, sells)
            == |PairEmissions(s, buy, sells)| + multiset(PairCodes(s, buy, sells))["profitability"]
    ensures OtherVenues(buy.exchange, sells) == |PairEmissions(s, buy, sells)| + |PairCodes(s, buy, sells)|
  {
    hide Evaluate;
    if sells != [] {
      var o := Evaluate(s, buy, sells[0]);
      EdgeOrUnprofitable(s, buy, sells[0]);
      OthersOnly(s, buy, sells[0]);
      PairFunnel(s, buy, sells[1..]);
    }
  }

  lemma {:induction false} SymbolFunnel(s: ArbitrageSettings, buys: seq<Snapshot>, venues: seq<Snapshot>)
    requires Priced(buys) && Priced(venues)
    ensures SymbolEdges(s, buys, venues)
            == |SymbolEmissions(s, buys, venues)| + multiset(SymbolCodes(s, buys, venues))["profitability"]
    ensures OrderedPairs(buys, venues) == |SymbolEmissions(s, buys, venues)| + |SymbolCodes(s, buys, venues)|
  {
    hide PairEdges, PairEmissions, PairCodes, OtherVenues;
    if buys != [] {
      PairFunnel(s, buys[0], venues);
      SymbolFunnel(s, buys[1..], venues);
    }
  }

  // The depth edges that a scan counts are the opportunities it reports and the pairs it drops as unprofitable.
  lemma {:induction false} ScanFunnel(s: ArbitrageSettings, symbols: seq<string>, snapshots: seq<Snapshot>)
    ensures MarketEdges(s, symbols, snapshots)
            == |MarketEmissions(s, symbols, snapshots)| + multiset(MarketCodes(s, symbols, snapshots))["profitability"]
    decreases |symbols|
  {
    hide UsableFor, SymbolEdges, SymbolEmissions, SymbolCodes;
    if symbols != [] {
      var venues := UsableFor(s, symbols[0], snapshots);
      SymbolFunnel(s, venues, venues);
      ScanFunnel(s, symbols[1..], snapshots);
      assert |"insufficient_venues"| != |"profitability"|;
    }
  }

  // ----- how many pairs are tried -----

  // The exchange stands at this place and nowhere else.
  ghost predicate OnlyAt(exchange: string, venues: seq<Snapshot>, i: int)
  {
    && 0 <= i < |venues| && venues[i].exchange == exchange
    && forall j :: 0 <= j < |venues| && j != i ==> venues[j].exchange != exchange
  }

  lemma {:induction false} AllOthers(exchange: string, venues: seq<Snapshot>)
    requires forall j :: 0 <= j < |venues| ==> venues[j].exchange != exchange
    ensures OtherVenues(exchange, venues) == |venues|
  {
    if venues != [] { AllOthers(exchange, venues[1..]); }
  }

  lemma {:induction false} AllOthersButOne(exchange: string, venues: seq<Snapshot>, i: int)
    requires OnlyAt(exchange, venues, i)
    ensures OtherVenues(exchange, venues) == |venues| - 1
  {
    var rest := venues[1..];
    if i == 0 { AllOthers(exchange, rest); } else { AllOthersButOne(exchange, rest, i - 1); }
  }

  lemma {:induction false} PairsAre(buys: seq<Snapshot>, venues: seq<Snapshot>, others: nat)
    requires forall i :: 0 <= i < |buys| ==> OtherVenues(buys[i].exchange, venues) == others
    ensures OrderedPairs(buys, venues) == |buys| * others
  {
    hide OtherVenues;
    if buys != [] {
      PairsAre(buys[1..], venues, others);
      assert |buys| * others == others + (|buys| - 1) * others;
    }
  }

  // With one book from each of n exchanges, each is tried against every other one.
  lemma EveryPairIsTried(venues: seq<Snapshot>)
    requires forall i, j :: 0 <= i < j < |venues| ==> venues[i].exchange != venues[j].exchange
    ensures OrderedPairs(venues, venues) == |venues| * (|venues| - 1)
  {
    if venues != [] {
      forall i | 0 <= i < |venues| ensures OtherVenues(venues[i].exchange, venues) == |venues| - 1 {
        AllOthersButOne(venues[i].exchange, venues, i);
      }
      PairsAre(venues, venues, |venues| - 1);
    }
  }

  predicate Alone(s: ArbitrageSettings, k: string, snapshots: seq<Snapshot>) { |UsableFor(s, k, snapshots)| < 2 }

  function AloneAmong(s: ArbitrageSettings, symbols: seq<string>, snapshots: seq<Snapshot>): set<string>
  {
    set k | k in symbols && Alone(s, k, snapshots)
  }

  // A symbol is left alone exactly when it has a single usable snapshot.
  lemma {:induction false} LonelyAre(s: ArbitrageSettings, symbols: seq<string>, snapshots: seq<Snapshot>)
    requires AllDifferent(symbols)
    ensures Lonely(s, symbols, snapshots) == |AloneAmong(s, symbols, snapshots)|
    decreases |symbols|
  {
    hide UsableFor, AloneAmong, Alone;
    if symbols != [] {
      LonelyAre(s, symbols[1..], snapshots);
      AloneStep(s, symbols, snapshots);
      IsAlone(s, symbols[0], snapshots);
    } else {
      NoneAlone(s, snapshots);
    }
  }

  lemma IsAlone(s: ArbitrageSettings, k: string, snapshots: seq<Snapshot>)
    ensures Alone(s, k, snapshots) <==> |UsableFor(s, k, snapshots)| < 2
  {
  }

  lemma NoneAlone(s: ArbitrageSettings, snapshots: seq<Snapshot>)
    ensures AloneAmong(s, [], snapshots) == {}
  {
  }

  lemma AloneStep(s: ArbitrageSettings, symbols: seq<string>, snapshots: seq<Snapshot>)
    requires symbols != [] && AllDifferent(symbols)
    ensures |AloneAmong(s, symbols, snapshots)|
            == |AloneAmong(s, symbols[1..], snapshots)| + if Alone(s, symbols[0], snapshots) then 1 else 0
  {
    hide Alone;
    var first, rest := symbols[0], symbols[1..];
    var later, all := AloneAmong(s, rest, snapshots), AloneAmong(s, symbols, snapshots);
    assert forall k :: k in symbols <==> k == first || k in rest;
    assert first !in rest;
    assert all == if Alone(s, first, snapshots) then later + {first} else later;
  }

  // And each of them is counted.
  lemma {:induction false} LonelyAreCounted(s: ArbitrageSettings, symbols: seq<string>, snapshots: seq<Snapshot>)
    ensures Lonely(s, symbols, snapshots) <= multiset(MarketCodes(s, symbols, snapshots))["insufficient_venues"]
    decreases |symbols|
  {
    hide UsableFor, SymbolCodes;
    if symbols != [] { LonelyAreCounted(s, symbols[1..], snapshots); }
  }
}
