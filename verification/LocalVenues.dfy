// The books that the arbitrage scan reads are the local ones (bot/market_data/local_order_book.py feeding
// bot/strategies/arbitrage.py). That they are in trading order and not crossed need not be assumed of them: it
// follows from what the venues do.

module LocalVenues {
  import opened Prelude
  import opened DepthWalk
  import opened PaperExecution
  import opened BookSide
  import opened BookProtocol
  import opened BookView
  import opened Arbitrage

  // A local book of a venue: the messages that have reached it, and how much of it is shown.
  datatype LocalVenue = LocalVenue(
    exchange: string,
    market: string,
    since: int,
    depth: nat,
    maxLevels: Option<int>,
    venue: Venue,
    events: seq<Event>,
    latencyMs: Option<real>,
    ageMs: real
  )
  {
    function Local(): Book { Feed(EmptyBook(market, since), depth, events) }

    function View(): Option<Published> { FreshView(Local(), depth, maxLevels) }

    // As the strategy sees it.
    function Seen(): Snapshot
      requires View().Some?
    {
      Snapshot(market, exchange, Some(OrderBook(View().value.bids, View().value.asks)), latencyMs, ageMs)
    }
  }

  // At no moment does the venue bid more than it asks.
  ghost predicate Uncrossed(venue: Venue)
  {
    forall n :: ApartAt(venue, n)
  }

  ghost predicate ApartAt(venue: Venue, n: int)
  {
    forall p, q :: p in venue(n).bids && q in venue(n).asks ==> p <= q
  }

  ghost predicate Honest(l: LocalVenue)
  {
    Uncrossed(l.venue) && forall e :: e in l.events ==> Truthful(e, l.venue)
  }

  // Whatever is lost, repeated or reordered on the way, whatever the cap has cut, and however much of it is
  // asked for: what a synchronized local book shows of such a venue is orderly.
  lemma ViewIsOrderly(l: LocalVenue)
    requires Honest(l) && l.View().Some?
    ensures OrderlyVenue(l.Seen())
  {
    hide Feed, SideList, CostAlong, Truthful, InTradingOrder, Trim;
    var b, view := l.Local(), l.View().value;
    NeverCrossed(l.market, l.since, l.depth, l.venue, l.events);
    ListedInTradingOrder(b.bids, Sell);
    ListedInTradingOrder(b.asks, Buy);
    FirstInTradingOrder(SideList(b.bids, Sell), LimitFor(l.depth, l.maxLevels), Sell);
    FirstInTradingOrder(SideList(b.asks, Buy), LimitFor(l.depth, l.maxLevels), Buy);
    assert view.bids[0].price in b.bids && view.asks[0].price in b.asks;
  }

  // While synchronized the two sides show one and the same book of the venue, so they are not crossed either.
  lemma NeverCrossed(market: string, timestamp: int, depth: nat, venue: Venue, events: seq<Event>)
    requires Uncrossed(venue) && forall e :: e in events ==> Truthful(e, venue)
    ensures var b := Feed(EmptyBook(market, timestamp), depth, events);
            b.Synchronized() ==> forall p, q :: p in b.bids && q in b.asks ==> p <= q
  {
    hide Feed, CostAlong, Truthful, Trim;
    BookTheorem(market, timestamp, depth, Sell, venue, events, 0);
    BookTheorem(market, timestamp, depth, Buy, venue, events, 0);
    var b := Feed(EmptyBook(market, timestamp), depth, events);
    if b.Synchronized() {
      var full := venue(b.sequence.value);
      assert b.SideOf(Sell) == b.bids && full.SideOf(Sell) == full.bids;
      assert b.SideOf(Buy) == b.asks && full.SideOf(Buy) == full.asks;
      assert ApartAt(venue, b.sequence.value);
      forall p, q | p in b.bids && q in b.asks ensures p <= q {
        assert p in full.bids && q in full.asks;
      }
    }
  }

  lemma FirstInTradingOrder(ls: seq<Level>, limit: int, side: Side)
    requires limit >= 0 && InTradingOrder(ls, side)
    ensures InTradingOrder(FirstLevels(ls, limit), side)
  {
  }

  // So the candidate graph over local books has no cycle, with nothing assumed of the books themselves.
  lemma LocalCandidatesAcyclic(s: ArbitrageSettings, chain: seq<LocalVenue>)
    requires Sensible(s) && |chain| >= 2
    requires forall l :: l in chain ==> Honest(l) && l.View().Some?
    requires forall i :: 0 <= i < |chain| - 1 ==> IsEdge(s, chain[i].Seen(), chain[i + 1].Seen())
    ensures chain[0].View().value.bids != [] && chain[|chain| - 1].View().value.bids != []
    ensures chain[0].View().value.bids[0].price < chain[|chain| - 1].View().value.bids[0].price
    ensures chain[0].View() != chain[|chain| - 1].View()
  {
    hide Honest, IsEdge, OrderlyVenue, Feed, FreshView;
    var books := seq(|chain|, i requires 0 <= i < |chain| => chain[i].Seen());
    forall v | v in books ensures OrderlyVenue(v) {
      var i :| 0 <= i < |chain| && books[i] == v;
      ViewIsOrderly(chain[i]);
    }
    forall i | 0 <= i < |books| - 1 ensures IsEdge(s, books[i], books[i + 1]) {
      assert books[i] == chain[i].Seen() && books[i + 1] == chain[i + 1].Seen();
    }
    ViewIsOrderly(chain[0]);
    ViewIsOrderly(chain[|chain| - 1]);
    OrderlyHasBids(chain[0].Seen());
    OrderlyHasBids(chain[|chain| - 1].Seen());
    CandidatesAcyclic(s, books);
  }

  lemma OrderlyHasBids(v: Snapshot)
    requires OrderlyVenue(v)
    ensures v.book.value.bids != []
  {
  }
}
