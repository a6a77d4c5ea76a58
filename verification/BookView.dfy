// What readers see of a local order book: the materialized lists, the top of book, the liquidity sum,
// and the copy a consumer process rebuilds from a published view
// (bot/market_data/local_order_book.py, `to_order_book`, `best_bid`, `top_liquidity`;
//  bot/market_data/service.py, `apply_remote_book`).

module BookView {
  import opened Prelude
  import opened DepthWalk
  import opened BookSide
  import opened BookProtocol

  // The levels of a side at the given prices, in that order.
  function ListAt(m: Levels, prices: seq<real>): (ls: seq<Level>)
    requires forall i :: 0 <= i < |prices| ==> prices[i] in m
    ensures |ls| == |prices|
    ensures forall i :: 0 <= i < |prices| ==> ls[i] == Level(prices[i], m[prices[i]])
  {
    seq(|prices|, i requires 0 <= i < |prices| => Level(prices[i], m[prices[i]]))
  }

  // A side as a sorted list.
  function SideList(m: Levels, side: Side): (ls: seq<Level>)
    ensures |ls| == |m|
  {
    InOrderIn(m.Keys, side);
    ListAt(m, InOrder(m.Keys, side))
  }

  // The list is what the depth walks expect: best price first, no price twice.
  lemma ListedInTradingOrder(m: Levels, side: Side)
    ensures InTradingOrder(SideList(m, side), side)
    ensures forall i, j :: 0 <= i < j < |m| ==> SideList(m, side)[i].price != SideList(m, side)[j].price
    ensures forall i :: 0 <= i < |m| ==>
              SideList(m, side)[i].price in m && SideList(m, side)[i].amount == m[SideList(m, side)[i].price]
  {
    hide InOrder;
    InOrderMembers(m.Keys, side);
    InOrderIn(m.Keys, side);
  }

  datatype Published = Published(bids: seq<Level>, asks: seq<Level>, timestamp: int, nonce: Option<int>)

  function FirstLevels(ls: seq<Level>, limit: int): seq<Level>
    requires limit >= 0
  {
    if limit < |ls| then ls[..limit] else ls
  }

  function LimitFor(depth: nat, maxLevels: Option<int>): int
  {
    if maxLevels.None? then depth else if maxLevels.value >= 1 then maxLevels.value else 1
  }

  // A view sorted from the current maps, as if nothing had ever been cached.
  function FreshView(b: Book, depth: nat, maxLevels: Option<int>): Option<Published>
  {
    var limit := LimitFor(depth, maxLevels);
    var bids, asks := FirstLevels(SideList(b.bids, Sell), limit), FirstLevels(SideList(b.asks, Buy), limit);
    if !b.Synchronized() || bids == [] || asks == [] then None
    else Some(Published(bids, asks, b.timestamp, b.sequence))
  }

  // A synchronized book with both sides shows the best levels of each, so many as are asked for, at least one, and
  // up to its cap when nothing is said; no other book shows anything.
  lemma ViewShows(b: Book, depth: nat, maxLevels: Option<int>)
    requires depth >= 1
    ensures var view := FreshView(b, depth, maxLevels);
            var asked := if maxLevels.None? then depth else if maxLevels.value < 1 then 1 else maxLevels.value;
            var bids, asks := if asked < |b.bids| then asked else |b.bids|, if asked < |b.asks| then asked else |b.asks|;
            && (view.Some? <==> b.synchronized && !b.needsSnapshot && |b.bids| > 0 && |b.asks| > 0)
            && (view.Some? ==>
                  && view.value.bids == SideList(b.bids, Sell)[..bids] && view.value.asks == SideList(b.asks, Buy)[..asks]
                  && view.value.timestamp == b.timestamp && view.value.nonce == b.sequence)
  {
    hide SideList;
    assert SideList(b.bids, Sell)[..|b.bids|] == SideList(b.bids, Sell);
    assert SideList(b.asks, Buy)[..|b.asks|] == SideList(b.asks, Buy);
  }

  // ----- what every operation keeps -----

  predicate Sized(b: Book, depth: nat)
  {
    |b.bids| <= depth && |b.asks| <= depth
  }

  ghost predicate Positive(m: Levels)
  {
    forall p :: p in m ==> m[p] > 0.0
  }

  lemma {:induction false} LevelsStayPositive(m: Levels, levels: seq<Level>)
    requires Positive(m)
    ensures Positive(ApplyLevels(m, levels)) && Positive(FromSnapshot(m, levels))
    decreases |levels|
  {
    if levels != [] {
      LevelsStayPositive(ApplyLevel(m, levels[0]), levels[1..]);
      LevelsStayPositive(if levels[0].amount > 0.0 then m[levels[0].price := levels[0].amount] else m, levels[1..]);
    }
  }

  ghost predicate Held(b: Book, depth: nat)
  {
    Sized(b, depth) && Positive(b.bids) && Positive(b.asks)
  }

  lemma TrimmedIsHeld(m: Levels, side: Side, depth: nat)
    requires Positive(m)
    ensures Positive(Trim(m, side, depth)) && |Trim(m, side, depth)| <= depth
  {
    CutIsTrim(m, side, depth);
  }

  lemma ReactKeepsHeld(b: Book, depth: nat, e: Event)
    requires Held(b, depth)
    ensures Held(React(b, depth, e), depth)
  {
    hide ApplyLevels, FromSnapshot, Trim, Positive;
    if e.Message? {
      var u := e.update;
      NothingIsPositive();
      LevelsStayPositive(map[], u.bids);
      LevelsStayPositive(map[], u.asks);
      LevelsStayPositive(b.bids, u.bids);
      LevelsStayPositive(b.asks, u.asks);
      TrimmedIsHeld(FromSnapshot(map[], u.bids), Sell, depth);
      TrimmedIsHeld(FromSnapshot(map[], u.asks), Buy, depth);
      TrimmedIsHeld(ApplyLevels(b.bids, u.bids), Sell, depth);
      TrimmedIsHeld(ApplyLevels(b.asks, u.asks), Buy, depth);
    }
  }

  lemma NothingIsPositive()
    ensures Positive(map[])
  {
  }

  // Because no side is larger than the cap, asking for the cap or more is asking for everything: one
  // cached view serves all such requests.
  lemma DeepViewsAgree(b: Book, depth: nat, maxLevels: Option<int>)
    requires Sized(b, depth) && LimitFor(depth, maxLevels) >= depth
    ensures FreshView(b, depth, maxLevels) == FreshView(b, depth, None)
  {
  }

  // ----- top of book and liquidity -----

  // `best_bid` / `best_ask`
  function TopOf(m: Levels, side: Side): Option<Level>
  {
    if |m.Keys| == 0 then None else Some(Level(Best(m.Keys, side), m[Best(m.Keys, side)]))
  }

  // The tops are the heads of every view.
  lemma ViewHeads(b: Book, depth: nat, maxLevels: Option<int>)
    requires depth >= 1 && FreshView(b, depth, maxLevels).Some?
    ensures var view := FreshView(b, depth, maxLevels).value;
            TopOf(b.bids, Sell) == Some(view.bids[0]) && TopOf(b.asks, Buy) == Some(view.asks[0])
  {
  }

  // Python's `prices[:limit]`.
  function SliceEnd(length: nat, limit: int): nat
  {
    if limit >= length then length else if limit >= 0 then limit else if length + limit >= 0 then length + limit else 0
  }

  // It keeps the first `limit`, or all but the last `-limit`.
  lemma SliceKeeps(length: nat, limit: int)
    ensures limit >= 0 ==> SliceEnd(length, limit) == if limit <= length then limit else length
    ensures limit < 0 ==> SliceEnd(length, limit) == if -limit <= length then length - (-limit) else 0
  {
  }

  lemma {:induction false} TotalInOrder(keys: set<real>, m: Levels, side: Side)
    requires keys <= m.Keys
    ensures forall i :: 0 <= i < |keys| ==> InOrder(keys, side)[i] in m
    ensures TotalOver(keys, m) == SideDepth(ListAt(m, InOrder(keys, side)))
    decreases |keys|
  {
    InOrderIn(keys, side);
    if |keys| == 0 {
      assert keys == {};
    } else {
      var p := Best(keys, side);
      TotalOverAt(keys, m, p);
      TotalInOrder(keys - {p}, m, side);
      assert ListAt(m, InOrder(keys, side))[1..] == ListAt(m, InOrder(keys - {p}, side));
    }
  }

  // The liquidity sum is a prefix sum of the ask list, the whole of it when the limit is large enough.
  lemma LiquidityIsPrefixSum(asks: Levels, limit: int)
    ensures limit >= |asks| ==> Total(asks) == SideDepth(SideList(asks, Buy)[..SliceEnd(|asks|, limit)])
  {
    TotalInOrder(asks.Keys, asks, Buy);
    assert SideList(asks, Buy)[..|asks|] == SideList(asks, Buy);
  }

  lemma TopHasRankZero(m: Levels, side: Side, p: real)
    requires p in m
    ensures Rank(m.Keys, side, p) < 1 <==> TopOf(m, side) == Some(Level(p, m[p]))
  {
    var ahead, best := Ahead(m.Keys, side, p), Best(m.Keys, side);
    if p == best {
      assert ahead == {};
    } else {
      assert best in ahead;
    }
  }

  // Sides whose best level is the same have the same top.
  lemma SameTop(a: Levels, b: Levels, side: Side)
    requires Trim(a, side, 1) == Trim(b, side, 1)
    ensures TopOf(a, side) == TopOf(b, side)
  {
    hide Rank;
    CutIsTrim(a, side, 1);
    CutIsTrim(b, side, 1);
    if |a.Keys| != 0 {
      var p := Best(a.Keys, side);
      TopHasRankZero(a, side, p);
      assert p in Trim(a, side, 1) && p in Trim(b, side, 1);
      TopHasRankZero(b, side, p);
    }
  }

  // What strategies rely on: while synchronized, and as long as fewer deletions have hit held levels than
  // there are levels in the cap, the best bid and the best ask are the venue's own.
  lemma TopOfBookIsExact(market: string, timestamp: int, depth: nat, side: Side, venue: Venue, events: seq<Event>)
    requires forall e :: e in events ==> Truthful(e, venue)
    requires Feed(EmptyBook(market, timestamp), depth, events).Synchronized()
    requires CostAlong(EmptyBook(market, timestamp), depth, side, Cost(0, false), events).lost < depth
    ensures var b := Feed(EmptyBook(market, timestamp), depth, events);
            b.sequence.Some? && TopOf(b.SideOf(side), side) == TopOf(venue(b.sequence.value).SideOf(side), side)
  {
    hide Feed, CostAlong, Truthful, Trim;
    BookTheorem(market, timestamp, depth, side, venue, events, 1);
    var b := Feed(EmptyBook(market, timestamp), depth, events);
    SameTop(b.SideOf(side), venue(b.sequence.value).SideOf(side), side);
  }

  // ----- publishing and rebuilding -----

  ghost predicate Distinct(ls: seq<Level>)
  {
    && (forall i, j :: 0 <= i < j < |ls| ==> ls[i].price != ls[j].price)
    && (forall i :: 0 <= i < |ls| ==> ls[i].amount > 0.0)
  }

  ghost predicate Lists(ls: seq<Level>, p: real)
  {
    exists i :: 0 <= i < |ls| && ls[i].price == p
  }

  // What a snapshot of sized levels at different prices holds at a price.
  lemma {:induction false} SnapshotAt(acc: Levels, ls: seq<Level>, p: real)
    requires Distinct(ls)
    ensures var m := FromSnapshot(acc, ls);
            && (p in m <==> p in acc || Lists(ls, p))
            && (forall i :: 0 <= i < |ls| && ls[i].price == p ==> p in m && m[p] == ls[i].amount)
            && (!Lists(ls, p) && p in acc ==> m[p] == acc[p])
    decreases |ls|
  {
    if ls != [] {
      var first, rest := ls[0], ls[1..];
      SnapshotAt(acc[first.price := first.amount], rest, p);
      if Lists(rest, p) {
        var i :| 0 <= i < |rest| && rest[i].price == p;
        assert ls[i + 1].price == p;
      }
      if Lists(ls, p) && first.price != p {
        var i :| 0 <= i < |ls| && ls[i].price == p;
        assert rest[i - 1].price == p;
      }
      forall i | 0 <= i < |ls| && ls[i].price == p ensures i > 0 ==> rest[i - 1].price == p {}
    }
  }

  // A published list read back as a snapshot is the side it was made from.
  lemma ListRoundTrip(m: Levels, side: Side)
    requires Positive(m)
    ensures FromSnapshot(map[], SideList(m, side)) == m
  {
    var ls := SideList(m, side);
    ListedInTradingOrder(m, side);
    ListCovers(m, side);
    hide SideList, FromSnapshot;
    forall p ensures p in FromSnapshot(map[], ls) <==> p in m {
      SnapshotAt(map[], ls, p);
    }
    forall p | p in m ensures FromSnapshot(map[], ls)[p] == m[p] {
      SnapshotAt(map[], ls, p);
      var i :| 0 <= i < |ls| && ls[i].price == p;
    }
  }

  lemma ListCovers(m: Levels, side: Side)
    ensures forall p :: p in m <==> Lists(SideList(m, side), p)
  {
    InOrderMembers(m.Keys, side);
    InOrderIn(m.Keys, side);
    hide InOrder;
    var s, ls := InOrder(m.Keys, side), SideList(m, side);
    forall p ensures p in m <==> Lists(ls, p) {
      if p in m {
        assert p in s;
        var i :| 0 <= i < |s| && s[i] == p;
        assert ls[i].price == p;
      }
    }
  }

  // The shortcut of `apply_remote_book`: an unchanged snapshot, judged by number, time and size.
  predicate LooksUnchanged(local: Book, p: Published)
  {
    && local.Synchronized() && local.sequence == p.nonce && local.timestamp == p.timestamp
    && |local.bids| == |p.bids| && |local.asks| == |p.asks|
  }

  function ApplyRemote(local: Book, depth: nat, p: Published): Book
  {
    if LooksUnchanged(local, p) then local
    else
      ApplySnapshot(local, depth, Update(local.market, p.bids, p.asks, true, p.nonce, None, p.timestamp)).value
  }

  // Exactly when a consumer with room for the published levels shows what the publisher shows: when the
  // shortcut does not fire, or fires on a book that really is unchanged.
  lemma RemoteCopyIff(local: Book, depth: nat, source: Book, sourceDepth: nat)
    requires Held(local, depth) && Held(source, sourceDepth) && Sized(source, depth)
    requires FreshView(source, sourceDepth, None).Some?
    ensures var p := FreshView(source, sourceDepth, None).value;
            FreshView(ApplyRemote(local, depth, p), depth, None) == Some(p)
            <==> || !(local.synchronized && !local.needsSnapshot && local.sequence == source.sequence
                      && local.timestamp == source.timestamp
                      && |local.bids| == |source.bids| && |local.asks| == |source.asks|)
                 || (local.bids == source.bids && local.asks == source.asks)
  {
    hide SideList, FromSnapshot, Rank;
    var p := FreshView(source, sourceDepth, None).value;
    assert p.bids == SideList(source.bids, Sell) && p.asks == SideList(source.asks, Buy);
    ListRoundTrip(source.bids, Sell);
    ListRoundTrip(source.asks, Buy);
    ListRoundTrip(local.bids, Sell);
    ListRoundTrip(local.asks, Buy);
    CutIsTrim(source.bids, Sell, depth);
    CutIsTrim(source.asks, Buy, depth);
  }

  // The shortcut does misjudge: on a venue without sequence numbers, two books of the same time and size.
  lemma ShortcutCanBeStale(market: string)
    ensures var source := Book(market, map[9.0 := 1.0], map[10.0 := 1.0], None, true, false, 0, 0);
            var local := source.(asks := map[11.0 := 1.0]);
            && Held(source, 1) && Held(local, 1) && FreshView(source, 1, None).Some?
            && LooksUnchanged(local, FreshView(source, 1, None).value)
            && local.asks != source.asks
  {
    var source := Book(market, map[9.0 := 1.0], map[10.0 := 1.0], None, true, false, 0, 0);
    assert 10.0 in source.asks && 9.0 in source.bids;
    assert |source.bids| == 1 && |source.asks| == 1;
    assert 10.0 !in source.(asks := map[11.0 := 1.0]).asks;
  }
}
