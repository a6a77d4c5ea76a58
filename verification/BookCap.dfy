// The depth cap on its own: a capped book against the same feed applied without a cap. Nothing is asked of the
// messages: with or without sequence numbers, true or false, for this market or another
// (bot/market_data/local_order_book.py, `_trim_depth`).

module BookCap {
  import opened DepthWalk
  import opened BookSide
  import opened BookProtocol
  import opened BookView

  // The reaction of a book that never trims.
  function ReactUncapped(b: Book, e: Event): Book
  {
    match e
    case Disconnect => Desynchronized(b)
    case Message(u) =>
      if u.isSnapshot then
        if u.market != b.market then b
        else
          b.(bids := FromSnapshot(map[], u.bids), asks := FromSnapshot(map[], u.asks), sequence := u.sequence,
             timestamp := u.timestamp, synchronized := true, needsSnapshot := false)
      else if b.needsSnapshot || !b.synchronized then Desynchronized(b)
      else
        match Judge(b.sequence, u)
        case Gap => Desynchronized(b.(gaps := b.gaps + 1))
        case Duplicate => b
        case Next =>
          b.(bids := ApplyLevels(b.bids, u.bids), asks := ApplyLevels(b.asks, u.asks),
             sequence := if u.sequence.Some? then u.sequence else b.sequence, timestamp := u.timestamp)
  }

  function FeedUncapped(b: Book, events: seq<Event>): Book
    decreases |events|
  {
    if events == [] then b else FeedUncapped(ReactUncapped(b, events[0]), events[1..])
  }

  // A cap that is never exceeded is no cap: the two reactions differ in the trimming and in nothing else.
  lemma WideCapIsNoCap(b: Book, depth: nat, e: Event)
    requires |ReactUncapped(b, e).bids| <= depth && |ReactUncapped(b, e).asks| <= depth
    ensures React(b, depth, e) == ReactUncapped(b, e)
  {
    hide ApplyLevels, FromSnapshot, Trim, Judge;
    var after := ReactUncapped(b, e);
    CutIsTrim(after.bids, Sell, depth);
    CutIsTrim(after.asks, Buy, depth);
  }

  // Two books that disagree at most about their levels, and there as far as the cost of the cap allows.
  ghost predicate Twins(capped: Book, full: Book, depth: nat, side: Side, cost: Cost)
  {
    && capped.(bids := full.bids, asks := full.asks) == full
    && Shadows(capped.SideOf(side), full.SideOf(side), side, depth, cost.lost)
    && (!cost.cut ==> capped.SideOf(side) == full.SideOf(side))
  }

  lemma ReactKeepsTwins(capped: Book, full: Book, depth: nat, side: Side, cost: Cost, e: Event)
    requires Twins(capped, full, depth, side, cost)
    ensures Twins(React(capped, depth, e), ReactUncapped(full, e), depth, side, CostOf(capped, depth, side, cost, e))
  {
    hide Shadows, Trim, ApplyLevels, FromSnapshot, Losses, Judge;
    if e.Message? {
      var u := e.update;
      var levels := LevelsOf(u, side);
      if u.isSnapshot {
        var all := FromSnapshot(map[], levels);
        SelfShadow(all, side, depth);
        SideAfterTrim(all, all, side, depth, 0, false);
      } else if capped.Synchronized() && Judge(capped.sequence, u).Next? {
        var held, all := capped.SideOf(side), full.SideOf(side);
        MessageKeepsShadow(held, all, side, depth, cost.lost, levels);
        SideAfterTrim(ApplyLevels(held, levels), ApplyLevels(all, levels), side, depth,
                      cost.lost + Losses(held, levels), cost.cut);
      }
    }
  }

  lemma {:induction false} FeedKeepsTwins(capped: Book, full: Book, depth: nat, side: Side, cost: Cost, events: seq<Event>)
    requires Twins(capped, full, depth, side, cost)
    ensures Twins(Feed(capped, depth, events), FeedUncapped(full, events), depth, side,
                  CostAlong(capped, depth, side, cost, events))
    decreases |events|
  {
    hide Twins, React, ReactUncapped, CostOf;
    if events != [] {
      ReactKeepsTwins(capped, full, depth, side, cost, events[0]);
      FeedKeepsTwins(React(capped, depth, events[0]), ReactUncapped(full, events[0]), depth, side,
                     CostOf(capped, depth, side, cost, events[0]), events[1..]);
    }
  }

  // The cap theorem. After any messages at all, the capped book agrees with the uncapped one in everything but
  // its levels; every level it holds is the uncapped book's; if `lost` deletions have hit held levels of a
  // side since the last snapshot, the best `depth - lost` levels of that side are the uncapped ones, so the
  // best bid and ask are while `lost < depth`; and a side that was never cut is the uncapped side.
  lemma CapTheorem(market: string, timestamp: int, depth: nat, side: Side, events: seq<Event>, n: nat)
    ensures var opening := EmptyBook(market, timestamp);
            var capped, full := Feed(opening, depth, events), FeedUncapped(opening, events);
            var cost := CostAlong(opening, depth, side, Cost(0, false), events);
            var held, all := capped.SideOf(side), full.SideOf(side);
            && capped.(bids := full.bids, asks := full.asks) == full
            && (forall p :: p in held ==> p in all && held[p] == all[p])
            && (n <= depth - cost.lost ==> Trim(held, side, n) == Trim(all, side, n))
            && (cost.lost < depth ==> TopOf(held, side) == TopOf(all, side))
            && (!cost.cut ==> held == all)
  {
    hide Trim, Feed, FeedUncapped, CostAlong, TopOf;
    var opening := EmptyBook(market, timestamp);
    var capped, full := Feed(opening, depth, events), FeedUncapped(opening, events);
    var cost := CostAlong(opening, depth, side, Cost(0, false), events);
    FeedKeepsTwins(opening, opening, depth, side, Cost(0, false), events);
    if n <= depth - cost.lost {
      ShadowTop(capped.SideOf(side), full.SideOf(side), side, depth, cost.lost, n);
    }
    if cost.lost < depth {
      ShadowTop(capped.SideOf(side), full.SideOf(side), side, depth, cost.lost, 1);
      SameTop(capped.SideOf(side), full.SideOf(side), side);
    }
  }
}
