// The snapshot/delta protocol of a local order book as a state machine on values, and what it
// guarantees against the venue's own book over a channel that drops, repeats and reorders messages
// (bot/market_data/local_order_book.py, `mark_desynchronized`, `apply_snapshot`, `apply_update`).

module BookProtocol {
  import opened Prelude
  import opened DepthWalk
  import opened BookSide

  datatype Update = Update(
    market: string,
    bids: seq<Level>,
    asks: seq<Level>,
    isSnapshot: bool,
    sequence: Option<int>,
    prevSequence: Option<int>,
    timestamp: int
  )

  datatype Book = Book(
    market: string,
    bids: Levels,
    asks: Levels,
    sequence: Option<int>,
    synchronized: bool,
    needsSnapshot: bool,
    timestamp: int,
    gaps: nat
  )
  {
    // The `synchronized` property.
    predicate Synchronized() { synchronized && !needsSnapshot }

    function SideOf(side: Side): Levels { if side.Buy? then asks else bids }
  }

  function EmptyBook(market: string, timestamp: int): Book
  {
    Book(market, map[], map[], None, false, true, timestamp, 0)
  }

  function Desynchronized(b: Book): Book
  {
    b.(synchronized := false, needsSnapshot := true)
  }

  // `apply_snapshot`: none when the message is for another market and an exception leaves.
  function ApplySnapshot(b: Book, depth: nat, u: Update): Option<Book>
  {
    if u.market != b.market then None
    else
      Some(b.(bids := Trim(FromSnapshot(map[], u.bids), Sell, depth),
              asks := Trim(FromSnapshot(map[], u.asks), Buy, depth),
              sequence := u.sequence, timestamp := u.timestamp, synchronized := true, needsSnapshot := false))
  }

  function ApplyDelta(b: Book, depth: nat, u: Update): Book
  {
    b.(bids := Trim(ApplyLevels(b.bids, u.bids), Sell, depth),
       asks := Trim(ApplyLevels(b.asks, u.asks), Buy, depth),
       sequence := if u.sequence.Some? then u.sequence else b.sequence,
       timestamp := u.timestamp)
  }

  // What the sequence numbers say about a delta.
  datatype Verdict = Gap | Duplicate | Next

  function Judge(local: Option<int>, u: Update): Verdict
  {
    if u.sequence.None? || local.None? then Next
    else if u.prevSequence.Some? && u.prevSequence != local then Gap
    else if u.prevSequence.None? && u.sequence.value > local.value + 1 then Gap
    else if u.sequence.value <= local.value then Duplicate
    else Next
  }

  // `apply_update`: the book afterwards and the answer; none when an exception leaves.
  function ApplyUpdate(b: Book, depth: nat, u: Update): (Book, Option<bool>)
  {
    if u.isSnapshot then
      var after := ApplySnapshot(b, depth, u);
      if after.Some? then (after.value, Some(true)) else (b, None)
    else if b.needsSnapshot || !b.synchronized then (Desynchronized(b), Some(false))
    else
      match Judge(b.sequence, u)
      case Gap => (Desynchronized(b.(gaps := b.gaps + 1)), Some(false))
      case Duplicate => (b, Some(true))
      case Next => (ApplyDelta(b, depth, u), Some(true))
  }

  // ----- what reaches the book -----

  datatype Event = Message(update: Update) | Disconnect

  function React(b: Book, depth: nat, e: Event): Book
  {
    match e
    case Message(u) => ApplyUpdate(b, depth, u).0
    case Disconnect => Desynchronized(b)
  }

  function Feed(b: Book, depth: nat, events: seq<Event>): Book
    decreases |events|
  {
    if events == [] then b else Feed(React(b, depth, events[0]), depth, events[1..])
  }

  // ----- the venue -----

  datatype Sides = Sides(bids: Levels, asks: Levels)
  {
    function SideOf(side: Side): Levels { if side.Buy? then asks else bids }
  }

  // The venue's full book after each sequence number.
  type Venue = int -> Sides

  // A delta with `prevSequence` leads from that book to the one it names; without, from the one before.
  function BaseOf(u: Update): int
    requires u.sequence.Some?
  {
    if u.prevSequence.Some? then u.prevSequence.value else u.sequence.value - 1
  }

  // Messages tell the truth about the venue's book. Nothing is said about which of them arrive, how often,
  // or in which order.
  ghost predicate Truthful(e: Event, venue: Venue)
  {
    e.Message? ==>
      var u := e.update;
      && u.sequence.Some?
      && (u.isSnapshot ==>
            FromSnapshot(map[], u.bids) == venue(u.sequence.value).bids
            && FromSnapshot(map[], u.asks) == venue(u.sequence.value).asks)
      && (!u.isSnapshot ==>
            && BaseOf(u) < u.sequence.value
            && ApplyLevels(venue(BaseOf(u)).bids, u.bids) == venue(u.sequence.value).bids
            && ApplyLevels(venue(BaseOf(u)).asks, u.asks) == venue(u.sequence.value).asks)
  }

  // ----- what the depth cap has cost since the last snapshot -----

  datatype Cost = Cost(lost: nat, cut: bool)

  function LevelsOf(u: Update, side: Side): seq<Level> { if side.Buy? then u.asks else u.bids }

  // How many deletions have hit a held level of the side since the last snapshot, and whether trimming
  // has ever cut a level away.
  function CostOf(b: Book, depth: nat, side: Side, cost: Cost, e: Event): Cost
  {
    if e.Disconnect? then cost
    else
      var u := e.update;
      var levels := LevelsOf(u, side);
      if u.isSnapshot then
        if u.market != b.market then cost else Cost(0, |FromSnapshot(map[], levels)| > depth)
      else if b.needsSnapshot || !b.synchronized || !Judge(b.sequence, u).Next? then cost
      else
        Cost(cost.lost + Losses(b.SideOf(side), levels),
             cost.cut || |ApplyLevels(b.SideOf(side), levels)| > depth)
  }

  function CostAlong(b: Book, depth: nat, side: Side, cost: Cost, events: seq<Event>): Cost
    decreases |events|
  {
    if events == [] then cost
    else CostAlong(React(b, depth, events[0]), depth, side, CostOf(b, depth, side, cost, events[0]), events[1..])
  }

  // ----- the refinement -----

  // While synchronized, a side shadows the venue's book of the very sequence number the local book shows,
  // and is that book if nothing was ever cut away.
  ghost predicate Follows(b: Book, depth: nat, side: Side, cost: Cost, venue: Venue)
  {
    b.Synchronized() ==>
      && b.sequence.Some?
      && Shadows(b.SideOf(side), venue(b.sequence.value).SideOf(side), side, depth, cost.lost)
      && (!cost.cut ==> b.SideOf(side) == venue(b.sequence.value).SideOf(side))
  }

  lemma SideAfterTrim(held: Levels, full: Levels, side: Side, depth: nat, lost: nat, cut: bool)
    requires Shadows(held, full, side, depth, lost)
    requires !cut ==> held == full
    ensures Shadows(Trim(held, side, depth), full, side, depth, lost)
    ensures !(cut || |held| > depth) ==> Trim(held, side, depth) == full
  {
    TrimKeepsShadow(held, full, side, depth, lost);
    CutIsTrim(held, side, depth);
  }

  lemma ReactFollows(b: Book, depth: nat, side: Side, cost: Cost, venue: Venue, e: Event)
    requires Follows(b, depth, side, cost, venue) && Truthful(e, venue)
    ensures Follows(React(b, depth, e), depth, side, CostOf(b, depth, side, cost, e), venue)
  {
    hide Shadows, Trim, ApplyLevels, FromSnapshot, Losses;
    if e.Message? {
      var u := e.update;
      var levels := LevelsOf(u, side);
      if u.isSnapshot {
        var full := FromSnapshot(map[], levels);
        SelfShadow(full, side, depth);
        SideAfterTrim(full, full, side, depth, 0, false);
      } else if b.Synchronized() && Judge(b.sequence, u).Next? {
        var full := venue(b.sequence.value).SideOf(side);
        assert BaseOf(u) == b.sequence.value;
        MessageKeepsShadow(b.SideOf(side), full, side, depth, cost.lost, levels);
        SideAfterTrim(ApplyLevels(b.SideOf(side), levels), ApplyLevels(full, levels), side, depth,
                      cost.lost + Losses(b.SideOf(side), levels), cost.cut);
      }
    }
  }

  lemma {:induction false} FeedFollows(b: Book, depth: nat, side: Side, cost: Cost, venue: Venue, events: seq<Event>)
    requires Follows(b, depth, side, cost, venue)
    requires forall e :: e in events ==> Truthful(e, venue)
    ensures Follows(Feed(b, depth, events), depth, side, CostAlong(b, depth, side, cost, events), venue)
    decreases |events|
  {
    hide Follows, Truthful, React, CostOf;
    if events != [] {
      assert events[0] in events;
      ReactFollows(b, depth, side, cost, venue, events[0]);
      FeedFollows(React(b, depth, events[0]), depth, side, CostOf(b, depth, side, cost, events[0]), venue, events[1..]);
    }
  }

  // The book theorem. However a truthful venue's messages are dropped, repeated and reordered: whenever the
  // local book calls itself synchronized, each level it shows on a side is the venue's level at the shown
  // sequence number, its best `depth - lost` levels are the venue's, and if the cap never cut anything the
  // side is the venue's side.
  lemma BookTheorem(market: string, timestamp: int, depth: nat, side: Side, venue: Venue, events: seq<Event>, n: nat)
    requires forall e :: e in events ==> Truthful(e, venue)
    ensures var b := Feed(EmptyBook(market, timestamp), depth, events);
            var cost := CostAlong(EmptyBook(market, timestamp), depth, side, Cost(0, false), events);
            b.Synchronized() ==>
              && b.sequence.Some?
              && var held, full := b.SideOf(side), venue(b.sequence.value).SideOf(side);
                 && (forall p :: p in held ==> p in full && held[p] == full[p])
                 && (n <= depth - cost.lost ==> Trim(held, side, n) == Trim(full, side, n))
                 && (!cost.cut ==> held == full)
  {
    hide Trim, Feed, CostAlong, Truthful;
    var b := Feed(EmptyBook(market, timestamp), depth, events);
    var cost := CostAlong(EmptyBook(market, timestamp), depth, side, Cost(0, false), events);
    FeedFollows(EmptyBook(market, timestamp), depth, side, Cost(0, false), venue, events);
    if b.Synchronized() && n <= depth - cost.lost {
      ShadowTop(b.SideOf(side), venue(b.sequence.value).SideOf(side), side, depth, cost.lost, n);
    }
  }

  // Why the theorem speaks of numbered messages only: losing a delta without a number is never noticed. With
  // it or without it the book calls itself synchronized, and shows the same number and the same gaps.
  lemma UnnumberedLossGoesUnnoticed(b: Book, depth: nat, u: Update)
    requires b.Synchronized() && !u.isSnapshot && u.sequence.None?
    ensures var after := React(b, depth, Message(u));
            && after.Synchronized() && after.sequence == b.sequence && after.gaps == b.gaps
            && after.bids == Trim(ApplyLevels(b.bids, u.bids), Sell, depth)
            && after.asks == Trim(ApplyLevels(b.asks, u.asks), Buy, depth)
  {
    hide Trim, ApplyLevels;
  }
}
