// That a local book makes progress: a message that is in order is applied, one that is not is answered as it
// deserves, and a feed in order keeps the book synchronized to its end
// (bot/market_data/local_order_book.py, `apply_update`, `_apply_levels`).

module BookProgress {
  import opened Prelude
  import opened DepthWalk
  import opened BookSide
  import opened BookProtocol

  // ----- one message -----

  // A delta that says which number it builds on: by naming it, or by being the one after it.
  predicate BuildsOn(u: Update, n: int)
  {
    && !u.isSnapshot && u.sequence.Some? && n < u.sequence.value
    && (if u.prevSequence.Some? then u.prevSequence.value == n else u.sequence.value == n + 1)
  }

  // A delta from before: the book has been through its number already.
  predicate Passed(u: Update, n: int)
  {
    && !u.isSnapshot && u.sequence.Some? && u.sequence.value <= n
    && (u.prevSequence.Some? ==> u.prevSequence.value == n)
  }

  predicate AtNumber(b: Book, n: int)
  {
    b.synchronized && !b.needsSnapshot && b.sequence == Some(n)
  }

  // A numbered delta meets a synchronized, numbered book: the one that builds on the book's number is applied and
  // moves the book to its own number, the one from before changes nothing at all, and anything else is a gap: the
  // book says no, counts it, and waits for a snapshot with the levels it has.
  lemma DeltaMeetsBook(b: Book, depth: nat, u: Update, n: int)
    requires AtNumber(b, n) && !u.isSnapshot && u.sequence.Some?
    ensures var (after, answer) := ApplyUpdate(b, depth, u);
            if BuildsOn(u, n) then
              && answer == Some(true) && AtNumber(after, u.sequence.value)
              && after.gaps == b.gaps && after.timestamp == u.timestamp && after.market == b.market
              && after.bids == Trim(ApplyLevels(b.bids, u.bids), Sell, depth)
              && after.asks == Trim(ApplyLevels(b.asks, u.asks), Buy, depth)
            else if Passed(u, n) then
              answer == Some(true) && after == b
            else
              && answer == Some(false) && after.needsSnapshot && !after.synchronized && after.gaps == b.gaps + 1
              && after.bids == b.bids && after.asks == b.asks && after.sequence == b.sequence
              && after.timestamp == b.timestamp && after.market == b.market
  {
    hide ApplyLevels, Trim;
  }

  // While either side has no number, a delta is applied unseen.
  lemma UnnumberedIsApplied(b: Book, depth: nat, u: Update)
    requires b.synchronized && !b.needsSnapshot && !u.isSnapshot && (u.sequence.None? || b.sequence.None?)
    ensures var (after, answer) := ApplyUpdate(b, depth, u);
            && answer == Some(true) && after.synchronized && !after.needsSnapshot && after.gaps == b.gaps
            && after.sequence == (if u.sequence.Some? then u.sequence else b.sequence)
            && after.timestamp == u.timestamp && after.market == b.market
            && after.bids == Trim(ApplyLevels(b.bids, u.bids), Sell, depth)
            && after.asks == Trim(ApplyLevels(b.asks, u.asks), Buy, depth)
  {
    hide ApplyLevels, Trim;
  }

  // A book that waits for a snapshot refuses every delta, counting nothing.
  lemma WaitingRefuses(b: Book, depth: nat, u: Update)
    requires (b.needsSnapshot || !b.synchronized) && !u.isSnapshot
    ensures ApplyUpdate(b, depth, u) == (b.(needsSnapshot := true, synchronized := false), Some(false))
  {
  }

  // A snapshot for the book's market replaces everything, whatever the book was and whatever its number; one for
  // another market raises and changes nothing.
  lemma SnapshotReplaces(b: Book, depth: nat, u: Update)
    requires u.isSnapshot
    ensures var (after, answer) := ApplyUpdate(b, depth, u);
            if u.market == b.market then
              && answer == Some(true) && after.synchronized && !after.needsSnapshot && after.gaps == b.gaps
              && after.sequence == u.sequence && after.timestamp == u.timestamp && after.market == b.market
              && after.bids == Trim(FromSnapshot(map[], u.bids), Sell, depth)
              && after.asks == Trim(FromSnapshot(map[], u.asks), Buy, depth)
            else answer == None && after == b
  {
    hide FromSnapshot, Trim;
  }

  // ----- what a message says about a price -----

  // The place of the last level at a price.
  ghost predicate LastAt(levels: seq<Level>, i: int, p: real)
  {
    && 0 <= i < |levels| && levels[i].price == p
    && forall j :: i < j < |levels| ==> levels[j].price != p
  }

  // After a delta, the last level it has at a price decides: a size is the size there, no size means no level. A
  // price it does not mention is as before.
  lemma {:induction false} DeltaAtPrice(m: Levels, levels: seq<Level>, p: real)
    ensures var after := ApplyLevels(m, levels);
            && ((forall i :: 0 <= i < |levels| ==> levels[i].price != p) ==>
                  (p in after <==> p in m) && (p in m ==> after[p] == m[p]))
            && (forall i :: LastAt(levels, i, p) ==>
                  (p in after <==> levels[i].amount > 0.0) && (p in after ==> after[p] == levels[i].amount))
    decreases |levels|
  {
    if levels != [] {
      var rest := levels[1..];
      DeltaAtPrice(ApplyLevel(m, levels[0]), rest, p);
      forall i | LastAt(levels, i, p)
        ensures var after := ApplyLevels(m, levels);
                (p in after <==> levels[i].amount > 0.0) && (p in after ==> after[p] == levels[i].amount)
      {
        if i > 0 {
          assert LastAt(rest, i - 1, p) by {
            forall j | i - 1 < j < |rest| ensures rest[j].price != p { assert rest[j] == levels[j + 1]; }
          }
        } else {
          forall j | 0 <= j < |rest| ensures rest[j].price != p { assert rest[j] == levels[j + 1]; }
        }
      }
      if forall i :: 0 <= i < |levels| ==> levels[i].price != p {
        forall j | 0 <= j < |rest| ensures rest[j].price != p { assert rest[j] == levels[j + 1]; }
      }
    }
  }

  // A side of a snapshot holds exactly the prices that come with a size, each with the last size it comes with.
  lemma {:induction false} SnapshotAtPrice(m: Levels, levels: seq<Level>, p: real)
    ensures var after := FromSnapshot(m, levels);
            && (p in after <==> p in m || exists i :: 0 <= i < |levels| && levels[i].price == p && levels[i].amount > 0.0)
            && (p in after ==>
                  || (p in m && after[p] == m[p]
                      && forall i :: 0 <= i < |levels| && levels[i].price == p ==> levels[i].amount <= 0.0)
                  || exists i :: 0 <= i < |levels| && levels[i] == Level(p, after[p]) && after[p] > 0.0
                       && forall j :: i < j < |levels| && levels[j].price == p ==> levels[j].amount <= 0.0)
    decreases |levels|
  {
    if levels != [] {
      var first, rest := levels[0], levels[1..];
      var next := if first.amount > 0.0 then m[first.price := first.amount] else m;
      var after := FromSnapshot(m, levels);
      assert after == FromSnapshot(next, rest);
      SnapshotAtPrice(next, rest, p);
      assert forall j :: 0 <= j < |rest| ==> rest[j] == levels[j + 1];
      if i :| 0 <= i < |rest| && rest[i].price == p && rest[i].amount > 0.0 {
        assert levels[i + 1].price == p;
      }
      if p in after {
        if i :| 0 <= i < |rest| && rest[i] == Level(p, after[p]) && after[p] > 0.0
                && forall j :: i < j < |rest| && rest[j].price == p ==> rest[j].amount <= 0.0 {
          LaterHaveNoSize(levels, i + 1, p);
          assert levels[i + 1] == Level(p, after[p]);
        } else if first.price == p && first.amount > 0.0 {
          assert levels[0] == Level(p, after[p]);
        }
      }
    }
  }

  lemma LaterHaveNoSize(levels: seq<Level>, i: nat, p: real)
    requires 0 < i <= |levels|
    requires forall j :: i - 1 < j < |levels[1..]| && levels[1..][j].price == p ==> levels[1..][j].amount <= 0.0
    ensures forall j :: i < j < |levels| && levels[j].price == p ==> levels[j].amount <= 0.0
  {
    forall j | i < j < |levels| && levels[j].price == p ensures levels[j].amount <= 0.0 {
      assert levels[1..][j - 1] == levels[j];
    }
  }

  // ----- runs -----

  // The number a feed in order leads to from n: each delta builds on the number before it, or has been passed.
  predicate InOrderFrom(n: int, us: seq<Update>)
    decreases |us|
  {
    us != [] ==>
      || (BuildsOn(us[0], n) && InOrderFrom(us[0].sequence.value, us[1..]))
      || (Passed(us[0], n) && InOrderFrom(n, us[1..]))
  }

  function NumberAfter(n: int, us: seq<Update>): int
    requires InOrderFrom(n, us)
    decreases |us|
  {
    if us == [] then n
    else if BuildsOn(us[0], n) then NumberAfter(us[0].sequence.value, us[1..])
    else NumberAfter(n, us[1..])
  }

  function Messages(us: seq<Update>): seq<Event>
  {
    seq(|us|, i requires 0 <= i < |us| => Message(us[i]))
  }

  lemma {:induction false} InOrderStays(b: Book, depth: nat, n: int, us: seq<Update>)
    requires AtNumber(b, n) && InOrderFrom(n, us)
    ensures var after := Feed(b, depth, Messages(us));
            AtNumber(after, NumberAfter(n, us)) && after.gaps == b.gaps && after.market == b.market
    decreases |us|
  {
    hide ApplyUpdate;
    if us != [] {
      var next := React(b, depth, Message(us[0]));
      assert Messages(us)[0] == Message(us[0]) && Messages(us)[1..] == Messages(us[1..]);
      DeltaMeetsBook(b, depth, us[0], n);
      InOrderStays(next, depth, if BuildsOn(us[0], n) then us[0].sequence.value else n, us[1..]);
    }
  }

  // The progress theorem. Whatever the book was before: a snapshot and then every delta in order, with any
  // repetitions among them, leave it synchronized at the last number without a gap. If the messages are a
  // venue's own, each level it shows is the venue's at that number, and it is the venue's book if the cap cut
  // nothing away.
  lemma FeedInOrder(b: Book, depth: nat, first: Update, n: int, us: seq<Update>)
    requires first.isSnapshot && first.market == b.market && first.sequence == Some(n) && InOrderFrom(n, us)
    ensures var after := Feed(b, depth, [Message(first)] + Messages(us));
            AtNumber(after, NumberAfter(n, us)) && after.gaps == b.gaps && after.market == b.market
  {
    hide ApplyUpdate, InOrderFrom, NumberAfter;
    var events := [Message(first)] + Messages(us);
    assert events[0] == Message(first) && events[1..] == Messages(us);
    SnapshotReplaces(b, depth, first);
    InOrderStays(React(b, depth, Message(first)), depth, n, us);
  }

  lemma FeedInOrderIsVenue(b: Book, depth: nat, side: Side, venue: Venue, first: Update, n: int, us: seq<Update>)
    requires first.isSnapshot && first.market == b.market && first.sequence == Some(n) && InOrderFrom(n, us)
    requires Truthful(Message(first), venue) && forall u :: u in us ==> Truthful(Message(u), venue)
    ensures var events := [Message(first)] + Messages(us);
            var held, full := Feed(b, depth, events).SideOf(side), venue(NumberAfter(n, us)).SideOf(side);
            && (forall p :: p in held ==> p in full && held[p] == full[p])
            && (!CostAlong(b, depth, side, Cost(0, false), events).cut ==> held == full)
  {
    hide Truthful, InOrderFrom, NumberAfter, CostOf, Feed, CostAlong, ApplyUpdate;
    var events := [Message(first)] + Messages(us);
    assert events[0] == Message(first) && events[1..] == Messages(us);
    FeedInOrder(b, depth, first, n, us);
    var waiting := Desynchronized(b);
    assert Follows(waiting, depth, side, Cost(0, false), venue);
    SnapshotForgets(b, depth, side, first);
    ReactFollows(waiting, depth, side, Cost(0, false), venue, Message(first));
    var next, cost := React(b, depth, Message(first)), CostOf(b, depth, side, Cost(0, false), Message(first));
    forall e | e in Messages(us) ensures Truthful(e, venue) {
      var i :| 0 <= i < |us| && Messages(us)[i] == e;
      assert us[i] in us;
    }
    FeedFollows(next, depth, side, cost, venue, Messages(us));
    FeedStep(b, depth, side, events);
  }

  lemma FeedStep(b: Book, depth: nat, side: Side, events: seq<Event>)
    requires events != []
    ensures Feed(b, depth, events) == Feed(React(b, depth, events[0]), depth, events[1..])
    ensures CostAlong(b, depth, side, Cost(0, false), events)
            == CostAlong(React(b, depth, events[0]), depth, side,
                         CostOf(b, depth, side, Cost(0, false), events[0]), events[1..])
  {
    hide React, CostOf;
  }

  // What the book was does not matter to a snapshot.
  lemma SnapshotForgets(b: Book, depth: nat, side: Side, u: Update)
    requires u.isSnapshot && u.market == b.market
    ensures React(Desynchronized(b), depth, Message(u)) == React(b, depth, Message(u))
    ensures CostOf(Desynchronized(b), depth, side, Cost(0, false), Message(u))
            == CostOf(b, depth, side, Cost(0, false), Message(u))
  {
    hide FromSnapshot, Trim;
  }

  // A new book has no levels, no number and no gaps, and waits.
  lemma FreshBookWaits(market: string, timestamp: int, depth: nat, events: seq<Event>)
    requires forall e :: e in events ==> e.Message? && e.update.isSnapshot ==> e.update.market != market
    ensures var b := Feed(EmptyBook(market, timestamp), depth, events);
            && b.needsSnapshot && !b.synchronized && b.bids == map[] && b.asks == map[]
            && b.sequence == None && b.gaps == 0 && b.market == market && b.timestamp == timestamp
  {
    WaitsForSnapshot(EmptyBook(market, timestamp), depth, events);
  }

  // And nothing but a snapshot of its market ends the waiting: until then the levels stay as they are.
  lemma {:induction false} WaitsForSnapshot(b: Book, depth: nat, events: seq<Event>)
    requires b.needsSnapshot && !b.synchronized
    requires forall e :: e in events ==> e.Message? && e.update.isSnapshot ==> e.update.market != b.market
    ensures Feed(b, depth, events) == b
    decreases |events|
  {
    if events != [] {
      assert events[0] in events;
      WaitsForSnapshot(b, depth, events[1..]);
    }
  }
}
