// The mutable local order book with its cached view (bot/market_data/local_order_book.py), and the
// consumer's side of publishing (bot/market_data/service.py, `apply_remote_book`). Every method is proved
// to do to the object what BookProtocol.dfy says, and every view to be the one a fresh sort would give.

module LocalOrderBook {
  import opened Prelude
  import opened DepthWalk
  import opened BookSide
  import opened BookProtocol
  import opened BookView

  class LocalOrderBook {
    const market: string
    const maxDepth: nat
    var bids: Levels
    var asks: Levels
    var sequence: Option<int>
    var synchronized: bool
    var needsSnapshot: bool
    var timestamp: int
    var gaps: nat
    var cached: Option<Published>
    var cacheValid: bool

    ghost function View(): Book
      reads this
    {
      Book(market, bids, asks, sequence, synchronized, needsSnapshot, timestamp, gaps)
    }

    // No side exceeds the cap, every level has size, and a valid cache is what a fresh sort would give.
    ghost predicate Valid()
      reads this
    {
      && maxDepth >= 1
      && Held(View(), maxDepth)
      && (cacheValid && cached.Some? ==> cached == FreshView(View(), maxDepth, None))
    }

    constructor (market: string, depth: int, now: int)
      ensures Valid() && View() == EmptyBook(market, now)
      ensures this.market == market && maxDepth == if depth >= 1 then depth else 1
    {
      this.market := market;
      maxDepth := if depth >= 1 then depth else 1;
      bids, asks := map[], map[];
      sequence, synchronized, needsSnapshot := None, false, true;
      timestamp, gaps := now, 0;
      cached, cacheValid := None, false;
    }

    method InvalidateCache()
      modifies this`cached, this`cacheValid
      ensures !cacheValid && cached.None?
    {
      cacheValid, cached := false, None;
    }

    // `mark_desynchronized`
    method MarkDesynchronized()
      requires maxDepth >= 1 && Held(View(), maxDepth)
      modifies this`synchronized, this`needsSnapshot, this`cached, this`cacheValid
      ensures Valid() && View() == Desynchronized(old(View()))
    {
      synchronized, needsSnapshot := false, true;
      InvalidateCache();
    }

    // `sorted(keys)[:max_depth]` and the comprehension over what is kept.
    method TrimSide(m: Levels, side: Side) returns (kept: Levels)
      ensures kept == Trim(m, side, maxDepth)
    {
      hide InOrder, Trim;
      CutIsTrim(m, side, maxDepth);
      if |m| <= maxDepth {
        return m;
      }
      InOrderIn(m.Keys, side);
      var keep := InOrder(m.Keys, side)[..maxDepth];
      kept := map[];
      for i := 0 to |keep|
        invariant kept.Keys == FirstOf(keep, i)
        invariant forall p :: p in kept ==> p in m && kept[p] == m[p]
      {
        assert FirstOf(keep, i + 1) == FirstOf(keep, i) + {keep[i]};
        kept := kept[keep[i] := m[keep[i]]];
      }
      assert FirstOf(keep, |keep|) == FirstOf(InOrder(m.Keys, side), maxDepth);
      TrimValues(m, side, maxDepth);
      assert kept.Keys == Trim(m, side, maxDepth).Keys;
      assert forall p :: p in kept ==> kept[p] == Trim(m, side, maxDepth)[p];
    }

    static lemma TrimValues(m: Levels, side: Side, depth: nat)
      ensures forall p :: p in Trim(m, side, depth) ==> p in m && Trim(m, side, depth)[p] == m[p]
    {
    }

    // `_trim_depth`
    method TrimDepth()
      modifies this`bids, this`asks
      ensures bids == Trim(old(bids), Sell, maxDepth) && asks == Trim(old(asks), Buy, maxDepth)
    {
      bids := TrimSide(bids, Sell);
      asks := TrimSide(asks, Buy);
    }

    // The dict comprehension of a snapshot side.
    static method Sized(levels: seq<Level>) returns (m: Levels)
      ensures m == FromSnapshot(map[], levels)
    {
      m := map[];
      for i := 0 to |levels|
        invariant FromSnapshot(m, levels[i..]) == FromSnapshot(map[], levels)
      {
        assert levels[i..][0] == levels[i] && levels[i..][1..] == levels[i + 1..];
        if levels[i].amount > 0.0 {
          m := m[levels[i].price := levels[i].amount];
        }
      }
    }

    // `_apply_levels`
    static method Updated(before: Levels, levels: seq<Level>) returns (m: Levels)
      ensures m == ApplyLevels(before, levels)
    {
      m := before;
      for i := 0 to |levels|
        invariant ApplyLevels(m, levels[i..]) == ApplyLevels(before, levels)
      {
        assert levels[i..][0] == levels[i] && levels[i..][1..] == levels[i + 1..];
        if levels[i].amount <= 0.0 {
          m := m - {levels[i].price};
        } else {
          m := m[levels[i].price := levels[i].amount];
        }
      }
    }

    // `apply_snapshot`. Not ok means that the exception for a foreign market leaves.
    method TakeSnapshot(u: Update) returns (ok: bool)
      requires Valid()
      modifies this
      ensures Valid()
      ensures ok <==> ApplySnapshot(old(View()), maxDepth, u).Some?
      ensures View() == if ok then ApplySnapshot(old(View()), maxDepth, u).value else old(View())
    {
      hide FromSnapshot, Trim, FreshView, Held;
      if u.market != market {
        return false;
      }
      ReactKeepsHeld(View(), maxDepth, Message(u.(isSnapshot := true)));
      bids := Sized(u.bids);
      asks := Sized(u.asks);
      TrimDepth();
      sequence, timestamp := u.sequence, u.timestamp;
      synchronized, needsSnapshot := true, false;
      InvalidateCache();
      ok := true;
    }

    // `apply_update`. No answer means that the exception for a foreign market leaves.
    method Take(u: Update) returns (answer: Option<bool>)
      requires Valid()
      modifies this
      ensures Valid()
      ensures (View(), answer) == ApplyUpdate(old(View()), maxDepth, u)
    {
      hide ApplyLevels, Trim, FreshView, Positive, ApplySnapshot;
      if u.isSnapshot {
        var ok := TakeSnapshot(u);
        return if ok then Some(true) else None;
      }
      if needsSnapshot || !synchronized {
        MarkDesynchronized();
        return Some(false);
      }
      if u.sequence.Some? && sequence.Some? {
        if u.prevSequence.Some? && u.prevSequence != sequence {
          gaps := gaps + 1;
          MarkDesynchronized();
          return Some(false);
        }
        if u.prevSequence.None? && u.sequence.value > sequence.value + 1 {
          gaps := gaps + 1;
          MarkDesynchronized();
          return Some(false);
        }
        if u.sequence.value <= sequence.value {
          return Some(true);
        }
      }
      ReactKeepsHeld(View(), maxDepth, Message(u));
      bids := Updated(bids, u.bids);
      asks := Updated(asks, u.asks);
      TrimDepth();
      if u.sequence.Some? {
        sequence := u.sequence;
      }
      timestamp := u.timestamp;
      InvalidateCache();
      answer := Some(true);
    }

    // `best_bid` and `best_ask`
    method BestOf(side: Side) returns (top: Option<Level>)
      ensures top == TopOf(View().SideOf(side), side)
    {
      var m := if side.Buy? then asks else bids;
      if |m.Keys| == 0 {
        return None;
      }
      var price := Best(m.Keys, side);
      top := Some(Level(price, m[price]));
    }

    // `top_liquidity`: the amounts of the first asks, summed over the dict when they are all wanted.
    method TopLiquidity(levels: Option<int>) returns (size: real)
      ensures var limit := if levels.Some? then levels.value else maxDepth;
              size == SideDepth(SideList(asks, Buy)[..SliceEnd(|asks|, limit)])
    {
      hide TotalOver, SideDepth, InOrder;
      NothingDeep();
      if |asks| == 0 {
        return 0.0;
      }
      var limit := if levels.Some? then levels.value else maxDepth;
      if limit >= |asks| {
        LiquidityIsPrefixSum(asks, limit);
        size := SumAll();
        return;
      }
      InOrderIn(asks.Keys, Buy);
      var prices := InOrder(asks.Keys, Buy)[..SliceEnd(|asks|, limit)];
      ghost var ls := SideList(asks, Buy)[..SliceEnd(|asks|, limit)];
      size := 0.0;
      for i := 0 to |prices|
        invariant size + SideDepth(ls[i..]) == SideDepth(ls)
      {
        DepthStep(ls, i);
        size := size + asks[prices[i]];
      }
      assert ls[|prices|..] == [];
    }

    static lemma NothingDeep()
      ensures SideDepth([]) == 0.0
    {
    }

    static lemma DepthStep(ls: seq<Level>, i: nat)
      requires i < |ls|
      ensures SideDepth(ls[i..]) == ls[i].amount + SideDepth(ls[i + 1..])
    {
      assert ls[i..][1..] == ls[i + 1..];
    }

    // `sum(self._asks.values())`
    method SumAll() returns (size: real)
      ensures size == Total(asks)
    {
      size := 0.0;
      var todo := asks.Keys;
      while |todo| != 0
        invariant todo <= asks.Keys
        invariant size + TotalOver(todo, asks) == Total(asks)
        decreases todo
      {
        var price := Best(todo, Buy);
        TotalOverAt(todo, asks, price);
        size := size + asks[price];
        todo := todo - {price};
      }
    }

    // `to_order_book`: from the cache when it can serve, otherwise sorted anew; the answer is always
    // the view a fresh sort of the current maps gives.
    method ToOrderBook(maxLevels: Option<int>) returns (view: Option<Published>)
      requires Valid()
      modifies this`cached, this`cacheValid
      ensures Valid() && View() == old(View())
      ensures view == FreshView(View(), maxDepth, maxLevels)
    {
      hide SideList;
      if !(synchronized && !needsSnapshot) {
        return None;
      }
      var limit: int := if maxLevels.None? then maxDepth else if maxLevels.value >= 1 then maxLevels.value else 1;
      var useCache := maxLevels.None? || limit >= maxDepth;
      if useCache {
        DeepViewsAgree(View(), maxDepth, maxLevels);
      }
      if useCache && cacheValid && cached.Some? {
        return cached;
      }
      var bidList, askList := SideList(bids, Sell), SideList(asks, Buy);
      if limit < |bidList| {
        bidList := bidList[..limit];
      }
      if limit < |askList| {
        askList := askList[..limit];
      }
      if bidList == [] || askList == [] {
        return None;
      }
      var book := Published(bidList, askList, timestamp, sequence);
      if useCache {
        cached, cacheValid := Some(book), true;
      }
      view := Some(book);
    }

    // `apply_remote_book`, on the book found or created for the market.
    method TakeRemote(p: Published)
      requires Valid()
      modifies this
      ensures Valid() && View() == ApplyRemote(old(View()), maxDepth, p)
    {
      if synchronized && !needsSnapshot && sequence == p.nonce && timestamp == p.timestamp
         && |bids| == |p.bids| && |asks| == |p.asks| {
        return;
      }
      var _ := TakeSnapshot(Update(market, p.bids, p.asks, true, p.nonce, None, p.timestamp));
    }
  }

  // The registry of remote books: a market seen for the first time gets an empty book of the configured depth.
  class MarketDataConsumer {
    const bookDepth: int
    var books: map<string, LocalOrderBook>

    constructor (bookDepth: int)
      ensures this.bookDepth == bookDepth && books == map[]
    {
      this.bookDepth, books := bookDepth, map[];
    }

    ghost predicate Valid()
      reads this, books.Values
    {
      forall k :: k in books ==> books[k].market == k && books[k].Valid()
    }

    method ApplyRemoteBook(market: string, p: Published, now: int) returns (book: LocalOrderBook)
      requires Valid()
      modifies this, books.Values
      ensures market in books && books[market] == book
      ensures Valid()
      ensures market in old(books) ==>
                books == old(books) && book.View() == ApplyRemote(old(books[market].View()), book.maxDepth, p)
      ensures market !in old(books) ==>
                && fresh(book) && books == old(books)[market := book]
                && book.View() == ApplyRemote(EmptyBook(market, now), book.maxDepth, p)
      ensures forall k :: k in old(books) && k != market ==> books[k] == old(books[k]) && unchanged(old(books[k]))
    {
      hide FreshView, Held, ApplyRemote;
      if market in books {
        book := books[market];
      } else {
        book := new LocalOrderBook(market, bookDepth, now);
        books := books[market := book];
      }
      book.TakeRemote(p);
    }
  }
}
