// Walking a depth book for a quantity: the greedy loop behind `walk_book`
// (bot/strategies/arbitrage.py) and `_walk_book` (bot/execution/paper_executor.py),
// and what it is for: no way of taking the same quantity from the book is cheaper.

module DepthWalk {
  import opened Prelude

  datatype Level = Level(price: real, amount: real)

  datatype Side = Buy | Sell

  // What a quantity is worth at a price, in quote currency.
  function Value(quantity: real, price: real): real { quantity * price }

  lemma ValueAdds(a: real, b: real, price: real)
    ensures Value(a + b, price) == Value(a, price) + Value(b, price)
  {
  }

  lemma ValueMonotone(quantity: real, low: real, high: real)
    requires quantity >= 0.0 && low <= high
    ensures Value(quantity, low) <= Value(quantity, high)
  {
  }

  lemma ValueMonotoneQuantity(a: real, b: real, price: real)
    requires a <= b && price >= 0.0
    ensures Value(a, price) <= Value(b, price)
  {
  }

  lemma NothingIsFree(price: real)
    ensures Value(0.0, price) == 0.0
  {
  }

  // What a walk has taken: base quantity, quote notional, number of levels touched.
  datatype Sweep = Sweep(filled: real, notional: real, levels: nat)

  // The greedy walk: levels in book order, those without size skipped.
  function SweepBook(levels: seq<Level>, quantity: real): Sweep
  {
    if quantity <= 0.0 || levels == [] then Sweep(0.0, 0.0, 0)
    else if levels[0].amount <= 0.0 then SweepBook(levels[1..], quantity)
    else if quantity <= levels[0].amount then Sweep(quantity, Value(quantity, levels[0].price), 1)
    else
      var rest := SweepBook(levels[1..], quantity - levels[0].amount);
      Sweep(levels[0].amount + rest.filled, Value(levels[0].amount, levels[0].price) + rest.notional, 1 + rest.levels)
  }

  // One turn of the loops that walk a book.
  lemma SweepOne(level: Level, rest: seq<Level>, remaining: real)
    requires level.amount > 0.0 && remaining > 0.0
    ensures var take := Min(remaining, level.amount);
            var after := SweepBook(rest, remaining - take);
            SweepBook([level] + rest, remaining)
            == Sweep(take + after.filled, Value(take, level.price) + after.notional, 1 + after.levels)
  {
    hide Value;
    assert ([level] + rest)[1..] == rest;
  }

  // `_side_depth`: the plain sum of all amounts.
  function SideDepth(levels: seq<Level>): real
  {
    if levels == [] then 0.0 else levels[0].amount + SideDepth(levels[1..])
  }

  // The size that can really be taken: levels without size count for nothing.
  function TakeableDepth(levels: seq<Level>): real
  {
    if levels == [] then 0.0 else Max(levels[0].amount, 0.0) + TakeableDepth(levels[1..])
  }

  lemma {:induction false} SideDepthIsTakeable(levels: seq<Level>)
    ensures SideDepth(levels) <= TakeableDepth(levels)
    ensures 0.0 <= TakeableDepth(levels)
    ensures (forall l :: l in levels ==> l.amount >= 0.0) ==> SideDepth(levels) == TakeableDepth(levels)
  {
    if levels != [] {
      SideDepthIsTakeable(levels[1..]);
    }
  }

  // A side of a book in trading order: asks ascending for a buyer, bids descending for a seller.
  ghost predicate InTradingOrder(levels: seq<Level>, side: Side)
  {
    forall i, j :: 0 <= i < j < |levels| ==>
      if side == Buy then levels[i].price <= levels[j].price else levels[i].price >= levels[j].price
  }

  // ----- how much is filled -----

  lemma {:induction false} SweepFills(levels: seq<Level>, quantity: real)
    requires quantity >= 0.0
    ensures SweepBook(levels, quantity).filled == Min(quantity, TakeableDepth(levels))
  {
    if levels != [] {
      SideDepthIsTakeable(levels[1..]);
      if levels[0].amount <= 0.0 {
        SweepFills(levels[1..], quantity);
      } else {
        SweepFills(levels[1..], quantity - Min(quantity, levels[0].amount));
      }
    } else {
    }
    SideDepthIsTakeable(levels);
  }

  // Asking for more than the book holds takes the same as asking for all it holds.
  lemma {:induction false} SweepSaturates(levels: seq<Level>, quantity: real)
    requires quantity >= 0.0
    ensures SweepBook(levels, Min(quantity, TakeableDepth(levels))) == SweepBook(levels, quantity)
  {
    SideDepthIsTakeable(levels);
    if levels != [] && quantity > 0.0 {
      var rest := levels[1..];
      SideDepthIsTakeable(rest);
      if levels[0].amount <= 0.0 {
        SweepSaturates(rest, quantity);
        if TakeableDepth(levels) == 0.0 { SweepOfNothing(rest, quantity); }
      } else {
        SweepSaturates(rest, quantity - Min(quantity, levels[0].amount));
      }
    }
  }

  lemma {:induction false} SweepOfNothing(levels: seq<Level>, quantity: real)
    requires TakeableDepth(levels) == 0.0
    ensures SweepBook(levels, quantity) == Sweep(0.0, 0.0, 0)
  {
    if levels != [] {
      SideDepthIsTakeable(levels[1..]);
      SweepOfNothing(levels[1..], quantity);
    }
  }

  // A walk that fits into a prefix of the book never looks past it.
  lemma {:induction false} SweepWithinPrefix(prefix: seq<Level>, rest: seq<Level>, quantity: real)
    requires 0.0 <= quantity <= TakeableDepth(prefix)
    ensures SweepBook(prefix + rest, quantity) == SweepBook(prefix, quantity)
  {
    if prefix == [] {
    } else {
      assert (prefix + rest)[1..] == prefix[1..] + rest;
      SideDepthIsTakeable(prefix[1..]);
      if prefix[0].amount <= 0.0 {
        SweepWithinPrefix(prefix[1..], rest, quantity);
      } else {
        SweepWithinPrefix(prefix[1..], rest, quantity - Min(quantity, prefix[0].amount));
      }
    }
  }

  // ----- what is paid -----

  // Every price at least `floor`: each further unit costs at least `floor`.
  lemma {:induction false} MarginalCostAtLeast(levels: seq<Level>, floor: real, a: real, more: real)
    requires 0.0 <= a && 0.0 <= more && a + more <= TakeableDepth(levels)
    requires forall l :: l in levels ==> floor <= l.price
    ensures SweepBook(levels, a).notional + Value(more, floor) <= SweepBook(levels, a + more).notional
  {
    hide Value;
    NothingIsFree(floor);
    if levels != [] && 0.0 < a + more {
      var p, t, rest := levels[0].price, levels[0].amount, levels[1..];
      SideDepthIsTakeable(rest);
      NothingIsFree(p);
      if t <= 0.0 {
        MarginalCostAtLeast(rest, floor, a, more);
      } else if a + more <= t {
        ValueAdds(a, more, p);
        ValueMonotone(more, floor, p);
      } else if a <= t {
        MarginalCostAtLeast(rest, floor, 0.0, a + more - t);
        ValueAdds(a, t - a, p);
        ValueAdds(t - a, a + more - t, floor);
        ValueMonotone(t - a, floor, p);
      } else {
        MarginalCostAtLeast(rest, floor, a - t, more);
      }
    }
  }

  // A way of taking quantity from the book: how much from each level.
  ghost predicate Feasible(levels: seq<Level>, alloc: seq<real>)
  {
    && |alloc| == |levels|
    && forall i :: 0 <= i < |levels| ==> 0.0 <= alloc[i] <= Max(levels[i].amount, 0.0)
  }

  ghost function Notional(levels: seq<Level>, alloc: seq<real>): real
    requires |alloc| == |levels|
  {
    if levels == [] then 0.0 else Value(alloc[0], levels[0].price) + Notional(levels[1..], alloc[1..])
  }

  lemma {:induction false} FeasibleSum(levels: seq<Level>, alloc: seq<real>)
    requires Feasible(levels, alloc)
    ensures 0.0 <= Sum(alloc) <= TakeableDepth(levels)
  {
    if levels != [] {
      FeasibleSum(levels[1..], alloc[1..]);
    }
  }

  // The walk is itself such a way of taking.
  ghost function GreedyAllocation(levels: seq<Level>, quantity: real): (alloc: seq<real>)
    ensures |alloc| == |levels|
  {
    if levels == [] then []
    else
      var take := Max(Min(quantity, levels[0].amount), 0.0);
      [take] + GreedyAllocation(levels[1..], quantity - take)
  }

  lemma {:induction false} GreedyIsFeasible(levels: seq<Level>, quantity: real)
    ensures var alloc := GreedyAllocation(levels, quantity);
            var s := SweepBook(levels, quantity);
            Feasible(levels, alloc) && Sum(alloc) == s.filled && Notional(levels, alloc) == s.notional
  {
    hide Value;
    if levels != [] {
      var take := Max(Min(quantity, levels[0].amount), 0.0);
      var left := quantity - take;
      var alloc, later := GreedyAllocation(levels, quantity), GreedyAllocation(levels[1..], left);
      GreedyIsFeasible(levels[1..], left);
      NothingIsFree(levels[0].price);
      assert alloc[0] == take && alloc[1..] == later;
      assert SweepBook(levels, quantity).notional
             == Value(take, levels[0].price) + SweepBook(levels[1..], left).notional;
    }
  }

  // The levels it counts are those it takes from.
  ghost function Touched(alloc: seq<real>): nat
  {
    if alloc == [] then 0 else (if alloc[0] > 0.0 then 1 else 0) + Touched(alloc[1..])
  }

  lemma {:induction false} SweepTouches(levels: seq<Level>, quantity: real)
    ensures SweepBook(levels, quantity).levels == Touched(GreedyAllocation(levels, quantity))
  {
    hide Value;
    if levels != [] {
      var take := Max(Min(quantity, levels[0].amount), 0.0);
      SweepTouches(levels[1..], quantity - take);
      assert GreedyAllocation(levels, quantity)[1..] == GreedyAllocation(levels[1..], quantity - take);
      if quantity <= 0.0 || quantity <= levels[0].amount {
        assert SweepBook(levels[1..], quantity - take) == Sweep(0.0, 0.0, 0);
      }
    }
  }

  // On asks in ascending order the walk is the cheapest way of taking its quantity.
  lemma {:induction false} GreedyIsCheapest(levels: seq<Level>, alloc: seq<real>)
    requires InTradingOrder(levels, Buy)
    requires Feasible(levels, alloc)
    ensures SweepBook(levels, Sum(alloc)).notional <= Notional(levels, alloc)
  {
    hide Value;
    FeasibleSum(levels, alloc);
    if levels != [] {
      var p, t, x, y, rest := levels[0].price, levels[0].amount, alloc[0], Sum(alloc[1..]), levels[1..];
      FeasibleSum(rest, alloc[1..]);
      GreedyIsCheapest(rest, alloc[1..]);
      BestPriceFirst(levels);
      NothingIsFree(p);
      if 0.0 < t && x + y <= t {
        MarginalCostAtLeast(rest, p, 0.0, y);
        ValueAdds(x, y, p);
      } else if 0.0 < t {
        MarginalCostAtLeast(rest, p, x + y - t, t - x);
        ValueAdds(x, t - x, p);
      }
    }
  }

  lemma BestPriceFirst(levels: seq<Level>)
    requires levels != [] && InTradingOrder(levels, Buy)
    ensures InTradingOrder(levels[1..], Buy)
    ensures forall m :: m in levels ==> levels[0].price <= m.price
  {
    forall m | m in levels ensures levels[0].price <= m.price {
      var i :| 0 <= i < |levels| && levels[i] == m;
    }
  }

  // Notional n1 for quantity q1 is no dearer per unit than n2 for q2: n1/q1 <= n2/q2 without division.
  ghost predicate NoDearer(n1: real, q1: real, n2: real, q2: real)
  {
    n1 * q2 <= n2 * q1
  }

  // The average price of the walk never improves with size.
  lemma {:induction false} AveragePriceMonotone(levels: seq<Level>, a: real, b: real)
    requires InTradingOrder(levels, Buy)
    requires 0.0 <= a <= b <= TakeableDepth(levels)
    ensures NoDearer(SweepBook(levels, a).notional, a, SweepBook(levels, b).notional, b)
    decreases levels, 1
  {
    hide Value, NoDearer;
    if levels == [] || a == 0.0 {
      NothingIsNoDearer(SweepBook(levels, b).notional, b);
    } else {
      BestPriceFirst(levels);
      if levels[0].amount <= 0.0 {
        AveragePriceMonotone(levels[1..], a, b);
      } else if a <= levels[0].amount {
        MarginalCostAtLeast(levels, levels[0].price, 0.0, b);
        AtBestPrice(levels[0].price, a, b, SweepBook(levels, b).notional);
      } else {
        AverageBeyondBest(levels, a, b);
      }
    }
  }

  lemma {:induction false} AverageBeyondBest(levels: seq<Level>, a: real, b: real)
    requires levels != [] && InTradingOrder(levels, Buy)
    requires 0.0 < levels[0].amount < a <= b <= TakeableDepth(levels)
    ensures NoDearer(SweepBook(levels, a).notional, a, SweepBook(levels, b).notional, b)
    decreases levels, 0
  {
    hide Value, NoDearer;
    var p, t, rest := levels[0].price, levels[0].amount, levels[1..];
    var u, v := a - t, b - t;
    assert SweepBook(levels, a).notional == Value(t, p) + SweepBook(rest, u).notional;
    assert SweepBook(levels, b).notional == Value(t, p) + SweepBook(rest, v).notional;
    hide SweepBook;
    BestPriceFirst(levels);
    AveragePriceMonotone(rest, u, v);
    MarginalCostAtLeast(rest, p, u, v - u);
    AddCheapFirst(p, t, u, v, SweepBook(rest, u).notional, SweepBook(rest, v).notional);
  }

  lemma NothingIsNoDearer(n: real, q: real)
    ensures NoDearer(0.0, 0.0, n, q)
  {
  }

  lemma AtBestPrice(p: real, a: real, b: real, nb: real)
    requires a >= 0.0 && Value(b, p) <= nb
    ensures NoDearer(Value(a, p), a, nb, b)
  {
    ValueMonotone(a, p * b, nb);
  }

  lemma AddCheapFirst(p: real, t: real, u: real, v: real, nu: real, nv: real)
    requires t >= 0.0 && NoDearer(nu, u, nv, v) && nu + Value(v - u, p) <= nv
    ensures NoDearer(Value(t, p) + nu, t + u, Value(t, p) + nv, t + v)
  {
    ValueMonotone(t, p * (v - u), nv - nu);
    assert (t * p + nu) * (t + v) == t * p * t + t * p * v + nu * t + nu * v;
    assert (t * p + nv) * (t + u) == t * p * t + t * p * u + nv * t + nv * u;
  }

  // ----- selling is buying on the mirrored book -----

  function Mirror(levels: seq<Level>): (r: seq<Level>)
    ensures |r| == |levels|
    ensures forall i :: 0 <= i < |levels| ==> r[i] == Level(-levels[i].price, levels[i].amount)
  {
    if levels == [] then [] else [Level(-levels[0].price, levels[0].amount)] + Mirror(levels[1..])
  }

  lemma MirrorValue(quantity: real, price: real)
    ensures Value(quantity, -price) == -Value(quantity, price)
  {
  }

  lemma {:induction false} MirrorWalk(levels: seq<Level>, quantity: real)
    ensures SweepBook(Mirror(levels), quantity)
            == var s := SweepBook(levels, quantity); Sweep(s.filled, -s.notional, s.levels)
    ensures TakeableDepth(Mirror(levels)) == TakeableDepth(levels)
    decreases |levels|
  {
    hide Value;
    if levels != [] {
      var l := levels[0];
      assert Mirror(levels)[0] == Level(-l.price, l.amount) && Mirror(levels)[1..] == Mirror(levels[1..]);
      MirrorWalk(levels[1..], quantity);
      if 0.0 < l.amount {
        MirrorWalk(levels[1..], quantity - l.amount);
        MirrorValue(quantity, l.price);
        MirrorValue(l.amount, l.price);
      }
    }
  }

  lemma {:induction false} MirrorNotional(levels: seq<Level>, alloc: seq<real>)
    requires |alloc| == |levels|
    ensures Notional(Mirror(levels), alloc) == -Notional(levels, alloc)
  {
    hide Value;
    if levels != [] {
      assert Mirror(levels)[1..] == Mirror(levels[1..]);
      MirrorNotional(levels[1..], alloc[1..]);
      MirrorValue(alloc[0], levels[0].price);
    }
  }

  // On bids in descending order the walk earns the most its quantity can earn.
  lemma GreedyEarnsMost(levels: seq<Level>, alloc: seq<real>)
    requires InTradingOrder(levels, Sell)
    requires Feasible(levels, alloc)
    ensures SweepBook(levels, Sum(alloc)).notional >= Notional(levels, alloc)
  {
    GreedyIsCheapest(Mirror(levels), alloc);
    MirrorWalk(levels, Sum(alloc));
    MirrorNotional(levels, alloc);
  }

  // Nor does the average price a seller gets.
  lemma AverageProceedsMonotone(levels: seq<Level>, a: real, b: real)
    requires InTradingOrder(levels, Sell)
    requires 0.0 <= a <= b <= TakeableDepth(levels)
    ensures NoDearer(SweepBook(levels, b).notional, b, SweepBook(levels, a).notional, a)
  {
    hide SweepBook, TakeableDepth, NoDearer;
    MirrorWalk(levels, a);
    MirrorWalk(levels, b);
    AveragePriceMonotone(Mirror(levels), a, b);
    MirroredAverage(SweepBook(levels, a).notional, a, SweepBook(levels, b).notional, b);
  }

  lemma MirroredAverage(n1: real, q1: real, n2: real, q2: real)
    requires NoDearer(-n1, q1, -n2, q2)
    ensures NoDearer(n2, q2, n1, q1)
  {
  }

  // ----- bounds by the best and the worst reachable price -----

  lemma {:induction false} PaidAtLeast(levels: seq<Level>, quantity: real, low: real)
    requires forall l :: l in levels && l.amount > 0.0 ==> low <= l.price
    ensures var s := SweepBook(levels, quantity);
            0.0 <= s.filled && Value(s.filled, low) <= s.notional
  {
    hide Value;
    NothingIsFree(low);
    if levels != [] && quantity > 0.0 {
      var l, rest := levels[0], levels[1..];
      if l.amount <= 0.0 {
        PaidAtLeast(rest, quantity, low);
      } else if quantity <= l.amount {
        assert l in levels;
        ValueMonotone(quantity, low, l.price);
      } else {
        assert l in levels;
        PaidAtLeast(rest, quantity - l.amount, low);
        ValueMonotone(l.amount, low, l.price);
        ValueAdds(l.amount, SweepBook(rest, quantity - l.amount).filled, low);
      }
    }
  }

  lemma {:induction false} PaidAtMost(levels: seq<Level>, quantity: real, high: real)
    requires forall l :: l in levels && l.amount > 0.0 ==> l.price <= high
    ensures var s := SweepBook(levels, quantity);
            0.0 <= s.filled && s.notional <= Value(s.filled, high)
  {
    hide Value;
    NothingIsFree(high);
    if levels != [] && quantity > 0.0 {
      var l, rest := levels[0], levels[1..];
      if l.amount <= 0.0 {
        PaidAtMost(rest, quantity, high);
      } else if quantity <= l.amount {
        assert l in levels;
        ValueMonotone(quantity, l.price, high);
      } else {
        assert l in levels;
        PaidAtMost(rest, quantity - l.amount, high);
        ValueMonotone(l.amount, l.price, high);
        ValueAdds(l.amount, SweepBook(rest, quantity - l.amount).filled, high);
      }
    }
  }
}
