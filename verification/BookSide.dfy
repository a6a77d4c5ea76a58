// One side of a local order book: a map from price to amount, updated level by level and cut back
// to the best `depth` levels (bot/market_data/local_order_book.py).

module BookSide {
  import opened Prelude
  import opened DepthWalk

  type Levels = map<real, real>

  // Which of two prices is nearer the top: asks (the side a buyer walks) are best when low, bids when high.
  predicate Better(side: Side, p: real, q: real)
  {
    if side.Buy? then p < q else p > q
  }

  // ----- sets and their sizes -----

  lemma Pick<T>(s: set<T>) returns (x: T)
    requires |s| != 0
    ensures x in s
  {
    x :| x in s;
  }

  // ----- rank -----

  // The prices of `keys` nearer the top than `p`.
  function Ahead(keys: set<real>, side: Side, p: real): set<real>
  {
    set q | q in keys && Better(side, q, p)
  }

  function Rank(keys: set<real>, side: Side, p: real): nat
  {
    |Ahead(keys, side, p)|
  }

  // The best `depth` levels of a side.
  function Trim(m: Levels, side: Side, depth: nat): Levels
  {
    map p | p in m && Rank(m.Keys, side, p) < depth :: m[p]
  }

  // ----- `sorted` -----

  lemma {:induction false} BestExists(keys: set<real>, side: Side)
    requires |keys| != 0
    ensures exists p :: p in keys && forall q :: q in keys ==> !Better(side, q, p)
    decreases |keys|
  {
    var x := Pick(keys);
    var others := keys - {x};
    if |others| == 0 {
      assert keys == {x};
    } else {
      BestExists(others, side);
      var p :| p in others && forall q :: q in others ==> !Better(side, q, p);
      var best := if Better(side, x, p) then x else p;
      forall q | q in keys ensures !Better(side, q, best) {
        if q != x { assert q in others; }
      }
    }
  }

  function Best(keys: set<real>, side: Side): (p: real)
    requires |keys| != 0
    ensures p in keys && forall q :: q in keys ==> !Better(side, q, p)
  {
    BestExists(keys, side);
    var p :| p in keys && forall q :: q in keys ==> !Better(side, q, p);
    p
  }

  // The prices from the top down: `sorted(keys)` for asks, reversed for bids.
  function InOrder(keys: set<real>, side: Side): (s: seq<real>)
    ensures |s| == |keys|
  {
    if |keys| == 0 then []
    else
      var p := Best(keys, side);
      [p] + InOrder(keys - {p}, side)
  }

  lemma {:induction false} InOrderMembers(keys: set<real>, side: Side)
    ensures forall p :: p in InOrder(keys, side) <==> p in keys
    ensures forall i, j :: 0 <= i < j < |keys| ==> Better(side, InOrder(keys, side)[i], InOrder(keys, side)[j])
  {
    if |keys| != 0 {
      var p := Best(keys, side);
      var s, rest := InOrder(keys, side), InOrder(keys - {p}, side);
      InOrderMembers(keys - {p}, side);
      forall q ensures q in s <==> q in keys {
        assert q in s <==> q == p || q in rest;
      }
      forall i, j | 0 <= i < j < |keys| ensures Better(side, s[i], s[j]) {
        assert s[j] == rest[j - 1] && rest[j - 1] in rest;
        if i > 0 { assert s[i] == rest[i - 1]; }
      }
    }
  }

  // Prices that are all in order have as many different values as places.
  lemma {:induction false} PrefixSize(s: seq<real>, side: Side, n: nat)
    requires n <= |s| && forall i, j :: 0 <= i < j < |s| ==> Better(side, s[i], s[j])
    ensures |FirstOf(s, n)| == n
  {
    if n > 0 {
      PrefixSize(s, side, n - 1);
      assert FirstOf(s, n) == FirstOf(s, n - 1) + {s[n - 1]};
    }
  }

  lemma InOrderIn(keys: set<real>, side: Side)
    ensures forall i :: 0 <= i < |keys| ==> InOrder(keys, side)[i] in keys
  {
    InOrderMembers(keys, side);
    hide InOrder;
    var s := InOrder(keys, side);
    forall i | 0 <= i < |keys| ensures s[i] in keys {
      assert s[i] in s;
    }
  }

  function FirstOf(s: seq<real>, n: nat): set<real>
    requires n <= |s|
  {
    set i | 0 <= i < n :: s[i]
  }

  // The prices ahead of the k-th in sorted order are the k before it, so its rank is k.
  lemma RankIsIndex(keys: set<real>, side: Side, k: nat)
    requires k < |keys|
    ensures var s := InOrder(keys, side);
            Ahead(keys, side, s[k]) == FirstOf(s, k) && Rank(keys, side, s[k]) == k
  {
    var s := InOrder(keys, side);
    InOrderMembers(keys, side);
    PrefixSize(s, side, k);
    forall q ensures q in Ahead(keys, side, s[k]) <==> q in FirstOf(s, k) {
      if q in keys {
        assert q in s;
        var j :| 0 <= j < |s| && s[j] == q;
        if j > k { assert Better(side, s[k], s[j]); }
      }
      if q in FirstOf(s, k) {
        var i :| 0 <= i < k && s[i] == q;
        assert s[i] in s;
      }
    }
    assert Ahead(keys, side, s[k]) == FirstOf(s, k);
  }

  lemma KeptByCut(keys: set<real>, side: Side, depth: nat, p: real)
    requires p in keys
    ensures Rank(keys, side, p) < |keys|
    ensures depth <= |keys| ==> (Rank(keys, side, p) < depth <==> p in FirstOf(InOrder(keys, side), depth))
  {
    var s := InOrder(keys, side);
    InOrderMembers(keys, side);
    assert p in s;
    var k :| 0 <= k < |s| && s[k] == p;
    RankIsIndex(keys, side, k);
    hide InOrder, Rank;
    if depth <= |keys| {
      if k < depth {
        assert p in FirstOf(s, depth);
      } else {
        forall j | 0 <= j < depth ensures s[j] != p {
          assert Better(side, s[j], s[k]);
        }
      }
    }
  }

  // Cutting the sorted prices after `depth` places keeps exactly the prices of rank below `depth`:
  // what `_trim_depth` computes is Trim.
  lemma CutIsTrim(m: Levels, side: Side, depth: nat)
    ensures depth <= |m| ==> Trim(m, side, depth).Keys == FirstOf(InOrder(m.Keys, side), depth)
    ensures |m| <= depth ==> Trim(m, side, depth) == m
    ensures |Trim(m, side, depth)| == if |m| <= depth then |m| else depth
  {
    var s, keys := InOrder(m.Keys, side), m.Keys;
    InOrderMembers(keys, side);
    hide InOrder, Rank;
    forall p | p in m
      ensures Rank(keys, side, p) < |m| && (depth <= |m| ==> (Rank(keys, side, p) < depth <==> p in FirstOf(s, depth)))
    {
      KeptByCut(keys, side, depth, p);
    }
    if depth <= |m| {
      PrefixSize(s, side, depth);
      forall p | p in FirstOf(s, depth) ensures p in m {
        assert p in s;
      }
      assert Trim(m, side, depth).Keys == FirstOf(s, depth);
      assert |Trim(m, side, depth)| == |Trim(m, side, depth).Keys|;
    }
  }

  // ----- applying a message to a side -----

  // `_apply_levels`: an amount of zero or less removes the level.
  function ApplyLevels(m: Levels, levels: seq<Level>): Levels
    decreases |levels|
  {
    if levels == [] then m
    else ApplyLevels(ApplyLevel(m, levels[0]), levels[1..])
  }

  function ApplyLevel(m: Levels, level: Level): Levels
  {
    if level.amount <= 0.0 then m - {level.price} else m[level.price := level.amount]
  }

  // The snapshot comprehension: levels without size are left out, and do not remove anything.
  function FromSnapshot(m: Levels, levels: seq<Level>): Levels
    decreases |levels|
  {
    if levels == [] then m
    else FromSnapshot(if levels[0].amount > 0.0 then m[levels[0].price := levels[0].amount] else m, levels[1..])
  }

  // ----- the capped side against the uncapped one -----

  // Held levels are right, and of the uncapped side the best `depth - lost` levels are held.
  ghost predicate Shadows(held: Levels, full: Levels, side: Side, depth: nat, lost: nat)
  {
    && (forall p :: p in held ==> p in full && held[p] == full[p])
    && (forall p :: p in full && Rank(full.Keys, side, p) < depth - lost ==> p in held)
  }

  lemma SetKeepsShadow(held: Levels, full: Levels, side: Side, depth: nat, lost: nat, level: Level)
    requires Shadows(held, full, side, depth, lost) && level.amount > 0.0
    ensures Shadows(ApplyLevel(held, level), ApplyLevel(full, level), side, depth, lost)
  {
    var full' := ApplyLevel(full, level);
    forall p | p in full' && Rank(full'.Keys, side, p) < depth - lost ensures p in ApplyLevel(held, level) {
      if p != level.price {
        SubsetSize(Ahead(full.Keys, side, p), Ahead(full'.Keys, side, p));
      }
    }
  }

  // Deleting a held level may let one level into the top that was cut away before; deleting any other does not.
  lemma DeleteKeepsShadow(held: Levels, full: Levels, side: Side, depth: nat, lost: nat, price: real)
    requires Shadows(held, full, side, depth, lost)
    ensures Shadows(held - {price}, full - {price}, side, depth, if price in held then lost + 1 else lost)
  {
    var full' := full - {price};
    var lost' := if price in held then lost + 1 else lost;
    forall p | p in full' && Rank(full'.Keys, side, p) < depth - lost' ensures p in held - {price} {
      var before, after := Ahead(full.Keys, side, p), Ahead(full'.Keys, side, p);
      assert after == before - {price};
      assert |after| == if price in before then |before| - 1 else |before|;
      if price in before {
        var ahead := Ahead(full.Keys, side, price);
        SubsetSize(ahead + {price}, before);
        assert |ahead + {price}| == |ahead| + 1;
      }
    }
  }

  lemma TrimKeepsShadow(held: Levels, full: Levels, side: Side, depth: nat, lost: nat)
    requires Shadows(held, full, side, depth, lost)
    ensures Shadows(Trim(held, side, depth), full, side, depth, lost)
  {
    forall p | p in full && Rank(full.Keys, side, p) < depth - lost ensures p in Trim(held, side, depth) {
      SubsetSize(Ahead(held.Keys, side, p), Ahead(full.Keys, side, p));
    }
  }

  // How many deletions in a message hit a level that is held at that moment.
  function Losses(held: Levels, levels: seq<Level>): nat
    decreases |levels|
  {
    if levels == [] then 0
    else (if levels[0].amount <= 0.0 && levels[0].price in held then 1 else 0)
         + Losses(ApplyLevel(held, levels[0]), levels[1..])
  }

  lemma {:induction false} MessageKeepsShadow(held: Levels, full: Levels, side: Side, depth: nat, lost: nat,
                                              levels: seq<Level>)
    requires Shadows(held, full, side, depth, lost)
    ensures Shadows(ApplyLevels(held, levels), ApplyLevels(full, levels), side, depth, lost + Losses(held, levels))
    decreases |levels|
  {
    hide Shadows;
    if levels != [] {
      var level := levels[0];
      var lost' := if level.amount <= 0.0 && level.price in held then lost + 1 else lost;
      if level.amount <= 0.0 {
        DeleteKeepsShadow(held, full, side, depth, lost, level.price);
      } else {
        SetKeepsShadow(held, full, side, depth, lost, level);
      }
      MessageKeepsShadow(ApplyLevel(held, level), ApplyLevel(full, level), side, depth, lost', levels[1..]);
    }
  }

  // What the invariant is for: the best `depth - lost` levels of both sides are the same levels.
  lemma ShadowTop(held: Levels, full: Levels, side: Side, depth: nat, lost: nat, n: nat)
    requires Shadows(held, full, side, depth, lost) && n <= depth - lost
    ensures Trim(held, side, n) == Trim(full, side, n)
  {
    forall p | p in full && Rank(full.Keys, side, p) < n ensures p in held && Rank(held.Keys, side, p) < n {
      SubsetSize(Ahead(held.Keys, side, p), Ahead(full.Keys, side, p));
    }
    forall p | p in held && Rank(held.Keys, side, p) < n ensures Rank(full.Keys, side, p) < n {
      if Rank(full.Keys, side, p) >= n {
        ShadowRank(held, full, side, depth, lost, n, p);
      }
    }
  }

  // A price with n better ones in the full side has n better ones among those held.
  lemma ShadowRank(held: Levels, full: Levels, side: Side, depth: nat, lost: nat, n: nat, p: real)
    requires Shadows(held, full, side, depth, lost) && n <= depth - lost
    requires p in full && Rank(full.Keys, side, p) >= n
    ensures Rank(held.Keys, side, p) >= n
  {
    var s := InOrder(full.Keys, side);
    InOrderMembers(full.Keys, side);
    assert p in s;
    var k :| 0 <= k < |s| && s[k] == p;
    RankIsIndex(full.Keys, side, k);
    var top := FirstOf(s, n);
    forall q | q in top ensures q in Ahead(held.Keys, side, p) {
      var i :| 0 <= i < n && s[i] == q;
      RankIsIndex(full.Keys, side, i);
      assert s[i] in s;
    }
    PrefixSize(s, side, n);
    SubsetSize(top, Ahead(held.Keys, side, p));
  }

  // The bound cannot be improved: on any side that was cut, deleting any one held level leaves the best
  // `depth` levels wrong, because a level that was cut away belongs among them.
  lemma BoundIsTight(full: Levels, side: Side, depth: nat, price: real)
    requires 1 <= depth < |full| && price in Trim(full, side, depth)
    ensures var held := Trim(full, side, depth);
            && Losses(held, [Level(price, 0.0)]) == 1
            && Trim(held - {price}, side, depth) != Trim(full - {price}, side, depth)
            && Trim(held - {price}, side, depth - 1) == Trim(full - {price}, side, depth - 1)
  {
    hide Trim, Shadows, Losses, ApplyLevel;
    var held := Trim(full, side, depth);
    SelfShadow(full, side, depth);
    TrimWithin(full, side, depth, price);
    OneLoss(held, price);
    TrimKeepsShadow(full, full, side, depth, 0);
    DeleteKeepsShadow(held, full, side, depth, 0, price);
    ShadowTop(held - {price}, full - {price}, side, depth, 1, depth - 1);
    OneShort(full, side, depth, price);
  }

  lemma TrimWithin(m: Levels, side: Side, depth: nat, price: real)
    requires price in Trim(m, side, depth)
    ensures price in m
  {
  }

  lemma OneLoss(held: Levels, price: real)
    requires price in held
    ensures Losses(held, [Level(price, 0.0)]) == 1
  {
    assert [Level(price, 0.0)][1..] == [];
  }

  lemma OneShort(full: Levels, side: Side, depth: nat, price: real)
    requires 1 <= depth < |full| && price in full && price in Trim(full, side, depth)
    ensures |Trim(Trim(full, side, depth) - {price}, side, depth)| == depth - 1
    ensures |Trim(full - {price}, side, depth)| == depth
  {
    hide Trim, Rank, InOrder, FirstOf;
    var held := Trim(full, side, depth);
    CutIsTrim(full, side, depth);
    RemovedSize(held, price);
    RemovedSize(full, price);
    CutIsTrim(held - {price}, side, depth);
    CutIsTrim(full - {price}, side, depth);
  }

  lemma SelfShadow(full: Levels, side: Side, depth: nat)
    ensures Shadows(full, full, side, depth, 0)
  {
  }

  lemma RemovedSize(m: Levels, price: real)
    requires price in m
    ensures |m - {price}| == |m| - 1
  {
    assert (m - {price}).Keys == m.Keys - {price};
  }
}
