// Shared vocabulary: optional values, real arithmetic helpers, and sums over
// finite maps and sequences of money amounts.

module Prelude {

  datatype Option<+T> = None | Some(value: T)

  function Min(a: real, b: real): real { if a <= b then a else b }

  function Max(a: real, b: real): real { if a >= b then a else b }

  function Abs(a: real): real { if a >= 0.0 then a else -a }

  // ----- sums over maps -----

  ghost function TotalOver<K(!new)>(keys: set<K>, m: map<K, real>): real
    requires keys <= m.Keys
  {
    if keys == {} then 0.0
    else
      var k :| k in keys;
      m[k] + TotalOver(keys - {k}, m)
  }

  // The sum of all values of a finite map. A Python dict is summed in insertion order;
  // addition of reals commutes, so the order does not matter (TotalOverAt).
  ghost function Total<K(!new)>(m: map<K, real>): real
  {
    TotalOver(m.Keys, m)
  }

  lemma {:induction false} TotalOverAt<K(!new)>(keys: set<K>, m: map<K, real>, k: K)
    requires k in keys && keys <= m.Keys
    ensures TotalOver(keys, m) == m[k] + TotalOver(keys - {k}, m)
  {
    var j :| j in keys && TotalOver(keys, m) == m[j] + TotalOver(keys - {j}, m);
    if j != k {
      TotalOverAt(keys - {j}, m, k);
      TotalOverAt(keys - {k}, m, j);
      assert keys - {j} - {k} == keys - {k} - {j};
    }
  }

  lemma {:induction false} TotalOverSame<K(!new)>(keys: set<K>, m: map<K, real>, n: map<K, real>)
    requires keys <= m.Keys && keys <= n.Keys
    requires forall k :: k in keys ==> m[k] == n[k]
    ensures TotalOver(keys, m) == TotalOver(keys, n)
  {
    if keys != {} {
      var k :| k in keys;
      TotalOverAt(keys, m, k);
      TotalOverAt(keys, n, k);
      TotalOverSame(keys - {k}, m, n);
    }
  }

  lemma TotalUpdate<K(!new)>(m: map<K, real>, k: K, v: real)
    ensures Total(m[k := v]) == Total(m) - (if k in m then m[k] else 0.0) + v
  {
    var n, others := m[k := v], m.Keys - {k};
    TotalOverAt(n.Keys, n, k);
    assert n.Keys - {k} == others;
    TotalOverSame(others, m, n);
    if k in m {
      TotalOverAt(m.Keys, m, k);
    } else {
      assert others == m.Keys;
    }
  }

  lemma {:induction false} TotalOverNonNegative<K(!new)>(keys: set<K>, m: map<K, real>)
    requires keys <= m.Keys
    requires forall k :: k in keys ==> m[k] >= 0.0
    ensures TotalOver(keys, m) >= 0.0
  {
    if keys != {} {
      var k :| k in keys;
      TotalOverAt(keys, m, k);
      TotalOverNonNegative(keys - {k}, m);
    }
  }

  lemma TotalNonNegative<K(!new)>(m: map<K, real>)
    requires forall k :: k in m ==> m[k] >= 0.0
    ensures Total(m) >= 0.0
    ensures forall k :: k in m ==> m[k] <= Total(m)
  {
    TotalOverNonNegative(m.Keys, m);
    forall k | k in m ensures m[k] <= Total(m) {
      TotalOverAt(m.Keys, m, k);
      TotalOverNonNegative(m.Keys - {k}, m);
    }
  }

  lemma {:induction false} TotalZero<K(!new)>(keys: set<K>, m: map<K, real>)
    requires keys <= m.Keys
    requires forall k :: k in keys ==> m[k] == 0.0
    ensures TotalOver(keys, m) == 0.0
  {
    if keys != {} {
      var k :| k in keys;
      TotalOverAt(keys, m, k);
      TotalZero(keys - {k}, m);
    }
  }

  // Two maps over the same keys are summed together value by value.
  lemma {:induction false} TotalAdd<K(!new)>(keys: set<K>, a: map<K, real>, b: map<K, real>, c: map<K, real>)
    requires keys <= a.Keys && keys <= b.Keys && keys <= c.Keys
    requires forall k :: k in keys ==> c[k] == a[k] + b[k]
    ensures TotalOver(keys, c) == TotalOver(keys, a) + TotalOver(keys, b)
  {
    if keys != {} {
      var k :| k in keys;
      TotalOverAt(keys, a, k);
      TotalOverAt(keys, b, k);
      TotalOverAt(keys, c, k);
      TotalAdd(keys - {k}, a, b, c);
    }
  }

  // ----- sizes of sets -----

  lemma SubsetSize<T>(small: set<T>, large: set<T>)
    requires small <= large
    ensures |small| <= |large|
  {
    assert large == small + (large - small);
  }

  // ----- sums over sequences -----

  function Sum(s: seq<real>): real
  {
    if s == [] then 0.0 else s[0] + Sum(s[1..])
  }

  lemma {:induction false} SumConcat(a: seq<real>, b: seq<real>)
    ensures Sum(a + b) == Sum(a) + Sum(b)
  {
    if a == [] {
      assert a + b == b;
    } else {
      SumConcat(a[1..], b);
      assert (a + b)[1..] == a[1..] + b;
    }
  }
}
