// What a list of fills adds up to.

module FillSums {
  import opened DepthWalk
  import opened Ledger

  function FilledBy(fills: seq<Fill>): real
  {
    if fills == [] then 0.0 else fills[0].quantity + FilledBy(fills[1..])
  }

  function FeesOf(fills: seq<Fill>): real
  {
    if fills == [] then 0.0 else fills[0].fee + FeesOf(fills[1..])
  }

  function SlippageOf(fills: seq<Fill>): real
  {
    if fills == [] then 0.0 else fills[0].slippage + SlippageOf(fills[1..])
  }

  function VolumeOf(fills: seq<Fill>): real
  {
    if fills == [] then 0.0 else Value(fills[0].quantity, fills[0].price) + VolumeOf(fills[1..])
  }

  lemma {:induction false} SumsConcat(a: seq<Fill>, b: seq<Fill>)
    ensures FilledBy(a + b) == FilledBy(a) + FilledBy(b)
    ensures FeesOf(a + b) == FeesOf(a) + FeesOf(b)
    ensures SlippageOf(a + b) == SlippageOf(a) + SlippageOf(b)
    ensures VolumeOf(a + b) == VolumeOf(a) + VolumeOf(b)
  {
    hide Value;
    if a == [] {
      assert a + b == b;
    } else {
      assert (a + b)[1..] == a[1..] + b;
      SumsConcat(a[1..], b);
    }
  }
}
