// Which asset a symbol is about (bot/portfolio/portfolio.py, `base_asset_for`; bot/portfolio/accounting.py,
// `_infer_base`).

module AssetNames {
  import opened Ledger

  predicate IsSeparator(c: char) { c == '/' || c == '-' }

  predicate Plain(name: string) { forall i :: 0 <= i < |name| ==> !IsSeparator(name[i]) }

  lemma {:induction false} PlainStays(name: string)
    requires Plain(name)
    ensures WithoutSeparators(name) == name
  {
    if name != [] { PlainStays(name[1..]); }
  }

  lemma {:induction false} SeparatorsConcat(a: string, b: string)
    ensures WithoutSeparators(a + b) == WithoutSeparators(a) + WithoutSeparators(b)
  {
    if a == [] {
      assert a + b == b;
    } else {
      assert (a + b)[1..] == a[1..] + b;
      SeparatorsConcat(a[1..], b);
    }
  }

  // Whatever a symbol is, what is left of it has no separators, and nothing else is lost.
  lemma {:induction false} OnlySeparatorsGo(symbol: string)
    ensures Plain(WithoutSeparators(symbol))
    ensures forall c :: !IsSeparator(c) ==> multiset(WithoutSeparators(symbol))[c] == multiset(symbol)[c]
  {
    if symbol != [] {
      OnlySeparatorsGo(symbol[1..]);
      assert symbol == [symbol[0]] + symbol[1..];
    }
  }

  // A pair names its base, however the two are joined.
  lemma PairHasBase(base: string, joint: string, quote: string)
    requires Plain(base) && base != "" && Plain(quote) && joint in {"", "/", "-"}
    ensures BaseAsset(base + joint + quote, quote) == base
  {
    SeparatorsConcat(base + joint, quote);
    SeparatorsConcat(base, joint);
    PlainStays(base);
    PlainStays(quote);
    NoJoint(joint);
    var compact := WithoutSeparators(base + joint + quote);
    assert compact == base + quote;
    assert compact[|base|..] == quote && compact[..|base|] == base;
  }

  lemma NoJoint(joint: string)
    requires joint in {"", "/", "-"}
    ensures WithoutSeparators(joint) == ""
  {
    if joint != "" { assert joint[1..] == ""; }
  }

  // A symbol that is no longer than the quote, or does not end with it, is its own base.
  lemma OtherIsItself(symbol: string, quote: string)
    requires Plain(symbol)
    requires |symbol| <= |quote| || symbol[|symbol| - |quote|..] != quote
    ensures BaseAsset(symbol, quote) == symbol
  {
    PlainStays(symbol);
  }
}
