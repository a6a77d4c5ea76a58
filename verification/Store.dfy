// Saving and restoring a paper portfolio (bot/paper/store.py, `_portfolio_dict` and `load`, with
// `PaperPortfolio.load_state`), and why a restart neither loses nor repeats a fill.

module Store {
  import opened Prelude
  import opened Ledger
  import opened LedgerFacts

  // The portfolio part of the persisted file. Decimals are written as exact strings and read
  // back as they were; the ids are written with the balances they produced.
  datatype SavedPortfolio = SavedPortfolio(
    quote: string,
    balances: map<string, AssetBalance>,
    positions: map<string, Position>,
    stats: Stats,
    marks: map<string, real>,
    processed: set<string>
  )

  function Save(a: Account): SavedPortfolio
  {
    SavedPortfolio(a.quote, a.balances, a.positions, a.stats, a.marks, a.processed)
  }

  // The account that a file holds.
  function AsAccount(s: SavedPortfolio): Account
  {
    Account(s.quote, s.balances, s.positions, s.stats, s.marks, s.processed)
  }

  // Nothing of an account is lost in the file, and the file holds nothing else.
  lemma SavedIsAccount(a: Account, s: SavedPortfolio)
    ensures s == Save(a) <==> a == AsAccount(s)
  {
  }

  // A fresh portfolio takes over the saved state and ids, then looks at its equity once more.
  ghost function Load(s: SavedPortfolio): Account
  {
    ObserveEquity(Account(s.quote, s.balances, s.positions, s.stats, s.marks, {} + s.processed))
  }

  // The extra look at the equity is harmless exactly when the saved statistics had already seen it.
  lemma LoadSaveIff(a: Account)
    ensures Load(Save(a)) == a <==> Watched(a)
  {
    hide Observe, Equity;
    assert {} + a.processed == a.processed;
  }

  // ----- a stream of fills with repeats, saves and crashes -----

  datatype Event = Arrives(fill: Fill) | Persisted | Crash

  datatype Running = Running(account: Account, disk: SavedPortfolio)

  // A crash loses whatever came after the last save.
  ghost function Suffer(r: Running, e: Event): Running
  {
    match e
    case Arrives(fill) => r.(account := ApplyFill(r.account, fill))
    case Persisted => r.(disk := Save(r.account))
    case Crash => r.(account := Load(r.disk))
  }

  ghost function Replay(r: Running, events: seq<Event>, n: nat): Running
    requires n <= |events|
  {
    if n == 0 then r else Suffer(Replay(r, events, n - 1), events[n - 1])
  }

  // Which fills the account holds, and which the file holds.
  datatype Trail = Trail(live: seq<Fill>, kept: seq<Fill>)

  predicate HasId(fills: seq<Fill>, id: string)
  {
    exists i :: 0 <= i < |fills| && fills[i].id == id
  }

  // A new fill joins the live ones, a save keeps them, a crash goes back to the kept ones.
  function Survivors(events: seq<Event>, seen: set<string>, n: nat): Trail
    requires n <= |events|
  {
    if n == 0 then Trail([], [])
    else
      var t := Survivors(events, seen, n - 1);
      match events[n - 1]
      case Arrives(fill) => if fill.id in seen || HasId(t.live, fill.id) then t else t.(live := t.live + [fill])
      case Persisted => t.(kept := t.live)
      case Crash => t.(live := t.kept)
  }

  // Each fill posted once, unconditionally.
  ghost function Fold(a: Account, fills: seq<Fill>): Account
  {
    if fills == [] then a else ApplyFill(Fold(a, fills[..|fills| - 1]), fills[|fills| - 1])
  }

  // No survivor is a repetition, neither of another one nor of a fill processed before.
  lemma {:induction false} SurvivorsDistinct(events: seq<Event>, seen: set<string>, n: nat)
    requires n <= |events|
    ensures var t := Survivors(events, seen, n);
            && Distinct(t.live, seen) && Distinct(t.kept, seen)
  {
    if n > 0 {
      SurvivorsDistinct(events, seen, n - 1);
      var t := Survivors(events, seen, n - 1);
      hide Survivors;
      if events[n - 1].Arrives? && !HasId(t.live, events[n - 1].fill.id) {
        assert forall i :: 0 <= i < |t.live| ==> t.live[i].id != events[n - 1].fill.id;
      }
    }
  }

  ghost predicate Distinct(fills: seq<Fill>, seen: set<string>)
  {
    && (forall i :: 0 <= i < |fills| ==> fills[i].id !in seen)
    && (forall i, j :: 0 <= i < j < |fills| ==> fills[i].id != fills[j].id)
  }

  // A save stands between the i-th event and every later crash.
  ghost predicate Durable(events: seq<Event>, i: nat, n: nat)
    requires n <= |events|
  {
    forall j :: i < j < n && events[j].Crash? ==> SavedBetween(events, i, j)
  }

  ghost predicate SavedBetween(events: seq<Event>, i: nat, j: nat)
    requires j <= |events|
  {
    exists p :: i < p < j && events[p].Persisted?
  }

  predicate Delivers(e: Event, id: string) { e.Arrives? && e.fill.id == id }

  // Exactly which fills survive: those delivered at least once with a save before every later crash. They are
  // in the file exactly when a save has followed.
  lemma {:induction false} SurvivesIff(events: seq<Event>, seen: set<string>, n: nat, id: string)
    requires n <= |events| && id !in seen
    ensures var t := Survivors(events, seen, n);
            && (HasId(t.live, id) <==> exists i :: 0 <= i < n && Delivers(events[i], id) && Durable(events, i, n))
            && (HasId(t.kept, id)
                <==> exists i :: 0 <= i < n && Delivers(events[i], id) && Durable(events, i, n) && SavedBetween(events, i, n))
  {
    hide Durable, SavedBetween, HasId, Survivors;
    if n == 0 {
      NothingSurvives(events, seen, id);
    } else {
      SurvivesIff(events, seen, n - 1, id);
      SurvivorsStep(events, seen, n, id);
      hide Delivers;
      var e := events[n - 1];
      forall i | 0 <= i < n && Delivers(events[i], id)
        ensures i < n - 1 ==>
                  Durable(events, i, n) == (Durable(events, i, n - 1) && (e.Crash? ==> SavedBetween(events, i, n - 1)))
        ensures i < n - 1 ==> SavedBetween(events, i, n) == (SavedBetween(events, i, n - 1) || e.Persisted?)
      {
        if i < n - 1 { DurableStep(events, i, n); }
      }
      LastIsDurable(events, n, id);
    }
  }

  lemma NothingSurvives(events: seq<Event>, seen: set<string>, id: string)
    ensures !HasId(Survivors(events, seen, 0).live, id) && !HasId(Survivors(events, seen, 0).kept, id)
  {
  }

  lemma SurvivorsStep(events: seq<Event>, seen: set<string>, n: nat, id: string)
    requires 0 < n <= |events| && id !in seen
    ensures var before, after, e := Survivors(events, seen, n - 1), Survivors(events, seen, n), events[n - 1];
            && (HasId(after.live, id) <==> if e.Crash? then HasId(before.kept, id)
                                           else HasId(before.live, id) || Delivers(e, id))
            && (HasId(after.kept, id) <==> if e.Persisted? then HasId(before.live, id) else HasId(before.kept, id))
  {
    var before, e := Survivors(events, seen, n - 1), events[n - 1];
    if e.Arrives? { HasOneMore(before.live, e.fill, id); }
  }

  lemma HasOneMore(fills: seq<Fill>, fill: Fill, id: string)
    ensures HasId(fills + [fill], id) <==> HasId(fills, id) || fill.id == id
  {
    var more := fills + [fill];
    assert more[|fills|] == fill;
    if i :| 0 <= i < |fills| && fills[i].id == id { assert more[i].id == id; }
  }

  lemma DurableStep(events: seq<Event>, i: nat, n: nat)
    requires i < n - 1 < |events|
    ensures Durable(events, i, n) <==> Durable(events, i, n - 1) && (events[n - 1].Crash? ==> SavedBetween(events, i, n - 1))
    ensures SavedBetween(events, i, n) <==> SavedBetween(events, i, n - 1) || events[n - 1].Persisted?
  {
    hide SavedBetween;
    assert SavedBetween(events, i, n) <==> SavedBetween(events, i, n - 1) || events[n - 1].Persisted? by {
      SavedStep(events, i, n);
    }
  }

  lemma SavedStep(events: seq<Event>, i: nat, n: nat)
    requires i < n - 1 < |events|
    ensures SavedBetween(events, i, n) <==> SavedBetween(events, i, n - 1) || events[n - 1].Persisted?
  {
  }

  lemma LastIsDurable(events: seq<Event>, n: nat, id: string)
    requires 0 < n <= |events|
    ensures Durable(events, n - 1, n) && !SavedBetween(events, n - 1, n)
    ensures Delivers(events[n - 1], id) ==> !events[n - 1].Crash? && !events[n - 1].Persisted?
  {
  }

  lemma {:induction false} FoldWatched(a: Account, fills: seq<Fill>)
    requires Watched(a)
    ensures Watched(Fold(a, fills))
    ensures forall id :: id in Fold(a, fills).processed <==> id in a.processed || HasId(fills, id)
  {
    hide Watched, ApplyFill, HasId;
    if fills == [] {
      NoIds();
    } else {
      var rest, last := fills[..|fills| - 1], fills[|fills| - 1];
      FoldWatched(a, rest);
      ApplyFillWatched(Fold(a, rest), last);
      assert fills == rest + [last];
      forall id { HasOneMore(rest, last, id); }
    }
  }

  lemma NoIds()
    ensures forall id :: !HasId([], id)
  {
  }

  lemma FoldOneMore(a: Account, fills: seq<Fill>, fill: Fill)
    ensures Fold(a, fills + [fill]) == ApplyFill(Fold(a, fills), fill)
  {
    hide ApplyFill;
    assert (fills + [fill])[..|fills|] == fills;
  }

  lemma ApplyFillWatched(a: Account, fill: Fill)
    requires Watched(a)
    ensures Watched(ApplyFill(a, fill))
    ensures ApplyFill(a, fill).processed == a.processed + {fill.id}
    ensures fill.id in a.processed ==> ApplyFill(a, fill) == a
  {
    hide Observe, SettleBalances, SettlePosition, Equity, Watched, TotalOver;
    if fill.id !in a.processed {
      ObserveTwice(MarkToMarket(Post(a, fill).0));
    } else {
      assert a.processed + {fill.id} == a.processed;
    }
  }

  // Exactly once: whatever is redelivered, whenever the portfolio is saved, and wherever the process crashes,
  // the account is what posting each surviving fill once, in order of first delivery, makes of the start, and
  // the file holds the same of the fills that were live when it was written.
  lemma {:induction false} ExactlyOnce(a: Account, events: seq<Event>, n: nat)
    requires Watched(a) && n <= |events|
    ensures var r, t := Replay(Running(a, Save(a)), events, n), Survivors(events, a.processed, n);
            r.account == Fold(a, t.live) && r.disk == Save(Fold(a, t.kept))
  {
    hide Watched, ApplyFill, Load, Save, HasId;
    if n > 0 {
      ExactlyOnce(a, events, n - 1);
      var t := Survivors(events, a.processed, n - 1);
      match events[n - 1]
      case Arrives(fill) =>
        FoldWatched(a, t.live);
        ApplyFillWatched(Fold(a, t.live), fill);
        FoldOneMore(a, t.live, fill);
      case Persisted =>
      case Crash =>
        FoldWatched(a, t.kept);
        LoadSaveIff(Fold(a, t.kept));
    }
  }
}
