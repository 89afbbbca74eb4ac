/** One ingest call run in place over the tables, each step proved against the functions of IngestPipeline. */
module IngestRun {
  import Columns = IngestColumns
  import opened Common
  import opened FillIngest
  import opened ComboSynthesis
  import Pipeline = IngestPipeline
  import P = IngestProperties

  // ---------------------------------------------------------------------
  // Deriving a combo summary
  // ---------------------------------------------------------------------

  /** The nonzero leg sizes, abandoned at the first fractional one. */
  method LegSizes(legs: seq<Fill>) returns (sizes: seq<nat>)
    ensures sizes == WholeSizes(legs)
  {
    sizes := [];
    for i := 0 to |legs|
      invariant sizes == NonzeroSizes(legs[..i])
      invariant forall j :: 0 <= j < i ==> IsWhole(Abs(legs[j].quantity))
    {
      assert legs[..i + 1][..i] == legs[..i];
      var size := Abs(legs[i].quantity);
      if size == 0.0 { continue; }
      if size.Floor as real == size {
        sizes := sizes + [size.Floor];
      } else {
        sizes := [];
        return;
      }
    }
    assert legs[..|legs|] == legs;
  }

  method EuclidGcd(a: nat, b: nat) returns (g: nat)
    ensures g == Gcd(a, b)
  {
    var x, y := a, b;
    while y != 0
      invariant x >= 0 && y >= 0 && Gcd(x, y) == Gcd(a, b)
      decreases y
    {
      x, y := y, x % y;
    }
    g := x;
  }

  method CommonSize(sizes: seq<nat>) returns (q: nat)
    ensures q == if sizes == [] || GcdAll(sizes) == 0 then 1 else GcdAll(sizes)
  {
    q := 1;
    if sizes != [] {
      q := sizes[0];
      for i := 1 to |sizes|
        invariant q == GcdAll(sizes[..i])
      {
        assert sizes[..i + 1][..i] == sizes[..i];
        q := EuclidGcd(q, sizes[i]);
      }
      assert sizes[..|sizes|] == sizes;
      if q <= 0 { q := 1; }
    }
  }

  /** Net cash and earliest time of the legs, in one pass. */
  method CashAndTime(legs: seq<Fill>) returns (cash: real, earliest: int)
    requires legs != []
    ensures cash == NetCash(legs) && earliest == EarliestLeg(legs)
  {
    cash, earliest := legs[0].quantity * legs[0].price, legs[0].executedAt;
    assert legs[..1] == [legs[0]] && [legs[0]][..0] == [];
    assert NetCash([legs[0]]) == NetCash([]) + Cash(legs[0]);
    for i := 1 to |legs|
      invariant cash == NetCash(legs[..i]) && earliest == EarliestLeg(legs[..i])
    {
      assert legs[..i + 1][..i] == legs[..i];
      cash := cash + Cash(legs[i]);
      if legs[i].executedAt < earliest { earliest := legs[i].executedAt; }
    }
    assert legs[..|legs|] == legs;
  }

  method SynthesizeComboSummary(key: string, legs: seq<Fill>) returns (s: Summary)
    requires legs != []
    ensures s == Synthesize(legs, key)
  {
    var sizes := LegSizes(legs);
    var q := CommonSize(sizes);
    var cash, earliest := CashAndTime(legs);
    s := SummaryFor(legs, key, cash, q as real);
  }

  // ---------------------------------------------------------------------
  // The final passes, one trade or group at a time
  // ---------------------------------------------------------------------

  /** How many of the first `n` rows changed their flag. */
  function FlipCount(before: seq<Exec>, after: seq<Exec>, n: nat): nat
    requires n <= |before| == |after|
  {
    if n == 0 then 0
    else FlipCount(before, after, n - 1) + if before[n - 1].canonical != after[n - 1].canonical then 1 else 0
  }

  function GroupFlips(execs: seq<Exec>, g: Group): nat {
    FlipCount(execs, Enforce(execs, g), |execs|)
  }

  lemma {:induction false} NoFlips(execs: seq<Exec>, n: nat)
    requires n <= |execs|
    ensures FlipCount(execs, execs, n) == 0
  {
    if n > 0 { NoFlips(execs, n - 1); }
  }

  /** Flag changes over a list of groups: what the pass reports. */
  function Flips(execs: seq<Exec>, groups: seq<Group>): nat {
    if groups == [] then 0
    else
      var front, g := groups[..|groups| - 1], groups[|groups| - 1];
      Flips(execs, front) + GroupFlips(EnforceAll(execs, front), g)
  }

  lemma {:induction false} RightFlagsDoNotFlip(execs: seq<Exec>, groups: seq<Group>)
    requires Pipeline.AllFlagsRight(execs)
    ensures Flips(execs, groups) == 0 && EnforceAll(execs, groups) == execs
  {
    if groups != [] {
      var front, g := groups[..|groups| - 1], groups[|groups| - 1];
      RightFlagsDoNotFlip(execs, front);
      assert Pipeline.FlagsRight(execs, g);
      assert Enforce(execs, g) == execs;
      NoFlips(execs, |execs|);
    }
  }

  /** A call that inserts no row reports no flag change. */
  lemma NothingInsertedNothingReported(book: Book, fills: seq<Fill>, source: Source)
    requires Pipeline.Valid(book) && Pipeline.AllFlagsRight(book.execs) && Pipeline.Written(book, fills, source).inserted == 0
    ensures var st := Pipeline.Written(book, fills, source); Flips(st.book.execs, st.groups) == 0
  {
    var st := Pipeline.Written(book, fills, source);
    Pipeline.WrittenKeeps(book, fills, source);
    forall g ensures Pipeline.FlagsRight(st.book.execs, g) {
      Pipeline.CleanGroupKeepsFlags(book, st, g);
    }
    RightFlagsDoNotFlip(st.book.execs, st.groups);
  }

  ghost predicate IsFlipped(before: seq<Exec>, after: seq<Exec>, i: nat) {
    i < |before| && i < |after| && before[i].canonical != after[i].canonical
  }

  lemma {:induction false} CountedFlips(before: seq<Exec>, after: seq<Exec>, n: nat)
    requires n <= |before| == |after|
    ensures FlipCount(before, after, n) == |set i: nat | i < n && IsFlipped(before, after, i)|
  {
    if n == 0 {
      assert (set i: nat | i < n && IsFlipped(before, after, i)) == {};
    } else {
      CountedFlips(before, after, n - 1);
      var was, now := set i: nat | i < n - 1 && IsFlipped(before, after, i), set i: nat | i < n && IsFlipped(before, after, i);
      assert now == if IsFlipped(before, after, n - 1) then was + {n - 1} else was;
    }
  }

  /** Where no row changes twice, the changes of two steps add up. */
  lemma {:induction false} FlipsAddUp(a: seq<Exec>, b: seq<Exec>, c: seq<Exec>, n: nat)
    requires n <= |a| == |b| == |c| && forall i :: 0 <= i < n ==> a[i].canonical == b[i].canonical || b[i].canonical == c[i].canonical
    ensures FlipCount(a, c, n) == FlipCount(a, b, n) + FlipCount(b, c, n)
  {
    if n > 0 { FlipsAddUp(a, b, c, n - 1); }
  }

  lemma {:induction false} NoRowFlipsTwice(execs: seq<Exec>, front: seq<Group>, g: Group)
    ensures var mid, after := EnforceAll(execs, front), EnforceAll(execs, front + [g]);
      && |mid| == |execs| == |after| && after == Enforce(mid, g)
      && forall i :: 0 <= i < |execs| ==> execs[i].canonical == mid[i].canonical || mid[i].canonical == after[i].canonical
  {
    assert (front + [g])[..|front|] == front;
    Pipeline.EnforceAllProperty(execs, front);
    Pipeline.EnforceAllProperty(execs, front + [g]);
  }

  lemma {:induction false} FlipsAreTheDifference(execs: seq<Exec>, groups: seq<Group>)
    ensures |EnforceAll(execs, groups)| == |execs| && Flips(execs, groups) == FlipCount(execs, EnforceAll(execs, groups), |execs|)
  {
    if groups == [] {
      NoFlips(execs, |execs|);
    } else {
      var front, g := groups[..|groups| - 1], groups[|groups| - 1];
      assert groups == front + [g];
      FlipsAreTheDifference(execs, front);
      NoRowFlipsTwice(execs, front, g);
      FlipsAddUp(execs, EnforceAll(execs, front), EnforceAll(execs, groups), |execs|);
    }
  }

  /** The pass reports exactly the number of rows whose flag it left different, however often it visited their group. */
  lemma {:induction false} ReportedFlips(execs: seq<Exec>, groups: seq<Group>)
    ensures Flips(execs, groups) == |set i: nat | i < |execs| && IsFlipped(execs, EnforceAll(execs, groups), i)|
  {
    FlipsAreTheDifference(execs, groups);
    CountedFlips(execs, EnforceAll(execs, groups), |execs|);
  }

  function RetagOne(book: Book, t: nat): Book { Retag(book, {t}) }

  lemma RetagStep(book: Book, seen: set<nat>, t: nat)
    ensures RetagOne(Retag(book, seen), t) == Retag(book, seen + {t})
  {
    RetagKeepsSummaries(book, seen, t);
    forall i | 0 <= i < |book.execs| {
      RetagKeepsSummaries(book, seen, book.execs[i].tradeId);
    }
  }

  lemma RetagKeepsSummaries(book: Book, seen: set<nat>, t: nat)
    ensures HoldsSummary(Retag(book, seen).execs, t) == HoldsSummary(book.execs, t)
  {
    var r := Retag(book, seen);
    if HoldsSummary(book.execs, t) {
      var i :| 0 <= i < |book.execs| && book.execs[i].tradeId == t && book.execs[i].role == ComboSummary;
      assert r.execs[i].tradeId == t && r.execs[i].role == ComboSummary;
    }
    if HoldsSummary(r.execs, t) {
      var i :| 0 <= i < |r.execs| && r.execs[i].tradeId == t && r.execs[i].role == ComboSummary;
      assert book.execs[i].tradeId == t && book.execs[i].role == ComboSummary;
    }
  }

  lemma RecomputeStep(book: Book, seen: set<nat>, t: nat)
    ensures Recompute(Recompute(book, seen), {t}) == Recompute(book, seen + {t})
  {
    assert Recompute(Recompute(book, seen), {t}).trades == Recompute(book, seen + {t}).trades;
  }

  lemma {:induction false} LegsStep(done: seq<Fill>, fill: Fill)
    ensures Pipeline.ComboKeys(done + [fill]) == Pipeline.ComboKeys(done) +
      if fill.comboKey.Some? && fill.comboKey.value !in Pipeline.ComboKeys(done) then [fill.comboKey.value] else []
    ensures forall key :: Pipeline.LegsOf(done + [fill], key) == Pipeline.LegsOf(done, key) + (if fill.comboKey == Some(key) then [fill] else [])
  {
    assert (done + [fill])[..|done|] == done;
  }

  lemma NoLegsYet(done: seq<Fill>, key: string)
    requires key !in Pipeline.ComboKeys(done)
    ensures Pipeline.LegsOf(done, key) == []
  {
    if Pipeline.LegsOf(done, key) != [] { assert Pipeline.LegsOf(done, key)[0] in Pipeline.LegsOf(done, key); }
  }

  lemma {:induction false} NoSummaryYet(st: Pipeline.State, fills: seq<Fill>, source: Source)
    ensures Pipeline.WriteSummaries(st, [], fills, source) == st && Columns.SummaryCount([], fills) == 0
  {}

  lemma {:induction false} SummariesStep(st: Pipeline.State, keys: seq<string>, i: nat, fills: seq<Fill>, source: Source)
    requires i < |keys|
    ensures Pipeline.WriteSummaries(st, keys[..i + 1], fills, source)
         == Pipeline.WriteSummary(Pipeline.WriteSummaries(st, keys[..i], fills, source), keys[i], Pipeline.LegsOf(fills, keys[i]), source)
    ensures Columns.SummaryCount(keys[..i + 1], fills)
         == Columns.SummaryCount(keys[..i], fills) + if |Pipeline.LegsOf(fills, keys[i])| >= 2 then 1 else 0
  {
    assert keys[..i + 1][..i] == keys[..i];
  }

  lemma {:induction false} FillsStep(st: Pipeline.State, fills: seq<Fill>, i: nat, source: Source)
    requires i < |fills|
    ensures Pipeline.WriteFills(st, fills[..i + 1], source) == Pipeline.WriteFill(Pipeline.WriteFills(st, fills[..i], source), fills[i], source)
    ensures fills[..i + 1] == fills[..i] + [fills[i]]
  {
    assert fills[..i + 1] == fills[..i] + [fills[i]];
    Pipeline.LastFill(st, fills[..i], fills[i], source);
  }

  // ---------------------------------------------------------------------
  // The call
  // ---------------------------------------------------------------------

  class IngestRun {
    const source: Source
    var trades: seq<Trade>
    var execs: seq<Exec>
    var comboParents: map<string, nat>
    var comboKeys: seq<string>
    var legsByCombo: map<string, seq<Fill>>
    var affectedGroups: seq<Group>
    var touched: set<nat>
    var upserted: nat
    var inserted: nat
    var canonicalChanges: nat
    var comboSummaries: nat

    constructor (book: Book, source: Source)
      ensures View() == Pipeline.Start(book) && this.source == source
      ensures HoldsLegs([]) && canonicalChanges == 0 && comboSummaries == 0
    {
      this.source := source;
      trades, execs, comboParents, comboKeys, legsByCombo := book.trades, book.execs, map[], [], map[];
      affectedGroups, touched, upserted, inserted, canonicalChanges, comboSummaries := [], {}, 0, 0, 0, 0;
    }

    function Tables(): Book
      reads this
    {
      Book(trades, execs)
    }

    function View(): Pipeline.State
      reads this
    {
      Pipeline.State(Tables(), comboParents, affectedGroups, touched, upserted, inserted)
    }

    /** The legs collected so far are those of the fills written so far, keys in the order first seen. */
    ghost predicate HoldsLegs(done: seq<Fill>)
      reads this`comboKeys, this`legsByCombo
    {
      && comboKeys == Pipeline.ComboKeys(done)
      && (forall key :: key in legsByCombo <==> key in comboKeys)
      && (forall key :: key in comboKeys ==> legsByCombo[key] == Pipeline.LegsOf(done, key))
    }

    method MatchParentTrade(fill: Fill) returns (k: Option<nat>)
      ensures k == MatchParent(trades, fill, source)
    {
      if HasPermId(fill) {
        return First(trades, (t: Trade) => t.info.account == fill.account && t.info.permId == fill.permId);
      }
      if HasOwnRef(fill) {
        return First(trades, (t: Trade) => t.info.account == fill.account && t.info.orderRef == fill.orderRef);
      }
      for i := 0 to |trades|
        invariant forall j :: 0 <= j < i ==> !IsParent(trades[j], fill, source)
      {
        var t := trades[i];
        if t.info.account != fill.account || t.info.orderId != fill.orderId || t.info.symbol != fill.symbol || t.info.side != fill.side {
          continue;
        }
        if !source.matchesTradeDate {
          return Some(i);
        }
        if SameTradeDate(t, fill) {
          return Some(i);
        }
      }
      return None;
    }

    method ResolveParentTrade(fill: Fill) returns (k: nat)
      modifies this`trades
      ensures (trades, k) == Pipeline.PlainParent(old(trades), fill, source)
      ensures k < |trades|
    {
      var found := MatchParentTrade(fill);
      if found.Some? {
        k := found.value;
      } else {
        k := |trades|;
        trades := trades + [NewTrade(fill, source)];
        assert trades[k := trades[k].(info := Backfill(trades[k].info, fill))]
          == old(trades) + [trades[k].(info := Backfill(trades[k].info, fill))];
      }
      trades := trades[k := trades[k].(info := Backfill(trades[k].info, fill))];
    }

    method ResolveComboParent(fill: Fill) returns (k: nat)
      requires fill.comboKey.Some?
      modifies this`trades, this`comboParents
      ensures (trades, k) == Pipeline.ComboParent(old(View()), fill, source)
      ensures comboParents == old(comboParents)[fill.comboKey.value := k]
    {
      var key := fill.comboKey.value;
      if key in comboParents {
        k := comboParents[key];
      } else {
        var stored := Pipeline.StoredComboParent(execs, fill);
        if stored.Some? {
          k := stored.value;
        } else {
          k := |trades|;
          trades := trades + [NewComboTrade(fill, source)];
        }
      }
      comboParents := comboParents[key := k];
    }

    method ResolveParent(fill: Fill) returns (k: nat)
      modifies this`trades, this`comboParents
      ensures (trades, k) == Pipeline.ParentFor(old(View()), fill, source)
      ensures comboParents == if fill.comboKey.Some? then old(comboParents)[fill.comboKey.value := k] else old(comboParents)
    {
      if fill.comboKey.Some? {
        k := ResolveComboParent(fill);
      } else {
        k := ResolveParentTrade(fill);
      }
    }

    method UpsertExecution(k: nat, fill: Fill) returns (isNew: bool)
      modifies this`execs
      ensures execs == UpsertFill(old(execs), k, fill, source)
      ensures isNew <==> RowOf(old(execs), fill.execId).None?
    {
      isNew := RowOf(execs, fill.execId).None?;
      execs := UpsertFill(execs, k, fill, source);
    }

    method Record(k: nat, g: Group, isNew: bool)
      modifies this`upserted, this`inserted, this`affectedGroups, this`touched
      ensures View() == Pipeline.Record(old(View()), k, g, isNew)
    {
      upserted := upserted + 1;
      inserted := inserted + if isNew then 1 else 0;
      affectedGroups := affectedGroups + [g];
      touched := touched + {k};
    }

    method CollectLeg(fill: Fill, ghost done: seq<Fill>)
      requires HoldsLegs(done)
      modifies this`comboKeys, this`legsByCombo
      ensures HoldsLegs(done + [fill])
    {
      LegsStep(done, fill);
      if fill.comboKey.Some? {
        var key := fill.comboKey.value;
        if key !in legsByCombo {
          NoLegsYet(done, key);
          comboKeys, legsByCombo := comboKeys + [key], legsByCombo[key := []];
        }
        legsByCombo := legsByCombo[key := legsByCombo[key] + [fill]];
      }
    }

    method PutFill(k: nat, fill: Fill)
      modifies this`execs, this`upserted, this`inserted, this`affectedGroups, this`touched
      ensures View() == Pipeline.Put(old(View()), trades, comboParents, k, fill, source)
    {
      var isNew := UpsertExecution(k, fill);
      Record(k, (fill.account, ParseExecId(fill.execId).0), isNew);
    }

    method WriteFill(fill: Fill, ghost done: seq<Fill>)
      requires HoldsLegs(done)
      modifies this`trades, this`execs, this`comboParents, this`comboKeys, this`legsByCombo,
        this`affectedGroups, this`touched, this`upserted, this`inserted
      ensures View() == Pipeline.WriteFill(old(View()), fill, source)
      ensures HoldsLegs(done + [fill])
    {
      ghost var st := View();
      CollectLeg(fill, done);
      var k := ResolveParent(fill);
      Pipeline.WriteFillParts(st, fill, source, trades, comboParents, k);
      assert View() == st.(book := st.book.(trades := trades), parents := comboParents);
      PutFill(k, fill);
    }

    method WriteComboSummary(key: string, legs: seq<Fill>)
      requires key in comboParents && comboParents[key] < |trades|
      modifies this`execs, this`upserted, this`inserted, this`affectedGroups, this`touched, this`comboSummaries
      ensures View() == Pipeline.WriteSummary(old(View()), key, legs, source)
      ensures comboSummaries == old(comboSummaries) + if |legs| >= 2 then 1 else 0
    {
      if |legs| >= 2 {
        var k := comboParents[key];
        var s := SynthesizeComboSummary(key, legs);
        var isNew := RowOf(execs, s.execId).None?;
        execs := UpsertSummary(execs, k, trades[k].info.account, s, source);
        comboSummaries := comboSummaries + 1;
        Record(k, (trades[k].info.account, ParseExecId(s.execId).0), isNew);
      }
    }

    /** The summary of the next combo, after those before it. */
    method WriteNextSummary(key: string, legs: seq<Fill>, ghost keys: seq<string>, ghost i: nat, ghost fills: seq<Fill>,
                            ghost start: Pipeline.State, ghost written: nat)
      requires i < |keys| && key == keys[i] && legs == Pipeline.LegsOf(fills, key) && key in comboParents && comboParents[key] < |trades|
      requires View() == Pipeline.WriteSummaries(start, keys[..i], fills, source)
      requires comboSummaries == written + Columns.SummaryCount(keys[..i], fills)
      modifies this`execs, this`upserted, this`inserted, this`affectedGroups, this`touched, this`comboSummaries
      ensures View() == Pipeline.WriteSummaries(start, keys[..i + 1], fills, source)
      ensures comboSummaries == written + Columns.SummaryCount(keys[..i + 1], fills)
    {
      SummariesStep(start, keys, i, fills, source);
      WriteComboSummary(key, legs);
    }

    method WriteComboSummaries(ghost fills: seq<Fill>)
      requires HoldsLegs(fills) && forall key :: key in comboKeys ==> key in comboParents && comboParents[key] < |trades|
      modifies this`execs, this`upserted, this`inserted, this`affectedGroups, this`touched, this`comboSummaries
      ensures View() == Pipeline.WriteSummaries(old(View()), Pipeline.ComboKeys(fills), fills, source)
      ensures comboSummaries == old(comboSummaries) + Columns.SummaryCount(Pipeline.ComboKeys(fills), fills)
    {
      ghost var start, written := View(), comboSummaries;
      var keys, legs := comboKeys, legsByCombo;
      NoSummaryYet(start, fills, source);
      for i := 0 to |keys|
        invariant View() == Pipeline.WriteSummaries(start, keys[..i], fills, source)
        invariant comboSummaries == written + Columns.SummaryCount(keys[..i], fills)
      {
        assert keys[i] in keys;
        WriteNextSummary(keys[i], legs[keys[i]], keys, i, fills, start, written);
      }
      assert keys[..|keys|] == keys;
    }

    /** Set the flag of the group's highest revision, clear the others, and count what changed. */
    method EnforceCanonicalFlags(g: Group) returns (changes: nat)
      modifies this`execs
      ensures execs == Enforce(old(execs), g) && changes == GroupFlips(old(execs), g)
    {
      changes := 0;
      var best := Best(execs, g);
      ghost var after := Enforce(execs, g);
      for i := 0 to |execs|
        invariant |execs| == |after| && changes == FlipCount(old(execs), after, i)
        invariant forall j :: 0 <= j < i ==> execs[j] == after[j]
        invariant forall j :: i <= j < |execs| ==> execs[j] == old(execs)[j]
      {
        var row := execs[i];
        if InGroup(row, g) {
          var shouldBe := best == Some(i);
          if row.canonical != shouldBe {
            execs := execs[i := row.(canonical := shouldBe)];
            changes := changes + 1;
          }
        }
      }
      assert execs == after;
    }

    /** On one trade that holds a summary: the parent becomes BAG and its standalone fills become legs. */
    method RetagTrade(t: nat)
      modifies this`trades, this`execs
      ensures Tables() == RetagOne(old(Tables()), t)
    {
      ghost var after := RetagOne(Tables(), t);
      if exists i | 0 <= i < |execs| :: execs[i].tradeId == t && execs[i].role == ComboSummary {
        if t < |trades| {
          trades := trades[t := trades[t].(info := trades[t].info.(secType := Some("BAG")))];
        }
        assert trades == after.trades;
        RetagRows(t);
      }
      assert trades == after.trades && execs == after.execs;
    }

    method RetagRows(t: nat)
      modifies this`execs
      ensures |execs| == |old(execs)|
      ensures forall j :: 0 <= j < |execs| ==>
        execs[j] == if old(execs)[j].tradeId == t && old(execs)[j].role == Standalone then old(execs)[j].(role := Leg) else old(execs)[j]
    {
      for i := 0 to |execs|
        invariant |execs| == |old(execs)|
        invariant forall j :: 0 <= j < i ==>
          execs[j] == if old(execs)[j].tradeId == t && old(execs)[j].role == Standalone then old(execs)[j].(role := Leg) else old(execs)[j]
        invariant forall j :: i <= j < |execs| ==> execs[j] == old(execs)[j]
      {
        if execs[i].tradeId == t && execs[i].role == Standalone {
          execs := execs[i := execs[i].(role := Leg)];
        }
      }
    }

    method RetagComboLegs()
      modifies this`trades, this`execs
      ensures Tables() == Retag(old(Tables()), touched)
    {
      var rest := touched;
      ghost var seen: set<nat> := {};
      assert Retag(Tables(), {}).trades == trades && Retag(Tables(), {}).execs == execs;
      while rest != {}
        invariant rest !! seen && rest + seen == touched
        invariant Tables() == Retag(old(Tables()), seen)
        decreases |rest|
      {
        var t :| t in rest;
        RetagStep(old(Tables()), seen, t);
        RetagTrade(t);
        rest, seen := rest - {t}, seen + {t};
      }
      assert seen == touched;
    }

    /** The total size and notional of the rows. */
    static method Weigh(rows: seq<Exec>) returns (quantity: real, weighted: real)
      ensures quantity == Sum(rows, Size) && weighted == Sum(rows, Notional)
    {
      quantity, weighted := 0.0, 0.0;
      for i := 0 to |rows|
        invariant quantity == Sum(rows[..i], Size) && weighted == Sum(rows[..i], Notional)
      {
        assert rows[..i + 1][..i] == rows[..i];
        quantity := quantity + Abs(rows[i].quantity);
        weighted := weighted + Abs(rows[i].quantity) * rows[i].price;
      }
      assert rows[..|rows|] == rows;
    }

    /** One trade's aggregates, from its canonical executions. */
    method Aggregate(t: nat) returns (totals: Totals)
      ensures totals == TotalsOf(execs, t)
    {
      var canonical := Filter(execs, (e: Exec) => e.tradeId == t && e.canonical);
      if canonical == [] {
        return Totals(Unknown, 0.0, None, None, None);
      }
      var counted := Filter(canonical, (e: Exec) => e.role == ComboSummary);
      if counted == [] { counted := canonical; }
      var quantity, weighted := Weigh(counted);
      var average := if quantity > 0.0 then Some(weighted / quantity) else None;
      totals := Totals(StatusOf(canonical), quantity, average, Some(Earliest(canonical)), Some(Latest(canonical)));
    }

    method RecomputeTradeAggregates(t: nat)
      modifies this`trades
      ensures Tables() == Recompute(old(Tables()), {t})
    {
      if t < |trades| {
        var totals := Aggregate(t);
        trades := trades[t := trades[t].(totals := totals)];
      }
      assert trades == Recompute(old(Tables()), {t}).trades;
    }

    method RecomputeTouched()
      modifies this`trades
      ensures Tables() == Recompute(old(Tables()), touched)
    {
      var rest := touched;
      ghost var seen: set<nat> := {};
      assert Recompute(Tables(), {}).trades == trades;
      while rest != {}
        invariant rest !! seen && rest + seen == touched
        invariant Tables() == Recompute(old(Tables()), seen)
        decreases |rest|
      {
        var t :| t in rest;
        RecomputeStep(old(Tables()), seen, t);
        RecomputeTradeAggregates(t);
        rest, seen := rest - {t}, seen + {t};
      }
      assert seen == touched;
    }

    method EnforceAllFlags()
      requires canonicalChanges == 0
      modifies this`execs, this`canonicalChanges
      ensures execs == EnforceAll(old(execs), affectedGroups)
      ensures canonicalChanges == Flips(old(execs), affectedGroups)
    {
      for i := 0 to |affectedGroups|
        invariant execs == EnforceAll(old(execs), affectedGroups[..i])
        invariant canonicalChanges == Flips(old(execs), affectedGroups[..i])
      {
        assert affectedGroups[..i + 1][..i] == affectedGroups[..i];
        var n := EnforceCanonicalFlags(affectedGroups[i]);
        canonicalChanges := canonicalChanges + n;
      }
      assert affectedGroups[..|affectedGroups|] == affectedGroups;
    }

    /** Revision flags, then leg roles when the feed needs it, then aggregates unless deferred. */
    method Finish(skipAggregates: bool)
      requires canonicalChanges == 0
      modifies this`trades, this`execs, this`canonicalChanges
      ensures Tables() == Pipeline.Finish(old(View()), source, skipAggregates)
      ensures canonicalChanges == Flips(old(execs), affectedGroups)
    {
      EnforceAllFlags();
      if source.retagsLegs {
        RetagComboLegs();
      }
      if !skipAggregates {
        RecomputeTouched();
      }
    }

    method WriteFills(fills: seq<Fill>)
      requires HoldsLegs([])
      modifies this`trades, this`execs, this`comboParents, this`comboKeys, this`legsByCombo,
        this`affectedGroups, this`touched, this`upserted, this`inserted
      ensures View() == Pipeline.WriteFills(old(View()), fills, source)
      ensures HoldsLegs(fills)
    {
      for i := 0 to |fills|
        invariant View() == Pipeline.WriteFills(old(View()), fills[..i], source)
        invariant HoldsLegs(fills[..i])
      {
        FillsStep(old(View()), fills, i, source);
        WriteFill(fills[i], fills[..i]);
      }
      assert fills[..|fills|] == fills;
    }

    /** The writing phase: all fills, then a summary per combo. */
    method Write(fills: seq<Fill>, ghost book: Book)
      requires Pipeline.Valid(book) && View() == Pipeline.Start(book) && HoldsLegs([]) && comboSummaries == 0
      modifies this`trades, this`execs, this`comboParents, this`comboKeys, this`legsByCombo,
        this`affectedGroups, this`touched, this`upserted, this`inserted, this`comboSummaries
      ensures View() == Pipeline.Written(book, fills, source)
      ensures comboSummaries == Columns.SummaryCount(Pipeline.ComboKeys(fills), fills)
    {
      WriteFills(fills);
      KeysResolved(book, fills, source);
      WriteComboSummaries(fills);
    }
  }

  lemma KeysResolved(book: Book, fills: seq<Fill>, source: Source)
    requires Pipeline.Valid(book)
    ensures var st := Pipeline.WriteFills(Pipeline.Start(book), fills, source);
      forall key :: key in Pipeline.ComboKeys(fills) ==> key in st.parents && st.parents[key] < |st.book.trades|
  {
    Pipeline.WriteFillsKeeps(book, Pipeline.Start(book), fills, source);
    P.KeysHaveParents(Pipeline.Start(book), fills, source);
  }

  /** The entry point: its tables, its bookkeeping, and no reported flag change when nothing was inserted. */
  method IngestFills(book: Book, fills: seq<Fill>, source: Source, skipAggregates: bool) returns (run: IngestRun)
    requires Pipeline.Valid(book) && Pipeline.AllFlagsRight(book.execs)
    ensures fresh(run) && run.Tables() == Pipeline.Ingest(book, fills, source, skipAggregates)
    ensures run.touched == Pipeline.Touched(book, fills, source)
    ensures run.inserted == Pipeline.Written(book, fills, source).inserted
    ensures run.upserted == |fills| + run.comboSummaries && run.comboSummaries == Columns.SummaryCount(Pipeline.ComboKeys(fills), fills)
    ensures run.inserted == 0 ==> run.canonicalChanges == 0
  {
    run := new IngestRun(book, source);
    run.Write(fills, book);
    if run.inserted == 0 {
      NothingInsertedNothingReported(book, fills, source);
    }
    Columns.UpsertsAreCounted(book, fills, source);
    run.Finish(skipAggregates);
  }
}
