/** What every sequence of ingests keeps: revision flags, aggregates, and the deferred form of the aggregate pass. */
module IngestProperties {
  import opened Common
  import opened FillIngest
  import opened ComboSynthesis
  import opened IngestPipeline

  // ---------------------------------------------------------------------
  // One ingest
  // ---------------------------------------------------------------------

  /** Leg re-tagging rewrites roles and parents of touched trades only. */
  lemma RetagProperty(book: Book, touched: set<nat>)
    ensures var r := Retag(book, touched);
      && |r.execs| == |book.execs| && |r.trades| == |book.trades|
      && (forall i :: 0 <= i < |r.execs| ==> r.execs[i] == book.execs[i].(role := r.execs[i].role))
      && (forall i :: 0 <= i < |r.execs| && book.execs[i].tradeId !in touched ==> r.execs[i] == book.execs[i])
      && (forall t :: 0 <= t < |r.trades| ==> r.trades[t].totals == book.trades[t].totals)
  {}

  /** What the final passes leave of the rows the writing phase produced. */
  ghost predicate Finished(st: State, r: Book, source: Source) {
    && |r.execs| == |st.book.execs| && |r.trades| == |st.book.trades|
    && (forall i :: 0 <= i < |r.execs| ==>
          r.execs[i] == st.book.execs[i].(canonical := r.execs[i].canonical, role := r.execs[i].role))
  }

  lemma FinishRows(st: State, source: Source, skip: bool)
    ensures var flagged, r := EnforceAll(st.book.execs, st.groups), Finish(st, source, skip);
      && |r.execs| == |flagged| && |r.trades| == |st.book.trades|
      && (forall i :: 0 <= i < |r.execs| ==> r.execs[i] == flagged[i].(role := r.execs[i].role))
      && (forall i :: 0 <= i < |r.execs| && flagged[i].tradeId !in st.touched ==> r.execs[i] == flagged[i])
      && (forall t :: 0 <= t < |r.trades| ==>
            r.trades[t].totals == if !skip && t in st.touched then TotalsOf(r.execs, t) else st.book.trades[t].totals)
  {
    EnforceAllProperty(st.book.execs, st.groups);
    RetagProperty(st.book.(execs := EnforceAll(st.book.execs, st.groups)), st.touched);
  }

  lemma FlagsSurviveRoles(flagged: seq<Exec>, execs: seq<Exec>)
    requires AllFlagsRight(flagged)
    requires |execs| == |flagged| && forall i :: 0 <= i < |execs| ==> execs[i] == flagged[i].(role := execs[i].role)
    ensures AllFlagsRight(execs)
  {
    forall g ensures FlagsRight(execs, g) {
      BestIgnoresFlags(flagged, execs, g);
      assert FlagsRight(flagged, g);
    }
  }

  lemma FinishProperty(book: Book, fills: seq<Fill>, source: Source, skip: bool)
    requires Valid(book) && AllFlagsRight(book.execs)
    ensures var st, r := Written(book, fills, source), Ingest(book, fills, source, skip);
      && Wrote(book, st) && Finished(st, r, source)
      && Valid(r) && AllFlagsRight(r.execs)
      && (forall i :: 0 <= i < |r.execs| ==> r.execs[i].canonical == EnforceAll(st.book.execs, st.groups)[i].canonical)
      && (forall i :: 0 <= i < |r.execs| && r.execs[i].tradeId !in st.touched ==> r.execs[i].role == st.book.execs[i].role)
      && (forall t :: 0 <= t < |r.trades| ==>
            r.trades[t].totals == if !skip && t in st.touched then TotalsOf(r.execs, t) else st.book.trades[t].totals)
  {
    WrittenKeeps(book, fills, source);
    FlaggedAndFinished(book, Written(book, fills, source), source, skip);
  }

  lemma {:induction false} FlaggedAndFinished(book: Book, st: State, source: Source, skip: bool)
    requires AllFlagsRight(book.execs) && Wrote(book, st)
    ensures var r := Finish(st, source, skip);
      && Finished(st, r, source)
      && Valid(r) && AllFlagsRight(r.execs)
      && (forall i :: 0 <= i < |r.execs| ==> r.execs[i].canonical == EnforceAll(st.book.execs, st.groups)[i].canonical)
      && (forall i :: 0 <= i < |r.execs| && r.execs[i].tradeId !in st.touched ==> r.execs[i].role == st.book.execs[i].role)
      && (forall t :: 0 <= t < |r.trades| ==>
            r.trades[t].totals == if !skip && t in st.touched then TotalsOf(r.execs, t) else st.book.trades[t].totals)
  {
    FlaggedProperty(book, st);
    FinishRows(st, source, skip);
    FlagsSurviveRoles(EnforceAll(st.book.execs, st.groups), Finish(st, source, skip).execs);
  }

  // ---------------------------------------------------------------------
  // Revision flags
  // ---------------------------------------------------------------------

  /** Row `j` is the one canonical row of its group, and no row of the group has a higher revision. */
  ghost predicate IsTheCanonical(execs: seq<Exec>, j: nat) {
    j < |execs| && execs[j].canonical &&
    forall k :: 0 <= k < |execs| && GroupOf(execs[k]) == GroupOf(execs[j]) ==>
      execs[k].revision <= execs[j].revision && (execs[k].canonical ==> k == j)
  }

  ghost predicate HasOneCanonical(execs: seq<Exec>, g: Group) {
    exists j: nat :: IsTheCanonical(execs, j) && InGroup(execs[j], g)
  }

  ghost predicate OneCanonicalPerGroup(execs: seq<Exec>) {
    forall i :: 0 <= i < |execs| ==> HasOneCanonical(execs, GroupOf(execs[i]))
  }

  lemma RightFlagsMeanOneCanonical(execs: seq<Exec>)
    requires AllFlagsRight(execs)
    ensures OneCanonicalPerGroup(execs)
  {
    forall i | 0 <= i < |execs| ensures HasOneCanonical(execs, GroupOf(execs[i])) {
      var g := GroupOf(execs[i]);
      assert FlagsRight(execs, g) && InGroup(execs[i], g);
      var j := Best(execs, g).value;
      assert forall k :: 0 <= k < |execs| && GroupOf(execs[k]) == GroupOf(execs[j]) ==> InGroup(execs[k], g);
      assert IsTheCanonical(execs, j);
    }
  }

  /** No two rows of the group have the same revision. */
  ghost predicate RevisionsDiffer(execs: seq<Exec>, g: Group) {
    forall i, j :: 0 <= i < j < |execs| && InGroup(execs[i], g) && InGroup(execs[j], g) ==> execs[i].revision != execs[j].revision
  }

  /** The order a store returns tied rows in only matters where revisions tie. */
  lemma RowOrderOnlyBreaksTies(execs: seq<Exec>, g: Group, order: string -> int, order': string -> int)
    requires RevisionsDiffer(execs, g)
    ensures BestBy(execs, g, order) == BestBy(execs, g, order')
  {
    var k, k' := BestBy(execs, g, order), BestBy(execs, g, order');
    if k.Some? && k'.Some? {
      assert !ComesBefore(execs[k'.value], execs[k.value], order) && !ComesBefore(execs[k.value], execs[k'.value], order');
    }
  }

  /** With distinct revisions a row is canonical exactly when none of its group has a higher revision, whatever that order. */
  lemma DistinctRevisionsDecide(execs: seq<Exec>, i: nat)
    requires AllFlagsRight(execs) && i < |execs| && RevisionsDiffer(execs, GroupOf(execs[i]))
    ensures execs[i].canonical <==> forall j :: 0 <= j < |execs| && GroupOf(execs[j]) == GroupOf(execs[i]) ==> execs[j].revision <= execs[i].revision
  {
    var g := GroupOf(execs[i]);
    assert FlagsRight(execs, g) && InGroup(execs[i], g);
    var k := Best(execs, g).value;
    assert forall j :: 0 <= j < |execs| ==> (InGroup(execs[j], g) <==> GroupOf(execs[j]) == g);
  }

  /** One ingest call of a run. */
  datatype Batch = Batch(fills: seq<Fill>, source: Source, skipAggregates: bool)

  function Run(book: Book, batches: seq<Batch>): Book {
    if batches == [] then book
    else
      var b := batches[|batches| - 1];
      Ingest(Run(book, batches[..|batches| - 1]), b.fills, b.source, b.skipAggregates)
  }

  lemma {:induction false} RunIsValid(book: Book, batches: seq<Batch>)
    requires Valid(book) && AllFlagsRight(book.execs)
    ensures Valid(Run(book, batches)) && AllFlagsRight(Run(book, batches).execs)
  {
    if batches != [] {
      var front, b := batches[..|batches| - 1], batches[|batches| - 1];
      RunIsValid(book, front);
      FinishProperty(Run(book, front), b.fills, b.source, b.skipAggregates);
    }
  }

  /** From an empty store, after any sequence of ingests from either feed, each group has exactly one canonical row, of highest revision. */
  lemma OneCanonicalAfterEveryRun(batches: seq<Batch>)
    ensures OneCanonicalPerGroup(Run(EMPTY, batches).execs)
  {
    RunIsValid(EMPTY, batches);
    RightFlagsMeanOneCanonical(Run(EMPTY, batches).execs);
  }

  // ---------------------------------------------------------------------
  // Ingesting the same batch again
  // ---------------------------------------------------------------------

  ghost function IdsOf(execs: seq<Exec>): set<string> {
    set i | 0 <= i < |execs| :: execs[i].execId
  }

  lemma UpsertedIds(execs: seq<Exec>, execs': seq<Exec>, id: string, trade: nat, g: Group)
    requires Upserted(execs, execs', id, trade, g)
    ensures IdsOf(execs') == IdsOf(execs) + {id}
    ensures RowOf(execs, id).None? <==> id !in IdsOf(execs)
  {
    RowOfProperty(execs, id);
    forall i | 0 <= i < |execs| ensures execs[i].execId == execs'[i].execId {}
    forall x | x in IdsOf(execs) ensures x in IdsOf(execs') {
      var i :| 0 <= i < |execs| && execs[i].execId == x;
      assert execs'[i].execId == x;
    }
  }

  lemma WriteFillIds(st: State, fill: Fill, source: Source)
    ensures var st' := WriteFill(st, fill, source);
      IdsOf(st'.book.execs) == IdsOf(st.book.execs) + {fill.execId}
      && st'.inserted == st.inserted + if fill.execId in IdsOf(st.book.execs) then 0 else 1
  {
    var (trades, k) := ParentFor(st, fill, source);
    RowOfProperty(st.book.execs, fill.execId);
    UpsertedIds(st.book.execs, UpsertFill(st.book.execs, k, fill, source), fill.execId, k, (fill.account, ParseExecId(fill.execId).0));
  }

  lemma WriteSummaryIds(book: Book, st: State, key: string, legs: seq<Fill>, source: Source)
    requires Wrote(book, st) && key in st.parents
    ensures var st', id := WriteSummary(st, key, legs, source), ComboExecId(legs, key);
      if |legs| < 2 then st' == st
      else
        IdsOf(st'.book.execs) == IdsOf(st.book.execs) + {id}
        && st'.inserted == st.inserted + if id in IdsOf(st.book.execs) then 0 else 1
  {
    if |legs| >= 2 {
      var k, summary := st.parents[key], Synthesize(legs, key);
      var account := st.book.trades[k].info.account;
      RowOfProperty(st.book.execs, summary.execId);
      UpsertedIds(st.book.execs, UpsertSummary(st.book.execs, k, account, summary, source), summary.execId, k, (account, ParseExecId(summary.execId).0));
    }
  }

  lemma {:induction false} WriteFillsIds(st: State, fills: seq<Fill>, source: Source)
    ensures var st' := WriteFills(st, fills, source);
      && IdsOf(st.book.execs) <= IdsOf(st'.book.execs)
      && (forall f :: f in fills ==> f.execId in IdsOf(st'.book.execs))
      && ((forall f :: f in fills ==> f.execId in IdsOf(st.book.execs)) ==>
            st'.inserted == st.inserted && IdsOf(st'.book.execs) == IdsOf(st.book.execs))
  {
    if fills != [] {
      var front, last := fills[..|fills| - 1], fills[|fills| - 1];
      assert fills == front + [last];
      WriteFillsIds(st, front, source);
      WriteFillIds(WriteFills(st, front, source), last, source);
    }
  }

  ghost predicate Summarized(ids: set<string>, keys: seq<string>, fills: seq<Fill>) {
    forall key :: key in keys && |LegsOf(fills, key)| >= 2 ==> ComboExecId(LegsOf(fills, key), key) in ids
  }

  lemma {:induction false} WriteSummariesIds(book: Book, st: State, keys: seq<string>, fills: seq<Fill>, source: Source)
    requires Wrote(book, st) && forall key :: key in keys ==> key in st.parents
    ensures var st' := WriteSummaries(st, keys, fills, source);
      && Wrote(book, st') && st'.parents == st.parents
      && IdsOf(st.book.execs) <= IdsOf(st'.book.execs)
      && Summarized(IdsOf(st'.book.execs), keys, fills)
      && (Summarized(IdsOf(st.book.execs), keys, fills) ==>
            st'.inserted == st.inserted && IdsOf(st'.book.execs) == IdsOf(st.book.execs))
  {
    if keys != [] {
      var front, key := keys[..|keys| - 1], keys[|keys| - 1];
      assert keys == front + [key];
      WriteSummariesIds(book, st, front, fills, source);
      var mid := WriteSummaries(st, front, fills, source);
      WriteSummaryKeeps(book, mid, key, LegsOf(fills, key), source);
      WriteSummaryIds(book, mid, key, LegsOf(fills, key), source);
    }
  }

  lemma KeysHaveParents(st: State, fills: seq<Fill>, source: Source)
    ensures forall key :: key in ComboKeys(fills) ==> key in WriteFills(st, fills, source).parents
  {
    forall key | key in ComboKeys(fills) ensures key in WriteFills(st, fills, source).parents {
      var f :| f in fills && f.comboKey == Some(key);
    }
  }

  lemma WrittenIdsAreStored(book: Book, fills: seq<Fill>, source: Source)
    requires Valid(book)
    ensures var st := Written(book, fills, source);
      && (forall f :: f in fills ==> f.execId in IdsOf(st.book.execs))
      && Summarized(IdsOf(st.book.execs), ComboKeys(fills), fills)
      && (((forall f :: f in fills ==> f.execId in IdsOf(book.execs)) && Summarized(IdsOf(book.execs), ComboKeys(fills), fills))
          ==> st.inserted == 0)
  {
    WriteFillsIds(Start(book), fills, source);
    WriteFillsKeeps(book, Start(book), fills, source);
    KeysHaveParents(Start(book), fills, source);
    WriteSummariesIds(book, WriteFills(Start(book), fills, source), ComboKeys(fills), fills, source);
  }

  /** An ingest that inserts no row flips no revision flag. */
  lemma NothingInsertedNothingFlipped(book: Book, fills: seq<Fill>, source: Source, skip: bool)
    requires Valid(book) && AllFlagsRight(book.execs) && Written(book, fills, source).inserted == 0
    ensures var r := Ingest(book, fills, source, skip);
      && |r.execs| == |book.execs|
      && forall i :: 0 <= i < |r.execs| ==> r.execs[i].execId == book.execs[i].execId && r.execs[i].canonical == book.execs[i].canonical
  {
    var st := Written(book, fills, source);
    FinishProperty(book, fills, source, skip);
    FlaggedProperty(book, st);
    assert forall g :: !HasNewRow(book, st.book.execs, g);
  }

  lemma IngestedIds(book: Book, fills: seq<Fill>, source: Source, skip: bool)
    requires Valid(book) && AllFlagsRight(book.execs)
    ensures IdsOf(Ingest(book, fills, source, skip).execs) == IdsOf(Written(book, fills, source).book.execs)
  {
    FinishProperty(book, fills, source, skip);
    var st, r := Written(book, fills, source), Ingest(book, fills, source, skip);
    assert forall i :: 0 <= i < |r.execs| ==> r.execs[i].execId == st.book.execs[i].execId;
    SameIds(r.execs, st.book.execs);
  }

  lemma SameIds(a: seq<Exec>, b: seq<Exec>)
    requires |a| == |b| && forall i :: 0 <= i < |a| ==> a[i].execId == b[i].execId
    ensures IdsOf(a) == IdsOf(b)
  {}

  /**
    Ingesting the same batch twice in a row inserts no row and flips no revision
    flag the second time; where revisions tie, this rests on a store that
    returns tied rows in the same order both times.
   */
  lemma ReingestChangesNoRowSet(book: Book, fills: seq<Fill>, source: Source, skip: bool, again: bool)
    requires Valid(book) && AllFlagsRight(book.execs)
    ensures var r := Ingest(book, fills, source, skip);
      var r' := Ingest(r, fills, source, again);
      && Written(r, fills, source).inserted == 0
      && |r'.execs| == |r.execs|
      && forall i :: 0 <= i < |r.execs| ==> r'.execs[i].execId == r.execs[i].execId && r'.execs[i].canonical == r.execs[i].canonical
  {
    var r := Ingest(book, fills, source, skip);
    FinishProperty(book, fills, source, skip);
    WrittenIdsAreStored(book, fills, source);
    IngestedIds(book, fills, source, skip);
    WrittenIdsAreStored(r, fills, source);
    NothingInsertedNothingFlipped(r, fills, source, again);
  }

  // ---------------------------------------------------------------------
  // Aggregates
  // ---------------------------------------------------------------------

  ghost predicate UpToDate(book: Book, t: nat)
    requires t < |book.trades|
  {
    book.trades[t].totals == TotalsOf(book.execs, t)
  }

  /** After an ingest with the aggregate pass, every touched trade's aggregates are those of its rows. */
  lemma TouchedTradesAreUpToDate(book: Book, fills: seq<Fill>, source: Source)
    requires Valid(book) && AllFlagsRight(book.execs)
    ensures var r := Ingest(book, fills, source, false);
      forall t :: t in Touched(book, fills, source) ==> t < |r.trades| && UpToDate(r, t)
  {
    FinishProperty(book, fills, source, false);
  }

  lemma NoComboKeys(fills: seq<Fill>)
    requires forall f :: f in fills ==> f.comboKey.None?
    ensures ComboKeys(fills) == []
  {
    if ComboKeys(fills) != [] { assert ComboKeys(fills)[0] in ComboKeys(fills); }
  }
}
