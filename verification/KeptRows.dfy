/**
  What one ingest does to the rows of a trade it does not touch, from the store
  and the batch alone: which ids the batch writes, which rows it adds, and so
  which canonical rows such a trade keeps.
 */
module KeptRows {
  import opened Common
  import opened FillIngest
  import opened ComboSynthesis
  import opened IngestPipeline
  import opened IngestProperties

  // ---------------------------------------------------------------------
  // The rows a batch adds
  // ---------------------------------------------------------------------

  /** The columns that place a row among the revisions of its base. */
  datatype Stamp = Stamp(execId: string, account: int, base: string, revision: int)

  function StampOf(e: Exec): Stamp {
    Stamp(e.execId, e.account, e.base, e.revision)
  }

  function StampsOf(execs: seq<Exec>): seq<Stamp> {
    Map(execs, StampOf)
  }

  function FillStamp(f: Fill): Stamp {
    Stamp(f.execId, f.account, ParseExecId(f.execId).0, ParseExecId(f.execId).1)
  }

  ghost function FillIds(fills: seq<Fill>): set<string> {
    set f | f in fills :: f.execId
  }

  ghost function SummaryIds(keys: seq<string>, fills: seq<Fill>): set<string> {
    set key | key in keys && |LegsOf(fills, key)| >= 2 :: ComboExecId(LegsOf(fills, key), key)
  }

  /** The ids a batch writes: its fills' and those of the summaries it synthesizes. */
  ghost function WrittenIds(fills: seq<Fill>): set<string> {
    FillIds(fills) + SummaryIds(ComboKeys(fills), fills)
  }

  /** A fill adds a row when its id is neither stored nor earlier in the batch. */
  ghost function AddedByFills(ids: set<string>, fills: seq<Fill>): seq<Stamp> {
    if fills == [] then []
    else
      var front, last := fills[..|fills| - 1], fills[|fills| - 1];
      AddedByFills(ids, front) + if last.execId in ids + FillIds(front) then [] else [FillStamp(last)]
  }

  /** The account a combo's summary is stored under: that of the trade a stored summary of the combo names, else its first leg's. */
  ghost function LegAccount(book: Book, front: seq<Fill>, leg: Fill): int {
    match First(book.execs, (e: Exec) => NamesCombo(e, leg) && e.execId !in FillIds(front))
    case Some(k) => if book.execs[k].tradeId < |book.trades| then book.trades[book.execs[k].tradeId].info.account else leg.account
    case None => leg.account
  }

  predicate NamesCombo(e: Exec, leg: Fill) {
    e.account == leg.account && e.role == ComboSummary && e.comboKey == leg.comboKey
  }

  ghost function ComboAccounts(book: Book, fills: seq<Fill>): map<string, int> {
    if fills == [] then map[]
    else
      var front, last := fills[..|fills| - 1], fills[|fills| - 1];
      var accounts := ComboAccounts(book, front);
      if last.comboKey.None? || last.comboKey.value in accounts then accounts
      else accounts[last.comboKey.value := LegAccount(book, front, last)]
  }

  ghost function AddedBySummaries(ids: set<string>, keys: seq<string>, fills: seq<Fill>, accounts: map<string, int>): seq<Stamp> {
    if keys == [] then []
    else
      var front, key := keys[..|keys| - 1], keys[|keys| - 1];
      var id := ComboExecId(LegsOf(fills, key), key);
      AddedBySummaries(ids, front, fills, accounts)
      + if |LegsOf(fills, key)| < 2 || key !in accounts || id in ids + SummaryIds(front, fills) then []
        else [Stamp(id, accounts[key], ParseExecId(id).0, 1)]
  }

  /** The rows a batch adds to the store, in the order they are inserted. */
  ghost function Added(book: Book, fills: seq<Fill>): seq<Stamp> {
    var ids := IdsOf(book.execs);
    AddedByFills(ids, fills) + AddedBySummaries(ids + FillIds(fills), ComboKeys(fills), fills, ComboAccounts(book, fills))
  }

  // ---------------------------------------------------------------------
  // The writing phase adds exactly those rows and leaves every other id alone
  // ---------------------------------------------------------------------

  /** Only rows of the given ids have changed or are new, and each of them hangs off a touched trade. */
  ghost predicate Rewrote(book: Book, st: State, ids: set<string>) {
    && |book.execs| <= |st.book.execs|
    && (forall i :: 0 <= i < |book.execs| && book.execs[i].execId !in ids ==> st.book.execs[i] == book.execs[i])
    && (forall i :: 0 <= i < |st.book.execs| && st.book.execs[i].execId in ids ==> st.book.execs[i].tradeId in st.touched)
    && (forall i :: |book.execs| <= i < |st.book.execs| ==> st.book.execs[i].execId in ids)
  }

  lemma {:induction false} RewroteRow(book: Book, st: State, ids: set<string>, trades: seq<Trade>, parents: map<string, nat>,
                                      execs: seq<Exec>, id: string, trade: nat, g: Group)
    requires Wrote(book, st) && Rewrote(book, st, ids) && Upserted(st.book.execs, execs, id, trade, g)
    ensures Rewrote(book, After(st, trades, parents, execs, id, trade, g), ids + {id})
  {
    RowOfProperty(st.book.execs, id);
    var after := After(st, trades, parents, execs, id, trade, g);
    assert after.touched == st.touched + {trade} && after.book.execs == execs;
    forall i | 0 <= i < |execs| && execs[i].execId in ids + {id} ensures execs[i].tradeId in after.touched {
      if i < |st.book.execs| && execs[i] == st.book.execs[i] && execs[i].execId == id {
        assert RowOf(st.book.execs, id).Some?;
      }
    }
  }

  lemma {:induction false} WriteFillRewrites(book: Book, st: State, ids: set<string>, fill: Fill, source: Source)
    requires Wrote(book, st) && Rewrote(book, st, ids)
    ensures Rewrote(book, WriteFill(st, fill, source), ids + {fill.execId})
  {
    var (trades, k) := ParentFor(st, fill, source);
    var parents := if fill.comboKey.Some? then st.parents[fill.comboKey.value := k] else st.parents;
    var execs := UpsertFill(st.book.execs, k, fill, source);
    RowOfProperty(st.book.execs, fill.execId);
    RewroteRow(book, st, ids, trades, parents, execs, fill.execId, k, (fill.account, ParseExecId(fill.execId).0));
  }

  lemma {:induction false} WriteSummaryRewrites(book: Book, st: State, ids: set<string>, key: string, legs: seq<Fill>, source: Source)
    requires Wrote(book, st) && Rewrote(book, st, ids) && key in st.parents
    ensures Rewrote(book, WriteSummary(st, key, legs, source), ids + if |legs| >= 2 then {ComboExecId(legs, key)} else {})
  {
    if |legs| >= 2 {
      var k, summary := st.parents[key], Synthesize(legs, key);
      var account := st.book.trades[k].info.account;
      var execs := UpsertSummary(st.book.execs, k, account, summary, source);
      RowOfProperty(st.book.execs, summary.execId);
      RewroteRow(book, st, ids, st.book.trades, st.parents, execs, summary.execId, k, (account, ParseExecId(summary.execId).0));
    } else {
      assert ids + {} == ids;
    }
  }

  lemma {:induction false} WriteFillsRewrites(book: Book, fills: seq<Fill>, source: Source)
    requires Valid(book)
    ensures Rewrote(book, WriteFills(Start(book), fills, source), FillIds(fills))
  {
    if fills != [] {
      var front, last := fills[..|fills| - 1], fills[|fills| - 1];
      assert fills == front + [last];
      WriteFillsRewrites(book, front, source);
      WriteFillsKeeps(book, Start(book), front, source);
      WriteFillRewrites(book, WriteFills(Start(book), front, source), FillIds(front), last, source);
      LastFillId(front, last);
      LastFill(Start(book), front, last, source);
    } else {
      NothingRewritten(book);
    }
  }

  lemma {:induction false} NothingRewritten(book: Book)
    ensures Rewrote(book, Start(book), FillIds([]))
  {}

  lemma LastFillId(front: seq<Fill>, last: Fill)
    ensures FillIds(front + [last]) == FillIds(front) + {last.execId}
  {}

  lemma LastSummaryId(front: seq<string>, key: string, fills: seq<Fill>)
    ensures SummaryIds(front + [key], fills)
         == SummaryIds(front, fills) + if |LegsOf(fills, key)| >= 2 then {ComboExecId(LegsOf(fills, key), key)} else {}
  {}

  lemma {:induction false} WriteSummariesRewrites(book: Book, st: State, ids: set<string>, keys: seq<string>, fills: seq<Fill>, source: Source)
    requires Wrote(book, st) && Rewrote(book, st, ids) && forall key :: key in keys ==> key in st.parents
    ensures var st' := WriteSummaries(st, keys, fills, source);
      Wrote(book, st') && st'.parents == st.parents && Rewrote(book, st', ids + SummaryIds(keys, fills))
  {
    if keys == [] {
      assert ids + SummaryIds(keys, fills) == ids;
    } else {
      var front, key := keys[..|keys| - 1], keys[|keys| - 1];
      assert keys == front + [key];
      WriteSummariesRewrites(book, st, ids, front, fills, source);
      OneMoreRewrites(book, WriteSummaries(st, front, fills, source), ids, front, key, fills, source);
    }
  }

  lemma {:induction false} OneMoreRewrites(book: Book, mid: State, ids: set<string>, front: seq<string>, key: string, fills: seq<Fill>, source: Source)
    requires Wrote(book, mid) && Rewrote(book, mid, ids + SummaryIds(front, fills)) && key in mid.parents
    ensures var st' := WriteSummary(mid, key, LegsOf(fills, key), source);
      Wrote(book, st') && st'.parents == mid.parents && Rewrote(book, st', ids + SummaryIds(front + [key], fills))
  {
    var legs := LegsOf(fills, key);
    WriteSummaryKeeps(book, mid, key, legs, source);
    WriteSummaryRewrites(book, mid, ids + SummaryIds(front, fills), key, legs, source);
    LastSummaryId(front, key, fills);
    UnionRegroup(ids, SummaryIds(front, fills), if |legs| >= 2 then {ComboExecId(legs, key)} else {});
  }

  /** Over the whole writing phase. */
  lemma {:induction false} WrittenRewrites(book: Book, fills: seq<Fill>, source: Source)
    requires Valid(book)
    ensures Rewrote(book, Written(book, fills, source), WrittenIds(fills))
  {
    WriteFillsRewrites(book, fills, source);
    WriteFillsKeeps(book, Start(book), fills, source);
    KeysHaveParents(Start(book), fills, source);
    WriteSummariesRewrites(book, WriteFills(Start(book), fills, source), FillIds(fills), ComboKeys(fills), fills, source);
  }

  // ---------------------------------------------------------------------
  // Stamps
  // ---------------------------------------------------------------------

  lemma {:induction false} StoredId(execs: seq<Exec>, id: string)
    ensures RowOf(execs, id).None? <==> id !in IdsOf(execs)
  {
    RowOfProperty(execs, id);
  }

  lemma {:induction false} SameStamps(execs: seq<Exec>, execs': seq<Exec>)
    requires |execs| == |execs'| && forall i :: 0 <= i < |execs| ==> StampOf(execs[i]) == StampOf(execs'[i])
    ensures StampsOf(execs) == StampsOf(execs')
  {}

  lemma {:induction false} UpsertFillStamps(execs: seq<Exec>, k: nat, fill: Fill, source: Source)
    ensures StampsOf(UpsertFill(execs, k, fill, source)) == StampsOf(execs) + if fill.execId in IdsOf(execs) then [] else [FillStamp(fill)]
  {
    StoredId(execs, fill.execId);
    match RowOf(execs, fill.execId)
    case None => MapAppend(execs, NewExec(k, fill, source), StampOf);
    case Some(_) => SameStamps(execs, UpsertFill(execs, k, fill, source));
  }

  lemma {:induction false} UpsertSummaryStamps(execs: seq<Exec>, k: nat, account: int, s: Summary, source: Source)
    ensures StampsOf(UpsertSummary(execs, k, account, s, source))
         == StampsOf(execs) + if s.execId in IdsOf(execs) then [] else [Stamp(s.execId, account, ParseExecId(s.execId).0, 1)]
  {
    StoredId(execs, s.execId);
    match RowOf(execs, s.execId)
    case None => MapAppend(execs, NewSummaryExec(k, account, s, source), StampOf);
    case Some(_) => SameStamps(execs, UpsertSummary(execs, k, account, s, source));
  }

  lemma {:induction false} WriteFillStamps(st: State, fill: Fill, source: Source)
    ensures var st' := WriteFill(st, fill, source);
      StampsOf(st'.book.execs) == StampsOf(st.book.execs) + if fill.execId in IdsOf(st.book.execs) then [] else [FillStamp(fill)]
  {
    var (trades, k) := ParentFor(st, fill, source);
    UpsertFillStamps(st.book.execs, k, fill, source);
  }

  lemma {:induction false} FillsAdd(book: Book, fills: seq<Fill>, source: Source)
    ensures var st := WriteFills(Start(book), fills, source);
      && StampsOf(st.book.execs) == StampsOf(book.execs) + AddedByFills(IdsOf(book.execs), fills)
      && IdsOf(st.book.execs) == IdsOf(book.execs) + FillIds(fills)
  {
    if fills != [] {
      var front, last := fills[..|fills| - 1], fills[|fills| - 1];
      assert fills == front + [last];
      FillsAdd(book, front, source);
      var mid := WriteFills(Start(book), front, source);
      WriteFillStamps(mid, last, source);
      WriteFillIds(mid, last, source);
      LastFillId(front, last);
      Regroup(StampsOf(book.execs), AddedByFills(IdsOf(book.execs), front),
              if last.execId in IdsOf(mid.book.execs) then [] else [FillStamp(last)]);
    }
  }

  /** The accounts of the combos' parents found so far are those the inputs name. */
  ghost predicate KnowsAccounts(st: State, accounts: map<string, int>) {
    && st.parents.Keys == accounts.Keys
    && forall key :: key in accounts ==> st.parents[key] < |st.book.trades| && st.book.trades[st.parents[key]].info.account == accounts[key]
  }

  /** Stored trades keep their account, and rows a batch has rewritten or added name no combo. */
  ghost predicate KeepsIdentity(book: Book, st: State, ids: set<string>) {
    && |book.trades| <= |st.book.trades|
    && (forall t :: 0 <= t < |book.trades| ==> st.book.trades[t].info.account == book.trades[t].info.account)
    && (forall i :: 0 <= i < |st.book.execs| && st.book.execs[i].execId in ids ==> st.book.execs[i].comboKey.None?)
  }

  lemma {:induction false} SameStoredCombo(book: Book, st: State, front: seq<Fill>, leg: Fill)
    requires leg.comboKey.Some? && Rewrote(book, st, FillIds(front)) && KeepsIdentity(book, st, FillIds(front))
    requires forall i :: 0 <= i < |book.execs| ==> st.book.execs[i].execId == book.execs[i].execId
    ensures First(st.book.execs, (e: Exec) => e.account == leg.account && e.role == ComboSummary && e.comboKey == leg.comboKey)
         == First(book.execs, (e: Exec) => NamesCombo(e, leg) && e.execId !in FillIds(front))
  {
    var names, free := (e: Exec) => e.account == leg.account && e.role == ComboSummary && e.comboKey == leg.comboKey,
                       (e: Exec) => NamesCombo(e, leg) && e.execId !in FillIds(front);
    forall i | 0 <= i < |book.execs| ensures names(st.book.execs[i]) == free(book.execs[i]) {
      if book.execs[i].execId in FillIds(front) { assert st.book.execs[i].comboKey.None?; }
    }
    forall i | |book.execs| <= i < |st.book.execs| ensures !names(st.book.execs[i]) {
      assert st.book.execs[i].comboKey.None?;
    }
  }

  /** The trades after resolving a parent, and the parents known then. */
  lemma {:induction false} ResolvedParent(st: State, fill: Fill, source: Source)
    requires forall key :: key in st.parents ==> st.parents[key] < |st.book.trades|
    ensures var st', (trades, k) := WriteFill(st, fill, source), ParentFor(st, fill, source);
      && st'.book.trades == trades && |st.book.trades| <= |trades|
      && (forall t :: 0 <= t < |st.book.trades| ==> trades[t].info.account == st.book.trades[t].info.account)
      && st'.parents == if fill.comboKey.Some? then st.parents[fill.comboKey.value := k] else st.parents
  {}

  lemma {:induction false} NewComboAccount(book: Book, st: State, front: seq<Fill>, fill: Fill, source: Source)
    requires Wrote(book, st) && Rewrote(book, st, FillIds(front)) && KeepsIdentity(book, st, FillIds(front)) && Valid(book)
    requires fill.comboKey.Some? && fill.comboKey.value !in st.parents
    ensures var (trades, k) := ComboParent(st, fill, source); k < |trades| && trades[k].info.account == LegAccount(book, front, fill)
  {
    SameStoredCombo(book, st, front, fill);
    var found := First(book.execs, (e: Exec) => NamesCombo(e, fill) && e.execId !in FillIds(front));
    if found.Some? { assert st.book.execs[found.value] == book.execs[found.value]; }
  }

  lemma {:induction false} KnowsOneMore(st: State, st': State, accounts: map<string, int>, key: string, account: int)
    requires KnowsAccounts(st, accounts) && |st.book.trades| <= |st'.book.trades|
    requires forall t :: 0 <= t < |st.book.trades| ==> st'.book.trades[t].info.account == st.book.trades[t].info.account
    requires key in st'.parents && st'.parents == st.parents[key := st'.parents[key]]
    requires st'.parents[key] < |st'.book.trades| && st'.book.trades[st'.parents[key]].info.account == account
    ensures KnowsAccounts(st', accounts[key := account])
  {}

  lemma {:induction false} NextAccount(book: Book, st: State, front: seq<Fill>, fill: Fill, source: Source)
    requires Wrote(book, st) && Rewrote(book, st, FillIds(front)) && KeepsIdentity(book, st, FillIds(front))
    requires KnowsAccounts(st, ComboAccounts(book, front)) && Valid(book)
    ensures KnowsAccounts(WriteFill(st, fill, source), ComboAccounts(book, front + [fill]))
  {
    var st', accounts := WriteFill(st, fill, source), ComboAccounts(book, front);
    assert (front + [fill])[..|front|] == front;
    ResolvedParent(st, fill, source);
    if fill.comboKey.Some? {
      var key := fill.comboKey.value;
      if key in st.parents {
        KnowsOneMore(st, st', accounts, key, accounts[key]);
        assert accounts[key := accounts[key]] == accounts;
      } else {
        NewComboAccount(book, st, front, fill, source);
        KnowsOneMore(st, st', accounts, key, LegAccount(book, front, fill));
      }
    }
  }

  lemma {:induction false} NextIdentity(book: Book, st: State, ids: set<string>, fill: Fill, source: Source)
    requires Wrote(book, st) && KeepsIdentity(book, st, ids)
    ensures KeepsIdentity(book, WriteFill(st, fill, source), ids + {fill.execId})
  {
    RowOfProperty(st.book.execs, fill.execId);
  }

  lemma {:induction false} FillsKnowAccounts(book: Book, fills: seq<Fill>, source: Source)
    requires Valid(book)
    ensures var st := WriteFills(Start(book), fills, source);
      KeepsIdentity(book, st, FillIds(fills)) && KnowsAccounts(st, ComboAccounts(book, fills))
  {
    if fills != [] {
      var front, last := fills[..|fills| - 1], fills[|fills| - 1];
      assert fills == front + [last];
      FillsKnowAccounts(book, front, source);
      WriteFillsKeeps(book, Start(book), front, source);
      WriteFillsRewrites(book, front, source);
      var mid := WriteFills(Start(book), front, source);
      NextIdentity(book, mid, FillIds(front), last, source);
      LastFillId(front, last);
      NextAccount(book, mid, front, last, source);
    }
  }

  lemma {:induction false} WriteSummaryStamps(book: Book, st: State, accounts: map<string, int>, key: string, legs: seq<Fill>, source: Source)
    requires Wrote(book, st) && KnowsAccounts(st, accounts) && key in st.parents
    ensures var st', id := WriteSummary(st, key, legs, source), ComboExecId(legs, key);
      && KnowsAccounts(st', accounts)
      && StampsOf(st'.book.execs) == StampsOf(st.book.execs)
           + if |legs| < 2 || id in IdsOf(st.book.execs) then [] else [Stamp(id, accounts[key], ParseExecId(id).0, 1)]
  {
    if |legs| >= 2 {
      var k, summary := st.parents[key], Synthesize(legs, key);
      UpsertSummaryStamps(st.book.execs, k, st.book.trades[k].info.account, summary, source);
    } else {
      assert StampsOf(st.book.execs) + [] == StampsOf(st.book.execs);
    }
  }

  lemma {:induction false} SummariesAdd(book: Book, st: State, accounts: map<string, int>, keys: seq<string>, fills: seq<Fill>, source: Source)
    requires Wrote(book, st) && KnowsAccounts(st, accounts) && forall key :: key in keys ==> key in st.parents
    ensures var st' := WriteSummaries(st, keys, fills, source);
      && Wrote(book, st') && st'.parents == st.parents && KnowsAccounts(st', accounts)
      && StampsOf(st'.book.execs) == StampsOf(st.book.execs) + AddedBySummaries(IdsOf(st.book.execs), keys, fills, accounts)
      && IdsOf(st'.book.execs) == IdsOf(st.book.execs) + SummaryIds(keys, fills)
  {
    if keys == [] {
      assert IdsOf(st.book.execs) + SummaryIds(keys, fills) == IdsOf(st.book.execs);
      assert StampsOf(st.book.execs) + [] == StampsOf(st.book.execs);
    } else {
      var front, key := keys[..|keys| - 1], keys[|keys| - 1];
      assert keys == front + [key];
      SummariesAdd(book, st, accounts, front, fills, source);
      var mid := WriteSummaries(st, front, fills, source);
      WriteSummaryKeeps(book, mid, key, LegsOf(fills, key), source);
      SummaryRow(book, mid, accounts, key, LegsOf(fills, key), source);
      OneMoreSummary(StampsOf(st.book.execs), IdsOf(st.book.execs), mid, WriteSummaries(st, keys, fills, source), accounts, front, key, fills);
    }
  }

  lemma {:induction false} NextAdded(ids: set<string>, front: seq<string>, key: string, fills: seq<Fill>, accounts: map<string, int>)
    requires key in accounts
    ensures var id := ComboExecId(LegsOf(fills, key), key);
      AddedBySummaries(ids, front + [key], fills, accounts) == AddedBySummaries(ids, front, fills, accounts)
        + if |LegsOf(fills, key)| < 2 || id in ids + SummaryIds(front, fills) then [] else [Stamp(id, accounts[key], ParseExecId(id).0, 1)]
  {
    assert (front + [key])[..|front|] == front;
  }

  lemma {:induction false} OneMoreSummary(stored: seq<Stamp>, ids: set<string>, mid: State, after: State, accounts: map<string, int>,
                                          front: seq<string>, key: string, fills: seq<Fill>)
    requires key in accounts
    requires StampsOf(mid.book.execs) == stored + AddedBySummaries(ids, front, fills, accounts)
    requires IdsOf(mid.book.execs) == ids + SummaryIds(front, fills)
    requires var legs, id := LegsOf(fills, key), ComboExecId(LegsOf(fills, key), key);
      && IdsOf(after.book.execs) == IdsOf(mid.book.execs) + (if |legs| >= 2 then {id} else {})
      && StampsOf(after.book.execs) == StampsOf(mid.book.execs)
           + if |legs| < 2 || id in IdsOf(mid.book.execs) then [] else [Stamp(id, accounts[key], ParseExecId(id).0, 1)]
    ensures StampsOf(after.book.execs) == stored + AddedBySummaries(ids, front + [key], fills, accounts)
    ensures IdsOf(after.book.execs) == ids + SummaryIds(front + [key], fills)
  {
    var legs, id := LegsOf(fills, key), ComboExecId(LegsOf(fills, key), key);
    LastSummaryId(front, key, fills);
    NextAdded(ids, front, key, fills, accounts);
    Regroup(stored, AddedBySummaries(ids, front, fills, accounts),
            if |legs| < 2 || id in IdsOf(mid.book.execs) then [] else [Stamp(id, accounts[key], ParseExecId(id).0, 1)]);
  }

  lemma {:induction false} SummaryRow(book: Book, mid: State, accounts: map<string, int>, key: string, legs: seq<Fill>, source: Source)
    requires Wrote(book, mid) && KnowsAccounts(mid, accounts) && key in mid.parents
    ensures var st', id := WriteSummary(mid, key, legs, source), ComboExecId(legs, key);
      && st'.parents == mid.parents && KnowsAccounts(st', accounts)
      && IdsOf(st'.book.execs) == IdsOf(mid.book.execs) + (if |legs| >= 2 then {id} else {})
      && StampsOf(st'.book.execs) == StampsOf(mid.book.execs)
           + if |legs| < 2 || id in IdsOf(mid.book.execs) then [] else [Stamp(id, accounts[key], ParseExecId(id).0, 1)]
  {
    WriteSummaryStamps(book, mid, accounts, key, legs, source);
    WriteSummaryIds(book, mid, key, legs, source);
  }

  /** The rows after the writing phase are the stored ones, in place, and then exactly those the batch adds. */
  lemma {:induction false} WrittenAdds(book: Book, fills: seq<Fill>, source: Source)
    requires Valid(book)
    ensures StampsOf(Written(book, fills, source).book.execs) == StampsOf(book.execs) + Added(book, fills)
  {
    FillsAdd(book, fills, source);
    FillsKnowAccounts(book, fills, source);
    WriteFillsKeeps(book, Start(book), fills, source);
    KeysHaveParents(Start(book), fills, source);
    var st := WriteFills(Start(book), fills, source);
    SummariesAdd(book, st, ComboAccounts(book, fills), ComboKeys(fills), fills, source);
    Regroup(StampsOf(book.execs), AddedByFills(IdsOf(book.execs), fills),
            AddedBySummaries(IdsOf(st.book.execs), ComboKeys(fills), fills, ComboAccounts(book, fills)));
  }

  // ---------------------------------------------------------------------
  // Which rows stay canonical, and which rows a trade keeps
  // ---------------------------------------------------------------------

  predicate StampBefore(a: Stamp, b: Stamp) {
    a.revision > b.revision || (a.revision == b.revision && ROW_ORDER(a.execId) < ROW_ORDER(b.execId))
  }

  /** The batch adds a revision of the row's base that is read before the row. */
  ghost predicate Overtaken(book: Book, fills: seq<Fill>, e: Exec) {
    exists s :: s in Added(book, fills) && s.account == e.account && s.base == e.base && StampBefore(s, StampOf(e))
  }

  lemma {:induction false} BestMeans(execs: seq<Exec>, g: Group, i: nat)
    requires i < |execs| && InGroup(execs[i], g)
    ensures Best(execs, g) == Some(i) <==>
      && (forall j :: 0 <= j < |execs| && InGroup(execs[j], g) ==> !ComesBefore(execs[j], execs[i], ROW_ORDER))
      && (forall j :: 0 <= j < i && InGroup(execs[j], g) ==> ComesBefore(execs[i], execs[j], ROW_ORDER))
  {
    assert Best(execs, g).Some?;
  }

  /** The rows, as stamped: the stored ones in place, then those the batch adds. */
  ghost predicate Extends(execs: seq<Exec>, after: seq<Exec>, added: seq<Stamp>) {
    && |after| == |execs| + |added|
    && (forall i :: 0 <= i < |execs| ==> StampOf(after[i]) == StampOf(execs[i]))
    && (forall i :: 0 <= i < |added| ==> StampOf(after[|execs| + i]) == added[i])
  }

  lemma {:induction false} IngestExtends(book: Book, fills: seq<Fill>, source: Source, skip: bool)
    requires Valid(book) && AllFlagsRight(book.execs)
    ensures Extends(book.execs, Ingest(book, fills, source, skip).execs, Added(book, fills))
  {
    WrittenAdds(book, fills, source);
    FinishedStamps(book, fills, source, skip);
    ExtendsByStamps(book.execs, Ingest(book, fills, source, skip).execs, Added(book, fills));
  }

  lemma {:induction false} FinishedStamps(book: Book, fills: seq<Fill>, source: Source, skip: bool)
    requires Valid(book) && AllFlagsRight(book.execs)
    ensures StampsOf(Ingest(book, fills, source, skip).execs) == StampsOf(Written(book, fills, source).book.execs)
  {
    FinishProperty(book, fills, source, skip);
    SameStamps(Ingest(book, fills, source, skip).execs, Written(book, fills, source).book.execs);
  }

  lemma {:induction false} ExtendsByStamps(execs: seq<Exec>, after: seq<Exec>, added: seq<Stamp>)
    requires StampsOf(after) == StampsOf(execs) + added
    ensures Extends(execs, after, added)
  {
    var stamps := StampsOf(after);
    assert |stamps| == |after| && |StampsOf(execs)| == |execs|;
    forall i | 0 <= i < |execs| ensures StampOf(after[i]) == StampOf(execs[i]) {
      assert stamps[i] == StampsOf(execs)[i];
    }
    forall i | 0 <= i < |added| ensures StampOf(after[|execs| + i]) == added[i] {
      assert stamps[|execs| + i] == added[i];
    }
  }

  lemma {:induction false} BestAfter(execs: seq<Exec>, after: seq<Exec>, added: seq<Stamp>, i: nat)
    requires Extends(execs, after, added) && i < |execs|
    ensures Best(after, GroupOf(execs[i])) == Some(i) <==>
      && Best(execs, GroupOf(execs[i])) == Some(i)
      && !(exists s :: s in added && s.account == execs[i].account && s.base == execs[i].base && StampBefore(s, StampOf(execs[i])))
  {
    var g := GroupOf(execs[i]);
    BestMeans(execs, g, i);
    BestMeans(after, g, i);
    forall j | 0 <= j < |execs|
      ensures InGroup(after[j], g) == InGroup(execs[j], g)
      ensures ComesBefore(after[j], after[i], ROW_ORDER) == ComesBefore(execs[j], execs[i], ROW_ORDER)
      ensures ComesBefore(after[i], after[j], ROW_ORDER) == ComesBefore(execs[i], execs[j], ROW_ORDER)
    {
      assert StampOf(after[j]) == StampOf(execs[j]) && StampOf(after[i]) == StampOf(execs[i]);
    }
    forall j | |execs| <= j < |after|
      ensures InGroup(after[j], g) && ComesBefore(after[j], after[i], ROW_ORDER) <==>
        added[j - |execs|].account == execs[i].account && added[j - |execs|].base == execs[i].base && StampBefore(added[j - |execs|], StampOf(execs[i]))
    {
      assert StampOf(after[|execs| + (j - |execs|)]) == added[j - |execs|];
    }
    if s :| s in added && s.account == execs[i].account && s.base == execs[i].base && StampBefore(s, StampOf(execs[i])) {
      var j :| 0 <= j < |added| && added[j] == s;
      assert InGroup(after[|execs| + j], g) && ComesBefore(after[|execs| + j], after[i], ROW_ORDER);
    }
  }

  /** A stored row is canonical after an ingest exactly when it was and the batch adds no revision that is read before it. */
  lemma {:induction false} StaysCanonicalExactly(book: Book, fills: seq<Fill>, source: Source, skip: bool, i: nat)
    requires Valid(book) && AllFlagsRight(book.execs) && i < |book.execs|
    ensures var r := Ingest(book, fills, source, skip);
      i < |r.execs| && (r.execs[i].canonical <==> book.execs[i].canonical && !Overtaken(book, fills, book.execs[i]))
  {
    var r := Ingest(book, fills, source, skip);
    FinishProperty(book, fills, source, skip);
    IngestExtends(book, fills, source, skip);
    BestAfter(book.execs, r.execs, Added(book, fills), i);
    var g := GroupOf(book.execs[i]);
    assert StampOf(r.execs[i]) == StampOf(book.execs[i]);
    assert FlagsRight(book.execs, g) && FlagsRight(r.execs, g);
    assert InGroup(book.execs[i], g) && InGroup(r.execs[i], g);
  }

  /** A canonical row of an untouched trade stays there, and canonical: its id is not written and it is not overtaken. */
  ghost predicate Kept(book: Book, fills: seq<Fill>, e: Exec) {
    e.execId !in WrittenIds(fills) && !Overtaken(book, fills, e)
  }

  ghost function Keeps(book: Book, fills: seq<Fill>): Exec -> bool {
    (e: Exec) => Kept(book, fills, e)
  }

  /** The row is a canonical one of trade `t`. */
  predicate IsOf(e: Exec, t: nat) {
    e.tradeId == t && e.canonical
  }

  lemma {:induction false} UntouchedRow(book: Book, fills: seq<Fill>, source: Source, skip: bool, t: nat, i: nat)
    requires Valid(book) && AllFlagsRight(book.execs) && t !in Touched(book, fills, source) && i < |book.execs|
    ensures var r := Ingest(book, fills, source, skip);
      && i < |r.execs|
      && (IsOf(r.execs[i], t) <==> IsOf(book.execs[i], t) && Kept(book, fills, book.execs[i]))
      && (IsOf(r.execs[i], t) ==> r.execs[i] == book.execs[i])
  {
    var st, r := Written(book, fills, source), Ingest(book, fills, source, skip);
    FinishProperty(book, fills, source, skip);
    WrittenRewrites(book, fills, source);
    StaysCanonicalExactly(book, fills, source, skip, i);
    assert st.book.execs[i].execId == book.execs[i].execId;
    if book.execs[i].execId in WrittenIds(fills) {
      assert st.book.execs[i].tradeId in st.touched;
    } else {
      assert st.book.execs[i] == book.execs[i];
    }
  }

  lemma {:induction false} NewRow(book: Book, fills: seq<Fill>, source: Source, skip: bool, t: nat, i: nat)
    requires Valid(book) && AllFlagsRight(book.execs) && t !in Touched(book, fills, source)
    requires |book.execs| <= i < |Ingest(book, fills, source, skip).execs|
    ensures !IsOf(Ingest(book, fills, source, skip).execs[i], t)
  {
    FinishProperty(book, fills, source, skip);
  }

  /** Rows selected from a longer table, each where the same row is selected from the shorter one. */
  lemma {:induction false} SelectAcross(execs: seq<Exec>, after: seq<Exec>, p: Exec -> bool, q: Exec -> bool)
    requires |execs| <= |after|
    requires forall i :: 0 <= i < |execs| ==> (q(after[i]) <==> p(execs[i])) && (q(after[i]) ==> after[i] == execs[i])
    requires forall i :: |execs| <= i < |after| ==> !q(after[i])
    ensures Filter(after, q) == Filter(execs, p)
  {
    if |execs| < |after| {
      SelectAcross(execs, after[..|after| - 1], p, q);
    } else if execs != [] {
      SelectAcross(execs[..|execs| - 1], after[..|after| - 1], p, q);
    }
  }

  function OfTrade(t: nat): Exec -> bool {
    (e: Exec) => e.tradeId == t && e.canonical
  }

  ghost function KeptOf(book: Book, fills: seq<Fill>, t: nat): Exec -> bool {
    (e: Exec) => IsOf(e, t) && Kept(book, fills, e)
  }

  /** The canonical rows of a trade the ingest does not touch are exactly those of its stored ones that are kept, from either feed. */
  lemma {:induction false} UntouchedRowsAreTheKept(book: Book, fills: seq<Fill>, source: Source, skip: bool, t: nat)
    requires Valid(book) && AllFlagsRight(book.execs) && t !in Touched(book, fills, source)
    ensures CanonicalOf(Ingest(book, fills, source, skip).execs, t) == Filter(CanonicalOf(book.execs, t), Keeps(book, fills))
  {
    var r := Ingest(book, fills, source, skip);
    FinishProperty(book, fills, source, skip);
    forall i | 0 <= i < |book.execs|
      ensures (OfTrade(t)(r.execs[i]) <==> KeptOf(book, fills, t)(book.execs[i])) && (OfTrade(t)(r.execs[i]) ==> r.execs[i] == book.execs[i])
    {
      UntouchedRow(book, fills, source, skip, t, i);
    }
    forall i | |book.execs| <= i < |r.execs| ensures !OfTrade(t)(r.execs[i]) {
      NewRow(book, fills, source, skip, t, i);
    }
    SelectAcross(book.execs, r.execs, KeptOf(book, fills, t), OfTrade(t));
    FilterTwice(book.execs, OfTrade(t), Keeps(book, fills), KeptOf(book, fills, t));
  }

  lemma {:induction false} KeepsAllExactly(rows: seq<Exec>, p: Exec -> bool)
    ensures Filter(rows, p) == rows <==> forall e :: e in rows ==> p(e)
  {
    if forall e :: e in rows ==> p(e) { FilterAll(rows, p); }
  }

  /**
    An untouched trade has the canonical rows it had exactly when the batch
    writes none of their ids and adds no revision that is read before one of them.
   */
  lemma UntouchedRowsStayExactly(book: Book, fills: seq<Fill>, source: Source, skip: bool, t: nat)
    requires Valid(book) && AllFlagsRight(book.execs) && t !in Touched(book, fills, source)
    ensures CanonicalOf(Ingest(book, fills, source, skip).execs, t) == CanonicalOf(book.execs, t) <==>
      forall e :: e in CanonicalOf(book.execs, t) ==> e.execId !in WrittenIds(fills) && !Overtaken(book, fills, e)
  {
    UntouchedRowsAreTheKept(book, fills, source, skip, t);
    KeepsAllExactly(CanonicalOf(book.execs, t), Keeps(book, fills));
  }
}
