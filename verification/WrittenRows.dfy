/**
  What the rows of a batch hold after an ingest, column by column: the last
  fill written under an id corrects the columns an upsert rewrites, the others
  stay as first stored, and a synthesized summary overwrites what it summarizes.
 */
module WrittenRows {
  import opened Common
  import opened FillIngest
  import opened ComboSynthesis
  import opened IngestPipeline
  import opened IngestProperties
  import opened KeptRows

  // ---------------------------------------------------------------------
  // Fills
  // ---------------------------------------------------------------------

  /** The first and the last fill of a batch under an id. */
  ghost function FirstOf(fills: seq<Fill>, id: string): Option<Fill> {
    if fills == [] then None
    else
      var front := FirstOf(fills[..|fills| - 1], id);
      if front.Some? then front else if fills[|fills| - 1].execId == id then Some(fills[|fills| - 1]) else None
  }

  ghost function LastOf(fills: seq<Fill>, id: string): Option<Fill> {
    if fills == [] then None
    else if fills[|fills| - 1].execId == id then Some(fills[|fills| - 1])
    else LastOf(fills[..|fills| - 1], id)
  }

  /** The columns an upsert rewrites show the fill. */
  ghost predicate Shows(e: Exec, f: Fill, source: Source) {
    && e.execId == f.execId && e.quantity == f.quantity && e.price == f.price && e.commission == f.commission
    && e.secType == f.secType && e.outcome == f.outcome && e.comboKey == None && e.source == source.name
  }

  ghost predicate HasRoleOf(e: Exec, f: Fill) {
    && (e.role == ComboSummary <==> f.isComboSummary)
    && (e.role == Leg <==> !f.isComboSummary && f.comboKey.Some?)
  }

  /** The columns only an insert writes. */
  ghost predicate IsInsertedFrom(e: Exec, f: Fill) {
    e.account == f.account && e.executedAt == f.executedAt && e.side == f.side && e.orderRef == f.orderRef
  }

  ghost predicate KeepsInserted(e: Exec, e': Exec) {
    e'.account == e.account && e'.executedAt == e.executedAt && e'.side == e.side && e'.orderRef == e.orderRef
  }

  /** Row `i` after the fills: as stored when no fill has its id, else the last one's with the stored or first one's fixed columns. */
  ghost predicate FillRow(book: Book, fills: seq<Fill>, source: Source, i: nat, e: Exec) {
    match LastOf(fills, e.execId)
    case None => i < |book.execs| && e == book.execs[i]
    case Some(f) =>
      && Shows(e, f, source) && HasRoleOf(e, f)
      && if i < |book.execs| then KeepsInserted(book.execs[i], e)
         else FirstOf(fills, e.execId).Some? && IsInsertedFrom(e, FirstOf(fills, e.execId).value)
  }

  ghost predicate FillRows(book: Book, fills: seq<Fill>, source: Source, execs: seq<Exec>) {
    |book.execs| <= |execs| && forall i :: 0 <= i < |execs| ==> FillRow(book, fills, source, i, execs[i])
  }

  lemma {:induction false} NoFillUnder(fills: seq<Fill>, id: string)
    ensures LastOf(fills, id).None? <==> id !in FillIds(fills)
    ensures FirstOf(fills, id).None? <==> id !in FillIds(fills)
  {
    if fills != [] {
      var front, last := fills[..|fills| - 1], fills[|fills| - 1];
      assert fills == front + [last];
      NoFillUnder(front, id);
      LastFillId(front, last);
    }
  }

  lemma {:induction false} OneMoreFill(front: seq<Fill>, last: Fill, id: string)
    ensures LastOf(front + [last], id) == if last.execId == id then Some(last) else LastOf(front, id)
    ensures FirstOf(front + [last], id) == if FirstOf(front, id).Some? then FirstOf(front, id) else if last.execId == id then Some(last) else None
  {
    assert (front + [last])[..|front|] == front;
  }

  lemma {:induction false} RewrittenRow(book: Book, front: seq<Fill>, fill: Fill, source: Source, i: nat, e: Exec, trade: nat)
    requires FillRow(book, front, source, i, e) && e.execId == fill.execId
    ensures FillRow(book, front + [fill], source, i, UpsertFill([e], trade, fill, source)[0])
  {
    OneMoreFill(front, fill, fill.execId);
    NoFillUnder(front, fill.execId);
  }

  lemma {:induction false} InsertedRow(book: Book, front: seq<Fill>, fill: Fill, source: Source, i: nat, trade: nat)
    requires i >= |book.execs| && fill.execId !in FillIds(front)
    ensures FillRow(book, front + [fill], source, i, UpsertFill([], trade, fill, source)[0])
  {
    OneMoreFill(front, fill, fill.execId);
    NoFillUnder(front, fill.execId);
  }

  lemma {:induction false} OtherRow(book: Book, front: seq<Fill>, fill: Fill, source: Source, i: nat, e: Exec)
    requires FillRow(book, front, source, i, e) && e.execId != fill.execId
    ensures FillRow(book, front + [fill], source, i, e)
  {
    OneMoreFill(front, fill, e.execId);
  }

  /** The written row is what the upsert makes of that row alone. */
  lemma {:induction false} UpsertIsLocal(execs: seq<Exec>, trade: nat, fill: Fill, source: Source)
    ensures var k, after := RowOf(execs, fill.execId), UpsertFill(execs, trade, fill, source);
      match k
      case Some(k) => |after| == |execs| && after[k] == UpsertFill([execs[k]], trade, fill, source)[0]
      case None => after == execs + [UpsertFill([], trade, fill, source)[0]]
  {
    RowOfProperty(execs, fill.execId);
    if RowOf(execs, fill.execId).Some? { FirstInOne(execs[RowOf(execs, fill.execId).value], fill.execId); }
  }

  lemma {:induction false} FirstInOne(e: Exec, id: string)
    requires e.execId == id
    ensures RowOf([e], id) == Some(0)
  {
    RowOfProperty([e], id);
    assert [e][0] == e;
  }

  ghost predicate DistinctIds(execs: seq<Exec>) {
    forall i, j :: 0 <= i < j < |execs| ==> execs[i].execId != execs[j].execId
  }

  lemma {:induction false} NextFillRow(book: Book, front: seq<Fill>, fill: Fill, source: Source, execs: seq<Exec>, trade: nat, i: nat)
    requires DistinctIds(execs) && FillRows(book, front, source, execs) && forall x :: x in FillIds(front) ==> x in IdsOf(execs)
    requires i < |UpsertFill(execs, trade, fill, source)|
    ensures FillRow(book, front + [fill], source, i, UpsertFill(execs, trade, fill, source)[i])
  {
    RowOfProperty(execs, fill.execId);
    UpsertIsLocal(execs, trade, fill, source);
    if i == |execs| {
      InsertedRow(book, front, fill, source, i, trade);
    } else if execs[i].execId == fill.execId {
      assert RowOf(execs, fill.execId) == Some(i);
      RewrittenRow(book, front, fill, source, i, execs[i], trade);
    } else {
      OtherRow(book, front, fill, source, i, execs[i]);
    }
  }

  lemma {:induction false} NextFillRows(book: Book, front: seq<Fill>, fill: Fill, source: Source, execs: seq<Exec>, trade: nat)
    requires DistinctIds(execs) && FillRows(book, front, source, execs) && forall x :: x in FillIds(front) ==> x in IdsOf(execs)
    ensures FillRows(book, front + [fill], source, UpsertFill(execs, trade, fill, source))
  {
    var after := UpsertFill(execs, trade, fill, source);
    UpsertIsLocal(execs, trade, fill, source);
    forall i | 0 <= i < |after| ensures FillRow(book, front + [fill], source, i, after[i]) {
      NextFillRow(book, front, fill, source, execs, trade, i);
    }
  }

  /** The rows after all fills of a batch. */
  lemma {:induction false} RowsShowTheirFills(book: Book, fills: seq<Fill>, source: Source)
    requires Valid(book)
    ensures FillRows(book, fills, source, WriteFills(Start(book), fills, source).book.execs)
  {
    if fills == [] {
      StoredRows(book, source);
    } else {
      var front, last := fills[..|fills| - 1], fills[|fills| - 1];
      assert fills == front + [last];
      RowsShowTheirFills(book, front, source);
      WriteFillsKeeps(book, Start(book), front, source);
      FillsAdd(book, front, source);
      LastFill(Start(book), front, last, source);
      var mid := WriteFills(Start(book), front, source);
      NextFillRows(book, front, last, source, mid.book.execs, ParentFor(mid, last, source).1);
    }
  }

  lemma {:induction false} StoredRows(book: Book, source: Source)
    ensures FillRows(book, [], source, Start(book).book.execs)
  {}

  // ---------------------------------------------------------------------
  // Summaries
  // ---------------------------------------------------------------------

  /** The last combo of the list whose summary is stored under the id. */
  ghost function LastKey(keys: seq<string>, fills: seq<Fill>, id: string): Option<string> {
    if keys == [] then None
    else if SummaryIdOf(fills, keys[|keys| - 1]) == Some(id) then Some(keys[|keys| - 1])
    else LastKey(keys[..|keys| - 1], fills, id)
  }

  ghost function SummaryIdOf(fills: seq<Fill>, key: string): Option<string> {
    if |LegsOf(fills, key)| < 2 then None else Some(ComboExecId(LegsOf(fills, key), key))
  }

  /** A row shows the summary of the legs: every column but the account and, on a stored row, the feed. */
  ghost predicate ShowsSummary(e: Exec, s: Summary) {
    && e.execId == s.execId && e.quantity == s.quantity && e.price == s.price && e.side == Some(s.side)
    && e.commission == s.commission && e.executedAt == s.executedAt && e.orderRef == s.orderRef && e.comboKey == Some(s.comboKey)
    && e.role == ComboSummary && e.secType == Some("BAG") && e.outcome == Filled
  }

  ghost predicate SummarizedRow(before: seq<Exec>, keys: seq<string>, fills: seq<Fill>, source: Source, i: nat, e: Exec) {
    match LastKey(keys, fills, e.execId)
    case None => i < |before| && e == before[i]
    case Some(key) =>
      && LegsOf(fills, key) != [] && ShowsSummary(e, Synthesize(LegsOf(fills, key), key))
      && if i < |before| then e.account == before[i].account && e.source == before[i].source else e.source == source.name
  }

  ghost predicate SummarizedRows(before: seq<Exec>, keys: seq<string>, fills: seq<Fill>, source: Source, execs: seq<Exec>) {
    |before| <= |execs| && forall i :: 0 <= i < |execs| ==> SummarizedRow(before, keys, fills, source, i, execs[i])
  }

  lemma {:induction false} OneMoreKey(front: seq<string>, key: string, fills: seq<Fill>, id: string)
    ensures LastKey(front + [key], fills, id) == if SummaryIdOf(fills, key) == Some(id) then Some(key) else LastKey(front, fills, id)
  {
    assert (front + [key])[..|front|] == front;
  }

  /** What upserting a summary makes of row `i`. */
  ghost predicate IsUpserted(execs: seq<Exec>, s: Summary, source: Source, i: nat, e: Exec) {
    if i < |execs| && execs[i].execId != s.execId then e == execs[i]
    else ShowsSummary(e, s) && if i < |execs| then e.account == execs[i].account && e.source == execs[i].source else e.source == source.name
  }

  lemma {:induction false} UpsertedRow(execs: seq<Exec>, trade: nat, account: int, s: Summary, source: Source, i: nat)
    requires DistinctIds(execs) && i < |UpsertSummary(execs, trade, account, s, source)|
    ensures IsUpserted(execs, s, source, i, UpsertSummary(execs, trade, account, s, source)[i])
    ensures |execs| <= |UpsertSummary(execs, trade, account, s, source)|
  {
    RowOfProperty(execs, s.execId);
  }

  lemma {:induction false} SummarizedRowAt(before: seq<Exec>, front: seq<string>, key: string, fills: seq<Fill>, source: Source,
                                           execs: seq<Exec>, s: Summary, i: nat, e: Exec)
    requires |before| <= |execs| && (i < |execs| ==> SummarizedRow(before, front, fills, source, i, execs[i]))
    requires SummaryIdOf(fills, key) == Some(s.execId) && s == Synthesize(LegsOf(fills, key), key) && IsUpserted(execs, s, source, i, e)
    ensures SummarizedRow(before, front + [key], fills, source, i, e)
  {
    OneMoreKey(front, key, fills, e.execId);
  }

  lemma {:induction false} NoSummaryWritten(before: seq<Exec>, front: seq<string>, key: string, fills: seq<Fill>, source: Source, execs: seq<Exec>)
    requires SummarizedRows(before, front, fills, source, execs) && |LegsOf(fills, key)| < 2
    ensures SummarizedRows(before, front + [key], fills, source, execs)
  {
    forall i | 0 <= i < |execs| ensures SummarizedRow(before, front + [key], fills, source, i, execs[i]) {
      OneMoreKey(front, key, fills, execs[i].execId);
    }
  }

  lemma {:induction false} SummaryWritten(before: seq<Exec>, front: seq<string>, key: string, fills: seq<Fill>, source: Source,
                                          execs: seq<Exec>, s: Summary, after: seq<Exec>)
    requires SummarizedRows(before, front, fills, source, execs) && |execs| <= |after|
    requires SummaryIdOf(fills, key) == Some(s.execId) && s == Synthesize(LegsOf(fills, key), key)
    requires forall i :: 0 <= i < |after| ==> IsUpserted(execs, s, source, i, after[i])
    ensures SummarizedRows(before, front + [key], fills, source, after)
  {
    forall i | 0 <= i < |after| ensures SummarizedRow(before, front + [key], fills, source, i, after[i]) {
      SummarizedRowAt(before, front, key, fills, source, execs, s, i, after[i]);
    }
  }

  lemma {:induction false} UpsertedRows(execs: seq<Exec>, trade: nat, account: int, s: Summary, source: Source)
    requires DistinctIds(execs)
    ensures var after := UpsertSummary(execs, trade, account, s, source);
      |execs| <= |after| && forall i :: 0 <= i < |after| ==> IsUpserted(execs, s, source, i, after[i])
  {
    var after := UpsertSummary(execs, trade, account, s, source);
    RowOfProperty(execs, s.execId);
    forall i | 0 <= i < |after| ensures IsUpserted(execs, s, source, i, after[i]) {
      UpsertedRow(execs, trade, account, s, source, i);
    }
  }

  lemma {:induction false} NextSummarizedRows(before: seq<Exec>, front: seq<string>, key: string, fills: seq<Fill>, source: Source, st: State)
    requires DistinctIds(st.book.execs) && SummarizedRows(before, front, fills, source, st.book.execs)
    requires key in st.parents && st.parents[key] < |st.book.trades|
    ensures SummarizedRows(before, front + [key], fills, source, WriteSummary(st, key, LegsOf(fills, key), source).book.execs)
  {
    var execs, legs := st.book.execs, LegsOf(fills, key);
    if |legs| < 2 {
      NoSummaryWritten(before, front, key, fills, source, execs);
    } else {
      var k, s := st.parents[key], Synthesize(legs, key);
      var after := UpsertSummary(execs, k, st.book.trades[k].info.account, s, source);
      UpsertedRows(execs, k, st.book.trades[k].info.account, s, source);
      SummaryWritten(before, front, key, fills, source, execs, s, after);
    }
  }

  lemma {:induction false} RowsShowTheirSummaries(book: Book, st: State, keys: seq<string>, fills: seq<Fill>, source: Source)
    requires Wrote(book, st) && forall key :: key in keys ==> key in st.parents
    ensures var st' := WriteSummaries(st, keys, fills, source);
      Wrote(book, st') && st'.parents == st.parents && SummarizedRows(st.book.execs, keys, fills, source, st'.book.execs)
  {
    if keys != [] {
      var front, key := keys[..|keys| - 1], keys[|keys| - 1];
      assert keys == front + [key];
      RowsShowTheirSummaries(book, st, front, fills, source);
      var mid := WriteSummaries(st, front, fills, source);
      WriteSummaryKeeps(book, mid, key, LegsOf(fills, key), source);
      NextSummarizedRows(st.book.execs, front, key, fills, source, mid);
    }
  }

  // ---------------------------------------------------------------------
  // After the whole call
  // ---------------------------------------------------------------------

  lemma {:induction false} WrittenRowsProperty(book: Book, fills: seq<Fill>, source: Source)
    requires Valid(book)
    ensures var mid, st := WriteFills(Start(book), fills, source), Written(book, fills, source);
      FillRows(book, fills, source, mid.book.execs) && SummarizedRows(mid.book.execs, ComboKeys(fills), fills, source, st.book.execs)
  {
    RowsShowTheirFills(book, fills, source);
    WriteFillsKeeps(book, Start(book), fills, source);
    KeysHaveParents(Start(book), fills, source);
    RowsShowTheirSummaries(book, WriteFills(Start(book), fills, source), ComboKeys(fills), fills, source);
  }

  lemma {:induction false} LastKeyIsWritten(keys: seq<string>, fills: seq<Fill>, id: string)
    ensures LastKey(keys, fills, id).Some? <==> id in SummaryIds(keys, fills)
  {
    if keys != [] {
      var front, key := keys[..|keys| - 1], keys[|keys| - 1];
      assert keys == front + [key];
      LastKeyIsWritten(front, fills, id);
      LastSummaryId(front, key, fills);
    }
  }

  /** The role a feed leaves a fill with: on a trade that holds a summary a standalone fill is a leg, when the feed re-tags. */
  ghost predicate HasFinalRole(r: Book, e: Exec, f: Fill, source: Source) {
    && (e.role == ComboSummary <==> f.isComboSummary)
    && (e.role == Leg <==> !f.isComboSummary && (f.comboKey.Some? || (source.retagsLegs && HoldsSummary(r.execs, e.tradeId))))
  }

  lemma {:induction false} RetaggedRole(flagged: Book, touched: set<nat>, i: nat)
    requires i < |flagged.execs| && flagged.execs[i].tradeId in touched
    ensures var before, after := flagged.execs[i], Retag(flagged, touched).execs[i];
      && (after.role == ComboSummary <==> before.role == ComboSummary)
      && (after.role == Leg <==> before.role == Leg || (before.role == Standalone && HoldsSummary(Retag(flagged, touched).execs, after.tradeId)))
  {
    SameHolders(flagged.execs, Retag(flagged, touched).execs, flagged.execs[i].tradeId);
  }

  lemma {:induction false} SameHolders(a: seq<Exec>, b: seq<Exec>, t: nat)
    requires |a| == |b| && forall i :: 0 <= i < |a| ==> b[i].tradeId == a[i].tradeId && (b[i].role == ComboSummary <==> a[i].role == ComboSummary)
    ensures HoldsSummary(a, t) <==> HoldsSummary(b, t)
  {}

  lemma {:induction false} FinalRole(st: State, source: Source, skip: bool, i: nat, f: Fill)
    requires i < |st.book.execs| && st.book.execs[i].tradeId in st.touched && HasRoleOf(st.book.execs[i], f)
    ensures i < |Finish(st, source, skip).execs| && HasFinalRole(Finish(st, source, skip), Finish(st, source, skip).execs[i], f, source)
  {
    EnforceAllProperty(st.book.execs, st.groups);
    var flagged := st.book.(execs := EnforceAll(st.book.execs, st.groups));
    RetaggedRole(flagged, st.touched, i);
  }

  /** What a row shows of a fill once the whole call is done: its row in the store before, if there was one, keeps the fixed columns. */
  ghost predicate IsCorrected(book: Book, r: Book, source: Source, i: nat, first: Fill, last: Fill)
    requires i < |r.execs|
  {
    && Shows(r.execs[i], last, source) && HasFinalRole(r, r.execs[i], last, source)
    && if i < |book.execs| then KeepsInserted(book.execs[i], r.execs[i]) else IsInsertedFrom(r.execs[i], first)
  }

  /**
    After an ingest the row of every fill's id shows the last fill the batch
    has under it, unless the batch synthesizes a summary under that id: the
    columns an upsert rewrites from that fill, the rest as they were stored or,
    for a new row, from the batch's first fill under the id.
   */
  lemma {:induction false} RowsAreCorrected(book: Book, fills: seq<Fill>, source: Source, skip: bool, f: Fill)
    requires Valid(book) && AllFlagsRight(book.execs) && f in fills && f.execId !in SummaryIds(ComboKeys(fills), fills)
    ensures FirstOf(fills, f.execId).Some? && LastOf(fills, f.execId).Some?
    ensures var r := Ingest(book, fills, source, skip);
      exists i :: 0 <= i < |r.execs| && r.execs[i].execId == f.execId
        && IsCorrected(book, r, source, i, FirstOf(fills, f.execId).value, LastOf(fills, f.execId).value)
  {
    var st, r := Written(book, fills, source), Ingest(book, fills, source, skip);
    NoFillUnder(fills, f.execId);
    WrittenIdsAreStored(book, fills, source);
    var i :| 0 <= i < |st.book.execs| && st.book.execs[i].execId == f.execId;
    FinishProperty(book, fills, source, skip);
    CorrectedRow(book, fills, source, skip, f.execId, i);
  }

  lemma {:induction false} CorrectedRow(book: Book, fills: seq<Fill>, source: Source, skip: bool, id: string, i: nat)
    requires Valid(book) && AllFlagsRight(book.execs) && id !in SummaryIds(ComboKeys(fills), fills)
    requires i < |Written(book, fills, source).book.execs| && Written(book, fills, source).book.execs[i].execId == id
    requires LastOf(fills, id).Some? && FirstOf(fills, id).Some?
    ensures i < |Ingest(book, fills, source, skip).execs| && Ingest(book, fills, source, skip).execs[i].execId == id
    ensures IsCorrected(book, Ingest(book, fills, source, skip), source, i, FirstOf(fills, id).value, LastOf(fills, id).value)
  {
    var st, last := Written(book, fills, source), LastOf(fills, id).value;
    FillRowStays(book, fills, source, id, i);
    NoFillUnder(fills, id);
    WrittenRewrites(book, fills, source);
    FinishProperty(book, fills, source, skip);
    FinalRole(st, source, skip, i, last);
  }

  /** A row no summary is written under is as the fills left it. */
  lemma {:induction false} FillRowStays(book: Book, fills: seq<Fill>, source: Source, id: string, i: nat)
    requires Valid(book) && id !in SummaryIds(ComboKeys(fills), fills)
    requires i < |Written(book, fills, source).book.execs| && Written(book, fills, source).book.execs[i].execId == id
    ensures FillRow(book, fills, source, i, Written(book, fills, source).book.execs[i])
  {
    WrittenRowsProperty(book, fills, source);
    LastKeyIsWritten(ComboKeys(fills), fills, id);
    var mid, st := WriteFills(Start(book), fills, source), Written(book, fills, source);
    assert SummarizedRow(mid.book.execs, ComboKeys(fills), fills, source, i, st.book.execs[i]);
    assert st.book.execs[i] == mid.book.execs[i];
  }

  ghost predicate HasSummaryRow(execs: seq<Exec>, s: Summary) {
    exists i :: 0 <= i < |execs| && ShowsSummary(execs[i], s)
  }

  /** After an ingest the row of every summary's id shows the summary of the last of the batch's combos stored under it. */
  lemma {:induction false} SummariesAreShown(book: Book, fills: seq<Fill>, source: Source, skip: bool, id: string)
    requires Valid(book) && AllFlagsRight(book.execs) && id in SummaryIds(ComboKeys(fills), fills)
    ensures var key := LastKey(ComboKeys(fills), fills, id);
      key.Some? && LegsOf(fills, key.value) != []
      && HasSummaryRow(Ingest(book, fills, source, skip).execs, Synthesize(LegsOf(fills, key.value), key.value))
  {
    var st := Written(book, fills, source);
    WrittenIdsAreStored(book, fills, source);
    LastKeyIsWritten(ComboKeys(fills), fills, id);
    var i :| 0 <= i < |st.book.execs| && st.book.execs[i].execId == id;
    var key := LastKey(ComboKeys(fills), fills, id).value;
    SummaryIsWritten(book, fills, source, key, i);
    FinishProperty(book, fills, source, skip);
    SummaryStays(st, source, skip, Synthesize(LegsOf(fills, key), key), i);
  }

  lemma {:induction false} SummaryIsWritten(book: Book, fills: seq<Fill>, source: Source, key: string, i: nat)
    requires Valid(book) && i < |Written(book, fills, source).book.execs|
    requires LastKey(ComboKeys(fills), fills, Written(book, fills, source).book.execs[i].execId) == Some(key)
    ensures LegsOf(fills, key) != [] && ShowsSummary(Written(book, fills, source).book.execs[i], Synthesize(LegsOf(fills, key), key))
  {
    WrittenRowsProperty(book, fills, source);
    assert SummarizedRow(WriteFills(Start(book), fills, source).book.execs, ComboKeys(fills), fills, source, i, Written(book, fills, source).book.execs[i]);
  }

  lemma {:induction false} SummaryStays(st: State, source: Source, skip: bool, s: Summary, i: nat)
    requires i < |st.book.execs| && ShowsSummary(st.book.execs[i], s) && Finished(st, Finish(st, source, skip), source)
    ensures HasSummaryRow(Finish(st, source, skip).execs, s)
  {
    SummaryRoleStays(st, source, skip, i);
    assert ShowsSummary(Finish(st, source, skip).execs[i], s);
  }

  lemma {:induction false} SummaryRoleStays(st: State, source: Source, skip: bool, i: nat)
    requires i < |st.book.execs| && st.book.execs[i].role == ComboSummary
    ensures i < |Finish(st, source, skip).execs| && Finish(st, source, skip).execs[i].role == ComboSummary
  {
    EnforceAllProperty(st.book.execs, st.groups);
  }
}
