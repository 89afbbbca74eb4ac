/** One ingest call as a function of the tables, and what a call keeps. */
module IngestPipeline {
  import opened Common
  import opened FillIngest
  import opened ComboSynthesis

  /** The per-call state: the tables, the combo parents found so far and the bookkeeping the final passes need. */
  datatype State = State(book: Book, parents: map<string, nat>, groups: seq<Group>, touched: set<nat>, upserted: nat, inserted: nat)

  function Start(book: Book): State {
    State(book, map[], [], {}, 0, 0)
  }

  /** The parent of a plain fill, created when the tier that applies finds none, with its blank contract fields filled in. */
  function PlainParent(trades: seq<Trade>, fill: Fill, source: Source): (seq<Trade>, nat) {
    match MatchParent(trades, fill, source)
    case Some(k) => (trades[k := trades[k].(info := Backfill(trades[k].info, fill))], k)
    case None =>
      var t := NewTrade(fill, source);
      (trades + [t.(info := Backfill(t.info, fill))], |trades|)
  }

  /** The trade a stored summary of this combo hangs off. */
  function StoredComboParent(execs: seq<Exec>, fill: Fill): Option<nat> {
    match First(execs, (e: Exec) => e.account == fill.account && e.role == ComboSummary && e.comboKey == fill.comboKey)
    case Some(k) => Some(execs[k].tradeId)
    case None => None
  }

  /** The BAG parent the legs of one combo share: this call's, else the one a stored summary names, else a new one. */
  function ComboParent(st: State, fill: Fill, source: Source): (seq<Trade>, nat)
    requires fill.comboKey.Some?
  {
    if fill.comboKey.value in st.parents then (st.book.trades, st.parents[fill.comboKey.value])
    else
      match StoredComboParent(st.book.execs, fill)
      case Some(k) => (st.book.trades, k)
      case None => (st.book.trades + [NewComboTrade(fill, source)], |st.book.trades|)
  }

  function Record(st: State, trade: nat, g: Group, isNew: bool): State {
    st.(upserted := st.upserted + 1, inserted := st.inserted + if isNew then 1 else 0,
        groups := st.groups + [g], touched := st.touched + {trade})
  }

  function ParentFor(st: State, fill: Fill, source: Source): (seq<Trade>, nat) {
    if fill.comboKey.Some? then ComboParent(st, fill, source) else PlainParent(st.book.trades, fill, source)
  }

  function WriteFill(st: State, fill: Fill, source: Source): State {
    var (trades, k) := ParentFor(st, fill, source);
    Put(st, trades, if fill.comboKey.Some? then st.parents[fill.comboKey.value := k] else st.parents, k, fill, source)
  }

  /** Upsert the fill under parent `k` and note what was written. */
  function Put(st: State, trades: seq<Trade>, parents: map<string, nat>, k: nat, fill: Fill, source: Source): State {
    var execs := UpsertFill(st.book.execs, k, fill, source);
    Record(st.(book := Book(trades, execs), parents := parents), k,
           (fill.account, ParseExecId(fill.execId).0), RowOf(st.book.execs, fill.execId).None?)
  }

  lemma WriteFillParts(st: State, fill: Fill, source: Source, trades: seq<Trade>, parents: map<string, nat>, k: nat)
    requires (trades, k) == ParentFor(st, fill, source)
    requires parents == if fill.comboKey.Some? then st.parents[fill.comboKey.value := k] else st.parents
    ensures WriteFill(st, fill, source) == Put(st.(book := st.book.(trades := trades), parents := parents), trades, parents, k, fill, source)
  {}

  function WriteFills(st: State, fills: seq<Fill>, source: Source): (r: State)
    ensures forall f :: f in fills && f.comboKey.Some? ==> f.comboKey.value in r.parents
    ensures st.parents.Keys <= r.parents.Keys
  {
    if fills == [] then st else WriteFill(WriteFills(st, fills[..|fills| - 1], source), fills[|fills| - 1], source)
  }

  lemma {:induction false} LastFill(st: State, front: seq<Fill>, last: Fill, source: Source)
    ensures WriteFills(st, front + [last], source) == WriteFill(WriteFills(st, front, source), last, source)
  {
    assert (front + [last])[..|front|] == front;
  }

  function LegsOf(fills: seq<Fill>, key: string): (legs: seq<Fill>)
    ensures forall l :: l in legs <==> l in fills && l.comboKey == Some(key)
  {
    if fills == [] then []
    else
      LegsOf(fills[..|fills| - 1], key) + if fills[|fills| - 1].comboKey == Some(key) then [fills[|fills| - 1]] else []
  }

  /** The combo keys of a batch, in the order first seen. */
  function ComboKeys(fills: seq<Fill>): (keys: seq<string>)
    ensures forall key :: key in keys <==> exists f :: f in fills && f.comboKey == Some(key)
  {
    if fills == [] then []
    else
      var front, last := ComboKeys(fills[..|fills| - 1]), fills[|fills| - 1].comboKey;
      assert fills == fills[..|fills| - 1] + [fills[|fills| - 1]];
      if last.Some? && last.value !in front then front + [last.value] else front
  }

  /** Upsert the summary of one combo, unless it has fewer than two legs; nothing without a parent or account. */
  function WriteSummary(st: State, key: string, legs: seq<Fill>, source: Source): State {
    if |legs| < 2 || key !in st.parents || st.parents[key] >= |st.book.trades| then st
    else
      var k, summary := st.parents[key], Synthesize(legs, key);
      var account := st.book.trades[k].info.account;
      var execs := UpsertSummary(st.book.execs, k, account, summary, source);
      Record(st.(book := st.book.(execs := execs)), k, (account, ParseExecId(summary.execId).0), RowOf(st.book.execs, summary.execId).None?)
  }

  function WriteSummaries(st: State, keys: seq<string>, fills: seq<Fill>, source: Source): State {
    if keys == [] then st
    else
      var key := keys[|keys| - 1];
      WriteSummary(WriteSummaries(st, keys[..|keys| - 1], fills, source), key, LegsOf(fills, key), source)
  }

  function Written(book: Book, fills: seq<Fill>, source: Source): State {
    WriteSummaries(WriteFills(Start(book), fills, source), ComboKeys(fills), fills, source)
  }

  /** Revision flags, then leg roles when the feed needs it, then aggregates unless deferred. */
  function Finish(st: State, source: Source, skipAggregates: bool): Book {
    var flagged := st.book.(execs := EnforceAll(st.book.execs, st.groups));
    var tagged := if source.retagsLegs then Retag(flagged, st.touched) else flagged;
    if skipAggregates then tagged else Recompute(tagged, st.touched)
  }

  function Ingest(book: Book, fills: seq<Fill>, source: Source, skipAggregates: bool): Book {
    Finish(Written(book, fills, source), source, skipAggregates)
  }

  function Touched(book: Book, fills: seq<Fill>, source: Source): set<nat> {
    Written(book, fills, source).touched
  }

  // ---------------------------------------------------------------------
  // What a well-formed store is
  // ---------------------------------------------------------------------

  /** The flags of a group are right: set on its best row and on no other. */
  ghost predicate FlagsRight(execs: seq<Exec>, g: Group) {
    forall i :: 0 <= i < |execs| && InGroup(execs[i], g) ==> (execs[i].canonical <==> Best(execs, g) == Some(i))
  }

  ghost predicate Valid(book: Book) {
    && (forall i, j :: 0 <= i < j < |book.execs| ==> book.execs[i].execId != book.execs[j].execId)
    && (forall i :: 0 <= i < |book.execs| ==> book.execs[i].tradeId < |book.trades|)
    && (forall i :: 0 <= i < |book.execs| ==> IdParsed(book.execs[i]))
  }

  ghost predicate IdParsed(e: Exec) {
    e.base == ParseExecId(e.execId).0
  }

  ghost predicate AllFlagsRight(execs: seq<Exec>) {
    forall g :: FlagsRight(execs, g)
  }

  // ---------------------------------------------------------------------
  // The writing phase
  // ---------------------------------------------------------------------

  /** The columns of a row that no upsert rewrites and the revision flags depend on. */
  ghost predicate SameStamp(e: Exec, e': Exec) {
    e.execId == e'.execId && e.account == e'.account && e.base == e'.base && e.revision == e'.revision && e.canonical == e'.canonical
  }

  /**
    What writing has done to `book` so far: rows keep their place and stamp, a
    row that changed or is new belongs to a touched trade, a new row's group is
    recorded, and the aggregates of old trades are as they were.
   */
  ghost predicate Wrote(book: Book, st: State) {
    && Valid(st.book)
    && WroteExecs(book, st)
    && WroteTrades(book, st)
    && st.inserted == |st.book.execs| - |book.execs|
  }

  ghost predicate WroteExecs(book: Book, st: State) {
    && |book.execs| <= |st.book.execs|
    && (forall i :: 0 <= i < |book.execs| ==> SameStamp(book.execs[i], st.book.execs[i]))
    && (forall i :: 0 <= i < |book.execs| ==> st.book.execs[i] == book.execs[i] || st.book.execs[i].tradeId in st.touched)
    && (forall i :: |book.execs| <= i < |st.book.execs| ==> GroupOf(st.book.execs[i]) in st.groups && st.book.execs[i].tradeId in st.touched)
  }

  ghost predicate WroteTrades(book: Book, st: State) {
    && |book.trades| <= |st.book.trades|
    && (forall t :: 0 <= t < |book.trades| ==> st.book.trades[t].totals == book.trades[t].totals)
    && (forall t :: |book.trades| <= t < |st.book.trades| ==> t in st.touched)
    && (forall t :: t in st.touched ==> t < |st.book.trades|)
    && (forall key :: key in st.parents ==> st.parents[key] < |st.book.trades|)
  }

  lemma RowOfProperty(execs: seq<Exec>, id: string)
    ensures RowOf(execs, id).Some? ==> RowOf(execs, id).value < |execs| && execs[RowOf(execs, id).value].execId == id
    ensures RowOf(execs, id).None? ==> forall i :: 0 <= i < |execs| ==> execs[i].execId != id
  {}

  /** Either upsert: same stamps in place, and the written row belongs to the given trade. */
  ghost predicate Upserted(execs: seq<Exec>, execs': seq<Exec>, id: string, trade: nat, g: Group) {
    match RowOf(execs, id)
    case Some(k) =>
      && |execs'| == |execs| && execs'[k].tradeId == trade && SameStamp(execs[k], execs'[k])
      && (forall i :: 0 <= i < |execs| && i != k ==> execs'[i] == execs[i])
    case None =>
      && |execs'| == |execs| + 1 && execs'[|execs|].tradeId == trade && execs'[|execs|].execId == id && GroupOf(execs'[|execs|]) == g
      && IdParsed(execs'[|execs|])
      && (forall i :: 0 <= i < |execs| ==> execs'[i] == execs[i])
  }

  /** The trades after resolving a parent: the same ones with their aggregates, and at most the parent itself new. */
  ghost predicate Resolved(trades: seq<Trade>, trades': seq<Trade>, trade: nat) {
    && trade < |trades'|
    && (|trades'| == |trades| || (|trades'| == |trades| + 1 && trade == |trades|))
    && (forall t :: 0 <= t < |trades| ==> trades'[t].totals == trades[t].totals)
  }

  function After(st: State, trades: seq<Trade>, parents: map<string, nat>, execs: seq<Exec>, id: string, trade: nat, g: Group): State {
    Record(st.(book := Book(trades, execs), parents := parents), trade, g, RowOf(st.book.execs, id).None?)
  }

  lemma {:induction false} WroteRowExecs(book: Book, st: State, trades: seq<Trade>, parents: map<string, nat>, execs: seq<Exec>, id: string, trade: nat, g: Group)
    requires Wrote(book, st) && Upserted(st.book.execs, execs, id, trade, g)
    ensures WroteExecs(book, After(st, trades, parents, execs, id, trade, g))
    ensures |execs| == |st.book.execs| + if RowOf(st.book.execs, id).None? then 1 else 0
  {
    assert forall h :: h in st.groups + [g] <==> h in st.groups || h == g;
    RowOfProperty(st.book.execs, id);
  }

  lemma {:induction false} WroteRowIsValid(st: State, trades: seq<Trade>, execs: seq<Exec>, id: string, trade: nat, g: Group)
    requires Valid(st.book) && Upserted(st.book.execs, execs, id, trade, g)
    requires trade < |trades| && |st.book.trades| <= |trades|
    ensures Valid(Book(trades, execs))
  {
    RowOfProperty(st.book.execs, id);
  }

  lemma WroteRow(book: Book, st: State, trades: seq<Trade>, parents: map<string, nat>, execs: seq<Exec>, id: string, trade: nat, g: Group)
    requires Wrote(book, st) && Upserted(st.book.execs, execs, id, trade, g) && Resolved(st.book.trades, trades, trade)
    requires forall key :: key in parents ==> parents[key] < |trades|
    ensures Wrote(book, After(st, trades, parents, execs, id, trade, g))
  {
    WroteRowExecs(book, st, trades, parents, execs, id, trade, g);
    WroteRowIsValid(st, trades, execs, id, trade, g);
  }

  lemma {:induction false} WriteFillKeeps(book: Book, st: State, fill: Fill, source: Source)
    requires Wrote(book, st)
    ensures Wrote(book, WriteFill(st, fill, source))
  {
    var (trades, k) := ParentFor(st, fill, source);
    var parents := if fill.comboKey.Some? then st.parents[fill.comboKey.value := k] else st.parents;
    var execs := UpsertFill(st.book.execs, k, fill, source);
    RowOfProperty(st.book.execs, fill.execId);
    WroteRow(book, st, trades, parents, execs, fill.execId, k, (fill.account, ParseExecId(fill.execId).0));
  }

  lemma WriteSummaryKeeps(book: Book, st: State, key: string, legs: seq<Fill>, source: Source)
    requires Wrote(book, st)
    ensures Wrote(book, WriteSummary(st, key, legs, source))
  {
    if |legs| >= 2 && key in st.parents {
      var k, summary := st.parents[key], Synthesize(legs, key);
      var account := st.book.trades[k].info.account;
      var execs := UpsertSummary(st.book.execs, k, account, summary, source);
      RowOfProperty(st.book.execs, summary.execId);
      WroteRow(book, st, st.book.trades, st.parents, execs, summary.execId, k, (account, ParseExecId(summary.execId).0));
    }
  }

  lemma {:induction false} WriteFillsKeeps(book: Book, st: State, fills: seq<Fill>, source: Source)
    requires Wrote(book, st)
    ensures Wrote(book, WriteFills(st, fills, source))
  {
    if fills != [] {
      WriteFillsKeeps(book, st, fills[..|fills| - 1], source);
      WriteFillKeeps(book, WriteFills(st, fills[..|fills| - 1], source), fills[|fills| - 1], source);
    }
  }

  lemma {:induction false} WriteSummariesKeeps(book: Book, st: State, keys: seq<string>, fills: seq<Fill>, source: Source)
    requires Wrote(book, st)
    ensures Wrote(book, WriteSummaries(st, keys, fills, source))
  {
    if keys != [] {
      var key := keys[|keys| - 1];
      WriteSummariesKeeps(book, st, keys[..|keys| - 1], fills, source);
      WriteSummaryKeeps(book, WriteSummaries(st, keys[..|keys| - 1], fills, source), key, LegsOf(fills, key), source);
    }
  }

  lemma WrittenKeeps(book: Book, fills: seq<Fill>, source: Source)
    requires Valid(book)
    ensures Wrote(book, Written(book, fills, source))
  {
    WriteFillsKeeps(book, Start(book), fills, source);
    WriteSummariesKeeps(book, WriteFills(Start(book), fills, source), ComboKeys(fills), fills, source);
  }

  // ---------------------------------------------------------------------
  // The revision pass
  // ---------------------------------------------------------------------

  /** The columns of a row the revision pass reads. */
  ghost predicate SameKey(e: Exec, e': Exec) {
    e.execId == e'.execId && e.account == e'.account && e.base == e'.base && e.revision == e'.revision
  }

  lemma {:induction false} BestIgnoresFlags(execs: seq<Exec>, execs': seq<Exec>, g: Group)
    requires |execs| == |execs'|
    requires forall i :: 0 <= i < |execs| ==> SameKey(execs[i], execs'[i])
    ensures Best(execs, g) == Best(execs', g)
  {
    if execs != [] {
      BestIgnoresFlags(execs[..|execs| - 1], execs'[..|execs| - 1], g);
    }
  }

  /** The whole revision pass in one formula: groups visited any number of times get the flag on their best row. */
  lemma {:induction false} EnforceAllProperty(execs: seq<Exec>, groups: seq<Group>)
    ensures var after := EnforceAll(execs, groups);
      |after| == |execs| && forall i :: 0 <= i < |execs| ==>
        after[i] == if GroupOf(execs[i]) in groups then execs[i].(canonical := Best(execs, GroupOf(execs[i])) == Some(i)) else execs[i]
  {
    if groups != [] {
      var front, g := groups[..|groups| - 1], groups[|groups| - 1];
      assert groups == front + [g];
      EnforceAllProperty(execs, front);
      BestIgnoresFlags(execs, EnforceAll(execs, front), g);
    }
  }

  /** Groups that received no row keep right flags through the writing phase. */
  lemma {:induction false} BestOfPrefix(execs: seq<Exec>, n: nat, g: Group)
    requires n <= |execs| && forall i :: n <= i < |execs| ==> !InGroup(execs[i], g)
    ensures Best(execs, g) == Best(execs[..n], g)
  {
    if n < |execs| {
      var front := execs[..|execs| - 1];
      assert front[..n] == execs[..n];
      BestOfPrefix(front, n, g);
    } else {
      assert execs[..n] == execs;
    }
  }

  lemma CleanGroupKeepsFlags(book: Book, st: State, g: Group)
    requires Wrote(book, st) && FlagsRight(book.execs, g)
    requires forall i :: |book.execs| <= i < |st.book.execs| ==> !InGroup(st.book.execs[i], g)
    ensures FlagsRight(st.book.execs, g)
  {
    var n := |book.execs|;
    BestOfPrefix(st.book.execs, n, g);
    BestIgnoresFlags(book.execs, st.book.execs[..n], g);
  }

  ghost predicate HasNewRow(book: Book, execs: seq<Exec>, g: Group) {
    exists j :: |book.execs| <= j < |execs| && InGroup(execs[j], g)
  }

  /** After the revision pass every group's flags are right, and only rows of groups with a new row have changed. */
  lemma FlaggedProperty(book: Book, st: State)
    requires Wrote(book, st) && AllFlagsRight(book.execs)
    ensures var after := EnforceAll(st.book.execs, st.groups);
      && |after| == |st.book.execs|
      && AllFlagsRight(after)
      && (forall i :: 0 <= i < |after| ==> after[i] == st.book.execs[i].(canonical := after[i].canonical))
      && (forall i :: 0 <= i < |after| && after[i] != st.book.execs[i] ==> HasNewRow(book, st.book.execs, GroupOf(after[i])))
  {
    var execs, after := st.book.execs, EnforceAll(st.book.execs, st.groups);
    EnforceAllProperty(execs, st.groups);
    forall g ensures FlagsRight(after, g) {
      FlagsRightAfter(book, st, g);
    }
    forall i | 0 <= i < |after| && after[i] != execs[i]
      ensures HasNewRow(book, execs, GroupOf(after[i]))
    {
      var g := GroupOf(execs[i]);
      if !HasNewRow(book, execs, g) {
        CleanGroupKeepsFlags(book, st, g);
      }
    }
  }

  lemma FlagsRightAfter(book: Book, st: State, g: Group)
    requires Wrote(book, st) && AllFlagsRight(book.execs)
    ensures FlagsRight(EnforceAll(st.book.execs, st.groups), g)
  {
    var execs, after := st.book.execs, EnforceAll(st.book.execs, st.groups);
    EnforceAllProperty(execs, st.groups);
    BestIgnoresFlags(execs, after, g);
    if g !in st.groups {
      CleanGroupKeepsFlags(book, st, g);
    }
  }
}
