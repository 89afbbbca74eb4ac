/**
  Batches whose fills name their order by a positive perm id, and whose
  revisions of one base name one order: a condition on the fills alone under
  which no run, of either feed, ever leaves a trade out of date.
 */
module KeyedRuns {
  import opened Common
  import opened FillIngest
  import opened ComboSynthesis
  import opened IngestPipeline
  import opened IngestProperties
  import opened KeptRows
  import opened StaleTotals
  import opened AggregateProperties

  function BaseOf(f: Fill): Group { (f.account, ParseExecId(f.execId).0) }

  /** Every fill names its order by perm id, an id keeps its account, and the revisions of a base name one order. */
  ghost predicate Keyed(all: set<Fill>) {
    && (forall f :: f in all ==> HasPermId(f) && f.comboKey.None?)
    && (forall f, g :: f in all && g in all && f.execId == g.execId ==> f.account == g.account)
    && (forall f, g :: f in all && g in all && BaseOf(f) == BaseOf(g) ==> f.permId == g.permId)
  }

  predicate IsOrderOf(t: Trade, f: Fill) {
    t.info.account == f.account && t.info.permId == f.permId
  }

  ghost predicate OneTradePerOrder(trades: seq<Trade>) {
    forall s, t :: 0 <= s < t < |trades| ==> trades[s].info.account != trades[t].info.account || trades[s].info.permId != trades[t].info.permId
  }

  /** The row was written for this fill and hangs off the trade of its order. */
  ghost predicate IsRowOf(trades: seq<Trade>, e: Exec, f: Fill) {
    e.execId == f.execId && e.account == f.account && e.tradeId < |trades| && IsOrderOf(trades[e.tradeId], f)
  }

  ghost predicate HasFill(all: set<Fill>, trades: seq<Trade>, e: Exec) {
    exists f :: f in all && IsRowOf(trades, e, f)
  }

  /** Each order has one trade, and every row hangs off its order's. */
  ghost predicate KeyedBook(all: set<Fill>, book: Book) {
    OneTradePerOrder(book.trades) && forall i :: 0 <= i < |book.execs| ==> HasFill(all, book.trades, book.execs[i])
  }

  /** The trades after resolving a parent still name the same orders. */
  ghost predicate SameOrders(trades: seq<Trade>, after: seq<Trade>) {
    && |trades| <= |after|
    && forall t :: 0 <= t < |trades| ==> after[t].info.account == trades[t].info.account && after[t].info.permId == trades[t].info.permId
  }

  lemma {:induction false} KeyedParent(trades: seq<Trade>, f: Fill, source: Source)
    requires OneTradePerOrder(trades) && HasPermId(f)
    ensures var (after, k) := PlainParent(trades, f, source);
      && SameOrders(trades, after) && OneTradePerOrder(after) && k < |after| && IsOrderOf(after[k], f)
      && forall t :: 0 <= t < |trades| && IsOrderOf(trades[t], f) ==> t == k
  {
    var found := MatchParent(trades, f, source);
    if found.Some? {
      assert IsParent(trades[found.value], f, source);
    } else {
      forall t | 0 <= t < |trades| ensures !IsOrderOf(trades[t], f) { assert !IsParent(trades[t], f, source); }
    }
  }

  lemma {:induction false} RowKeepsItsFill(all: set<Fill>, trades: seq<Trade>, after: seq<Trade>, e: Exec)
    requires HasFill(all, trades, e) && SameOrders(trades, after)
    ensures HasFill(all, after, e)
  {
    var f :| f in all && IsRowOf(trades, e, f);
    assert IsRowOf(after, e, f);
  }

  /** A stored id is re-sent for its own order, so its row stays where it is. */
  lemma {:induction false} RowStaysHome(all: set<Fill>, trades: seq<Trade>, after: seq<Trade>, e: Exec, f: Fill, k: nat)
    requires Keyed(all) && f in all && HasFill(all, trades, e) && e.execId == f.execId && SameOrders(trades, after)
    requires forall t :: 0 <= t < |trades| && IsOrderOf(trades[t], f) ==> t == k
    ensures e.tradeId == k
  {
    var g :| g in all && IsRowOf(trades, e, g);
    assert BaseOf(g) == BaseOf(f);
  }

  lemma {:induction false} KeyedFill(all: set<Fill>, st: State, f: Fill, source: Source)
    requires Keyed(all) && f in all && KeyedBook(all, st.book)
    ensures var st' := WriteFill(st, f, source);
      && KeyedBook(all, st'.book) && |st.book.execs| <= |st'.book.execs|
      && forall i :: 0 <= i < |st.book.execs| ==> st'.book.execs[i].tradeId == st.book.execs[i].tradeId
  {
    var trades, execs := st.book.trades, st.book.execs;
    var (after, k) := PlainParent(trades, f, source);
    KeyedParent(trades, f, source);
    var rows := UpsertFill(execs, k, f, source);
    RowOfProperty(execs, f.execId);
    forall i | 0 <= i < |execs| ensures HasFill(all, after, rows[i]) && rows[i].tradeId == execs[i].tradeId {
      RowKeepsItsFill(all, trades, after, execs[i]);
      if RowOf(execs, f.execId) == Some(i) {
        RowStaysHome(all, trades, after, execs[i], f, k);
        var g :| g in all && IsRowOf(after, execs[i], g);
        assert IsRowOf(after, rows[i], g);
      }
    }
    if |rows| > |execs| { assert IsRowOf(after, rows[|execs|], f); }
  }

  lemma {:induction false} KeyedFills(all: set<Fill>, book: Book, fills: seq<Fill>, source: Source)
    requires Keyed(all) && KeyedBook(all, book) && forall f :: f in fills ==> f in all
    ensures var st := WriteFills(Start(book), fills, source);
      && KeyedBook(all, st.book) && |book.execs| <= |st.book.execs|
      && forall i :: 0 <= i < |book.execs| ==> st.book.execs[i].tradeId == book.execs[i].tradeId
  {
    if fills != [] {
      var front, last := fills[..|fills| - 1], fills[|fills| - 1];
      assert fills == front + [last];
      KeyedFills(all, book, front, source);
      KeyedFill(all, WriteFills(Start(book), front, source), last, source);
    }
  }

  lemma {:induction false} FinishedParents(st: State, source: Source, skip: bool)
    ensures var r := Finish(st, source, skip);
      && |r.execs| == |st.book.execs| && SameOrders(st.book.trades, r.trades) && |r.trades| == |st.book.trades|
      && forall i :: 0 <= i < |r.execs| ==>
           r.execs[i].execId == st.book.execs[i].execId && r.execs[i].account == st.book.execs[i].account && r.execs[i].tradeId == st.book.execs[i].tradeId
  {
    EnforceAllProperty(st.book.execs, st.groups);
  }

  lemma {:induction false} KeyedFinish(all: set<Fill>, st: State, source: Source, skip: bool)
    requires KeyedBook(all, st.book)
    ensures KeyedBook(all, Finish(st, source, skip))
  {
    var r := Finish(st, source, skip);
    FinishedParents(st, source, skip);
    forall i | 0 <= i < |r.execs| ensures HasFill(all, r.trades, r.execs[i]) {
      assert HasFill(all, st.book.trades, st.book.execs[i]);
      var f :| f in all && IsRowOf(st.book.trades, st.book.execs[i], f);
      assert IsRowOf(r.trades, r.execs[i], f);
    }
  }

  lemma {:induction false} KeyedRowsShareParent(all: set<Fill>, r: Book)
    requires Keyed(all) && KeyedBook(all, r) && Valid(r)
    ensures RevisionsShareParent(r)
  {
    forall i, j | 0 <= i < |r.execs| && 0 <= j < |r.execs| && GroupOf(r.execs[i]) == GroupOf(r.execs[j])
      ensures r.execs[i].tradeId == r.execs[j].tradeId
    {
      var f :| f in all && IsRowOf(r.trades, r.execs[i], f);
      var g :| g in all && IsRowOf(r.trades, r.execs[j], g);
      assert IdParsed(r.execs[i]) && IdParsed(r.execs[j]);
      assert BaseOf(f) == BaseOf(g);
    }
  }

  /** One batch of keyed fills moves no stored fill and splits no base. */
  lemma {:induction false} KeyedBatch(all: set<Fill>, book: Book, b: Batch)
    requires Keyed(all) && KeyedBook(all, book) && Valid(book) && AllFlagsRight(book.execs) && forall f :: f in b.fills ==> f in all
    ensures var r := Ingest(book, b.fills, b.source, b.skipAggregates); KeyedBook(all, r) && StableStep(book, r)
  {
    NoComboKeys(b.fills);
    var st := Written(book, b.fills, b.source);
    KeyedFills(all, book, b.fills, b.source);
    KeyedFinish(all, st, b.source, b.skipAggregates);
    FinishedParents(st, b.source, b.skipAggregates);
    FinishProperty(book, b.fills, b.source, b.skipAggregates);
    KeyedRowsShareParent(all, Finish(st, b.source, b.skipAggregates));
  }

  ghost predicate AllFrom(all: set<Fill>, batches: seq<Batch>) {
    forall b, f :: b in batches && f in b.fills ==> f in all
  }

  lemma {:induction false} KeyedRun(all: set<Fill>, book: Book, batches: seq<Batch>)
    requires Keyed(all) && KeyedBook(all, book) && Valid(book) && AllFlagsRight(book.execs) && AllFrom(all, batches)
    ensures KeyedBook(all, Run(book, batches))
  {
    if batches != [] {
      var front, b := batches[..|batches| - 1], batches[|batches| - 1];
      assert b in batches && AllFrom(all, front);
      KeyedRun(all, book, front);
      RunIsValid(book, front);
      KeyedBatch(all, Run(book, front), b);
    }
  }

  lemma {:induction false} KeyedRunsAreStable(all: set<Fill>, book: Book, batches: seq<Batch>)
    requires Keyed(all) && KeyedBook(all, book) && Valid(book) && AllFlagsRight(book.execs) && AllFrom(all, batches)
    ensures StableParents(book, batches)
  {
    forall n | 0 <= n < |batches| ensures StableStep(Run(book, batches[..n]), Run(book, batches[..n + 1])) {
      assert batches[n] in batches && AllFrom(all, batches[..n]);
      KeyedRun(all, book, batches[..n]);
      RunIsValid(book, batches[..n]);
      RunStep(book, batches, n);
      KeyedBatch(all, Run(book, batches[..n]), batches[n]);
    }
  }

  /** From an empty store, whatever batches of keyed fills either feed ingests, every trade has the aggregates of its rows. */
  lemma KeyedRunsStayUpToDate(all: set<Fill>, batches: seq<Batch>)
    requires Keyed(all) && AllFrom(all, batches) && forall b :: b in batches ==> !b.skipAggregates
    ensures AllUpToDate(Run(EMPTY, batches))
  {
    KeyedRunsAreStable(all, EMPTY, batches);
    StableRunsLoseNothing(EMPTY, batches);
    AllTradesStayUpToDate(EMPTY, batches);
  }
}
