/** When an ingest leaves the aggregates of a trade it does not touch out of date, and when whole runs never do. */
module StaleTotals {
  import opened Common
  import opened FillIngest
  import opened ComboSynthesis
  import opened IngestPipeline
  import opened IngestProperties
  import opened KeptRows

  // ---------------------------------------------------------------------
  // One trade
  // ---------------------------------------------------------------------

  lemma {:induction false} UntouchedTotals(book: Book, fills: seq<Fill>, source: Source, skip: bool, t: nat)
    requires Valid(book) && AllFlagsRight(book.execs) && t < |book.trades| && t !in Touched(book, fills, source)
    ensures var r := Ingest(book, fills, source, skip); t < |r.trades| && r.trades[t].totals == book.trades[t].totals
  {
    FinishProperty(book, fills, source, skip);
  }

  /**
    A trade the ingest does not touch is up to date afterwards exactly when the
    fold over the rows it keeps gives the totals it has, from either feed.
   */
  lemma {:induction false} UntouchedIsUpToDateExactly(book: Book, fills: seq<Fill>, source: Source, skip: bool, t: nat)
    requires Valid(book) && AllFlagsRight(book.execs) && t < |book.trades| && t !in Touched(book, fills, source)
    ensures var r := Ingest(book, fills, source, skip);
      && t < |r.trades|
      && (UpToDate(r, t) <==> TotalsFrom(Filter(CanonicalOf(book.execs, t), Keeps(book, fills))) == book.trades[t].totals)
  {
    UntouchedTotals(book, fills, source, skip, t);
    UntouchedRowsAreTheKept(book, fills, source, skip, t);
  }

  /** No combo summary among the rows, and every row has a size. */
  ghost predicate AreSizedFills(rows: seq<Exec>) {
    forall e :: e in rows ==> e.role != ComboSummary && e.quantity != 0.0
  }

  lemma {:induction false} SizeOfSome(rows: seq<Exec>, p: Exec -> bool)
    requires forall e :: e in rows ==> e.quantity != 0.0
    ensures Sum(Filter(rows, p), Size) <= Sum(rows, Size)
    ensures Sum(Filter(rows, p), Size) == Sum(rows, Size) ==> forall e :: e in rows ==> p(e)
  {
    if rows != [] {
      var front, last := rows[..|rows| - 1], rows[|rows| - 1];
      assert rows == front + [last];
      SizeOfSome(front, p);
      var kept := Filter(front, p);
      FilterAppend(front, last, p);
      if p(last) {
        assert (kept + [last])[..|kept|] == kept;
      } else {
        assert Filter(rows, p) == kept;
      }
    }
  }

  lemma {:induction false} QuantityOfFills(rows: seq<Exec>)
    requires forall e :: e in rows ==> e.role != ComboSummary
    ensures TotalsFrom(rows).quantity == Sum(rows, Size)
  {
    FilterNone(rows, (e: Exec) => e.role == ComboSummary);
  }

  /**
    A trade of plain sized fills that was up to date and is not touched stays so
    exactly when the batch writes none of its canonical rows' ids and overtakes
    none of them; a single lost row already shows in the quantity.
   */
  lemma {:induction false} PlainTradeIsUpToDateExactly(book: Book, fills: seq<Fill>, source: Source, skip: bool, t: nat)
    requires Valid(book) && AllFlagsRight(book.execs) && t < |book.trades| && t !in Touched(book, fills, source)
    requires UpToDate(book, t) && AreSizedFills(CanonicalOf(book.execs, t))
    ensures var r := Ingest(book, fills, source, skip);
      t < |r.trades| && (UpToDate(r, t) <==> forall e :: e in CanonicalOf(book.execs, t) ==> Kept(book, fills, e))
  {
    var rows := CanonicalOf(book.execs, t);
    UntouchedIsUpToDateExactly(book, fills, source, skip, t);
    KeepsAllExactly(rows, Keeps(book, fills));
    SizeOfSome(rows, Keeps(book, fills));
    QuantityOfFills(rows);
    QuantityOfFills(Filter(rows, Keeps(book, fills)));
  }

  // ---------------------------------------------------------------------
  // All trades
  // ---------------------------------------------------------------------

  ghost predicate AllUpToDate(book: Book) {
    forall t :: 0 <= t < |book.trades| ==> UpToDate(book, t)
  }

  /** The fold over the rows an untouched trade keeps still gives its stored totals. */
  ghost predicate StaysFresh(book: Book, fills: seq<Fill>, source: Source, t: nat)
    requires t < |book.trades|
  {
    t in Touched(book, fills, source) || TotalsFrom(Filter(CanonicalOf(book.execs, t), Keeps(book, fills))) == book.trades[t].totals
  }

  /** After one ingest every trade of the store is up to date exactly when each untouched one is by the rows it keeps. */
  lemma {:induction false} AllUpToDateExactly(book: Book, fills: seq<Fill>, source: Source)
    requires Valid(book) && AllFlagsRight(book.execs)
    ensures AllUpToDate(Ingest(book, fills, source, false)) <==> forall t :: 0 <= t < |book.trades| ==> StaysFresh(book, fills, source, t)
  {
    var r := Ingest(book, fills, source, false);
    FinishProperty(book, fills, source, false);
    TouchedTradesAreUpToDate(book, fills, source);
    forall t | 0 <= t < |book.trades| ensures UpToDate(r, t) <==> StaysFresh(book, fills, source, t) {
      if t !in Touched(book, fills, source) { UntouchedIsUpToDateExactly(book, fills, source, false, t); }
    }
  }

  /** Every canonical row the batch rewrites or overtakes hangs off a trade the batch touches. */
  ghost predicate LosesNothing(book: Book, fills: seq<Fill>, source: Source) {
    forall i :: 0 <= i < |book.execs| && book.execs[i].canonical && !Kept(book, fills, book.execs[i])
      ==> book.execs[i].tradeId in Touched(book, fills, source)
  }

  lemma {:induction false} UntouchedTradeIsUnchanged(book: Book, fills: seq<Fill>, source: Source, skip: bool, t: nat)
    requires Valid(book) && AllFlagsRight(book.execs) && t !in Touched(book, fills, source) && LosesNothing(book, fills, source)
    ensures var r := Ingest(book, fills, source, skip);
      && CanonicalOf(r.execs, t) == CanonicalOf(book.execs, t)
      && (t < |r.trades| ==> t < |book.trades| && r.trades[t].totals == book.trades[t].totals)
  {
    FinishProperty(book, fills, source, skip);
    forall e | e in CanonicalOf(book.execs, t) ensures Kept(book, fills, e) {
      var i :| 0 <= i < |book.execs| && book.execs[i] == e;
    }
    UntouchedRowsStayExactly(book, fills, source, skip, t);
  }

  lemma {:induction false} IngestKeepsTradesUpToDate(book: Book, fills: seq<Fill>, source: Source)
    requires Valid(book) && AllFlagsRight(book.execs) && AllUpToDate(book) && LosesNothing(book, fills, source)
    ensures AllUpToDate(Ingest(book, fills, source, false))
  {
    var r := Ingest(book, fills, source, false);
    TouchedTradesAreUpToDate(book, fills, source);
    forall t | 0 <= t < |r.trades| ensures UpToDate(r, t) {
      if t !in Touched(book, fills, source) {
        UntouchedTradeIsUnchanged(book, fills, source, false, t);
        assert UpToDate(book, t);
      }
    }
  }

  /** At every call of the run, the batch loses no row of a trade it does not touch. */
  ghost predicate NeverLoses(book: Book, batches: seq<Batch>) {
    forall n :: 0 <= n < |batches| ==> LosesNothing(Run(book, batches[..n]), batches[n].fills, batches[n].source)
  }

  lemma {:induction false} LastBatch(book: Book, batches: seq<Batch>)
    requires batches != [] && NeverLoses(book, batches)
    ensures var front, b := batches[..|batches| - 1], batches[|batches| - 1];
      && NeverLoses(book, front)
      && LosesNothing(Run(book, front), b.fills, b.source)
      && Run(book, batches) == Ingest(Run(book, front), b.fills, b.source, b.skipAggregates)
  {
    var front, b := batches[..|batches| - 1], batches[|batches| - 1];
    forall n | 0 <= n < |front| ensures LosesNothing(Run(book, front[..n]), front[n].fills, front[n].source) {
      EarlierBatch(book, batches, n);
    }
    assert LosesNothing(Run(book, batches[..|front|]), batches[|front|].fills, batches[|front|].source);
    LastRun(book, batches);
  }

  lemma {:induction false} LastRun(book: Book, batches: seq<Batch>)
    requires batches != []
    ensures var b := batches[|batches| - 1];
      Run(book, batches) == Ingest(Run(book, batches[..|batches| - 1]), b.fills, b.source, b.skipAggregates)
  {}

  lemma {:induction false} EarlierBatch(book: Book, batches: seq<Batch>, n: nat)
    requires NeverLoses(book, batches) && n < |batches| - 1
    ensures var front := batches[..|batches| - 1]; LosesNothing(Run(book, front[..n]), front[n].fills, front[n].source)
  {
    SamePrefix(batches, n);
    NoneLost(book, batches, n, batches[..n], batches[n]);
  }

  lemma {:induction false} SamePrefix(batches: seq<Batch>, n: nat)
    requires n < |batches| - 1
    ensures batches[..|batches| - 1][..n] == batches[..n] && batches[..|batches| - 1][n] == batches[n]
  {}

  lemma {:induction false} NoneLost(book: Book, batches: seq<Batch>, n: nat, front: seq<Batch>, b: Batch)
    requires NeverLoses(book, batches) && n < |batches| && front == batches[..n] && b == batches[n]
    ensures LosesNothing(Run(book, front), b.fills, b.source)
  {}

  /** Then after the run every trade of the store, touched or not, has the aggregates of its rows. */
  lemma {:induction false} AllTradesStayUpToDate(book: Book, batches: seq<Batch>)
    requires Valid(book) && AllFlagsRight(book.execs) && AllUpToDate(book)
    requires NeverLoses(book, batches) && forall b :: b in batches ==> !b.skipAggregates
    ensures AllUpToDate(Run(book, batches))
  {
    if batches != [] {
      var front, b := batches[..|batches| - 1], batches[|batches| - 1];
      assert b in batches;
      LastBatch(book, batches);
      AllTradesStayUpToDate(book, front);
      RunIsValid(book, front);
      IngestKeepsTradesUpToDate(Run(book, front), b.fills, b.source);
    }
  }

  // ---------------------------------------------------------------------
  // The touched trades by the parent rule
  // ---------------------------------------------------------------------

  /** No write changes the columns this fill's tier reads: only a missing symbol is ever filled in. */
  ghost predicate ReadsFixedColumns(trades: seq<Trade>, f: Fill) {
    HasPermId(f) || HasOwnRef(f) || forall t :: 0 <= t < |trades| ==> trades[t].info.symbol.Some?
  }

  ghost predicate ArePlain(book: Book, fills: seq<Fill>) {
    forall f :: f in fills ==> f.comboKey.None? && ReadsFixedColumns(book.trades, f)
  }

  /** Some fill of the batch resolves to the stored trade, as the store stands before the call. */
  ghost predicate IsResolvedTo(book: Book, fills: seq<Fill>, source: Source, t: nat) {
    exists f :: f in fills && MatchParent(book.trades, f, source) == Some(t)
  }

  ghost predicate SameColumns(a: Trade, b: Trade) {
    && a.totals == b.totals && a.info.account == b.info.account && a.info.permId == b.info.permId && a.info.orderRef == b.info.orderRef
    && a.info.orderId == b.info.orderId && a.info.side == b.info.side && (a.info.symbol.Some? ==> b.info.symbol == a.info.symbol)
  }

  ghost predicate KeepsColumns(trades: seq<Trade>, after: seq<Trade>) {
    |trades| <= |after| && forall t :: 0 <= t < |trades| ==> SameColumns(trades[t], after[t])
  }

  lemma {:induction false} SameParent(trades: seq<Trade>, after: seq<Trade>, f: Fill, source: Source)
    requires KeepsColumns(trades, after) && ReadsFixedColumns(trades, f)
    ensures var was, now := MatchParent(trades, f, source), MatchParent(after, f, source);
      if was.Some? then now == was else now.Some? ==> now.value >= |trades|
  {
    forall t | 0 <= t < |trades| ensures IsParent(trades[t], f, source) == IsParent(after[t], f, source) {
      assert SameColumns(trades[t], after[t]);
    }
  }

  /** A plain fill touches the stored trade the parent rule names, or a new one. */
  lemma {:induction false} NextTouched(book: Book, st: State, f: Fill, source: Source)
    requires KeepsColumns(book.trades, st.book.trades) && f.comboKey.None? && ReadsFixedColumns(book.trades, f)
    ensures var st' := WriteFill(st, f, source);
      && KeepsColumns(book.trades, st'.book.trades)
      && forall t :: 0 <= t < |book.trades| ==> (t in st'.touched <==> t in st.touched || MatchParent(book.trades, f, source) == Some(t))
  {
    var (trades, k) := PlainParent(st.book.trades, f, source);
    SameParent(book.trades, st.book.trades, f, source);
    assert WriteFill(st, f, source).touched == st.touched + {k} && WriteFill(st, f, source).book.trades == trades;
  }

  lemma {:induction false} LastResolved(book: Book, front: seq<Fill>, last: Fill, source: Source, t: nat)
    ensures IsResolvedTo(book, front + [last], source, t) <==> IsResolvedTo(book, front, source, t) || MatchParent(book.trades, last, source) == Some(t)
  {
    assert last in front + [last];
    if f :| f in front && MatchParent(book.trades, f, source) == Some(t) { assert f in front + [last]; }
  }

  lemma {:induction false} FillsTouch(book: Book, fills: seq<Fill>, source: Source)
    requires ArePlain(book, fills)
    ensures var st := WriteFills(Start(book), fills, source);
      && KeepsColumns(book.trades, st.book.trades)
      && forall t :: 0 <= t < |book.trades| ==> (t in st.touched <==> IsResolvedTo(book, fills, source, t))
  {
    if fills != [] {
      var front, last := fills[..|fills| - 1], fills[|fills| - 1];
      assert fills == front + [last];
      FillsTouch(book, front, source);
      NextTouched(book, WriteFills(Start(book), front, source), last, source);
      LastFill(Start(book), front, last, source);
      forall t | 0 <= t < |book.trades|
        ensures IsResolvedTo(book, fills, source, t) <==> IsResolvedTo(book, front, source, t) || MatchParent(book.trades, last, source) == Some(t)
      {
        LastResolved(book, front, last, source, t);
      }
    }
  }

  /** A batch of plain fills touches exactly the stored trades its fills resolve to, and no other stored one. */
  lemma {:induction false} TouchedByTheParentRule(book: Book, fills: seq<Fill>, source: Source)
    requires ArePlain(book, fills)
    ensures forall t :: 0 <= t < |book.trades| ==> (t in Touched(book, fills, source) <==> IsResolvedTo(book, fills, source, t))
  {
    NoComboKeys(fills);
    FillsTouch(book, fills, source);
  }

  /**
    After a batch of plain fills every trade is up to date exactly when each
    stored trade is one that some fill of the batch resolves to, or has the
    totals of the rows it keeps: all of it said of the store before the call.
   */
  lemma {:induction false} PlainBatchLeavesNoneStaleExactly(book: Book, fills: seq<Fill>, source: Source)
    requires Valid(book) && AllFlagsRight(book.execs) && ArePlain(book, fills)
    ensures AllUpToDate(Ingest(book, fills, source, false)) <==>
      forall t :: 0 <= t < |book.trades| ==>
        IsResolvedTo(book, fills, source, t) || TotalsFrom(Filter(CanonicalOf(book.execs, t), Keeps(book, fills))) == book.trades[t].totals
  {
    AllUpToDateExactly(book, fills, source);
    TouchedByTheParentRule(book, fills, source);
    forall t | 0 <= t < |book.trades|
      ensures StaysFresh(book, fills, source, t) <==>
        IsResolvedTo(book, fills, source, t) || TotalsFrom(Filter(CanonicalOf(book.execs, t), Keeps(book, fills))) == book.trades[t].totals
    {
    }
  }

  /** Such a batch loses no row of an untouched trade exactly when every canonical row it rewrites or overtakes is under a trade it resolves to. */
  lemma {:induction false} PlainBatchLosesNothingExactly(book: Book, fills: seq<Fill>, source: Source)
    requires Valid(book) && ArePlain(book, fills)
    ensures LosesNothing(book, fills, source) <==>
      forall i :: 0 <= i < |book.execs| && book.execs[i].canonical && !Kept(book, fills, book.execs[i])
        ==> IsResolvedTo(book, fills, source, book.execs[i].tradeId)
  {
    TouchedByTheParentRule(book, fills, source);
  }

  // ---------------------------------------------------------------------
  // Stable parents
  // ---------------------------------------------------------------------

  /** No stored fill ended under another parent. */
  ghost predicate KeepsParents(book: Book, r: Book) {
    |book.execs| <= |r.execs| && forall i :: 0 <= i < |book.execs| ==> r.execs[i].tradeId == book.execs[i].tradeId
  }

  /** All revisions of one base share a parent. */
  ghost predicate RevisionsShareParent(r: Book) {
    forall i, j :: 0 <= i < |r.execs| && 0 <= j < |r.execs| && GroupOf(r.execs[i]) == GroupOf(r.execs[j]) ==> r.execs[i].tradeId == r.execs[j].tradeId
  }

  lemma {:induction false} OvertakerIsStored(book: Book, fills: seq<Fill>, source: Source, skip: bool, e: Exec)
    requires Valid(book) && AllFlagsRight(book.execs) && Overtaken(book, fills, e)
    ensures var r := Ingest(book, fills, source, skip);
      exists j :: |book.execs| <= j < |r.execs| && GroupOf(r.execs[j]) == GroupOf(e)
  {
    var r, added := Ingest(book, fills, source, skip), Added(book, fills);
    IngestExtends(book, fills, source, skip);
    var s :| s in added && s.account == e.account && s.base == e.base && StampBefore(s, StampOf(e));
    var j :| 0 <= j < |added| && added[j] == s;
    assert StampOf(r.execs[|book.execs| + j]) == s;
  }

  /** A batch that moves no stored fill to another parent and splits no base between parents loses no row of an untouched trade. */
  lemma {:induction false} StableParentsLoseNothing(book: Book, fills: seq<Fill>, source: Source, skip: bool)
    requires Valid(book) && AllFlagsRight(book.execs)
    requires var r := Ingest(book, fills, source, skip); KeepsParents(book, r) && RevisionsShareParent(r)
    ensures LosesNothing(book, fills, source)
  {
    var r := Ingest(book, fills, source, skip);
    FinishProperty(book, fills, source, skip);
    WrittenRewrites(book, fills, source);
    forall i | 0 <= i < |book.execs| && !Kept(book, fills, book.execs[i]) ensures book.execs[i].tradeId in Touched(book, fills, source) {
      StableRowIsTouched(book, fills, source, skip, i);
    }
  }

  lemma {:induction false} StableRowIsTouched(book: Book, fills: seq<Fill>, source: Source, skip: bool, i: nat)
    requires Valid(book) && AllFlagsRight(book.execs) && i < |book.execs| && !Kept(book, fills, book.execs[i])
    requires var r := Ingest(book, fills, source, skip); KeepsParents(book, r) && RevisionsShareParent(r)
    ensures book.execs[i].tradeId in Touched(book, fills, source)
  {
    var st, r, e := Written(book, fills, source), Ingest(book, fills, source, skip), book.execs[i];
    FinishProperty(book, fills, source, skip);
    WrittenRewrites(book, fills, source);
    if e.execId in WrittenIds(fills) {
      assert st.book.execs[i].tradeId in st.touched && r.execs[i].tradeId == st.book.execs[i].tradeId;
    } else {
      OvertakerIsStored(book, fills, source, skip, e);
      var j :| |book.execs| <= j < |r.execs| && GroupOf(r.execs[j]) == GroupOf(e);
      assert st.book.execs[j].tradeId in st.touched && r.execs[j].tradeId == st.book.execs[j].tradeId;
      assert GroupOf(r.execs[i]) == GroupOf(e);
    }
  }

  ghost predicate StableStep(book: Book, r: Book) {
    KeepsParents(book, r) && RevisionsShareParent(r)
  }

  /** No ingest of the run moves a fill to another parent or splits the revisions of a base between parents. */
  ghost predicate StableParents(book: Book, batches: seq<Batch>) {
    forall n :: 0 <= n < |batches| ==> StableStep(Run(book, batches[..n]), Run(book, batches[..n + 1]))
  }

  lemma {:induction false} RunStep(book: Book, batches: seq<Batch>, n: nat)
    requires n < |batches|
    ensures var b := batches[n]; Run(book, batches[..n + 1]) == Ingest(Run(book, batches[..n]), b.fills, b.source, b.skipAggregates)
  {
    assert batches[..n + 1][..n] == batches[..n];
  }

  lemma {:induction false} StableRunsLoseNothing(book: Book, batches: seq<Batch>)
    requires Valid(book) && AllFlagsRight(book.execs) && StableParents(book, batches)
    ensures NeverLoses(book, batches)
  {
    forall n | 0 <= n < |batches| ensures LosesNothing(Run(book, batches[..n]), batches[n].fills, batches[n].source) {
      RunIsValid(book, batches[..n]);
      RunStep(book, batches, n);
      assert StableStep(Run(book, batches[..n]), Run(book, batches[..n + 1]));
      StableParentsLoseNothing(Run(book, batches[..n]), batches[n].fills, batches[n].source, batches[n].skipAggregates);
    }
  }

  // ---------------------------------------------------------------------
  // A fill that moves leaves its old trade stale
  // ---------------------------------------------------------------------

  function SampleInfo(permId: int): TradeInfo {
    TradeInfo(1, Some(permId), None, None, Some("CL"), Some("FUT"), Some("BUY"), Some("NYMEX"), Some("USD"), "tws")
  }

  function SampleFill(permId: int): Fill {
    Fill(1, "A.1", 0, 1.0, 70.0, Some("BUY"), Some("CL"), Some("FUT"), Some("NYMEX"), Some("USD"), None, Filled, Some(permId), None, None,
         None, None, false)
  }

  /** Two orders of one account; the fill is stored under the first. */
  function SampleBook(): Book {
    var execs := [NewExec(0, SampleFill(1), TWS)];
    Book([Trade(SampleInfo(1), TotalsOf(execs, 0)), Trade(SampleInfo(2), TotalsOf(execs, 1))], execs)
  }

  lemma OneRowFlags(e: Exec)
    requires e.canonical
    ensures AllFlagsRight([e])
  {
    forall g ensures FlagsRight([e], g) {
      assert [e][..0] == [];
      assert Best([], g) == None;
    }
  }

  lemma FreshTrades(a: TradeInfo, b: TradeInfo, execs: seq<Exec>)
    ensures AllUpToDate(Book([Trade(a, TotalsOf(execs, 0)), Trade(b, TotalsOf(execs, 1))], execs))
  {}

  lemma OneRowIsValid(trades: seq<Trade>, e: Exec)
    requires e.tradeId < |trades| && IdParsed(e)
    ensures Valid(Book(trades, [e]))
  {}

  lemma {:induction false} SampleBookIsSound()
    ensures Valid(SampleBook()) && AllFlagsRight(SampleBook().execs) && AllUpToDate(SampleBook())
  {
    var e := NewExec(0, SampleFill(1), TWS);
    OneRowFlags(e);
    FreshTrades(SampleInfo(1), SampleInfo(2), [e]);
    OneRowIsValid([Trade(SampleInfo(1), TotalsOf([e], 0)), Trade(SampleInfo(2), TotalsOf([e], 1))], e);
  }

  /** A batch of one stored fill that resolves to trade `k` moves its row there and touches no other trade. */
  lemma OneFillMoves(book: Book, f: Fill, k: nat, i: nat)
    requires f.comboKey.None? && MatchParent(book.trades, f, TWS) == Some(k) && RowOf(book.execs, f.execId) == Some(i)
    requires k < |book.trades| && i < |book.execs|
    ensures var st := Written(book, [f], TWS);
      st.touched == {k} && |st.book.execs| == |book.execs| && st.book.execs[i].tradeId == k
  {
    NoComboKeys([f]);
    LastFill(Start(book), [], f, TWS);
    assert [] + [f] == [f];
    assert WriteFills(Start(book), [], TWS) == Start(book);
  }

  lemma SampleMoves()
    ensures var st := Written(SampleBook(), [SampleFill(2)], TWS);
      0 !in st.touched && |st.book.execs| == 1 && st.book.execs[0].tradeId == 1
  {
    var book, f := SampleBook(), SampleFill(2);
    SampleParent(book.trades, f);
    assert book.execs[0].execId == f.execId;
    OneFillMoves(book, f, 1, 0);
  }

  lemma SampleParent(trades: seq<Trade>, f: Fill)
    requires |trades| == 2 && trades[0].info == SampleInfo(1) && trades[1].info == SampleInfo(2) && f == SampleFill(2)
    ensures MatchParent(trades, f, TWS) == Some(1)
  {
    assert !IsParent(trades[0], f, TWS) && IsParent(trades[1], f, TWS);
  }

  ghost predicate LeavesStale(book: Book, fills: seq<Fill>) {
    Valid(book) && AllFlagsRight(book.execs) && AllUpToDate(book) && !AllUpToDate(Ingest(book, fills, TWS, false))
  }

  /** A trade whose one plain row is re-sent to another trade keeps the old totals. */
  lemma {:induction false} MovedRowIsMissed(book: Book, fills: seq<Fill>, t: nat, e: Exec)
    requires Valid(book) && AllFlagsRight(book.execs) && AllUpToDate(book) && t < |book.trades| && t !in Touched(book, fills, TWS)
    requires CanonicalOf(book.execs, t) == [e] && e.role != ComboSummary && e.quantity != 0.0 && e.execId in WrittenIds(fills)
    ensures LeavesStale(book, fills)
  {
    assert UpToDate(book, t);
    PlainTradeIsUpToDateExactly(book, fills, TWS, false, t);
    assert e in CanonicalOf(book.execs, t) && !Kept(book, fills, e);
  }

  /**
    The claim is false for a fill re-sent under another order: it moves to that
    order's trade, and the trade it left keeps its old totals.
   */
  lemma {:induction false} MovedFillLeavesStaleTotals()
    ensures exists book, fills :: LeavesStale(book, fills)
  {
    SampleBookIsSound();
    SampleMoves();
    SampleRow();
    MovedRowIsMissed(SampleBook(), [SampleFill(2)], 0, NewExec(0, SampleFill(1), TWS));
    assert LeavesStale(SampleBook(), [SampleFill(2)]);
  }

  lemma {:induction false} SampleRow()
    ensures var e := NewExec(0, SampleFill(1), TWS);
      && CanonicalOf(SampleBook().execs, 0) == [e] && e.role != ComboSummary && e.quantity != 0.0
      && e.execId in WrittenIds([SampleFill(2)])
  {
    var f, e := SampleFill(2), NewExec(0, SampleFill(1), TWS);
    OneRowOf(e, 0);
    OneWrittenId(f);
  }

  lemma {:induction false} OneRowOf(e: Exec, t: nat)
    requires e.tradeId == t && e.canonical
    ensures CanonicalOf([e], t) == [e]
  {
    FilterAll([e], (x: Exec) => x.tradeId == t && x.canonical);
  }

  lemma {:induction false} OneWrittenId(f: Fill)
    ensures f.execId in WrittenIds([f])
  {
    assert f in [f];
  }
}
