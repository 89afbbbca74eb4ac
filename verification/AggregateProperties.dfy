/** What a trade's aggregates mean, and that deferring their computation changes nothing. */
module AggregateProperties {
  import opened Common
  import opened FillIngest
  import opened IngestPipeline
  import opened IngestProperties
  import opened KeptRows
  import opened StaleTotals

  // ---------------------------------------------------------------------
  // The meaning of the aggregates
  // ---------------------------------------------------------------------

  ghost predicate IsCanonicalOf(execs: seq<Exec>, t: nat, e: Exec) {
    e in execs && e.tradeId == t && e.canonical
  }

  /** Counted: a canonical execution that is a combo summary, or any canonical one when the trade has no summary. */
  ghost predicate IsCounted(execs: seq<Exec>, t: nat, e: Exec) {
    && IsCanonicalOf(execs, t, e)
    && (e.role == ComboSummary || forall s :: IsCanonicalOf(execs, t, s) ==> s.role != ComboSummary)
  }

  lemma CountedProperty(execs: seq<Exec>, t: nat)
    ensures forall e :: e in CountedOf(CanonicalOf(execs, t)) <==> IsCounted(execs, t, e)
  {
    var rows := CanonicalOf(execs, t);
    var summaries := Filter(rows, (e: Exec) => e.role == ComboSummary);
    if summaries != [] { assert summaries[0] in summaries; }
  }

  /** The notional lies between the total size at the lower and at the upper price. */
  ghost predicate Weighed(lo: real, hi: real, size: real, notional: real) {
    size >= 0.0 && lo * size <= notional <= hi * size
  }

  lemma AddWeighted(lo: real, hi: real, s: real, n: real, e: Exec)
    requires Weighed(lo, hi, s, n) && lo <= e.price <= hi
    ensures Weighed(lo, hi, s + Size(e), n + Notional(e))
  {
    assert lo * Size(e) <= e.price * Size(e) <= hi * Size(e);
  }

  lemma {:induction false} WeightedBounds(rows: seq<Exec>, lo: real, hi: real)
    requires forall e :: e in rows ==> lo <= e.price <= hi
    ensures Weighed(lo, hi, Sum(rows, Size), Sum(rows, Notional))
  {
    if rows != [] {
      var front, last := rows[..|rows| - 1], rows[|rows| - 1];
      assert rows == front + [last];
      WeightedBounds(front, lo, hi);
      SumLast(rows, Size);
      SumLast(rows, Notional);
      AddWeighted(lo, hi, Sum(front, Size), Sum(front, Notional), last);
    }
  }

  lemma QuotientBounds(n: real, w: real, lo: real, hi: real)
    requires w > 0.0 && lo * w <= n <= hi * w
    ensures lo <= n / w <= hi && w * (n / w) == n
  {}

  ghost predicate AverageOf(lo: real, hi: real, size: real, notional: real, totals: Totals) {
    totals.avgPrice.Some? ==> lo <= totals.avgPrice.value <= hi && size * totals.avgPrice.value == notional
  }

  lemma AverageWithinBounds(lo: real, hi: real, size: real, notional: real, totals: Totals)
    requires Weighed(lo, hi, size, notional)
    requires totals.avgPrice.Some? ==> size > 0.0 && totals.avgPrice.value == notional / size
    ensures AverageOf(lo, hi, size, notional, totals)
  {
    if totals.avgPrice.Some? { QuotientBounds(notional, size, lo, hi); }
  }

  /**
    Quantity times average price is the counted notional, and the average lies
    between any two prices that bound the counted prices.
   */
  lemma AverageIsBetweenCountedPrices(execs: seq<Exec>, t: nat, lo: real, hi: real)
    requires forall e :: IsCounted(execs, t, e) ==> lo <= e.price <= hi
    ensures var totals := TotalsOf(execs, t);
      AverageOf(lo, hi, totals.quantity, Sum(CountedOf(CanonicalOf(execs, t)), Notional), totals)
  {
    CountedProperty(execs, t);
    var counted := CountedOf(CanonicalOf(execs, t));
    WeightedBounds(counted, lo, hi);
    AverageWhenCounted(execs, t);
    AverageWithinBounds(lo, hi, Sum(counted, Size), Sum(counted, Notional), TotalsOf(execs, t));
  }

  /** The quantity is the counted size, and there is an average exactly when some counted execution has a size. */
  lemma AverageWhenCounted(execs: seq<Exec>, t: nat)
    ensures var totals, counted := TotalsOf(execs, t), CountedOf(CanonicalOf(execs, t));
      && totals.quantity == Sum(counted, Size)
      && (totals.avgPrice.Some? <==> Sum(counted, Size) > 0.0)
      && (totals.avgPrice.Some? ==> totals.avgPrice.value == Sum(counted, Notional) / Sum(counted, Size))
      && (totals.avgPrice.Some? <==> exists e :: IsCounted(execs, t, e) && e.quantity != 0.0)
  {
    var counted := CountedOf(CanonicalOf(execs, t));
    CountedProperty(execs, t);
    PositiveSize(counted);
    if Sum(counted, Size) > 0.0 {
      var e :| e in counted && e.quantity != 0.0;
      assert IsCounted(execs, t, e);
    }
  }

  lemma {:induction false} PositiveSize(rows: seq<Exec>)
    ensures Sum(rows, Size) >= 0.0
    ensures Sum(rows, Size) > 0.0 <==> exists e :: e in rows && e.quantity != 0.0
  {
    if rows != [] {
      var front, last := rows[..|rows| - 1], rows[|rows| - 1];
      assert rows == front + [last];
      PositiveSize(front);
      if Sum(front, Size) > 0.0 {
        var e :| e in front && e.quantity != 0.0;
        assert e in rows;
      }
      if last.quantity != 0.0 { assert last in rows; }
    }
  }

  lemma {:induction false} TimesProperty(rows: seq<Exec>)
    requires rows != []
    ensures forall e :: e in rows ==> Earliest(rows) <= e.executedAt <= Latest(rows)
    ensures exists e :: e in rows && e.executedAt == Earliest(rows)
    ensures exists e :: e in rows && e.executedAt == Latest(rows)
  {
    var last := rows[|rows| - 1];
    if |rows| > 1 {
      var front := rows[..|rows| - 1];
      assert rows == front + [last];
      TimesProperty(front);
      var a :| a in front && a.executedAt == Earliest(front);
      var b :| b in front && b.executedAt == Latest(front);
      assert a in rows && b in rows && last in rows;
    } else {
      assert rows == [last];
    }
  }

  /** First and last time are the extremes over all canonical executions, legs included. */
  lemma FirstAndLastAreExtremes(execs: seq<Exec>, t: nat)
    ensures var totals := TotalsOf(execs, t);
      && (totals.firstAt.None? <==> forall e :: !IsCanonicalOf(execs, t, e))
      && (totals.firstAt.Some? <==> totals.lastAt.Some?)
      && (totals.firstAt.Some? ==>
            && (forall e :: IsCanonicalOf(execs, t, e) ==> totals.firstAt.value <= e.executedAt <= totals.lastAt.value)
            && (exists e :: IsCanonicalOf(execs, t, e) && e.executedAt == totals.firstAt.value)
            && (exists e :: IsCanonicalOf(execs, t, e) && e.executedAt == totals.lastAt.value))
  {
    var rows := CanonicalOf(execs, t);
    assert forall e :: e in rows <==> IsCanonicalOf(execs, t, e);
    if rows != [] {
      TimesProperty(rows);
      assert rows[0] in rows;
    }
  }

  /** A book-event status is reported exactly when every canonical execution has that outcome. */
  lemma StatusIsTheSharedOutcome(execs: seq<Exec>, t: nat, o: Outcome)
    requires o != Filled
    ensures TotalsOf(execs, t).status == Settled(o) <==>
      (exists e :: IsCanonicalOf(execs, t, e)) && forall e :: IsCanonicalOf(execs, t, e) ==> e.outcome == o
  {
    var rows := CanonicalOf(execs, t);
    assert forall e :: e in rows <==> IsCanonicalOf(execs, t, e);
    if rows != [] { assert rows[0] in rows; }
  }

  // ---------------------------------------------------------------------
  // Deferring the aggregate pass
  // ---------------------------------------------------------------------

  /** The same store up to aggregates. */
  ghost predicate SameCore(a: Book, b: Book) {
    a.execs == b.execs && |a.trades| == |b.trades| && forall t :: 0 <= t < |a.trades| ==> a.trades[t].info == b.trades[t].info
  }

  ghost predicate SameProgress(a: State, b: State) {
    SameCore(a.book, b.book) && a.parents == b.parents && a.groups == b.groups && a.touched == b.touched
  }

  /** A feed that does not match on the trade date finds the same parent whatever the aggregates say. */
  lemma {:induction false} ParentIgnoresTotals(a: seq<Trade>, b: seq<Trade>, fill: Fill, source: Source)
    requires !source.matchesTradeDate
    requires |a| == |b| && forall t :: 0 <= t < |a| ==> a[t].info == b[t].info
    ensures MatchParent(a, fill, source) == MatchParent(b, fill, source)
  {
    if a != [] {
      ParentIgnoresTotals(a[..|a| - 1], b[..|b| - 1], fill, source);
    }
  }

  lemma {:induction false} WriteFillIgnoresTotals(a: State, b: State, fill: Fill, source: Source)
    requires !source.matchesTradeDate && SameProgress(a, b)
    ensures SameProgress(WriteFill(a, fill, source), WriteFill(b, fill, source))
  {
    ParentIgnoresTotals(a.book.trades, b.book.trades, fill, source);
  }

  lemma {:induction false} WriteFillsIgnoresTotals(a: State, b: State, fills: seq<Fill>, source: Source)
    requires !source.matchesTradeDate && SameProgress(a, b)
    ensures SameProgress(WriteFills(a, fills, source), WriteFills(b, fills, source))
  {
    if fills != [] {
      var front := fills[..|fills| - 1];
      WriteFillsIgnoresTotals(a, b, front, source);
      WriteFillIgnoresTotals(WriteFills(a, front, source), WriteFills(b, front, source), fills[|fills| - 1], source);
    }
  }

  lemma {:induction false} WriteSummariesIgnoresTotals(a: State, b: State, keys: seq<string>, fills: seq<Fill>, source: Source)
    requires SameProgress(a, b)
    ensures SameProgress(WriteSummaries(a, keys, fills, source), WriteSummaries(b, keys, fills, source))
  {
    if keys != [] {
      WriteSummariesIgnoresTotals(a, b, keys[..|keys| - 1], fills, source);
    }
  }

  lemma FinishIgnoresTotals(a: State, b: State, source: Source, skipA: bool, skipB: bool)
    requires SameProgress(a, b)
    ensures SameCore(Finish(a, source, skipA), Finish(b, source, skipB))
  {}

  lemma WrittenIgnoresTotals(a: Book, b: Book, fills: seq<Fill>, source: Source)
    requires !source.matchesTradeDate && SameCore(a, b)
    ensures SameProgress(Written(a, fills, source), Written(b, fills, source))
  {
    WriteFillsIgnoresTotals(Start(a), Start(b), fills, source);
    WriteSummariesIgnoresTotals(WriteFills(Start(a), fills, source), WriteFills(Start(b), fills, source), ComboKeys(fills), fills, source);
  }

  lemma IngestIgnoresTotals(a: Book, b: Book, fills: seq<Fill>, source: Source, skipA: bool, skipB: bool)
    requires !source.matchesTradeDate && SameCore(a, b)
    ensures SameCore(Ingest(a, fills, source, skipA), Ingest(b, fills, source, skipB))
    ensures Touched(a, fills, source) == Touched(b, fills, source)
  {
    WrittenIgnoresTotals(a, b, fills, source);
    FinishIgnoresTotals(Written(a, fills, source), Written(b, fills, source), source, skipA, skipB);
  }

  /** A run over chunks of one feed, with the aggregate pass in each chunk or in none. */
  function Chunks(chunks: seq<seq<Fill>>, source: Source, skip: bool): seq<Batch> {
    seq(|chunks|, i requires 0 <= i < |chunks| => Batch(chunks[i], source, skip))
  }

  /** Every trade touched by some chunk. */
  function TouchedBy(book: Book, batches: seq<Batch>): set<nat> {
    if batches == [] then {}
    else
      var front, b := batches[..|batches| - 1], batches[|batches| - 1];
      TouchedBy(book, front) + Touched(Run(book, front), b.fills, b.source)
  }

  lemma LastChunk(book: Book, chunks: seq<seq<Fill>>, source: Source, skip: bool)
    requires chunks != []
    ensures var front, chunk, batches := chunks[..|chunks| - 1], chunks[|chunks| - 1], Chunks(chunks, source, skip);
      var mid := Run(book, Chunks(front, source, skip));
      && batches[..|batches| - 1] == Chunks(front, source, skip)
      && Run(book, batches) == Ingest(mid, chunk, source, skip)
      && TouchedBy(book, batches) == TouchedBy(book, Chunks(front, source, skip)) + Touched(mid, chunk, source)
  {
    var batches := Chunks(chunks, source, skip);
    assert batches[..|batches| - 1] == Chunks(chunks[..|chunks| - 1], source, skip);
  }

  /** The state of both runs after the same chunks: equal but for aggregates, which one recompute brings level. */
  lemma {:induction false} DeferredStaysInStep(book: Book, chunks: seq<seq<Fill>>, source: Source)
    requires !source.matchesTradeDate && Valid(book) && AllFlagsRight(book.execs)
    requires NeverLoses(book, Chunks(chunks, source, false))
    ensures var eager, deferred := Run(book, Chunks(chunks, source, false)), Run(book, Chunks(chunks, source, true));
      && SameCore(eager, deferred)
      && TouchedBy(book, Chunks(chunks, source, false)) == TouchedBy(book, Chunks(chunks, source, true))
      && Recompute(deferred, TouchedBy(book, Chunks(chunks, source, true))) == eager
  {
    if chunks == [] {
      assert Chunks(chunks, source, false) == [] && Chunks(chunks, source, true) == [];
      assert Recompute(book, {}).trades == book.trades;
    } else {
      var front, chunk := chunks[..|chunks| - 1], chunks[|chunks| - 1];
      var e, d := Chunks(front, source, false), Chunks(front, source, true);
      LastChunk(book, chunks, source, false);
      LastChunk(book, chunks, source, true);
      LastBatch(book, Chunks(chunks, source, false));
      DeferredStaysInStep(book, front, source);
      RunIsValid(book, e);
      RunIsValid(book, d);
      ChunkStaysInStep(Run(book, e), Run(book, d), TouchedBy(book, d), chunk, source);
    }
  }

  lemma ChunkStaysInStep(eager: Book, deferred: Book, touched: set<nat>, chunk: seq<Fill>, source: Source)
    requires !source.matchesTradeDate && SameCore(eager, deferred) && Recompute(deferred, touched) == eager
    requires Valid(eager) && AllFlagsRight(eager.execs) && Valid(deferred)
    requires LosesNothing(eager, chunk, source)
    ensures var e, d := Ingest(eager, chunk, source, false), Ingest(deferred, chunk, source, true);
      && SameCore(e, d)
      && Touched(eager, chunk, source) == Touched(deferred, chunk, source)
      && Recompute(d, touched + Touched(deferred, chunk, source)) == e
  {
    var e, d := Ingest(eager, chunk, source, false), Ingest(deferred, chunk, source, true);
    IngestIgnoresTotals(eager, deferred, chunk, source, false, true);
    var now := Touched(eager, chunk, source);
    var late := Recompute(d, touched + now);
    forall t | 0 <= t < |e.trades| ensures late.trades[t] == e.trades[t] {
      TradeStaysInStep(eager, deferred, touched, chunk, source, t);
    }
    assert late.trades == e.trades;
  }

  lemma {:induction false} TradeStaysInStep(eager: Book, deferred: Book, touched: set<nat>, chunk: seq<Fill>, source: Source, t: nat)
    requires !source.matchesTradeDate && SameCore(eager, deferred) && Recompute(deferred, touched) == eager
    requires Valid(eager) && AllFlagsRight(eager.execs) && Valid(deferred)
    requires LosesNothing(eager, chunk, source) && t < |Ingest(eager, chunk, source, false).trades|
    ensures var e, d := Ingest(eager, chunk, source, false), Ingest(deferred, chunk, source, true);
      t < |d.trades| && e.trades[t].totals ==
        if t in touched + Touched(eager, chunk, source) then TotalsOf(e.execs, t) else d.trades[t].totals
  {
    IngestIgnoresTotals(eager, deferred, chunk, source, false, true);
    if t in Touched(eager, chunk, source) {
      TouchedTradesAreUpToDate(eager, chunk, source);
    } else {
      UntouchedTradeIsUnchanged(eager, chunk, source, false, t);
      UntouchedTotals(deferred, chunk, source, true, t);
      LevelBefore(eager, deferred, touched, t);
    }
  }

  lemma LevelBefore(eager: Book, deferred: Book, touched: set<nat>, t: nat)
    requires Recompute(deferred, touched) == eager && SameCore(eager, deferred) && t < |eager.trades|
    ensures eager.trades[t].totals == if t in touched then TotalsOf(eager.execs, t) else deferred.trades[t].totals
  {}

  /**
    Ingesting FlexQuery chunks without the aggregate pass and recomputing once
    over every touched trade gives the same store as recomputing after each
    chunk, while no batch loses a row of a trade it does not touch.
   */
  lemma DeferredEqualsEager(book: Book, chunks: seq<seq<Fill>>)
    requires Valid(book) && AllFlagsRight(book.execs) && NeverLoses(book, Chunks(chunks, FLEX, false))
    ensures Recompute(Run(book, Chunks(chunks, FLEX, true)), TouchedBy(book, Chunks(chunks, FLEX, true)))
         == Run(book, Chunks(chunks, FLEX, false))
  {
    DeferredStaysInStep(book, chunks, FLEX);
  }
}
