/**
  Trades and aggregates in columns: the parent each fill is put under, which
  identity columns an ingest leaves alone, and what the totals add up.
 */
module IngestColumns {
  import opened Common
  import opened FillIngest
  import opened ComboSynthesis
  import opened IngestPipeline
  import opened IngestProperties
  import opened KeptRows
  import opened WrittenRows

  // ---------------------------------------------------------------------
  // Execution ids
  // ---------------------------------------------------------------------

  function DigitsOf(n: nat): string {
    if n < 10 then [('0' as int + n) as char] else DigitsOf(n / 10) + [('0' as int + n % 10) as char]
  }

  lemma {:induction false} DigitsAreDigits(n: nat)
    ensures IsNumber(DigitsOf(n))
  {
    if n >= 10 { DigitsAreDigits(n / 10); }
  }

  /** A decimal number reads back. */
  lemma {:induction false} NumberReadsBack(n: nat)
    ensures IsNumber(DigitsOf(n)) && NumberOf(DigitsOf(n)) == n
  {
    DigitsAreDigits(n);
    var s := DigitsOf(n);
    if n < 10 {
      assert s[..0] == "";
    } else {
      NumberReadsBack(n / 10);
      assert s[..|s| - 1] == DigitsOf(n / 10);
    }
  }

  lemma {:induction false} DotIsLast(base: string, suffix: string)
    requires '.' !in suffix
    ensures LastDot(base + "." + suffix) == |base|
  {
    var id := base + "." + suffix;
    assert id[|base|] == '.';
    assert forall j :: |base| < j < |id| ==> id[j] == suffix[j - |base| - 1];
  }

  lemma {:induction false} DigitsHaveNoDot(n: nat)
    ensures '.' !in DigitsOf(n)
  {
    if n >= 10 { DigitsHaveNoDot(n / 10); }
  }

  /** An id made of a base and a number after its last dot has that base and revision; any other suffix, and none, read as revision 1. */
  lemma {:induction false} ExecIdReadsBack(base: string, n: nat, suffix: string)
    ensures ParseExecId(base + "." + DigitsOf(n)) == (base + ".", n)
    ensures '.' !in suffix && !IsNumber(suffix) ==> ParseExecId(base + "." + suffix) == (base + ".", 1)
    ensures '.' !in base ==> ParseExecId(base) == (base + ".", 1)
  {
    DigitsHaveNoDot(n);
    NumberReadsBack(n);
    DotIsLast(base, DigitsOf(n));
    var id := base + "." + DigitsOf(n);
    assert id[..|base| + 1] == base + "." && id[|base| + 1..] == DigitsOf(n);
    if '.' !in suffix && !IsNumber(suffix) {
      DotIsLast(base, suffix);
      var other := base + "." + suffix;
      assert other[..|base| + 1] == base + "." && other[|base| + 1..] == suffix;
    }
  }

  // ---------------------------------------------------------------------
  // The parent of a fill
  // ---------------------------------------------------------------------

  ghost predicate HasPerm(f: Fill) {
    f.permId.Some? && f.permId.value >= 1
  }

  ghost predicate IsOwn(f: Fill) {
    f.orderRef.Some? && |f.orderRef.value| >= 9 && f.orderRef.value[..9] == "ngtrader-"
  }

  /** A trade carries the identity the fill's tier asks for: its perm id, else its own reference, else order, symbol and side. */
  ghost predicate Carries(info: TradeInfo, f: Fill) {
    && info.account == f.account
    && (HasPerm(f) ==> info.permId == f.permId)
    && (!HasPerm(f) && IsOwn(f) ==> info.orderRef == f.orderRef)
    && (!HasPerm(f) && !IsOwn(f) ==> info.orderId == f.orderId && info.symbol == f.symbol && info.side == f.side)
  }

  /** On the third tier TWS also asks for the trade's first day. */
  ghost predicate IsOfDay(t: Trade, f: Fill, source: Source) {
    HasPerm(f) || IsOwn(f) || !source.matchesTradeDate || (t.totals.firstAt.Some? && Day(t.totals.firstAt.value) == Day(f.executedAt))
  }

  lemma {:induction false} OwnInColumns(f: Fill)
    ensures HasOwnRef(f) <==> IsOwn(f)
  {
    assert |"ngtrader-"| == 9;
    if f.orderRef.Some? && |f.orderRef.value| >= 9 {
      assert "ngtrader-" <= f.orderRef.value <==> f.orderRef.value[..9] == "ngtrader-";
    }
  }

  lemma {:induction false} ParentRuleInColumns(t: Trade, f: Fill, source: Source)
    ensures IsParent(t, f, source) <==> Carries(t.info, f) && IsOfDay(t, f, source)
  {
    OwnInColumns(f);
  }

  /** Where the feeds differ: only TWS asks for the day on the third tier, and only it makes standalone fills legs beside a summary. */
  lemma {:induction false} FeedsDiffer(t: Trade, f: Fill, r: Book, e: Exec)
    ensures IsParent(t, f, FLEX) <==> Carries(t.info, f)
    ensures IsParent(t, f, TWS) <==>
      Carries(t.info, f) && (HasPerm(f) || IsOwn(f) || (t.totals.firstAt.Some? && Day(t.totals.firstAt.value) == Day(f.executedAt)))
    ensures HasFinalRole(r, e, f, FLEX) <==> HasRoleOf(e, f)
    ensures HasFinalRole(r, e, f, TWS) <==>
      (e.role == ComboSummary <==> f.isComboSummary)
      && (e.role == Leg <==> !f.isComboSummary && (f.comboKey.Some? || HoldsSummary(r.execs, e.tradeId)))
  {
    ParentRuleInColumns(t, f, FLEX);
    ParentRuleInColumns(t, f, TWS);
  }

  /** A blank column is filled in from the fill; one that has a value keeps it. */
  ghost predicate IsFilledIn(stored: Option<string>, incoming: Option<string>, after: Option<string>) {
    after == if stored.None? && incoming.Some? && |incoming.value| > 0 then incoming else stored
  }

  ghost predicate IsBackfilled(info: TradeInfo, f: Fill, after: TradeInfo) {
    && (after.account, after.permId, after.orderRef, after.orderId, after.side, after.source)
       == (info.account, info.permId, info.orderRef, info.orderId, info.side, info.source)
    && IsFilledIn(info.symbol, f.symbol, after.symbol) && IsFilledIn(info.secType, f.secType, after.secType)
    && IsFilledIn(info.exchange, f.exchange, after.exchange) && IsFilledIn(info.currency, f.currency, after.currency)
  }

  /** A new trade is named by the fill, has no totals, and its contract columns are the fill's. */
  ghost predicate IsNewFor(t: Trade, f: Fill, source: Source) {
    && (t.info.account, t.info.permId, t.info.orderRef, t.info.orderId, t.info.side, t.info.source)
       == (f.account, f.permId, f.orderRef, f.orderId, f.side, source.name)
    && t.info.symbol == f.symbol && IsFilledIn(None, f.secType, t.info.secType)
    && IsFilledIn(None, f.exchange, t.info.exchange) && IsFilledIn(None, f.currency, t.info.currency)
    && t.totals == Totals(Partial, 0.0, None, None, None)
  }

  ghost predicate IsFirstParent(trades: seq<Trade>, f: Fill, source: Source, k: nat) {
    && k < |trades| && Carries(trades[k].info, f) && IsOfDay(trades[k], f, source)
    && forall j :: 0 <= j < k ==> !(Carries(trades[j].info, f) && IsOfDay(trades[j], f, source))
  }

  /**
    A plain fill goes under the first trade its tier finds, whose blank columns
    it fills in, and under a new trade of its own exactly when there is none.
   */
  lemma {:induction false} PlainParentInColumns(trades: seq<Trade>, f: Fill, source: Source)
    ensures var (after, k) := PlainParent(trades, f, source);
      && k < |after| && (k < |trades| <==> exists j :: IsFirstParent(trades, f, source, j))
      && (k < |trades| ==>
            && IsFirstParent(trades, f, source, k) && |after| == |trades|
            && after[k].totals == trades[k].totals && IsBackfilled(trades[k].info, f, after[k].info))
      && (k >= |trades| ==> k == |trades| && |after| == |trades| + 1 && IsNewFor(after[k], f, source))
      && (forall j :: 0 <= j < |trades| && j != k ==> after[j] == trades[j])
  {
    forall t: Trade ensures IsParent(t, f, source) <==> Carries(t.info, f) && IsOfDay(t, f, source) {
      ParentRuleInColumns(t, f, source);
    }
    var k := MatchParent(trades, f, source);
    if k.Some? { assert IsFirstParent(trades, f, source, k.value); }
  }

  /** Sent again, a fill finds the trade it went under, unless that trade is new and its feed also asks for the day it does not have yet. */
  lemma {:induction false} ParentIsFoundAgain(trades: seq<Trade>, f: Fill, source: Source)
    ensures var (after, k) := PlainParent(trades, f, source);
      MatchParent(after, f, source) == Some(k) <==> k < |trades| || HasPerm(f) || IsOwn(f) || !source.matchesTradeDate
  {
    var (after, k) := PlainParent(trades, f, source);
    PlainParentInColumns(trades, f, source);
    forall t: Trade ensures IsParent(t, f, source) <==> Carries(t.info, f) && IsOfDay(t, f, source) {
      ParentRuleInColumns(t, f, source);
    }
    var again := MatchParent(after, f, source);
    assert forall j :: 0 <= j < k ==> after[j] == trades[j];
    if k == |trades| {
      assert !(exists j :: IsFirstParent(trades, f, source, j));
      NoParentBefore(trades, f, source);
    }
  }

  lemma {:induction false} NoParentBefore(trades: seq<Trade>, f: Fill, source: Source)
    requires !(exists j :: IsFirstParent(trades, f, source, j))
    ensures forall j :: 0 <= j < |trades| ==> !(Carries(trades[j].info, f) && IsOfDay(trades[j], f, source))
  {
    var k := First(trades, (t: Trade) => Carries(t.info, f) && IsOfDay(t, f, source));
    if k.Some? { assert IsFirstParent(trades, f, source, k.value); }
  }

  /** A stored summary of the fill's combo. */
  ghost predicate IsStoredSummary(e: Exec, f: Fill) {
    e.account == f.account && e.role == ComboSummary && e.comboKey == f.comboKey
  }

  /** The new trade of a combo: BAG, named by the underlying, without order ids or side. */
  ghost predicate IsNewCombo(t: Trade, f: Fill, source: Source) {
    && t.info == TradeInfo(f.account, None, f.orderRef, None, f.comboUnderlying, Some("BAG"), None, None, None, source.name)
    && t.totals == Totals(Partial, 0.0, None, None, None)
  }

  /** A combo's fill goes under the trade the call already uses for the combo, else that of the first stored summary of it, else a new BAG trade. */
  lemma {:induction false} ComboParentInColumns(st: State, f: Fill, source: Source)
    requires f.comboKey.Some?
    ensures var (after, k) := ComboParent(st, f, source); var trades, execs := st.book.trades, st.book.execs;
      && (f.comboKey.value in st.parents ==> k == st.parents[f.comboKey.value] && after == trades)
      && (f.comboKey.value !in st.parents ==>
            && (forall i :: 0 <= i < |execs| && IsStoredSummary(execs[i], f) && (forall j :: 0 <= j < i ==> !IsStoredSummary(execs[j], f)) ==>
                  k == execs[i].tradeId && after == trades)
            && ((forall i :: 0 <= i < |execs| ==> !IsStoredSummary(execs[i], f)) ==>
                  k == |trades| && |after| == |trades| + 1 && after[..k] == trades && IsNewCombo(after[k], f, source)))
  {}

  // ---------------------------------------------------------------------
  // Trades over a whole call
  // ---------------------------------------------------------------------

  /** The columns that identify a trade, and a name once it has one. */
  ghost predicate SameIdentity(a: TradeInfo, b: TradeInfo) {
    && (b.account, b.permId, b.orderRef, b.orderId, b.side, b.source) == (a.account, a.permId, a.orderRef, a.orderId, a.side, a.source)
    && (a.symbol.Some? ==> b.symbol == a.symbol) && (a.exchange.Some? ==> b.exchange == a.exchange) && (a.currency.Some? ==> b.currency == a.currency)
  }

  ghost predicate KeepsTrades(before: seq<Trade>, after: seq<Trade>) {
    |before| <= |after| && forall t :: 0 <= t < |before| ==> SameIdentity(before[t].info, after[t].info)
  }

  lemma {:induction false} IdentityChains(a: seq<Trade>, b: seq<Trade>, c: seq<Trade>)
    requires KeepsTrades(a, b) && KeepsTrades(b, c)
    ensures KeepsTrades(a, c)
  {}

  lemma {:induction false} ParentKeepsTrades(st: State, f: Fill, source: Source)
    ensures KeepsTrades(st.book.trades, ParentFor(st, f, source).0)
  {
    if f.comboKey.None? { PlainParentInColumns(st.book.trades, f, source); }
  }

  /** Under its parent, as far as the fill says which trade that is. */
  ghost predicate BelongsTo(info: TradeInfo, f: Fill) {
    && info.account == f.account
    && (HasPerm(f) ==> info.permId == f.permId)
    && (!HasPerm(f) && IsOwn(f) ==> info.orderRef == f.orderRef)
    && (!HasPerm(f) && !IsOwn(f) ==> info.orderId == f.orderId && info.side == f.side && (f.symbol.Some? ==> info.symbol == f.symbol))
  }

  /** Where the row of a fill hangs: under the trade of its combo, else under one with its identity. */
  ghost predicate IsPlaced(st: State, f: Fill, e: Exec) {
    if f.comboKey.Some? then f.comboKey.value in st.parents && e.tradeId == st.parents[f.comboKey.value]
    else e.tradeId < |st.book.trades| && BelongsTo(st.book.trades[e.tradeId].info, f)
  }

  ghost predicate RowPlaced(fills: seq<Fill>, st: State, e: Exec) {
    LastOf(fills, e.execId).Some? ==> IsPlaced(st, LastOf(fills, e.execId).value, e)
  }

  ghost predicate AllPlaced(fills: seq<Fill>, st: State) {
    forall i :: 0 <= i < |st.book.execs| ==> RowPlaced(fills, st, st.book.execs[i])
  }

  lemma {:induction false} StaysPlaced(st: State, st': State, f: Fill, e: Exec)
    requires IsPlaced(st, f, e) && KeepsTrades(st.book.trades, st'.book.trades)
    requires forall key :: key in st.parents ==> key in st'.parents && st'.parents[key] == st.parents[key]
    ensures IsPlaced(st', f, e)
  {}

  lemma {:induction false} NewRowIsPlaced(st: State, f: Fill, source: Source, e: Exec)
    requires e.tradeId == ParentFor(st, f, source).1
    ensures IsPlaced(WriteFill(st, f, source), f, e)
  {
    if f.comboKey.None? { PlainParentInColumns(st.book.trades, f, source); }
  }

  lemma {:induction false} ParentsStay(st: State, f: Fill, source: Source)
    ensures var st' := WriteFill(st, f, source);
      && st'.book.trades == ParentFor(st, f, source).0
      && st'.book.execs == UpsertFill(st.book.execs, ParentFor(st, f, source).1, f, source)
      && forall key :: key in st.parents ==> key in st'.parents && st'.parents[key] == st.parents[key]
  {}

  lemma {:induction false} NextRowIsPlaced(front: seq<Fill>, st: State, f: Fill, source: Source, i: nat)
    requires DistinctIds(st.book.execs) && AllPlaced(front, st) && i < |WriteFill(st, f, source).book.execs|
    ensures RowPlaced(front + [f], WriteFill(st, f, source), WriteFill(st, f, source).book.execs[i])
  {
    var st', k, execs := WriteFill(st, f, source), ParentFor(st, f, source).1, st.book.execs;
    var e := st'.book.execs[i];
    ParentsStay(st, f, source);
    OneMoreFill(front, f, e.execId);
    RowOfProperty(execs, f.execId);
    if e.execId == f.execId {
      assert e.tradeId == k;
      NewRowIsPlaced(st, f, source, e);
    } else {
      assert e == execs[i];
      ParentKeepsTrades(st, f, source);
      if LastOf(front, e.execId).Some? {
        assert RowPlaced(front, st, execs[i]);
        StaysPlaced(st, st', LastOf(front, e.execId).value, e);
      }
    }
  }

  lemma {:induction false} FillsArePlaced(book: Book, fills: seq<Fill>, source: Source)
    requires Valid(book)
    ensures var st := WriteFills(Start(book), fills, source); AllPlaced(fills, st) && KeepsTrades(book.trades, st.book.trades)
  {
    if fills != [] {
      var front, last := fills[..|fills| - 1], fills[|fills| - 1];
      assert fills == front + [last];
      FillsArePlaced(book, front, source);
      WriteFillsKeeps(book, Start(book), front, source);
      LastFill(Start(book), front, last, source);
      var mid := WriteFills(Start(book), front, source);
      ParentKeepsTrades(mid, last, source);
      IdentityChains(book.trades, mid.book.trades, WriteFill(mid, last, source).book.trades);
      forall i | 0 <= i < |WriteFill(mid, last, source).book.execs|
        ensures RowPlaced(fills, WriteFill(mid, last, source), WriteFill(mid, last, source).book.execs[i])
      {
        NextRowIsPlaced(front, mid, last, source, i);
      }
    }
  }

  lemma {:induction false} SummariesKeepTrades(st: State, keys: seq<string>, fills: seq<Fill>, source: Source)
    ensures var st' := WriteSummaries(st, keys, fills, source); st'.book.trades == st.book.trades && st'.parents == st.parents
  {
    if keys != [] { SummariesKeepTrades(st, keys[..|keys| - 1], fills, source); }
  }

  /** Only the type of a trade changes in the final passes, to BAG, and only where a re-tagging feed touched a trade that holds a summary. */
  lemma {:induction false} FinalTrades(st: State, source: Source, skip: bool, t: nat)
    requires t < |st.book.trades|
    ensures var r := Finish(st, source, skip);
      && |r.trades| == |st.book.trades|
      && r.trades[t].info == if source.retagsLegs && t in st.touched && HoldsSummary(r.execs, t) then st.book.trades[t].info.(secType := Some("BAG"))
                             else st.book.trades[t].info
  {
    EnforceAllProperty(st.book.execs, st.groups);
    var flagged := st.book.(execs := EnforceAll(st.book.execs, st.groups));
    SameHolders(st.book.execs, flagged.execs, t);
    if source.retagsLegs { SameHolders(flagged.execs, Retag(flagged, st.touched).execs, t); }
  }

  /** An ingest leaves the identity of every stored trade alone, and a name once it has one. */
  lemma {:induction false} TradesKeepTheirIdentity(book: Book, fills: seq<Fill>, source: Source, skip: bool)
    requires Valid(book)
    ensures KeepsTrades(book.trades, Ingest(book, fills, source, skip).trades)
  {
    FillsArePlaced(book, fills, source);
    SummariesKeepTrades(WriteFills(Start(book), fills, source), ComboKeys(fills), fills, source);
    var st := Written(book, fills, source);
    forall t | 0 <= t < |book.trades| ensures SameIdentity(book.trades[t].info, Ingest(book, fills, source, skip).trades[t].info) {
      FinalTrades(st, source, skip, t);
    }
    if |st.book.trades| > 0 { FinalTrades(st, source, skip, 0); }
  }

  /**
    After an ingest the row of a plain fill hangs under a trade with the fill's
    identity, where the fill is the last the batch has under its id and no
    summary is written under it.
   */
  lemma {:induction false} RowsHangUnderTheirParent(book: Book, fills: seq<Fill>, source: Source, skip: bool, i: nat)
    requires Valid(book) && AllFlagsRight(book.execs) && i < |Ingest(book, fills, source, skip).execs|
    requires var id := Ingest(book, fills, source, skip).execs[i].execId;
      id !in SummaryIds(ComboKeys(fills), fills) && LastOf(fills, id).Some? && LastOf(fills, id).value.comboKey.None?
    ensures var r := Ingest(book, fills, source, skip); var e := r.execs[i];
      e.tradeId < |r.trades| && BelongsTo(r.trades[e.tradeId].info, LastOf(fills, e.execId).value)
  {
    var mid, st := WriteFills(Start(book), fills, source), Written(book, fills, source);
    FinishProperty(book, fills, source, skip);
    PlacedRow(book, fills, source, st.book.execs[i].execId, i);
    SummariesKeepTrades(mid, ComboKeys(fills), fills, source);
    FinalTrades(st, source, skip, st.book.execs[i].tradeId);
  }

  lemma {:induction false} PlacedRow(book: Book, fills: seq<Fill>, source: Source, id: string, i: nat)
    requires Valid(book) && id !in SummaryIds(ComboKeys(fills), fills) && LastOf(fills, id).Some?
    requires i < |Written(book, fills, source).book.execs| && Written(book, fills, source).book.execs[i].execId == id
    ensures IsPlaced(WriteFills(Start(book), fills, source), LastOf(fills, id).value, Written(book, fills, source).book.execs[i])
  {
    var mid, st := WriteFills(Start(book), fills, source), Written(book, fills, source);
    WrittenRowsProperty(book, fills, source);
    LastKeyIsWritten(ComboKeys(fills), fills, id);
    assert SummarizedRow(mid.book.execs, ComboKeys(fills), fills, source, i, st.book.execs[i]);
    FillsArePlaced(book, fills, source);
    assert RowPlaced(fills, mid, mid.book.execs[i]);
  }

  /** And the rows of one combo's fills hang under one trade. */
  lemma {:induction false} LegsShareATrade(book: Book, fills: seq<Fill>, source: Source, skip: bool, i: nat, j: nat)
    requires Valid(book) && AllFlagsRight(book.execs)
    requires i < |Ingest(book, fills, source, skip).execs| && j < |Ingest(book, fills, source, skip).execs|
    requires var execs := Ingest(book, fills, source, skip).execs;
      && execs[i].execId !in SummaryIds(ComboKeys(fills), fills) && execs[j].execId !in SummaryIds(ComboKeys(fills), fills)
      && LastOf(fills, execs[i].execId).Some? && LastOf(fills, execs[j].execId).Some?
      && LastOf(fills, execs[i].execId).value.comboKey.Some?
      && LastOf(fills, execs[i].execId).value.comboKey == LastOf(fills, execs[j].execId).value.comboKey
    ensures Ingest(book, fills, source, skip).execs[i].tradeId == Ingest(book, fills, source, skip).execs[j].tradeId
  {
    FinishProperty(book, fills, source, skip);
    var st := Written(book, fills, source);
    PlacedRow(book, fills, source, st.book.execs[i].execId, i);
    PlacedRow(book, fills, source, st.book.execs[j].execId, j);
  }

  /** How many of the combos get a summary: those of two legs or more. */
  ghost function SummaryCount(keys: seq<string>, fills: seq<Fill>): nat {
    if keys == [] then 0
    else SummaryCount(keys[..|keys| - 1], fills) + if |LegsOf(fills, keys[|keys| - 1])| >= 2 then 1 else 0
  }

  lemma {:induction false} FillsAreCounted(st: State, fills: seq<Fill>, source: Source)
    ensures WriteFills(st, fills, source).upserted == st.upserted + |fills|
  {
    if fills != [] { FillsAreCounted(st, fills[..|fills| - 1], source); }
  }

  lemma {:induction false} SummariesAreCounted(book: Book, st: State, keys: seq<string>, fills: seq<Fill>, source: Source)
    requires Wrote(book, st) && forall key :: key in keys ==> key in st.parents
    ensures WriteSummaries(st, keys, fills, source).upserted == st.upserted + SummaryCount(keys, fills)
  {
    if keys != [] {
      var front, key := keys[..|keys| - 1], keys[|keys| - 1];
      assert keys == front + [key];
      SummariesAreCounted(book, st, front, fills, source);
      WriteSummariesIds(book, st, front, fills, source);
    }
  }

  /** A call counts one upsert per fill and one per summary. */
  lemma {:induction false} UpsertsAreCounted(book: Book, fills: seq<Fill>, source: Source)
    requires Valid(book)
    ensures Written(book, fills, source).upserted == |fills| + SummaryCount(ComboKeys(fills), fills)
  {
    FillsAreCounted(Start(book), fills, source);
    WriteFillsKeeps(book, Start(book), fills, source);
    KeysHaveParents(Start(book), fills, source);
    SummariesAreCounted(book, WriteFills(Start(book), fills, source), ComboKeys(fills), fills, source);
  }

  // ---------------------------------------------------------------------
  // Synthesized summaries
  // ---------------------------------------------------------------------

  function CashOf(l: Fill): real { l.quantity * l.price }

  function CommissionOf(l: Fill): real {
    match l.commission
    case None => 0.0
    case Some(x) => x
  }

  /** The row a combo's legs are summarized as, beside its quantity and its id. */
  ghost predicate Summarizes(s: Summary, legs: seq<Fill>, key: string) {
    && s.quantity > 0.0 && s.quantity * s.price == Sum(legs, CashOf)
    && s.side == (if Sum(legs, CashOf) > 0.0 then "BUY" else "SELL")
    && (s.commission.None? <==> forall l :: l in legs ==> l.commission.None?)
    && (s.commission.Some? ==> s.commission.value == Sum(legs, CommissionOf))
    && (forall l :: l in legs ==> s.executedAt <= l.executedAt) && (exists l :: l in legs && l.executedAt == s.executedAt)
    && (s.orderRef.Some? <==> exists l :: l in legs && l.orderRef.Some? && l.orderRef.value != "" && forall m :: m in legs ==> m.orderRef == l.orderRef)
    && (s.orderRef.Some? ==> forall l :: l in legs ==> l.orderRef == s.orderRef)
    && s.comboKey == key
  }

  lemma {:induction false} CommissionInColumns(legs: seq<Fill>)
    ensures TotalCommission(legs).None? <==> forall l :: l in legs ==> l.commission.None?
    ensures TotalCommission(legs).Some? ==> TotalCommission(legs).value == Sum(legs, CommissionOf)
  {
    SumAgrees(legs, (l: Fill) => l.commission.GetOr(0.0), CommissionOf);
  }

  lemma {:induction false} RefInColumns(legs: seq<Fill>)
    requires legs != []
    ensures SharedRef(legs).Some? <==> exists l :: l in legs && l.orderRef.Some? && l.orderRef.value != "" && forall m :: m in legs ==> m.orderRef == l.orderRef
    ensures SharedRef(legs).Some? ==> forall l :: l in legs ==> l.orderRef == SharedRef(legs)
  {
    assert legs[0] in legs;
  }

  lemma {:induction false} SynthesisInColumns(legs: seq<Fill>, key: string)
    requires legs != []
    ensures Summarizes(Synthesize(legs, key), legs, key)
  {
    SummaryKeepsNetCash(legs, key);
    SumAgrees(legs, Cash, CashOf);
    CommissionInColumns(legs);
    RefInColumns(legs);
    var i :| 0 <= i < |legs| && EarliestLeg(legs) == legs[i].executedAt;
    assert legs[i] in legs;
  }

  lemma {:induction false} DotsAdd(x: string, y: string)
    ensures CountDots(x + y) == CountDots(x) + CountDots(y)
  {
    if y == [] {
      assert x + y == x;
    } else {
      assert (x + y)[..|x + y| - 1] == x + y[..|y| - 1];
      DotsAdd(x, y[..|y| - 1]);
    }
  }

  lemma {:induction false} NoDots(s: string)
    ensures CountDots(s) == 0 <==> '.' !in s
  {
    if s != [] {
      assert s == s[..|s| - 1] + [s[|s| - 1]];
      NoDots(s[..|s| - 1]);
    }
  }

  lemma {:induction false} CutAtDot(x: string, rest: string, n: nat)
    requires CountDots(x) == n && rest != [] && rest[0] == '.'
    ensures BeforeDot(x + rest, n) == x
    decreases |rest|
  {
    var front := rest[..|rest| - 1];
    DotsAdd(x, rest);
    DotsAdd(rest[..1], rest[1..]);
    assert rest == rest[..1] + rest[1..];
    assert CountDots(rest[..1]) == 1 by { assert rest[..1][..0] == []; }
    assert (x + rest)[..|x + rest| - 1] == x + front;
    if front == [] {
      assert x + front == x;
    } else {
      CutAtDot(x, front, n);
    }
  }

  /** The first two segments are the prefix of an id with at least four; shorter ids have none. */
  lemma {:induction false} PrefixInColumns(a: string, b: string, rest: string)
    requires '.' !in a && '.' !in b
    ensures IdPrefix(a + "." + b + "." + rest) == if '.' in rest then Some(a + "." + b) else None
    ensures IdPrefix(a + "." + b) == None && IdPrefix(a) == None
  {
    var head, tail := a + "." + b, "." + rest;
    NoDots(a);
    NoDots(b);
    NoDots(rest);
    assert CountDots(".") == 1 by { assert "."[..0] == ""; }
    DotsAdd(a, ".");
    DotsAdd(a + ".", b);
    DotsAdd(".", rest);
    DotsAdd(head, tail);
    assert a + "." + b + "." + rest == head + tail;
    CutAtDot(head, tail, 1);
  }

  /** The id under which legs are summarized: slot 01.01 of the one prefix their ids share, else made of the combo key. */
  lemma {:induction false} ComboIdInColumns(legs: seq<Fill>, key: string)
    ensures forall p :: (exists l :: l in legs && IdPrefix(l.execId) == Some(p))
                        && (forall l :: l in legs ==> IdPrefix(l.execId) == None || IdPrefix(l.execId) == Some(p))
                        ==> ComboExecId(legs, key) == p + ".01.01"
    ensures (forall p :: (exists l :: l in legs && IdPrefix(l.execId) == Some(p)) ==>
                         exists m :: m in legs && IdPrefix(m.execId).Some? && IdPrefix(m.execId) != Some(p))
            ==> ComboExecId(legs, key) == key + ".combo"
  {
    PrefixesProperty(legs);
    var ps := Prefixes(legs);
    if ps != [] {
      assert ps[0] in ps;
    }
    forall i | 0 <= i < |ps| ensures ps[i] in ps {}
  }

  // ---------------------------------------------------------------------
  // Aggregates
  // ---------------------------------------------------------------------

  /** What a trade's quantity is taken from: its canonical summaries, or all its canonical rows when it has no such summary. */
  ghost predicate IsCountedRow(execs: seq<Exec>, t: nat, e: Exec) {
    && e.tradeId == t && e.canonical
    && (e.role == ComboSummary || forall x :: x in execs && x.tradeId == t && x.canonical ==> x.role != ComboSummary)
  }

  ghost function CountedRow(execs: seq<Exec>, t: nat): Exec -> bool {
    (e: Exec) => IsCountedRow(execs, t, e)
  }

  function Magnitude(e: Exec): real {
    if e.quantity >= 0.0 then e.quantity else -e.quantity
  }

  function Worth(e: Exec): real {
    if e.quantity >= 0.0 then e.quantity * e.price else -e.quantity * e.price
  }

  lemma {:induction false} CountedRows(execs: seq<Exec>, t: nat)
    ensures CountedOf(CanonicalOf(execs, t)) == Filter(execs, CountedRow(execs, t))
  {
    var canonical, isSummary := (e: Exec) => e.tradeId == t && e.canonical, (e: Exec) => e.role == ComboSummary;
    var rows := Filter(execs, canonical);
    if Filter(rows, isSummary) != [] {
      assert Filter(rows, isSummary)[0] in Filter(rows, isSummary);
      FilterTwice(execs, canonical, isSummary, CountedRow(execs, t));
    } else {
      assert forall e :: e in rows ==> (e in Filter(rows, isSummary) <==> isSummary(e));
      FilterAgrees(execs, canonical, CountedRow(execs, t));
    }
  }

  lemma {:induction false} Quotient(n: real, w: real)
    requires w > 0.0
    ensures n / w * w == n
  {}

  ghost predicate HasCanonicalRow(execs: seq<Exec>, t: nat) {
    exists e :: e in execs && e.tradeId == t && e.canonical
  }

  lemma {:induction false} NoCanonicalRow(execs: seq<Exec>, t: nat)
    ensures CanonicalOf(execs, t) == [] <==> !HasCanonicalRow(execs, t)
    ensures CanonicalOf(execs, t) == [] ==> Filter(execs, CountedRow(execs, t)) == []
  {
    var canonical := (e: Exec) => e.tradeId == t && e.canonical;
    if CanonicalOf(execs, t) != [] {
      assert CanonicalOf(execs, t)[0] in Filter(execs, canonical);
    } else {
      assert forall e :: e in CanonicalOf(execs, t) <==> e in execs && canonical(e);
      FilterNone(execs, CountedRow(execs, t));
    }
  }

  lemma {:induction false} SameFigures(rows: seq<Exec>)
    ensures Sum(rows, Size) == Sum(rows, Magnitude) && Sum(rows, Notional) == Sum(rows, Worth)
  {
    SumAgrees(rows, Size, Magnitude);
    SumAgrees(rows, Notional, Worth);
  }

  /** `totals` are those of rows of this size and worth. */
  ghost predicate AreTotals(totals: Totals, some: bool, size: real, worth: real) {
    && totals.quantity == size
    && (totals.avgPrice.Some? <==> size > 0.0) && (totals.avgPrice.Some? ==> totals.avgPrice.value * size == worth)
    && (totals.status == Unknown <==> !some) && totals.status != Partial
    && (totals.firstAt.Some? <==> some) && (totals.lastAt.Some? <==> some)
  }

  lemma {:induction false} PartsOfTotals(rows: seq<Exec>, counted: seq<Exec>, size: real, worth: real)
    requires rows != [] && counted == CountedOf(rows) && size == Sum(counted, Size) && worth == Sum(counted, Notional)
    ensures TotalsFrom(rows) ==
      Totals(StatusOf(rows), size, if size > 0.0 then Some(worth / size) else None, Some(Earliest(rows)), Some(Latest(rows)))
  {}

  lemma {:induction false} SomeTotals(status: Status, size: real, worth: real, first: int, last: int)
    requires status.Settled?
    ensures AreTotals(Totals(status, size, if size > 0.0 then Some(worth / size) else None, Some(first), Some(last)), true, size, worth)
  {
    if size > 0.0 { Quotient(worth, size); }
  }

  lemma {:induction false} TotalsOfCounted(rows: seq<Exec>, counted: seq<Exec>, size: real, worth: real)
    requires rows != [] && counted == CountedOf(rows) && size == Sum(counted, Magnitude) && worth == Sum(counted, Worth)
    ensures AreTotals(TotalsFrom(rows), true, size, worth)
  {
    SameFigures(counted);
    PartsOfTotals(rows, counted, size, worth);
    SomeTotals(StatusOf(rows), size, worth, Earliest(rows), Latest(rows));
  }

  /** A trade's totals over the rows themselves: sizes and worth of the counted rows, and no figure without a canonical row. */
  lemma {:induction false} TotalsInColumns(execs: seq<Exec>, t: nat)
    ensures var counted := Filter(execs, CountedRow(execs, t));
      AreTotals(TotalsOf(execs, t), HasCanonicalRow(execs, t), Sum(counted, Magnitude), Sum(counted, Worth))
  {
    CountedRows(execs, t);
    NoCanonicalRow(execs, t);
    var rows, counted := CanonicalOf(execs, t), Filter(execs, CountedRow(execs, t));
    if rows != [] { TotalsOfCounted(rows, counted, Sum(counted, Magnitude), Sum(counted, Worth)); }
  }
}
