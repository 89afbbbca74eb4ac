/**
  The fills of one TWS combo order among those of other orders: what every batch
  keeps of the order's own trade and rows, on any store that does not know the
  order yet.
 */
module ComboTracking {
  import opened Common
  import opened FillIngest
  import opened ComboSynthesis
  import opened IngestPipeline
  import opened IngestProperties
  import opened KeptRows
  import opened StaleTotals

  // ---------------------------------------------------------------------
  // One order among others
  // ---------------------------------------------------------------------

  /** The order all fills belong to. */
  datatype Ticket = Ticket(account: int, permId: int)

  function Base(f: Fill): string { ParseExecId(f.execId).0 }
  function Revision(f: Fill): int { ParseExecId(f.execId).1 }

  ghost predicate Belongs(o: Ticket, f: Fill) {
    f.account == o.account && f.permId == Some(o.permId) && f.comboKey.None?
  }

  ghost predicate HasSummary(fills: set<Fill>) {
    exists f :: f in fills && f.isComboSummary
  }

  /** One order's fills: a positive perm id, fixed content per execution id, and at least one BAG fill. */
  ghost predicate IsComboOrder(o: Ticket, fills: set<Fill>) {
    && o.permId > 0
    && (forall f :: f in fills ==> Belongs(o, f))
    && (forall f, g :: f in fills && g in fills && f.execId == g.execId ==> f == g)
    && HasSummary(fills)
  }

  ghost predicate OwnId(all: set<Fill>, id: string) {
    exists f :: f in all && f.execId == id
  }

  ghost predicate OwnGroup(o: Ticket, all: set<Fill>, g: Group) {
    g.0 == o.account && exists f :: f in all && Base(f) == g.1
  }

  /** A fill of another order with a positive perm id, sharing no id and no base with the order's fills. */
  ghost predicate IsOther(o: Ticket, all: set<Fill>, f: Fill) {
    && HasPermId(f) && f.comboKey.None? && !(f.account == o.account && f.permId == Some(o.permId))
    && !OwnId(all, f.execId) && !OwnGroup(o, all, (f.account, Base(f)))
  }

  ghost predicate Within(o: Ticket, all: set<Fill>, fills: seq<Fill>) {
    forall f :: f in fills ==> f in all || IsOther(o, all, f)
  }

  ghost function ItemsOf(fills: seq<Fill>): set<Fill> {
    set f | f in fills
  }

  /** The order's own fills in a batch. */
  ghost function OwnOf(all: set<Fill>, fills: seq<Fill>): set<Fill> {
    ItemsOf(fills) * all
  }

  predicate Named(t: Trade, o: Ticket) {
    t.info.account == o.account && t.info.permId == Some(o.permId)
  }

  function NamesOrder(o: Ticket): Trade -> bool {
    (t: Trade) => Named(t, o)
  }

  /** The place of the order's trade, or where it would be created. */
  function Home(o: Ticket, trades: seq<Trade>): nat {
    First(trades, NamesOrder(o)).GetOr(|trades|)
  }

  /** The store knows neither the order nor any of its ids and bases. */
  ghost predicate Unseen(o: Ticket, all: set<Fill>, book: Book) {
    && (forall t :: 0 <= t < |book.trades| ==> !Named(book.trades[t], o))
    && (forall i :: 0 <= i < |book.execs| ==> !OwnId(all, book.execs[i].execId) && !OwnGroup(o, all, GroupOf(book.execs[i])))
  }

  // ---------------------------------------------------------------------
  // The order's trade
  // ---------------------------------------------------------------------

  /** The order's trade is at `k`, or will be when there is none. */
  ghost predicate HomeIs(o: Ticket, trades: seq<Trade>, k: nat, some: bool) {
    && (if some then k < |trades| && Named(trades[k], o) else k == |trades|)
    && forall t :: 0 <= t < |trades| && t != k ==> !Named(trades[t], o)
  }

  lemma {:induction false} FirstAgrees<T(!new)>(xs: seq<T>, p: T -> bool, q: T -> bool)
    requires forall x :: x in xs ==> p(x) == q(x)
    ensures First(xs, p) == First(xs, q)
  {
    forall i | 0 <= i < |xs| ensures p(xs[i]) == q(xs[i]) { assert xs[i] in xs; }
  }

  lemma {:induction false} HomeOf(o: Ticket, trades: seq<Trade>, k: nat, some: bool)
    requires HomeIs(o, trades, k, some)
    ensures Home(o, trades) == k
    ensures First(trades, NamesOrder(o)) == if some then Some(k) else None
  {
    var found := First(trades, NamesOrder(o));
    if found.Some? { assert Named(trades[found.value], o); }
    if some { assert NamesOrder(o)(trades[k]); }
  }

  lemma {:induction false} OwnParent(o: Ticket, trades: seq<Trade>, k: nat, some: bool, f: Fill)
    requires o.permId > 0 && HomeIs(o, trades, k, some) && Belongs(o, f)
    ensures var (after, parent) := PlainParent(trades, f, TWS); parent == k && HomeIs(o, after, k, true)
  {
    HomeOf(o, trades, k, some);
    FirstAgrees(trades, (t: Trade) => IsParent(t, f, TWS), NamesOrder(o));
  }

  lemma {:induction false} OtherParent(o: Ticket, all: set<Fill>, trades: seq<Trade>, k: nat, some: bool, f: Fill)
    requires HomeIs(o, trades, k, some) && IsOther(o, all, f)
    ensures var (after, parent) := PlainParent(trades, f, TWS);
      && HomeIs(o, after, if some then k else |after|, some) && (some ==> parent != k && after[k] == trades[k])
      && parent < |after|
  {
    var found := MatchParent(trades, f, TWS);
    if found.Some? { assert IsParent(trades[found.value], f, TWS); }
  }

  // ---------------------------------------------------------------------
  // The order's rows
  // ---------------------------------------------------------------------

  /** The row holds this fill under trade `k`, whatever its flag and the finer role of a fill that is no summary. */
  ghost predicate Holds(e: Exec, f: Fill, k: nat) {
    e == NewExec(k, f, TWS).(canonical := e.canonical, role := e.role) && (e.role == ComboSummary <==> f.isComboSummary)
  }

  ghost predicate HoldsOne(e: Exec, got: set<Fill>, k: nat) {
    exists f :: f in got && Holds(e, f, k)
  }

  ghost predicate IsHeld(execs: seq<Exec>, f: Fill, k: nat) {
    exists i :: 0 <= i < |execs| && Holds(execs[i], f, k)
  }

  /** A row of other orders: none of the order's ids or bases, and not under its trade. */
  ghost predicate IsForeign(o: Ticket, all: set<Fill>, e: Exec, k: nat) {
    !OwnId(all, e.execId) && !OwnGroup(o, all, GroupOf(e)) && e.tradeId != k
  }

  /** The order's rows are exactly those of the fills in `got`, under trade `k`. */
  ghost predicate Rows(o: Ticket, all: set<Fill>, execs: seq<Exec>, got: set<Fill>, k: nat) {
    && (forall i :: 0 <= i < |execs| ==> HoldsOne(execs[i], got, k) || IsForeign(o, all, execs[i], k))
    && (forall f :: f in got ==> IsHeld(execs, f, k))
  }

  lemma {:induction false} OwnRowIsFound(o: Ticket, all: set<Fill>, execs: seq<Exec>, got: set<Fill>, k: nat, f: Fill, i: nat)
    requires IsComboOrder(o, all) && Rows(o, all, execs, got, k) && got <= all && f in all
    requires i < |execs| && execs[i].execId == f.execId
    ensures Holds(execs[i], f, k)
  {
    assert OwnId(all, f.execId);
    var g :| g in got && Holds(execs[i], g, k);
    assert g == f;
  }

  /** A row that was kept, or holds the fill just written, is one of the rows expected. */
  lemma {:induction false} RowStays(o: Ticket, all: set<Fill>, e: Exec, e': Exec, got: set<Fill>, f: Fill, k: nat)
    requires HoldsOne(e, got, k) || IsForeign(o, all, e, k)
    requires e' == e || Holds(e', f, k)
    ensures HoldsOne(e', got + {f}, k) || IsForeign(o, all, e', k)
  {
    if e' == e && HoldsOne(e, got, k) {
      var g :| g in got && Holds(e, g, k);
      assert g in got + {f};
    }
  }

  lemma {:induction false} OwnUpsert(o: Ticket, all: set<Fill>, execs: seq<Exec>, got: set<Fill>, k: nat, f: Fill)
    requires IsComboOrder(o, all) && Rows(o, all, execs, got, k) && got <= all && f in all
    ensures var after := UpsertFill(execs, k, f, TWS);
      && |after| >= |execs| && IsHeld(after, f, k)
      && (forall i :: 0 <= i < |execs| ==> after[i] == execs[i] || (Holds(execs[i], f, k) && Holds(after[i], f, k)))
      && (forall i :: |execs| <= i < |after| ==> Holds(after[i], f, k))
  {
    var after := UpsertFill(execs, k, f, TWS);
    match RowOf(execs, f.execId)
    case None => assert Holds(after[|execs|], f, k);
    case Some(i) =>
      OwnRowIsFound(o, all, execs, got, k, f, i);
      assert Holds(after[i], f, k);
  }

  lemma {:induction false} OwnFillRows(o: Ticket, all: set<Fill>, execs: seq<Exec>, got: set<Fill>, k: nat, f: Fill)
    requires IsComboOrder(o, all) && Rows(o, all, execs, got, k) && got <= all && f in all
    ensures Rows(o, all, UpsertFill(execs, k, f, TWS), got + {f}, k)
  {
    var after := UpsertFill(execs, k, f, TWS);
    OwnUpsert(o, all, execs, got, k, f);
    forall i | 0 <= i < |after| ensures HoldsOne(after[i], got + {f}, k) || IsForeign(o, all, after[i], k) {
      if i < |execs| { RowStays(o, all, execs[i], after[i], got, f, k); }
    }
    forall g | g in got + {f} ensures IsHeld(after, g, k) {
      if g != f { StillHeld(o, all, execs, after, f, g, k); }
    }
  }

  lemma {:induction false} StillHeld(o: Ticket, all: set<Fill>, execs: seq<Exec>, after: seq<Exec>, f: Fill, g: Fill, k: nat)
    requires IsComboOrder(o, all) && f in all && g in all && IsHeld(execs, g, k)
    requires |execs| <= |after| && forall i :: 0 <= i < |execs| ==> after[i] == execs[i] || (Holds(execs[i], f, k) && Holds(after[i], f, k))
    ensures IsHeld(after, g, k)
  {
    var i :| 0 <= i < |execs| && Holds(execs[i], g, k);
    assert execs[i].execId == f.execId ==> f == g;
    assert Holds(after[i], g, k);
  }

  /** Where the order has no trade yet, every stored row is foreign wherever that trade will be. */
  lemma {:induction false} NoRowsYet(o: Ticket, all: set<Fill>, book: Book, k: nat, k': nat)
    requires Valid(book) && Rows(o, all, book.execs, {}, k) && |book.trades| <= k'
    ensures Rows(o, all, book.execs, {}, k')
  {
    forall i | 0 <= i < |book.execs| ensures IsForeign(o, all, book.execs[i], k') {
      assert !HoldsOne(book.execs[i], {}, k);
    }
  }

  lemma {:induction false} OtherFillRows(o: Ticket, all: set<Fill>, execs: seq<Exec>, got: set<Fill>, k: nat, f: Fill, parent: nat)
    requires Rows(o, all, execs, got, k) && got <= all && IsOther(o, all, f) && parent != k
    ensures Rows(o, all, UpsertFill(execs, parent, f, TWS), got, k)
    ensures var after := UpsertFill(execs, parent, f, TWS);
      |execs| <= |after| && forall i :: 0 <= i < |execs| && execs[i].tradeId == k ==> after[i] == execs[i]
    ensures forall i :: |execs| <= i < |UpsertFill(execs, parent, f, TWS)| ==> UpsertFill(execs, parent, f, TWS)[i].tradeId != k
  {
    var after := UpsertFill(execs, parent, f, TWS);
    forall i | 0 <= i < |execs| && HoldsOne(execs[i], got, k) ensures execs[i].execId != f.execId && after[i] == execs[i] {
      var g :| g in got && Holds(execs[i], g, k);
      assert OwnId(all, g.execId);
    }
    forall g | g in got ensures IsHeld(after, g, k) {
      var i :| 0 <= i < |execs| && Holds(execs[i], g, k);
      assert HoldsOne(execs[i], got, k);
      assert Holds(after[i], g, k);
    }
    forall i | 0 <= i < |after| ensures HoldsOne(after[i], got, k) || IsForeign(o, all, after[i], k) {
      if i < |execs| { assert HoldsOne(execs[i], got, k) || IsForeign(o, all, execs[i], k); }
    }
  }

  // ---------------------------------------------------------------------
  // Writing a batch
  // ---------------------------------------------------------------------

  /** The order's trade and rows hold exactly the fills in `got`. */
  ghost predicate Tracks(o: Ticket, all: set<Fill>, book: Book, got: set<Fill>) {
    && HomeIs(o, book.trades, Home(o, book.trades), got != {})
    && Rows(o, all, book.execs, got, Home(o, book.trades))
  }

  lemma {:induction false} TracksAt(o: Ticket, all: set<Fill>, book: Book, got: set<Fill>, k: nat)
    requires HomeIs(o, book.trades, k, got != {}) && Rows(o, all, book.execs, got, k)
    ensures Tracks(o, all, book, got) && Home(o, book.trades) == k
  {
    HomeOf(o, book.trades, k, got != {});
  }

  lemma {:induction false} PlainWrite(st: State, f: Fill)
    requires f.comboKey.None?
    ensures var r, (trades, k) := WriteFill(st, f, TWS), PlainParent(st.book.trades, f, TWS);
      r.book == Book(trades, UpsertFill(st.book.execs, k, f, TWS)) && r.touched == st.touched + {k}
  {}

  lemma {:induction false} OwnFillTracks(o: Ticket, all: set<Fill>, st: State, got: set<Fill>, f: Fill)
    requires IsComboOrder(o, all) && Tracks(o, all, st.book, got) && got <= all && f in all
    ensures var st' := WriteFill(st, f, TWS);
      && Tracks(o, all, st'.book, got + {f})
      && Home(o, st'.book.trades) == Home(o, st.book.trades) && Home(o, st'.book.trades) in st'.touched
  {
    var k, st' := Home(o, st.book.trades), WriteFill(st, f, TWS);
    PlainWrite(st, f);
    OwnParent(o, st.book.trades, k, got != {}, f);
    OwnFillRows(o, all, st.book.execs, got, k, f);
    TracksAt(o, all, st'.book, got + {f}, k);
  }

  lemma {:induction false} OtherFillTracks(o: Ticket, all: set<Fill>, st: State, got: set<Fill>, f: Fill)
    requires Valid(st.book) && Tracks(o, all, st.book, got) && got <= all && IsOther(o, all, f)
    ensures var st' := WriteFill(st, f, TWS);
      && Tracks(o, all, st'.book, got)
      && (got != {} ==> Home(o, st'.book.trades) == Home(o, st.book.trades))
      && (got != {} ==> st'.book.trades[Home(o, st.book.trades)] == st.book.trades[Home(o, st.book.trades)])
      && (got != {} ==> (Home(o, st.book.trades) in st'.touched <==> Home(o, st.book.trades) in st.touched))
  {
    var k, st' := Home(o, st.book.trades), WriteFill(st, f, TWS);
    var (trades, parent) := PlainParent(st.book.trades, f, TWS);
    PlainWrite(st, f);
    OtherParent(o, all, st.book.trades, k, got != {}, f);
    if got != {} {
      OtherFillRows(o, all, st.book.execs, got, k, f, parent);
      TracksAt(o, all, st'.book, got, k);
    } else {
      NoRowsYet(o, all, st.book, k, |trades|);
      OtherFillRows(o, all, st.book.execs, got, |trades|, f, parent);
      TracksAt(o, all, st'.book, got, |trades|);
    }
  }

  /** The batch has not touched the order's trade, which is as it was. */
  ghost predicate LeftAlone(book: Book, st: State, k: nat) {
    k !in st.touched && k < |book.trades| && k < |st.book.trades| && st.book.trades[k] == book.trades[k]
  }

  /** Where the writing phase of a batch stands: own fills written so far touch the order's trade, other fills leave it alone. */
  ghost predicate Midway(o: Ticket, all: set<Fill>, book: Book, got: set<Fill>, own: set<Fill>, st: State) {
    && Tracks(o, all, st.book, got + own)
    && (own != {} ==> Home(o, st.book.trades) in st.touched)
    && (own == {} && got != {} ==> Home(o, st.book.trades) == Home(o, book.trades) && LeftAlone(book, st, Home(o, book.trades)))
  }

  lemma {:induction false} NextOwn(o: Ticket, all: set<Fill>, book: Book, got: set<Fill>, own: set<Fill>, st: State, f: Fill)
    requires IsComboOrder(o, all) && got <= all && own <= all && Midway(o, all, book, got, own, st) && f in all
    ensures Midway(o, all, book, got, own + {f}, WriteFill(st, f, TWS))
  {
    OwnFillTracks(o, all, st, got + own, f);
    UnionRegroup(got, own, {f});
  }

  lemma {:induction false} NextOther(o: Ticket, all: set<Fill>, book: Book, got: set<Fill>, own: set<Fill>, st: State, f: Fill)
    requires Valid(st.book) && got <= all && own <= all && Midway(o, all, book, got, own, st) && IsOther(o, all, f)
    ensures Midway(o, all, book, got, own, WriteFill(st, f, TWS))
  {
    OtherFillTracks(o, all, st, got + own, f);
    if own != {} {
      assert got + own != {};
    } else if got != {} {
      assert got + own == got;
    }
  }

  lemma {:induction false} LastOwn(all: set<Fill>, front: seq<Fill>, last: Fill)
    ensures OwnOf(all, front + [last]) == if last in all then OwnOf(all, front) + {last} else OwnOf(all, front)
  {}

  lemma {:induction false} WritesMidway(o: Ticket, all: set<Fill>, book: Book, got: set<Fill>, fills: seq<Fill>)
    requires IsComboOrder(o, all) && Valid(book) && Tracks(o, all, book, got) && got <= all && Within(o, all, fills)
    ensures Midway(o, all, book, got, OwnOf(all, fills), WriteFills(Start(book), fills, TWS))
  {
    if fills == [] {
      assert OwnOf(all, fills) == {} && got + {} == got;
    } else {
      var front, last := fills[..|fills| - 1], fills[|fills| - 1];
      assert fills == front + [last];
      assert Within(o, all, front) && (last in all || IsOther(o, all, last));
      WritesMidway(o, all, book, got, front);
      WriteFillsKeeps(book, Start(book), front, TWS);
      LastFill(Start(book), front, last, TWS);
      LastOwn(all, front, last);
      LastMidway(o, all, book, got, OwnOf(all, front), WriteFills(Start(book), front, TWS), last);
    }
  }

  lemma {:induction false} LastMidway(o: Ticket, all: set<Fill>, book: Book, got: set<Fill>, own: set<Fill>, st: State, f: Fill)
    requires IsComboOrder(o, all) && Valid(st.book) && got <= all && own <= all && Midway(o, all, book, got, own, st)
    requires f in all || IsOther(o, all, f)
    ensures Midway(o, all, book, got, if f in all then own + {f} else own, WriteFill(st, f, TWS))
  {
    if f in all {
      NextOwn(o, all, book, got, own, st, f);
    } else {
      NextOther(o, all, book, got, own, st, f);
    }
  }

  /** A batch of this order's and other orders' fills has no combo of its own to summarize. */
  lemma {:induction false} PlainBatch(o: Ticket, all: set<Fill>, book: Book, fills: seq<Fill>)
    requires IsComboOrder(o, all) && Within(o, all, fills)
    ensures Written(book, fills, TWS) == WriteFills(Start(book), fills, TWS)
  {
    forall f | f in fills ensures f.comboKey.None? {
      if f in all { assert Belongs(o, f); }
    }
    NoComboKeys(fills);
  }

  lemma {:induction false} WrittenMidway(o: Ticket, all: set<Fill>, book: Book, got: set<Fill>, fills: seq<Fill>)
    requires IsComboOrder(o, all) && Valid(book) && Tracks(o, all, book, got) && got <= all && Within(o, all, fills)
    ensures Midway(o, all, book, got, OwnOf(all, fills), Written(book, fills, TWS))
  {
    PlainBatch(o, all, book, fills);
    WritesMidway(o, all, book, got, fills);
  }

  // ---------------------------------------------------------------------
  // The final passes
  // ---------------------------------------------------------------------

  /** Rows that differ in the flag and the finer role hold the same fills. */
  ghost predicate SameUpToTags(e: Exec, e': Exec) {
    e' == e.(canonical := e'.canonical, role := e'.role) && (e.role == ComboSummary <==> e'.role == ComboSummary)
  }

  lemma {:induction false} SameRows(o: Ticket, all: set<Fill>, execs: seq<Exec>, after: seq<Exec>, got: set<Fill>, k: nat)
    requires Rows(o, all, execs, got, k)
    requires |after| == |execs| && forall i :: 0 <= i < |after| ==> SameUpToTags(execs[i], after[i])
    ensures Rows(o, all, after, got, k)
  {
    forall i | 0 <= i < |after| ensures HoldsOne(after[i], got, k) || IsForeign(o, all, after[i], k) {
      if f :| f in got && Holds(execs[i], f, k) {
        assert Holds(after[i], f, k);
      }
    }
    forall f | f in got ensures IsHeld(after, f, k) {
      var i :| 0 <= i < |execs| && Holds(execs[i], f, k);
      assert Holds(after[i], f, k);
    }
  }

  lemma {:induction false} SameHome(o: Ticket, trades: seq<Trade>, after: seq<Trade>, k: nat, some: bool)
    requires HomeIs(o, trades, k, some) && |after| == |trades|
    requires forall t :: 0 <= t < |trades| ==> after[t].info.account == trades[t].info.account && after[t].info.permId == trades[t].info.permId
    ensures HomeIs(o, after, k, some)
  {}

  lemma {:induction false} FinishedTags(st: State)
    ensures var r := Finish(st, TWS, false);
      && |r.execs| == |st.book.execs| && |r.trades| == |st.book.trades|
      && (forall i :: 0 <= i < |r.execs| ==> SameUpToTags(st.book.execs[i], r.execs[i]))
      && (forall t :: 0 <= t < |r.trades| ==> r.trades[t].info == st.book.trades[t].info.(secType := r.trades[t].info.secType))
      && (forall t :: 0 <= t < |r.trades| && t !in st.touched ==> r.trades[t].info == st.book.trades[t].info)
  {
    EnforceAllProperty(st.book.execs, st.groups);
  }

  lemma {:induction false} FinishTracks(o: Ticket, all: set<Fill>, st: State, got: set<Fill>)
    requires Tracks(o, all, st.book, got)
    ensures var r := Finish(st, TWS, false); Tracks(o, all, r, got) && Home(o, r.trades) == Home(o, st.book.trades)
  {
    var r, k := Finish(st, TWS, false), Home(o, st.book.trades);
    FinishedTags(st);
    SameRows(o, all, st.book.execs, r.execs, got, k);
    SameHome(o, st.book.trades, r.trades, k, got != {});
    TracksAt(o, all, r, got, k);
  }

  /** Once a BAG fill is in, the order's trade is BAG and none of its rows is standalone. */
  ghost predicate Tagged(o: Ticket, book: Book, got: set<Fill>) {
    var k := Home(o, book.trades);
    HasSummary(got) ==>
      && k < |book.trades| && book.trades[k].info.secType == Some("BAG")
      && forall i :: 0 <= i < |book.execs| && book.execs[i].tradeId == k ==> book.execs[i].role != Standalone
  }

  lemma {:induction false} SummaryIsHeld(o: Ticket, all: set<Fill>, execs: seq<Exec>, got: set<Fill>, k: nat)
    requires Rows(o, all, execs, got, k) && HasSummary(got)
    ensures HoldsSummary(execs, k)
  {
    var f :| f in got && f.isComboSummary;
    var i :| 0 <= i < |execs| && Holds(execs[i], f, k);
    assert execs[i].tradeId == k && execs[i].role == ComboSummary;
  }

  lemma {:induction false} RetagTags(book: Book, touched: set<nat>, k: nat)
    requires k < |book.trades| && k in touched && HoldsSummary(book.execs, k)
    ensures var r := Recompute(Retag(book, touched), touched);
      && |r.trades| == |book.trades| && r.trades[k].info.secType == Some("BAG")
      && forall i :: 0 <= i < |r.execs| && r.execs[i].tradeId == k ==> r.execs[i].role != Standalone
  {}

  lemma {:induction false} FlaggedHoldsSummary(o: Ticket, all: set<Fill>, st: State, got: set<Fill>, k: nat)
    requires Rows(o, all, st.book.execs, got, k) && HasSummary(got)
    ensures HoldsSummary(EnforceAll(st.book.execs, st.groups), k)
  {
    FlagsAreTags(st.book.execs, st.groups);
    SameRows(o, all, st.book.execs, EnforceAll(st.book.execs, st.groups), got, k);
    SummaryIsHeld(o, all, EnforceAll(st.book.execs, st.groups), got, k);
  }

  lemma {:induction false} FlagsAreTags(execs: seq<Exec>, groups: seq<Group>)
    ensures var after := EnforceAll(execs, groups); |after| == |execs| && forall i :: 0 <= i < |after| ==> SameUpToTags(execs[i], after[i])
  {
    EnforceAllProperty(execs, groups);
  }

  lemma {:induction false} FinishIsTagged(st: State, k: nat)
    requires k < |st.book.trades| && k in st.touched && HoldsSummary(EnforceAll(st.book.execs, st.groups), k)
    ensures var r := Finish(st, TWS, false);
      && |r.trades| == |st.book.trades| && r.trades[k].info.secType == Some("BAG")
      && forall i :: 0 <= i < |r.execs| && r.execs[i].tradeId == k ==> r.execs[i].role != Standalone
  {
    RetagTags(st.book.(execs := EnforceAll(st.book.execs, st.groups)), st.touched, k);
  }

  lemma {:induction false} TouchedIsTagged(o: Ticket, all: set<Fill>, st: State, got: set<Fill>)
    requires Tracks(o, all, st.book, got) && got != {} && Home(o, st.book.trades) in st.touched
    ensures Tagged(o, Finish(st, TWS, false), got)
  {
    FinishTracks(o, all, st, got);
    if HasSummary(got) {
      FlaggedHoldsSummary(o, all, st, got, Home(o, st.book.trades));
      FinishIsTagged(st, Home(o, st.book.trades));
    }
  }

  /** A batch without the order's fills leaves its trade's type and the roles of its rows. */
  lemma {:induction false} UntouchedStaysTagged(o: Ticket, all: set<Fill>, book: Book, got: set<Fill>, fills: seq<Fill>)
    requires IsComboOrder(o, all) && Valid(book) && AllFlagsRight(book.execs) && got <= all && got != {}
    requires Tracks(o, all, book, got) && Tagged(o, book, got) && Within(o, all, fills) && OwnOf(all, fills) == {}
    requires Midway(o, all, book, got, {}, Written(book, fills, TWS))
    ensures Tagged(o, Ingest(book, fills, TWS, false), got)
  {
    var st, r, k := Written(book, fills, TWS), Ingest(book, fills, TWS, false), Home(o, book.trades);
    assert got + {} == got;
    FinishTracks(o, all, st, got);
    FinishedTags(st);
    FinishProperty(book, fills, TWS, false);
    if HasSummary(got) {
      forall i | 0 <= i < |r.execs| && r.execs[i].tradeId == k ensures r.execs[i].role != Standalone {
        UntouchedOwnRow(book, fills, k, i);
      }
    }
  }

  /** A row under a trade the batch does not touch is a stored one, with its role. */
  lemma {:induction false} UntouchedOwnRow(book: Book, fills: seq<Fill>, k: nat, i: nat)
    requires Valid(book) && AllFlagsRight(book.execs) && k !in Touched(book, fills, TWS)
    requires var r := Ingest(book, fills, TWS, false); i < |r.execs| && r.execs[i].tradeId == k
    ensures i < |book.execs| && book.execs[i].tradeId == k && Ingest(book, fills, TWS, false).execs[i].role == book.execs[i].role
  {
    FinishProperty(book, fills, TWS, false);
  }

  /** One batch: the order's fills among others are added to what its trade and rows hold. */
  lemma {:induction false} BatchTracks(o: Ticket, all: set<Fill>, book: Book, got: set<Fill>, fills: seq<Fill>)
    requires IsComboOrder(o, all) && Valid(book) && AllFlagsRight(book.execs) && got <= all && Within(o, all, fills)
    requires Tracks(o, all, book, got) && Tagged(o, book, got)
    ensures var r, now := Ingest(book, fills, TWS, false), got + OwnOf(all, fills);
      Tracks(o, all, r, now) && Tagged(o, r, now)
  {
    if OwnOf(all, fills) != {} {
      WrittenMidway(o, all, book, got, fills);
      OwnBatch(o, all, book, got, OwnOf(all, fills), Written(book, fills, TWS));
    } else {
      OtherBatchTracks(o, all, book, got, fills);
      NothingMore(got, OwnOf(all, fills));
    }
  }

  lemma NothingMore(got: set<Fill>, own: set<Fill>)
    requires own == {}
    ensures got + own == got
  {}

  lemma {:induction false} OtherBatchTracks(o: Ticket, all: set<Fill>, book: Book, got: set<Fill>, fills: seq<Fill>)
    requires IsComboOrder(o, all) && Valid(book) && AllFlagsRight(book.execs) && got <= all && Within(o, all, fills) && OwnOf(all, fills) == {}
    requires Tracks(o, all, book, got) && Tagged(o, book, got)
    ensures var r := Ingest(book, fills, TWS, false); Tracks(o, all, r, got) && Tagged(o, r, got)
  {
    WrittenMidway(o, all, book, got, fills);
    OtherBatch(o, all, book, got, Written(book, fills, TWS));
    if got != {} { UntouchedStaysTagged(o, all, book, got, fills); }
  }

  lemma {:induction false} OwnBatch(o: Ticket, all: set<Fill>, book: Book, got: set<Fill>, own: set<Fill>, st: State)
    requires own != {} && Midway(o, all, book, got, own, st)
    ensures var r := Finish(st, TWS, false); Tracks(o, all, r, got + own) && Tagged(o, r, got + own)
    ensures Home(o, Finish(st, TWS, false).trades) in st.touched
  {
    assert got + own != {};
    FinishTracks(o, all, st, got + own);
    TouchedIsTagged(o, all, st, got + own);
  }

  lemma {:induction false} OtherBatch(o: Ticket, all: set<Fill>, book: Book, got: set<Fill>, st: State)
    requires Midway(o, all, book, got, {}, st)
    ensures var r := Finish(st, TWS, false); Tracks(o, all, r, got) && Home(o, r.trades) == Home(o, st.book.trades)
    ensures got == {} ==> Home(o, Finish(st, TWS, false).trades) == |Finish(st, TWS, false).trades|
  {
    assert got + {} == got;
    FinishTracks(o, all, st, got);
  }

  // ---------------------------------------------------------------------
  // Aggregates
  // ---------------------------------------------------------------------

  ghost predicate IsFresh(o: Ticket, book: Book) {
    var k := Home(o, book.trades);
    k < |book.trades| ==> UpToDate(book, k)
  }

  lemma {:induction false} AddedAreFills(ids: set<string>, fills: seq<Fill>)
    ensures forall s :: s in AddedByFills(ids, fills) ==> exists f :: f in fills && s == FillStamp(f)
  {
    if fills != [] {
      var front, last := fills[..|fills| - 1], fills[|fills| - 1];
      assert fills == front + [last];
      AddedAreFills(ids, front);
      forall s | s in AddedByFills(ids, fills) ensures exists f :: f in fills && s == FillStamp(f) {
        if s in AddedByFills(ids, front) {
          var f :| f in front && s == FillStamp(f);
          assert f in fills;
        } else {
          assert last in fills && s == FillStamp(last);
        }
      }
    }
  }

  /** Fills of other orders write none of the order's ids and overtake none of its rows. */
  lemma {:induction false} OthersKeepRow(o: Ticket, all: set<Fill>, book: Book, fills: seq<Fill>, e: Exec, f: Fill, k: nat)
    requires Within(o, all, fills) && OwnOf(all, fills) == {} && f in all && Belongs(o, f) && Holds(e, f, k)
    ensures Kept(book, fills, e)
  {
    forall g | g in fills ensures IsOther(o, all, g) {
      assert g in ItemsOf(fills);
      assert g in all ==> g in OwnOf(all, fills);
    }
    NoComboKeys(fills);
    assert SummaryIds(ComboKeys(fills), fills) == {};
    assert OwnId(all, f.execId) && OwnGroup(o, all, (f.account, Base(f)));
    AddedAreFills(IdsOf(book.execs), fills);
  }

  lemma {:induction false} BatchIsFresh(o: Ticket, all: set<Fill>, book: Book, got: set<Fill>, fills: seq<Fill>)
    requires IsComboOrder(o, all) && Valid(book) && AllFlagsRight(book.execs) && got <= all && Within(o, all, fills)
    requires Tracks(o, all, book, got) && Tagged(o, book, got) && IsFresh(o, book)
    ensures IsFresh(o, Ingest(book, fills, TWS, false))
  {
    WrittenMidway(o, all, book, got, fills);
    if OwnOf(all, fills) != {} {
      OwnBatch(o, all, book, got, OwnOf(all, fills), Written(book, fills, TWS));
      TouchedTradesAreUpToDate(book, fills, TWS);
    } else {
      OtherBatch(o, all, book, got, Written(book, fills, TWS));
      if got != {} { UntouchedStaysFresh(o, all, book, got, fills, Home(o, book.trades)); }
    }
  }

  lemma {:induction false} UntouchedStaysFresh(o: Ticket, all: set<Fill>, book: Book, got: set<Fill>, fills: seq<Fill>, k: nat)
    requires IsComboOrder(o, all) && Valid(book) && AllFlagsRight(book.execs) && got <= all && Within(o, all, fills) && OwnOf(all, fills) == {}
    requires Rows(o, all, book.execs, got, k) && k < |book.trades| && UpToDate(book, k) && k !in Touched(book, fills, TWS)
    ensures var r := Ingest(book, fills, TWS, false); k < |r.trades| && UpToDate(r, k)
  {
    OthersKeepRows(o, all, book, got, fills, k);
    UntouchedTotals(book, fills, TWS, false, k);
    UntouchedRowsStayExactly(book, fills, TWS, false, k);
  }

  lemma {:induction false} OthersKeepRows(o: Ticket, all: set<Fill>, book: Book, got: set<Fill>, fills: seq<Fill>, k: nat)
    requires IsComboOrder(o, all) && got <= all && Within(o, all, fills) && OwnOf(all, fills) == {} && Rows(o, all, book.execs, got, k)
    ensures forall e :: e in CanonicalOf(book.execs, k) ==> Kept(book, fills, e)
  {
    forall e | e in CanonicalOf(book.execs, k) ensures Kept(book, fills, e) {
      var i :| 0 <= i < |book.execs| && book.execs[i] == e;
      var f :| f in got && Holds(e, f, k);
      OthersKeepRow(o, all, book, fills, e, f, k);
    }
  }
}
