/**
  The fills of one TWS combo order, delivered over any number of batches among
  the fills of other orders, to any store that does not know the order: its
  stored rows, its trade's type and aggregates do not depend on how the fills
  were split, ordered or repeated, exactly when no two of them tie for the first
  revision of one base.
 */
module ComboRuns {
  import opened Common
  import opened FillIngest
  import opened ComboSynthesis
  import opened IngestPipeline
  import opened IngestProperties
  import opened AggregateProperties
  import opened ComboTracking
  import KR = KeptRows

  // ---------------------------------------------------------------------
  // Runs
  // ---------------------------------------------------------------------

  ghost function Delivered(batches: seq<seq<Fill>>): set<Fill> {
    if batches == [] then {}
    else Delivered(batches[..|batches| - 1]) + ItemsOf(batches[|batches| - 1])
  }

  /** Every batch holds fills of this order or of others. */
  ghost predicate AllWithin(o: Ticket, all: set<Fill>, batches: seq<seq<Fill>>) {
    forall b :: b in batches ==> Within(o, all, b)
  }

  /** The batches bring each of the order's fills at least once, among fills of other orders. */
  ghost predicate Delivers(o: Ticket, fills: set<Fill>, batches: seq<seq<Fill>>) {
    AllWithin(o, fills, batches) && fills <= Delivered(batches)
  }

  function Stored(book: Book, batches: seq<seq<Fill>>): Book {
    Run(book, Chunks(batches, TWS, false))
  }

  /** A sound store that does not know the order. */
  ghost predicate IsReady(o: Ticket, fills: set<Fill>, book: Book) {
    Valid(book) && AllFlagsRight(book.execs) && Unseen(o, fills, book)
  }

  lemma {:induction false} LastStored(book: Book, batches: seq<seq<Fill>>)
    requires batches != []
    ensures var front, last := batches[..|batches| - 1], batches[|batches| - 1];
      && Stored(book, batches) == Ingest(Stored(book, front), last, TWS, false)
      && Delivered(batches) == Delivered(front) + ItemsOf(last)
  {
    LastChunk(book, batches, TWS, false);
  }

  lemma {:induction false} NothingStored(book: Book)
    ensures Stored(book, []) == book
  {
    assert Chunks([], TWS, false) == [];
  }

  lemma {:induction false} StoredIsValid(book: Book, batches: seq<seq<Fill>>)
    requires Valid(book) && AllFlagsRight(book.execs)
    ensures Valid(Stored(book, batches)) && AllFlagsRight(Stored(book, batches).execs)
  {
    RunIsValid(book, Chunks(batches, TWS, false));
  }

  lemma {:induction false} StartTracks(o: Ticket, all: set<Fill>, book: Book)
    requires IsReady(o, all, book)
    ensures Tracks(o, all, book, {}) && Tagged(o, book, {}) && IsFresh(o, book)
  {
    var k := |book.trades|;
    forall i | 0 <= i < |book.execs| ensures IsForeign(o, all, book.execs[i], k) {}
    TracksAt(o, all, book, {}, k);
  }

  /** The order's fills delivered so far. */
  ghost function Got(all: set<Fill>, batches: seq<seq<Fill>>): set<Fill> {
    Delivered(batches) * all
  }

  lemma {:induction false} GotMore(all: set<Fill>, batches: seq<seq<Fill>>)
    requires batches != []
    ensures var front, last := batches[..|batches| - 1], batches[|batches| - 1]; Got(all, batches) == Got(all, front) + OwnOf(all, last)
  {}

  lemma {:induction false} RunTracks(o: Ticket, all: set<Fill>, book: Book, batches: seq<seq<Fill>>)
    requires IsComboOrder(o, all) && IsReady(o, all, book) && AllWithin(o, all, batches)
    ensures var r, got := Stored(book, batches), Got(all, batches);
      Tracks(o, all, r, got) && Tagged(o, r, got) && IsFresh(o, r)
  {
    if batches == [] {
      NothingStored(book);
      StartTracks(o, all, book);
      assert Got(all, batches) == {};
    } else {
      var front, last := batches[..|batches| - 1], batches[|batches| - 1];
      assert last in batches && AllWithin(o, all, front);
      RunTracks(o, all, book, front);
      StoredIsValid(book, front);
      LastStored(book, batches);
      GotMore(all, batches);
      BatchTracks(o, all, Stored(book, front), Got(all, front), last);
      BatchIsFresh(o, all, Stored(book, front), Got(all, front), last);
    }
  }

  // ---------------------------------------------------------------------
  // Which fill of a base is canonical
  // ---------------------------------------------------------------------

  /** Fill `g` is read before `f` when the revisions of a base are read. */
  ghost predicate Outranks(g: Fill, f: Fill) {
    Revision(g) > Revision(f) || (Revision(g) == Revision(f) && ROW_ORDER(g.execId) < ROW_ORDER(f.execId))
  }

  ghost predicate IsTop(fills: set<Fill>, f: Fill) {
    f in fills && forall g :: g in fills && Base(g) == Base(f) ==> !Outranks(g, f)
  }

  /** No two fills of a base tie for being read first. */
  ghost predicate UniqueTop(fills: set<Fill>) {
    forall f, g :: IsTop(fills, f) && IsTop(fills, g) && Base(f) == Base(g) ==> f == g
  }

  /** No two fills share the highest revision of their base. */
  ghost predicate OneHighestRevision(fills: set<Fill>) {
    forall f, g :: HasHighest(fills, f) && HasHighest(fills, g) && Base(f) == Base(g) ==> f == g
  }

  ghost predicate HasHighest(fills: set<Fill>, f: Fill) {
    f in fills && forall g :: g in fills && Base(g) == Base(f) ==> Revision(g) <= Revision(f)
  }

  /** With one highest revision per base no order of tied rows matters, and the first is the highest. */
  lemma {:induction false} HighestIsTop(fills: set<Fill>)
    requires OneHighestRevision(fills)
    ensures UniqueTop(fills)
    ensures forall f :: f in fills ==> (IsTop(fills, f) <==> HasHighest(fills, f))
  {
    forall f | f in fills ensures IsTop(fills, f) <==> HasHighest(fills, f) {
      if HasHighest(fills, f) {
        forall g | g in fills && Base(g) == Base(f) ensures !Outranks(g, f) {
          assert Revision(g) == Revision(f) ==> HasHighest(fills, g);
        }
      }
    }
  }

  // ---------------------------------------------------------------------
  // Where every run ends
  // ---------------------------------------------------------------------

  /** The row each fill ends in, under trade `k`. */
  ghost function FinalRow(fills: set<Fill>, f: Fill, k: nat): Exec {
    NewExec(k, f, TWS).(role := if f.isComboSummary then ComboSummary else Leg, canonical := IsTop(fills, f))
  }

  ghost function FinalRows(fills: set<Fill>, k: nat): set<Exec> {
    set f | f in fills :: FinalRow(fills, f, k)
  }

  /** What is known of the store at the end of a delivery. */
  ghost predicate Complete(o: Ticket, all: set<Fill>, r: Book) {
    IsComboOrder(o, all) && Valid(r) && AllFlagsRight(r.execs) && Tracks(o, all, r, all) && Tagged(o, r, all) && IsFresh(o, r)
  }

  lemma {:induction false} DeliveredIsComplete(o: Ticket, all: set<Fill>, book: Book, batches: seq<seq<Fill>>)
    requires IsComboOrder(o, all) && IsReady(o, all, book) && Delivers(o, all, batches)
    ensures Complete(o, all, Stored(book, batches))
  {
    assert Got(all, batches) == all;
    RunTracks(o, all, book, batches);
    StoredIsValid(book, batches);
  }

  lemma {:induction false} RowOfGroup(o: Ticket, all: set<Fill>, r: Book, f: Fill, j: nat)
    requires Complete(o, all, r) && f in all && j < |r.execs| && GroupOf(r.execs[j]) == (f.account, Base(f))
    ensures HoldsOne(r.execs[j], all, Home(o, r.trades))
  {
    assert Belongs(o, f);
    assert OwnGroup(o, all, (f.account, Base(f)));
  }

  /** Among the order's rows, one is read before another exactly when its fill outranks the other's. */
  lemma {:induction false} RowsRankAsFills(e: Exec, e': Exec, f: Fill, g: Fill, k: nat)
    requires Holds(e, f, k) && Holds(e', g, k)
    ensures ComesBefore(e', e, ROW_ORDER) <==> Outranks(g, f)
    ensures GroupOf(e) == (f.account, Base(f))
  {}

  lemma {:induction false} TopRow(o: Ticket, all: set<Fill>, r: Book, i: nat, f: Fill)
    requires Complete(o, all, r) && i < |r.execs| && f in all && Holds(r.execs[i], f, Home(o, r.trades))
    ensures (forall j :: 0 <= j < |r.execs| && InGroup(r.execs[j], GroupOf(r.execs[i])) ==> !ComesBefore(r.execs[j], r.execs[i], ROW_ORDER)) <==> IsTop(all, f)
  {
    var k, grp := Home(o, r.trades), GroupOf(r.execs[i]);
    if IsTop(all, f) {
      forall j | 0 <= j < |r.execs| && InGroup(r.execs[j], grp) ensures !ComesBefore(r.execs[j], r.execs[i], ROW_ORDER) {
        RowOfGroup(o, all, r, f, j);
        var g :| g in all && Holds(r.execs[j], g, k);
        RowsRankAsFills(r.execs[i], r.execs[j], f, g, k);
      }
    } else {
      var g :| g in all && Base(g) == Base(f) && Outranks(g, f);
      var j :| 0 <= j < |r.execs| && Holds(r.execs[j], g, k);
      assert Belongs(o, g) && Belongs(o, f);
      RowsRankAsFills(r.execs[i], r.execs[j], f, g, k);
      assert InGroup(r.execs[j], grp);
    }
  }

  lemma {:induction false} TopRowIsFirst(o: Ticket, all: set<Fill>, r: Book, i: nat, f: Fill, j: nat)
    requires Complete(o, all, r) && UniqueTop(all) && IsTop(all, f)
    requires j < i < |r.execs| && f in all && Holds(r.execs[i], f, Home(o, r.trades)) && InGroup(r.execs[j], GroupOf(r.execs[i]))
    ensures ComesBefore(r.execs[i], r.execs[j], ROW_ORDER)
  {
    var k := Home(o, r.trades);
    RowOfGroup(o, all, r, f, j);
    var g :| g in all && Holds(r.execs[j], g, k);
    RowsRankAsFills(r.execs[j], r.execs[i], g, f, k);
    TopOutranks(all, f, g);
  }

  lemma {:induction false} TopOutranks(all: set<Fill>, f: Fill, g: Fill)
    requires UniqueTop(all) && IsTop(all, f) && g in all && Base(g) == Base(f) && g != f
    ensures Outranks(f, g)
  {
    assert !IsTop(all, g);
    var h :| h in all && Base(h) == Base(g) && Outranks(h, g);
    assert !Outranks(h, f);
  }

  lemma {:induction false} CanonicalIsTop(o: Ticket, all: set<Fill>, r: Book, i: nat, f: Fill)
    requires Complete(o, all, r) && UniqueTop(all) && i < |r.execs| && f in all && Holds(r.execs[i], f, Home(o, r.trades))
    ensures r.execs[i].canonical <==> IsTop(all, f)
  {
    var g := GroupOf(r.execs[i]);
    assert FlagsRight(r.execs, g) && InGroup(r.execs[i], g);
    KR.BestMeans(r.execs, g, i);
    TopRow(o, all, r, i, f);
    if IsTop(all, f) {
      forall j | 0 <= j < i && InGroup(r.execs[j], g) ensures ComesBefore(r.execs[i], r.execs[j], ROW_ORDER) {
        TopRowIsFirst(o, all, r, i, f, j);
      }
    }
  }

  lemma {:induction false} RowIsFinal(o: Ticket, all: set<Fill>, r: Book, i: nat, f: Fill)
    requires Complete(o, all, r) && UniqueTop(all) && i < |r.execs| && f in all && Holds(r.execs[i], f, Home(o, r.trades))
    ensures r.execs[i] == FinalRow(all, f, Home(o, r.trades))
  {
    CanonicalIsTop(o, all, r, i, f);
  }

  /** The rows of the order's trade, in table order. */
  function RowsOf(o: Ticket, r: Book): seq<Exec> {
    Filter(r.execs, Under(Home(o, r.trades)))
  }

  function Under(k: nat): Exec -> bool {
    (e: Exec) => e.tradeId == k
  }

  lemma {:induction false} OwnRowIsFinal(o: Ticket, all: set<Fill>, r: Book, e: Exec)
    requires Complete(o, all, r) && UniqueTop(all) && e in r.execs && e.tradeId == Home(o, r.trades)
    ensures e in FinalRows(all, Home(o, r.trades))
  {
    var k := Home(o, r.trades);
    var i :| 0 <= i < |r.execs| && r.execs[i] == e;
    assert HoldsOne(r.execs[i], all, k) || IsForeign(o, all, r.execs[i], k);
    var f :| f in all && Holds(e, f, k);
    RowIsFinal(o, all, r, i, f);
  }

  lemma {:induction false} FillHasItsRow(o: Ticket, all: set<Fill>, r: Book, f: Fill)
    requires Complete(o, all, r) && UniqueTop(all) && f in all
    ensures FinalRow(all, f, Home(o, r.trades)) in r.execs
  {
    assert IsHeld(r.execs, f, Home(o, r.trades));
    var i :| 0 <= i < |r.execs| && Holds(r.execs[i], f, Home(o, r.trades));
    RowIsFinal(o, all, r, i, f);
  }

  lemma {:induction false} ValidIsDistinct(r: Book)
    requires Valid(r)
    ensures Distinct(r.execs)
  {}

  lemma {:induction false} RowsAreFinal(o: Ticket, all: set<Fill>, r: Book)
    requires Complete(o, all, r) && UniqueTop(all)
    ensures Distinct(RowsOf(o, r)) && forall e :: e in RowsOf(o, r) <==> e in FinalRows(all, Home(o, r.trades))
  {
    var k := Home(o, r.trades);
    ValidIsDistinct(r);
    FilterKeepsDistinct(r.execs, Under(k));
    forall e | e in RowsOf(o, r) ensures e in FinalRows(all, k) {
      OwnRowIsFinal(o, all, r, e);
    }
    forall e | e in FinalRows(all, k) ensures e in RowsOf(o, r) {
      var f :| f in all && e == FinalRow(all, f, k);
      FillHasItsRow(o, all, r, f);
    }
  }

  /**
    However the fills were delivered among others, the order has one trade, of
    type BAG and with fresh totals, under which the table holds exactly one row
    per fill, each the fill's final row.
   */
  lemma {:induction false} ComboRunProperty(o: Ticket, fills: set<Fill>, book: Book, batches: seq<seq<Fill>>)
    requires IsComboOrder(o, fills) && UniqueTop(fills) && IsReady(o, fills, book) && Delivers(o, fills, batches)
    ensures var r, k := Stored(book, batches), Home(o, Stored(book, batches).trades);
      && k < |r.trades| && (forall t :: 0 <= t < |r.trades| ==> (Named(r.trades[t], o) <==> t == k))
      && r.trades[k].info.secType == Some("BAG") && r.trades[k].totals == TotalsOf(r.execs, k)
      && Distinct(RowsOf(o, r))
      && (forall e :: e in RowsOf(o, r) <==> e in FinalRows(fills, k))
  {
    var r := Stored(book, batches);
    DeliveredIsComplete(o, fills, book, batches);
    RowsAreFinal(o, fills, r);
    assert UpToDate(r, Home(o, r.trades));
  }

  // ---------------------------------------------------------------------
  // Aggregates do not depend on the order of the rows, nor on the trade's place
  // ---------------------------------------------------------------------

  lemma {:induction false} SelectCounts(rows: seq<Exec>, p: Exec -> bool)
    ensures forall e :: multiset(Filter(rows, p))[e] == if p(e) then multiset(rows)[e] else 0
  {
    if rows != [] {
      var front, last := rows[..|rows| - 1], rows[|rows| - 1];
      assert rows == front + [last];
      SelectCounts(front, p);
    }
  }

  lemma SelectOfPermutation(rows: seq<Exec>, other: seq<Exec>, p: Exec -> bool)
    requires multiset(rows) == multiset(other)
    ensures multiset(Filter(rows, p)) == multiset(Filter(other, p))
  {
    SelectCounts(rows, p);
    SelectCounts(other, p);
  }

  lemma EmptyPermutation(rows: seq<Exec>, other: seq<Exec>)
    requires multiset(rows) == multiset(other)
    ensures rows == [] <==> other == []
  {
    SameLength(rows, other);
  }

  lemma TimesOfPermutation(rows: seq<Exec>, other: seq<Exec>)
    requires multiset(rows) == multiset(other) && rows != [] && other != []
    ensures Earliest(rows) == Earliest(other) && Latest(rows) == Latest(other) && StatusOf(rows) == StatusOf(other)
  {
    SameElements(rows, other);
    TimesProperty(rows);
    TimesProperty(other);
    assert rows[0] in other && other[0] in rows;
  }

  lemma CountedOfPermutation(rows: seq<Exec>, other: seq<Exec>)
    requires multiset(rows) == multiset(other)
    ensures multiset(CountedOf(rows)) == multiset(CountedOf(other))
  {
    var isSummary := (e: Exec) => e.role == ComboSummary;
    SelectOfPermutation(rows, other, isSummary);
    EmptyPermutation(Filter(rows, isSummary), Filter(other, isSummary));
  }

  lemma TotalsOfPermutation(mine: seq<Exec>, theirs: seq<Exec>)
    requires multiset(mine) == multiset(theirs)
    ensures TotalsFrom(mine) == TotalsFrom(theirs)
  {
    EmptyPermutation(mine, theirs);
    if mine != [] {
      TimesOfPermutation(mine, theirs);
      CountedOfPermutation(mine, theirs);
      SumOfPermutation(CountedOf(mine), CountedOf(theirs), Size);
      SumOfPermutation(CountedOf(mine), CountedOf(theirs), Notional);
    }
  }

  /** A row without the place of its trade. */
  function Rehomed(e: Exec): Exec { e.(tradeId := 0) }

  /** The order's rows without the place of their trade. */
  function PlainRows(o: Ticket, r: Book): seq<Exec> {
    Map(RowsOf(o, r), Rehomed)
  }

  lemma {:induction false} TimesOfRehomed(rows: seq<Exec>)
    requires rows != []
    ensures Earliest(Map(rows, Rehomed)) == Earliest(rows) && Latest(Map(rows, Rehomed)) == Latest(rows)
  {
    var mapped := Map(rows, Rehomed);
    if |rows| > 1 {
      assert mapped[..|mapped| - 1] == Map(rows[..|rows| - 1], Rehomed);
      TimesOfRehomed(rows[..|rows| - 1]);
    }
  }

  lemma {:induction false} StatusOfRehomed(rows: seq<Exec>)
    requires rows != []
    ensures StatusOf(Map(rows, Rehomed)) == StatusOf(rows)
  {
    var mapped := Map(rows, Rehomed);
    forall i | 0 <= i < |rows| ensures mapped[i] in mapped && rows[i] in rows && mapped[i].outcome == rows[i].outcome {}
    if e :| e in rows && e.outcome != rows[0].outcome {
      var i :| 0 <= i < |rows| && rows[i] == e;
      assert mapped[i] in mapped;
    }
    if e :| e in mapped && e.outcome != mapped[0].outcome {
      var i :| 0 <= i < |mapped| && mapped[i] == e;
      assert rows[i] in rows;
    }
  }

  lemma {:induction false} SumOfRehomed(rows: seq<Exec>, f: Exec -> real)
    requires forall e :: f(Rehomed(e)) == f(e)
    ensures Sum(Map(rows, Rehomed), f) == Sum(rows, f)
  {
    SumOfMap(rows, Rehomed, f);
    SumAgrees(rows, Then(Rehomed, f), f);
  }

  lemma {:induction false} CountedOfRehomed(rows: seq<Exec>)
    ensures CountedOf(Map(rows, Rehomed)) == Map(CountedOf(rows), Rehomed)
  {
    var isSummary := (e: Exec) => e.role == ComboSummary;
    FilterOfMap(rows, Rehomed, isSummary, isSummary);
  }

  /** The aggregates do not name the trade the rows hang off. */
  lemma {:induction false} TotalsOfRehomed(rows: seq<Exec>)
    ensures TotalsFrom(Map(rows, Rehomed)) == TotalsFrom(rows)
  {
    if rows != [] {
      SumsOfRehomed(rows);
      TimesOfRehomed(rows);
      StatusOfRehomed(rows);
      SameParts(Map(rows, Rehomed), rows);
    }
  }

  lemma {:induction false} SumsOfRehomed(rows: seq<Exec>)
    ensures Sum(CountedOf(Map(rows, Rehomed)), Size) == Sum(CountedOf(rows), Size)
    ensures Sum(CountedOf(Map(rows, Rehomed)), Notional) == Sum(CountedOf(rows), Notional)
  {
    CountedOfRehomed(rows);
    SameSizes(CountedOf(Map(rows, Rehomed)), CountedOf(rows));
  }

  lemma {:induction false} SameSizes(moved: seq<Exec>, rows: seq<Exec>)
    requires moved == Map(rows, Rehomed)
    ensures Sum(moved, Size) == Sum(rows, Size) && Sum(moved, Notional) == Sum(rows, Notional)
  {
    SumOfRehomed(rows, Size);
    SumOfRehomed(rows, Notional);
  }

  lemma SameParts(a: seq<Exec>, b: seq<Exec>)
    requires a != [] && b != [] && StatusOf(a) == StatusOf(b) && Earliest(a) == Earliest(b) && Latest(a) == Latest(b)
    requires Sum(CountedOf(a), Size) == Sum(CountedOf(b), Size) && Sum(CountedOf(a), Notional) == Sum(CountedOf(b), Notional)
    ensures TotalsFrom(a) == TotalsFrom(b)
  {}

  function IsCanonical(): Exec -> bool {
    (e: Exec) => e.canonical
  }

  lemma {:induction false} TotalsOfPlainRows(o: Ticket, r: Book)
    ensures TotalsOf(r.execs, Home(o, r.trades)) == TotalsFrom(Filter(PlainRows(o, r), IsCanonical()))
  {
    var k := Home(o, r.trades);
    FilterTwice(r.execs, Under(k), IsCanonical(), (e: Exec) => e.tradeId == k && e.canonical);
    FilterOfMap(RowsOf(o, r), Rehomed, IsCanonical(), IsCanonical());
    TotalsOfRehomed(CanonicalOf(r.execs, k));
  }

  // ---------------------------------------------------------------------
  // Splitting, order and repetition do not matter
  // ---------------------------------------------------------------------

  /** The same rows up to their place and their trade's, and one trade of the same type with the same aggregates. */
  ghost predicate SameOutcome(o: Ticket, a: Book, b: Book) {
    var j, k := Home(o, a.trades), Home(o, b.trades);
    && multiset(PlainRows(o, a)) == multiset(PlainRows(o, b))
    && j < |a.trades| && k < |b.trades|
    && a.trades[j].info.secType == b.trades[k].info.secType == Some("BAG")
    && a.trades[j].totals == b.trades[k].totals
  }

  lemma {:induction false} DistinctRehomed(rows: seq<Exec>, k: nat)
    requires Distinct(rows) && forall e :: e in rows ==> e.tradeId == k
    ensures Distinct(Map(rows, Rehomed))
  {
    var mapped := Map(rows, Rehomed);
    forall i, j | 0 <= i < j < |mapped| ensures mapped[i] != mapped[j] {
      assert rows[i] in rows && rows[j] in rows && rows[i] != rows[j];
    }
  }

  lemma {:induction false} MapMembers(rows: seq<Exec>)
    ensures forall e :: e in Map(rows, Rehomed) <==> exists x :: x in rows && Rehomed(x) == e
  {
    var mapped := Map(rows, Rehomed);
    forall e ensures e in mapped <==> exists x :: x in rows && Rehomed(x) == e {
      if e in mapped {
        var i :| 0 <= i < |mapped| && mapped[i] == e;
        assert rows[i] in rows && Rehomed(rows[i]) == e;
      }
      if x :| x in rows && Rehomed(x) == e {
        var i :| 0 <= i < |rows| && rows[i] == x;
        assert mapped[i] == e;
      }
    }
  }

  lemma {:induction false} RehomedIsFinal(all: set<Fill>, k: nat)
    ensures forall e :: e in FinalRows(all, 0) <==> exists x :: x in FinalRows(all, k) && Rehomed(x) == e
  {
    forall f | f in all ensures Rehomed(FinalRow(all, f, k)) == FinalRow(all, f, 0) && FinalRow(all, f, k) in FinalRows(all, k) {}
    forall e | e in FinalRows(all, 0) ensures exists x :: x in FinalRows(all, k) && Rehomed(x) == e {
      var f :| f in all && e == FinalRow(all, f, 0);
      assert FinalRow(all, f, k) in FinalRows(all, k);
    }
  }

  lemma {:induction false} PlainRowsAreFinal(o: Ticket, all: set<Fill>, r: Book)
    requires Complete(o, all, r) && UniqueTop(all)
    ensures Distinct(PlainRows(o, r)) && forall e :: e in PlainRows(o, r) <==> e in FinalRows(all, 0)
  {
    RowsAreFinal(o, all, r);
    DistinctRehomed(RowsOf(o, r), Home(o, r.trades));
    MapMembers(RowsOf(o, r));
    RehomedIsFinal(all, Home(o, r.trades));
  }

  lemma {:induction false} CompleteAgree(o: Ticket, all: set<Fill>, a: Book, b: Book)
    requires Complete(o, all, a) && Complete(o, all, b) && UniqueTop(all)
    ensures SameOutcome(o, a, b)
  {
    PlainRowsAreFinal(o, all, a);
    PlainRowsAreFinal(o, all, b);
    SameListing(PlainRows(o, a), PlainRows(o, b));
    TotalsOfPlainRows(o, a);
    TotalsOfPlainRows(o, b);
    SelectOfPermutation(PlainRows(o, a), PlainRows(o, b), IsCanonical());
    TotalsOfPermutation(Filter(PlainRows(o, a), IsCanonical()), Filter(PlainRows(o, b), IsCanonical()));
    assert UpToDate(a, Home(o, a.trades)) && UpToDate(b, Home(o, b.trades));
  }

  /** Two deliveries of the same fills, to any two stores that do not know the order, among any fills of other orders. */
  lemma DeliveriesAgree(o: Ticket, fills: set<Fill>, a: Book, b: Book, xs: seq<seq<Fill>>, ys: seq<seq<Fill>>)
    requires IsComboOrder(o, fills) && OneHighestRevision(fills) && IsReady(o, fills, a) && IsReady(o, fills, b)
    requires Delivers(o, fills, xs) && Delivers(o, fills, ys)
    ensures SameOutcome(o, Stored(a, xs), Stored(b, ys))
  {
    HighestIsTop(fills);
    DeliveredIsComplete(o, fills, a, xs);
    DeliveredIsComplete(o, fills, b, ys);
    CompleteAgree(o, fills, Stored(a, xs), Stored(b, ys));
  }

  // ---------------------------------------------------------------------
  // With a tie they may differ
  // ---------------------------------------------------------------------

  /** One delivery that stores `first` before the order's other fills. */
  ghost function Leading(first: Fill, fills: set<Fill>): seq<seq<Fill>> {
    [[first], Listing(fills)]
  }

  lemma {:induction false} LeadingDelivers(o: Ticket, first: Fill, fills: set<Fill>)
    requires first in fills
    ensures Delivers(o, fills, Leading(first, fills))
  {
    var xs := Leading(first, fills);
    assert xs[..1] == [[first]];
    forall f | f in fills ensures f in Delivered(xs) {
      assert f in Listing(fills) && f in ItemsOf(Listing(fills));
    }
  }

  lemma {:induction false} IngestKeepsIds(book: Book, fills: seq<Fill>)
    requires Valid(book) && AllFlagsRight(book.execs)
    ensures var r := Ingest(book, fills, TWS, false);
      |book.execs| <= |r.execs| && forall i :: 0 <= i < |book.execs| ==> r.execs[i].execId == book.execs[i].execId
  {
    FinishProperty(book, fills, TWS, false);
  }

  /** After the leading batch the order's first fill has a row, and no other of its fills has one. */
  lemma {:induction false} LeaderIsStored(o: Ticket, fills: set<Fill>, book: Book, first: Fill) returns (i: nat)
    requires IsComboOrder(o, fills) && IsReady(o, fills, book) && first in fills
    ensures var r := Stored(book, [[first]]);
      && i < |r.execs| && r.execs[i].execId == first.execId
      && forall j, f :: 0 <= j < |r.execs| && f in fills && r.execs[j].execId == f.execId ==> f == first
  {
    var xs := [[first]];
    assert xs[..0] == [] && Delivered([]) == {};
    assert first in [first];
    assert Got(fills, xs) == {first};
    RunTracks(o, fills, book, xs);
    var r := Stored(book, xs);
    i :| 0 <= i < |r.execs| && Holds(r.execs[i], first, Home(o, r.trades));
    forall j, f | 0 <= j < |r.execs| && f in fills && r.execs[j].execId == f.execId ensures f == first {
      OnlyLeaderRow(o, fills, r.execs, first, Home(o, r.trades), f, j);
    }
  }

  lemma {:induction false} OnlyLeaderRow(o: Ticket, fills: set<Fill>, execs: seq<Exec>, first: Fill, k: nat, f: Fill, j: nat)
    requires IsComboOrder(o, fills) && first in fills && f in fills && Rows(o, fills, execs, {first}, k)
    requires j < |execs| && execs[j].execId == f.execId
    ensures f == first
  {
    assert OwnId(fills, f.execId);
    assert HoldsOne(execs[j], {first}, k);
  }

  /** In the end the leader's row comes before the row of any other fill of the order. */
  lemma {:induction false} LeaderComesFirst(o: Ticket, fills: set<Fill>, book: Book, first: Fill) returns (i: nat)
    requires IsComboOrder(o, fills) && IsReady(o, fills, book) && first in fills
    ensures var r := Stored(book, Leading(first, fills));
      && i < |r.execs| && r.execs[i].execId == first.execId
      && forall j, f :: 0 <= j < |r.execs| && f in fills && f != first && r.execs[j].execId == f.execId ==> i < j
  {
    var xs := Leading(first, fills);
    assert xs[..1] == [[first]];
    LastStored(book, xs);
    StoredIsValid(book, [[first]]);
    i := LeaderIsStored(o, fills, book, first);
    IngestKeepsIds(Stored(book, [[first]]), Listing(fills));
  }

  lemma {:induction false} RowHoldsFill(o: Ticket, fills: set<Fill>, r: Book, f: Fill, i: nat)
    requires Complete(o, fills, r) && f in fills && i < |r.execs| && r.execs[i].execId == f.execId
    ensures Holds(r.execs[i], f, Home(o, r.trades))
  {
    OwnRowIsFound(o, fills, r.execs, fills, Home(o, r.trades), f, i);
  }

  /** Of two fills that tie for the top of their base, the one whose row comes first is canonical. */
  lemma {:induction false} EarlierTieWins(o: Ticket, fills: set<Fill>, r: Book, f: Fill, i: nat, g: Fill, j: nat)
    requires Complete(o, fills, r) && IsTop(fills, f) && IsTop(fills, g) && Base(f) == Base(g) && f != g
    requires i < j < |r.execs| && r.execs[i].execId == f.execId && r.execs[j].execId == g.execId
    ensures !r.execs[j].canonical
  {
    var k, grp := Home(o, r.trades), GroupOf(r.execs[j]);
    RowHoldsFill(o, fills, r, f, i);
    RowHoldsFill(o, fills, r, g, j);
    assert Belongs(o, f) && Belongs(o, g);
    RowsRankAsFills(r.execs[i], r.execs[j], f, g, k);
    RowsRankAsFills(r.execs[j], r.execs[i], g, f, k);
    assert FlagsRight(r.execs, grp) && InGroup(r.execs[j], grp) && InGroup(r.execs[i], grp);
    KR.BestMeans(r.execs, grp, j);
  }

  lemma {:induction false} LeaderIsCanonical(o: Ticket, fills: set<Fill>, r: Book, f: Fill, i: nat)
    requires Complete(o, fills, r) && IsTop(fills, f) && i < |r.execs| && r.execs[i].execId == f.execId
    requires forall j, g :: 0 <= j < |r.execs| && g in fills && g != f && r.execs[j].execId == g.execId ==> i < j
    ensures r.execs[i].canonical
  {
    var k, grp := Home(o, r.trades), GroupOf(r.execs[i]);
    RowHoldsFill(o, fills, r, f, i);
    TopRow(o, fills, r, i, f);
    assert FlagsRight(r.execs, grp) && InGroup(r.execs[i], grp);
    KR.BestMeans(r.execs, grp, i);
    forall j | 0 <= j < |r.execs| && InGroup(r.execs[j], grp) ensures i <= j {
      OwnRowsFollow(o, fills, r, f, i, j);
    }
  }

  lemma {:induction false} OwnRowsFollow(o: Ticket, fills: set<Fill>, r: Book, f: Fill, i: nat, j: nat)
    requires Complete(o, fills, r) && f in fills && i < |r.execs| && Holds(r.execs[i], f, Home(o, r.trades))
    requires forall j, g :: 0 <= j < |r.execs| && g in fills && g != f && r.execs[j].execId == g.execId ==> i < j
    requires j < |r.execs| && InGroup(r.execs[j], GroupOf(r.execs[i]))
    ensures i <= j
  {
    assert Belongs(o, f);
    RowOfGroup(o, fills, r, f, j);
    var g :| g in fills && Holds(r.execs[j], g, Home(o, r.trades));
    if g == f {
      assert r.execs[i].execId == r.execs[j].execId;
    }
  }

  /** The plain row of a fill, by its id. */
  lemma {:induction false} PlainRowOf(o: Ticket, fills: set<Fill>, r: Book, f: Fill, i: nat)
    requires Complete(o, fills, r) && f in fills && i < |r.execs| && r.execs[i].execId == f.execId
    ensures Rehomed(r.execs[i]) in PlainRows(o, r)
    ensures forall e :: e in PlainRows(o, r) && e.execId == f.execId ==> e.canonical == r.execs[i].canonical
  {
    RowHoldsFill(o, fills, r, f, i);
    MapMembers(RowsOf(o, r));
    assert r.execs[i] in r.execs && r.execs[i] in RowsOf(o, r);
    forall e | e in PlainRows(o, r) && e.execId == f.execId ensures e.canonical == r.execs[i].canonical {
      var x :| x in RowsOf(o, r) && Rehomed(x) == e;
      OneRowPerId(r, x, i);
    }
  }

  lemma {:induction false} OneRowPerId(r: Book, x: Exec, i: nat)
    requires Valid(r) && x in r.execs && i < |r.execs| && x.execId == r.execs[i].execId
    ensures x == r.execs[i]
  {
    var j :| 0 <= j < |r.execs| && r.execs[j] == x;
  }

  /** A fill that ties for the top is canonical when it leads, and its rival is not. */
  lemma {:induction false} FirstStoredWins(o: Ticket, fills: set<Fill>, book: Book, f: Fill, g: Fill)
    requires IsComboOrder(o, fills) && IsReady(o, fills, book)
    requires IsTop(fills, f) && IsTop(fills, g) && Base(f) == Base(g) && f != g
    ensures var r := Stored(book, Leading(f, fills));
      && (exists e :: e in PlainRows(o, r) && e.execId == f.execId && e.canonical)
      && (forall e :: e in PlainRows(o, r) && e.execId == g.execId ==> !e.canonical)
  {
    LeadingDelivers(o, f, fills);
    DeliveredIsComplete(o, fills, book, Leading(f, fills));
    var i := LeaderComesFirst(o, fills, book, f);
    LeaderWins(o, fills, Stored(book, Leading(f, fills)), f, g, i);
  }

  lemma {:induction false} LeaderWins(o: Ticket, fills: set<Fill>, r: Book, f: Fill, g: Fill, i: nat)
    requires Complete(o, fills, r) && IsTop(fills, f) && IsTop(fills, g) && Base(f) == Base(g) && f != g
    requires i < |r.execs| && r.execs[i].execId == f.execId
    requires forall j, g :: 0 <= j < |r.execs| && g in fills && g != f && r.execs[j].execId == g.execId ==> i < j
    ensures exists e :: e in PlainRows(o, r) && e.execId == f.execId && e.canonical
    ensures forall e :: e in PlainRows(o, r) && e.execId == g.execId ==> !e.canonical
  {
    LeaderIsCanonical(o, fills, r, f, i);
    PlainRowOf(o, fills, r, f, i);
    RivalLoses(o, fills, r, f, g, i);
  }

  lemma {:induction false} RivalLoses(o: Ticket, fills: set<Fill>, r: Book, f: Fill, g: Fill, i: nat)
    requires Complete(o, fills, r) && IsTop(fills, f) && IsTop(fills, g) && Base(f) == Base(g) && f != g
    requires i < |r.execs| && r.execs[i].execId == f.execId
    requires forall j, g :: 0 <= j < |r.execs| && g in fills && g != f && r.execs[j].execId == g.execId ==> i < j
    ensures forall e :: e in PlainRows(o, r) && e.execId == g.execId ==> !e.canonical
  {
    var k := Home(o, r.trades);
    assert IsHeld(r.execs, g, k);
    var j :| 0 <= j < |r.execs| && Holds(r.execs[j], g, k);
    EarlierTieWins(o, fills, r, f, i, g, j);
    PlainRowOf(o, fills, r, g, j);
  }

  lemma {:induction false} TiedDeliveriesDiffer(o: Ticket, fills: set<Fill>, a: Book, b: Book, f: Fill, g: Fill)
    requires IsComboOrder(o, fills) && IsReady(o, fills, a) && IsReady(o, fills, b)
    requires IsTop(fills, f) && IsTop(fills, g) && Base(f) == Base(g) && f != g
    ensures Delivers(o, fills, Leading(f, fills)) && Delivers(o, fills, Leading(g, fills))
    ensures !SameOutcome(o, Stored(a, Leading(f, fills)), Stored(b, Leading(g, fills)))
  {
    LeadingDelivers(o, f, fills);
    LeadingDelivers(o, g, fills);
    FirstStoredWins(o, fills, a, f, g);
    FirstStoredWins(o, fills, b, g, f);
    var mine, theirs := PlainRows(o, Stored(a, Leading(f, fills))), PlainRows(o, Stored(b, Leading(g, fills)));
    var e :| e in mine && e.execId == f.execId && e.canonical;
    if multiset(mine) == multiset(theirs) {
      SameElements(mine, theirs);
    }
  }

  /**
    Between any two stores that do not know the order, all deliveries of its
    fills end in the same rows, type and aggregates exactly when no two fills
    tie for being read first among the revisions of a base.
   */
  lemma {:induction false} DeliveriesAgreeExactly(o: Ticket, fills: set<Fill>, a: Book, b: Book)
    requires IsComboOrder(o, fills) && IsReady(o, fills, a) && IsReady(o, fills, b)
    ensures UniqueTop(fills) <==>
      forall xs, ys :: Delivers(o, fills, xs) && Delivers(o, fills, ys) ==> SameOutcome(o, Stored(a, xs), Stored(b, ys))
  {
    if UniqueTop(fills) {
      forall xs, ys | Delivers(o, fills, xs) && Delivers(o, fills, ys) ensures SameOutcome(o, Stored(a, xs), Stored(b, ys)) {
        DeliveredIsComplete(o, fills, a, xs);
        DeliveredIsComplete(o, fills, b, ys);
        CompleteAgree(o, fills, Stored(a, xs), Stored(b, ys));
      }
    } else {
      var f, g :| IsTop(fills, f) && IsTop(fills, g) && Base(f) == Base(g) && f != g;
      TiedDeliveriesDiffer(o, fills, a, b, f, g);
    }
  }

  // ---------------------------------------------------------------------
  // Ids that tie
  // ---------------------------------------------------------------------

  function SampleFill(id: string, isSummary: bool): Fill {
    Fill(1, id, 0, 1.0, 70.0, Some("BUY"), Some("CL"), Some("FUT"), Some("NYMEX"), Some("USD"), None, Filled, Some(9), None, None,
         None, None, isSummary)
  }

  lemma {:induction false} PlainIdParses()
    ensures ParseExecId("c") == ("c.", 1)
  {
    assert "c"[0] != '.' && "c"[..0] == "";
    assert LastDot("c") == -1;
    assert "c" + "." == "c.";
  }

  lemma {:induction false} NumberedIdParses()
    ensures ParseExecId("c.1") == ("c.", 1)
  {
    var id := "c.1";
    assert LastDot(id) == 1 by {
      assert id[1] == '.' && id[2] != '.';
    }
    assert id[..2] == "c." && id[2..] == "1";
    assert "1"[..0] == "";
    assert NumberOf("1") == 10 * NumberOf("") + 1;
  }

  /** The fills of a combo order, two of which share a base and its highest revision; a store that does not tell their ids apart ties them. */
  ghost predicate TiesOn(o: Ticket, fills: set<Fill>, a: string, b: string) {
    && IsComboOrder(o, fills) && !OneHighestRevision(fills)
    && (ROW_ORDER(a) == ROW_ORDER(b) ==> !UniqueTop(fills))
  }

  function SampleFills(a: string, b: string): set<Fill> {
    {SampleFill(a, true), SampleFill(b, false)}
  }

  /** The ids `c` and `c.1`, both of base `c.` and revision 1, tie a combo order. */
  lemma {:induction false} SomeIdsTie()
    ensures TiesOn(Ticket(1, 9), SampleFills("c", "c.1"), "c", "c.1")
  {
    PlainIdParses();
    NumberedIdParses();
    assert |"c"| != |"c.1"|;
    SampleFillsTie("c", "c.1");
  }

  lemma {:induction false} SampleFillsTie(a: string, b: string)
    requires a != b && ParseExecId(a) == ParseExecId(b)
    ensures TiesOn(Ticket(1, 9), SampleFills(a, b), a, b)
  {
    var f, g := SampleFill(a, true), SampleFill(b, false);
    PairTies(f, g);
    PairIsCombo(Ticket(1, 9), f, g);
  }

  lemma {:induction false} PairTies(f: Fill, g: Fill)
    requires f != g && Base(f) == Base(g) && Revision(f) == Revision(g)
    ensures !OneHighestRevision({f, g})
    ensures ROW_ORDER(f.execId) == ROW_ORDER(g.execId) ==> !UniqueTop({f, g})
  {
    assert HasHighest({f, g}, f) && HasHighest({f, g}, g);
    if ROW_ORDER(f.execId) == ROW_ORDER(g.execId) { assert IsTop({f, g}, f) && IsTop({f, g}, g); }
  }

  lemma {:induction false} PairIsCombo(o: Ticket, f: Fill, g: Fill)
    requires o.permId > 0 && Belongs(o, f) && Belongs(o, g) && f.execId != g.execId && f.isComboSummary
    ensures IsComboOrder(o, {f, g})
  {
    assert f in {f, g};
  }
}
