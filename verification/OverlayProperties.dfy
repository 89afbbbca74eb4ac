/** What the overlay promises: merge precedence, batching, the cheap settled path, and conservation. */
module OverlayProperties {
  import opened Common
  import opened Calendar
  import opened Holdings
  import opened Overlay
  import opened OverlayLoops

  ghost predicate UniqueSettled(rows: seq<Position>) {
    forall i, j :: 0 <= i < j < |rows| ==> SettledKey(rows[i]) != SettledKey(rows[j])
  }

  ghost predicate UniqueLive(rows: seq<LivePosition>) {
    forall i, j :: 0 <= i < j < |rows| ==> LiveKey(rows[i]) != LiveKey(rows[j])
  }

  // ---------------------------------------------------------------------
  // Merging
  // ---------------------------------------------------------------------

  ghost predicate IsShown(views: seq<View>, key: Pair) {
    exists i :: 0 <= i < |views| && ViewKey(views[i]) == key
  }

  ghost predicate HasSettledRow(rows: seq<Position>, key: Pair) {
    exists i :: 0 <= i < |rows| && SettledKey(rows[i]) == key
  }

  ghost predicate HasLiveRow(rows: seq<LivePosition>, key: Pair) {
    exists i :: 0 <= i < |rows| && LiveKey(rows[i]) == key
  }

  /** Some live capture of the account is not superseded by the account's newest snapshot. */
  ghost predicate HasCurrentCapture(rows: seq<LivePosition>, account: int, asOf: map<int, Option<int>>, clock: Clock) {
    exists i :: 0 <= i < |rows| && rows[i].account == account && IsCurrent(rows[i], asOf, clock)
  }

  lemma CurrentAccounts(rows: seq<LivePosition>, asOf: map<int, Option<int>>, clock: Clock, account: int)
    ensures account in LiveAccounts(rows, asOf, clock) <==> HasCurrentCapture(rows, account, asOf, clock)
  {
    if account in LiveAccounts(rows, asOf, clock) {
      var row :| row in rows && IsCurrent(row, asOf, clock) && row.account == account;
      var i :| 0 <= i < |rows| && rows[i] == row;
    }
    if HasCurrentCapture(rows, account, asOf, clock) {
      var i :| 0 <= i < |rows| && rows[i].account == account && IsCurrent(rows[i], asOf, clock);
      assert rows[i] in rows;
    }
  }

  lemma LiveKeysSeen(rows: seq<LivePosition>, key: Pair)
    ensures key in KeysOf(rows) <==> HasLiveRow(rows, key)
  {
    if key in KeysOf(rows) {
      var row :| row in rows && LiveKey(row) == key;
      var i :| 0 <= i < |rows| && rows[i] == row;
    }
    if HasLiveRow(rows, key) {
      var i :| 0 <= i < |rows| && LiveKey(rows[i]) == key;
      assert rows[i] in rows;
    }
  }

  lemma {:induction false} FilterKeepsUnique(rows: seq<Position>, p: Position -> bool)
    requires UniqueSettled(rows)
    ensures UniqueSettled(Filter(rows, p))
  {
    if rows != [] {
      var front, last := rows[..|rows| - 1], rows[|rows| - 1];
      FilterKeepsUnique(front, p);
      var kept := Filter(front, p);
      forall i | 0 <= i < |kept| ensures SettledKey(kept[i]) != SettledKey(last) {
        assert kept[i] in kept;
        var j :| 0 <= j < |front| && front[j] == kept[i];
        assert rows[j] == front[j];
      }
    }
  }

  function NetClosedOrKept(flexRows: seq<Position>, liveRows: seq<LivePosition>, lookups: Lookups, clock: Clock): Position -> bool {
    var seen, current := KeysOf(liveRows), LiveAccounts(liveRows, lookups.asOf, clock);
    (f: Position) => IsSettledOnly(f, seen, current)
  }

  lemma MergeParts(flexRows: seq<Position>, liveRows: seq<LivePosition>, lookups: Lookups, clock: Clock)
    ensures var views, kept := Merge(flexRows, liveRows, lookups, clock), Filter(flexRows, NetClosedOrKept(flexRows, liveRows, lookups, clock));
      && |views| == |liveRows| + |kept|
      && (forall i :: 0 <= i < |liveRows| ==> ViewKey(views[i]) == LiveKey(liveRows[i]))
      && (forall i :: |liveRows| <= i < |views| ==> views[i] == SettledView(kept[i - |liveRows|]) && kept[i - |liveRows|] in kept)
  {}

  lemma SettledOnlyMeans(row: Position, liveRows: seq<LivePosition>, lookups: Lookups, clock: Clock)
    ensures IsSettledOnly(row, KeysOf(liveRows), LiveAccounts(liveRows, lookups.asOf, clock)) <==>
      !HasLiveRow(liveRows, SettledKey(row)) && !HasCurrentCapture(liveRows, row.account, lookups.asOf, clock)
  {
    LiveKeysSeen(liveRows, SettledKey(row));
    CurrentAccounts(liveRows, lookups.asOf, clock, row.account);
  }

  /** A key is shown exactly when it has a live row, or a settled row in an account without a current capture. */
  lemma ShownExactly(flexRows: seq<Position>, liveRows: seq<LivePosition>, lookups: Lookups, clock: Clock, key: Pair)
    ensures IsShown(Merge(flexRows, liveRows, lookups, clock), key) <==>
      HasLiveRow(liveRows, key) || (HasSettledRow(flexRows, key) && !HasCurrentCapture(liveRows, key.0, lookups.asOf, clock))
  {
    var keep := NetClosedOrKept(flexRows, liveRows, lookups, clock);
    var views, kept := Merge(flexRows, liveRows, lookups, clock), Filter(flexRows, keep);
    MergeParts(flexRows, liveRows, lookups, clock);
    if IsShown(views, key) {
      var i :| 0 <= i < |views| && ViewKey(views[i]) == key;
      if i >= |liveRows| {
        var row := kept[i - |liveRows|];
        assert row in flexRows && keep(row);
        SettledOnlyMeans(row, liveRows, lookups, clock);
        var j :| 0 <= j < |flexRows| && flexRows[j] == row;
      } else {
        assert LiveKey(liveRows[i]) == key;
      }
    }
    if HasLiveRow(liveRows, key) {
      var i :| 0 <= i < |liveRows| && LiveKey(liveRows[i]) == key;
      assert ViewKey(views[i]) == key;
    } else if HasSettledRow(flexRows, key) && !HasCurrentCapture(liveRows, key.0, lookups.asOf, clock) {
      var j :| 0 <= j < |flexRows| && SettledKey(flexRows[j]) == key;
      SettledOnlyMeans(flexRows[j], liveRows, lookups, clock);
      assert flexRows[j] in kept;
      var n :| 0 <= n < |kept| && kept[n] == flexRows[j];
      assert ViewKey(views[|liveRows| + n]) == key;
    }
  }

  /** With unique input keys no key is shown twice. */
  lemma ShownOnce(flexRows: seq<Position>, liveRows: seq<LivePosition>, lookups: Lookups, clock: Clock)
    requires UniqueSettled(flexRows) && UniqueLive(liveRows)
    ensures var views := Merge(flexRows, liveRows, lookups, clock);
      forall i, j :: 0 <= i < j < |views| ==> ViewKey(views[i]) != ViewKey(views[j])
  {
    var keep := NetClosedOrKept(flexRows, liveRows, lookups, clock);
    var views, kept := Merge(flexRows, liveRows, lookups, clock), Filter(flexRows, keep);
    MergeParts(flexRows, liveRows, lookups, clock);
    FilterKeepsUnique(flexRows, keep);
    forall i, j | 0 <= i < j < |views| ensures ViewKey(views[i]) != ViewKey(views[j]) {
      if i < |liveRows| <= j {
        var row := kept[j - |liveRows|];
        assert row in kept && keep(row);
        LiveKeysSeen(liveRows, SettledKey(row));
      } else if |liveRows| <= i {
        assert SettledKey(kept[i - |liveRows|]) != SettledKey(kept[j - |liveRows|]);
      }
    }
  }

  /** One view per live row plus one per settled row without a live row in an account without a current capture. */
  lemma ViewCount(flexRows: seq<Position>, liveRows: seq<LivePosition>, lookups: Lookups, clock: Clock)
    ensures |Merge(flexRows, liveRows, lookups, clock)| == |liveRows| + Count(flexRows, NetClosedOrKept(flexRows, liveRows, lookups, clock))
  {
    MergeParts(flexRows, liveRows, lookups, clock);
    CountFiltered(flexRows, NetClosedOrKept(flexRows, liveRows, lookups, clock));
  }

  /** Superseded captures hide nothing: an account with only such captures shows every settled row it has. */
  lemma SupersededCapturesHideNothing(flexRows: seq<Position>, liveRows: seq<LivePosition>, lookups: Lookups, clock: Clock, key: Pair)
    requires forall i :: 0 <= i < |liveRows| && liveRows[i].account == key.0 ==> !IsCurrent(liveRows[i], lookups.asOf, clock)
    requires HasSettledRow(flexRows, key)
    ensures IsShown(Merge(flexRows, liveRows, lookups, clock), key)
  {
    ShownExactly(flexRows, liveRows, lookups, clock, key);
  }

  /** The watermark purge deletes exactly the captures the per-row test calls superseded. */
  lemma {:induction false} WatermarkPurge(live: seq<LivePosition>, account: int, asOf: int, clock: Clock)
    ensures Filter(live, (r: LivePosition) => r.account == account && r.fetchedAt < SupersededCutoff(asOf, clock))
         == Filter(live, (r: LivePosition) => r.account == account && IsOverlaySuperseded(Some(r.fetchedAt), Some(asOf), clock))
  {
    if live != [] {
      WatermarkPurge(live[..|live| - 1], account, asOf, clock);
      CutoffIsTheDateTest(live[|live| - 1].fetchedAt, asOf, clock);
    }
  }

  // ---------------------------------------------------------------------
  // One context for many groups
  // ---------------------------------------------------------------------

  function SettledSlice(c: Context, pairs: set<Pair>): seq<Position> {
    Filter(c.flexRows, (p: Position) => SettledKey(p) in pairs)
  }

  function LiveSlice(c: Context, pairs: set<Pair>): seq<LivePosition> {
    Filter(c.liveRows, (p: LivePosition) => LiveKey(p) in pairs)
  }

  function FillSlice(c: Context, pairs: set<Pair>): seq<LiveFill> {
    Filter(c.fills, (e: LiveFill) => IsPairOf(e, pairs))
  }

  lemma NothingForNoPairs(c: Context, pairs: set<Pair>)
    requires pairs == {}
    ensures SettledSlice(c, pairs) == [] && LiveSlice(c, pairs) == [] && FillSlice(c, pairs) == []
  {
    FilterNone(c.flexRows, (p: Position) => SettledKey(p) in pairs);
    FilterNone(c.liveRows, (p: LivePosition) => LiveKey(p) in pairs);
    FilterNone(c.fills, (e: LiveFill) => IsPairOf(e, pairs));
  }

  lemma SettledSliceOf(db: Db, pairs: set<Pair>, mine: set<Pair>, clock: Clock)
    requires mine <= pairs && pairs != {}
    ensures SettledSlice(Load(db, pairs, clock), mine) == Snapshot(db, mine)
  {
    FilterTwice(db.positions, (p: Position) => SettledKey(p) in pairs && p.position != 0.0, (p: Position) => SettledKey(p) in mine,
                (p: Position) => SettledKey(p) in mine && p.position != 0.0);
  }

  lemma FillSliceOf(db: Db, pairs: set<Pair>, mine: set<Pair>, clock: Clock)
    requires mine <= pairs && pairs != {}
    ensures FillSlice(Load(db, pairs, clock), mine) == Filter(db.fills, (e: LiveFill) => IsPairOf(e, mine))
  {
    FilterTwice(db.fills, (e: LiveFill) => IsPairOf(e, pairs), (e: LiveFill) => IsPairOf(e, mine), (e: LiveFill) => IsPairOf(e, mine));
  }

  lemma {:induction false} HeldIsOpen(db: Db, pairs: set<Pair>, key: Pair)
    requires key in pairs
    ensures IsHeld(Snapshot(db, pairs), key) <==> exists p :: p in db.positions && SettledKey(p) == key && p.position != 0.0
  {
    var rows := Snapshot(db, pairs);
    if IsHeld(rows, key) {
      var i :| 0 <= i < |rows| && SettledKey(rows[i]) == key;
      assert rows[i] in rows;
    }
    if p :| p in db.positions && SettledKey(p) == key && p.position != 0.0 {
      assert p in rows;
      var i :| 0 <= i < |rows| && rows[i] == p;
    }
  }

  lemma {:induction false} SnapshotHolds(db: Db, pairs: set<Pair>, mine: set<Pair>, key: Pair)
    requires mine <= pairs && key in mine
    ensures IsHeld(Snapshot(db, pairs), key) <==> IsHeld(Snapshot(db, mine), key)
  {
    HeldIsOpen(db, pairs, key);
    HeldIsOpen(db, mine, key);
  }

  /** The newest snapshot date of an account that some pair names is the same in either table. */
  lemma SameAsOf(db: Db, pairs: set<Pair>, mine: set<Pair>, key: Pair)
    requires mine <= pairs && key in mine
    ensures Lookup(AsOfTable(db, pairs), key.0) == Lookup(AsOfTable(db, mine), key.0)
  {
    assert key.0 in (set p: Pair | p in pairs :: p.0) && key.0 in (set p: Pair | p in mine :: p.0);
  }

  lemma SameCurrency(db: Db, pairs: set<Pair>, mine: set<Pair>, row: LivePosition, clock: Clock)
    requires mine <= pairs && LiveKey(row) in mine
    ensures IsCurrent(row, AsOfTable(db, pairs), clock) <==> IsCurrent(row, AsOfTable(db, mine), clock)
  {
    SameAsOf(db, pairs, mine, LiveKey(row));
    var a, b := AsOfTable(db, pairs), AsOfTable(db, mine);
    assert Lookup(a, row.account) == Lookup(b, row.account);
  }

  lemma SameLoaded(db: Db, pairs: set<Pair>, mine: set<Pair>, row: LivePosition, clock: Clock)
    requires mine <= pairs && LiveKey(row) in mine
    ensures IsLoaded(row, pairs, Snapshot(db, pairs), AsOfTable(db, pairs), clock)
       <==> IsLoaded(row, mine, Snapshot(db, mine), AsOfTable(db, mine), clock)
  {
    SnapshotHolds(db, pairs, mine, LiveKey(row));
    SameCurrency(db, pairs, mine, row, clock);
  }

  function LoadedLive(db: Db, pairs: set<Pair>, clock: Clock): seq<LivePosition> {
    var flexRows, asOf := Snapshot(db, pairs), AsOfTable(db, pairs);
    Filter(db.live, (r: LivePosition) => IsLoaded(r, pairs, flexRows, asOf, clock))
  }

  lemma LiveSliceOf(db: Db, pairs: set<Pair>, mine: set<Pair>, clock: Clock)
    requires mine <= pairs && pairs != {}
    ensures LiveSlice(Load(db, pairs, clock), mine) == LoadedLive(db, mine, clock)
  {
    var flexRows, asOf := Snapshot(db, pairs), AsOfTable(db, pairs);
    var flexMine, asOfMine := Snapshot(db, mine), AsOfTable(db, mine);
    var wide := (r: LivePosition) => IsLoaded(r, pairs, flexRows, asOf, clock);
    var narrow := (r: LivePosition) => LiveKey(r) in mine;
    var direct := (r: LivePosition) => IsLoaded(r, mine, flexMine, asOfMine, clock);
    forall r | r in db.live ensures direct(r) <==> wide(r) && narrow(r) {
      if LiveKey(r) in mine { SameLoaded(db, pairs, mine, r, clock); }
    }
    FilterTwice(db.live, wide, narrow, direct);
  }

  /** Both contexts answer every lookup the merge of these rows makes in the same way. */
  ghost predicate SameAnswers(a: Lookups, b: Lookups, liveRows: seq<LivePosition>) {
    forall i :: 0 <= i < |liveRows| ==> SameAnswersFor(a, b, liveRows[i])
  }

  ghost predicate SameAnswersFor(a: Lookups, b: Lookups, live: LivePosition) {
    && Lookup(a.quotes, live.conId) == Lookup(b.quotes, live.conId)
    && Lookup(a.magnifiers, live.conId) == Lookup(b.magnifiers, live.conId)
    && Lookup(a.asOf, live.account) == Lookup(b.asOf, live.account)
  }

  lemma SameCurrent(a: Lookups, b: Lookups, live: LivePosition, clock: Clock)
    requires SameAnswersFor(a, b, live)
    ensures IsCurrent(live, a.asOf, clock) <==> IsCurrent(live, b.asOf, clock)
  {}

  lemma SameLiveAccounts(liveRows: seq<LivePosition>, a: Lookups, b: Lookups, clock: Clock)
    requires SameAnswers(a, b, liveRows)
    ensures LiveAccounts(liveRows, a.asOf, clock) == LiveAccounts(liveRows, b.asOf, clock)
  {
    forall i | 0 <= i < |liveRows| ensures IsCurrent(liveRows[i], a.asOf, clock) <==> IsCurrent(liveRows[i], b.asOf, clock) {
      SameCurrent(a, b, liveRows[i], clock);
    }
    assert forall r :: r in liveRows ==> (IsCurrent(r, a.asOf, clock) <==> IsCurrent(r, b.asOf, clock));
  }

  lemma {:induction false} MapAgrees<A(!new), B>(xs: seq<A>, f: A -> B, g: A -> B)
    requires forall x :: x in xs ==> f(x) == g(x)
    ensures Map(xs, f) == Map(xs, g)
  {
    if xs != [] {
      assert xs[|xs| - 1] in xs;
      MapAgrees(xs[..|xs| - 1], f, g);
    }
  }

  lemma MergeAgrees(flexRows: seq<Position>, liveRows: seq<LivePosition>, a: Lookups, b: Lookups, clock: Clock)
    requires SameAnswers(a, b, liveRows)
    ensures Merge(flexRows, liveRows, a, clock) == Merge(flexRows, liveRows, b, clock)
  {
    SameLiveAccounts(liveRows, a, b, clock);
    MapAgrees(liveRows, (l: LivePosition) => ViewOf(l, flexRows, a, clock), (l: LivePosition) => ViewOf(l, flexRows, b, clock));
  }

  lemma LoadedAnswers(db: Db, pairs: set<Pair>, mine: set<Pair>, clock: Clock)
    requires mine <= pairs && mine != {}
    ensures SameAnswers(Load(db, pairs, clock).lookups, Load(db, mine, clock).lookups, LoadedLive(db, mine, clock))
  {
    var rows, a, b := LoadedLive(db, mine, clock), Load(db, pairs, clock), Load(db, mine, clock);
    forall i | 0 <= i < |rows| ensures SameAnswersFor(a.lookups, b.lookups, rows[i]) {
      assert rows[i] in rows;
      assert rows[i] in b.liveRows;
      SameLoaded(db, pairs, mine, rows[i], clock);
      assert rows[i] in a.liveRows;
      SameAsOf(db, pairs, mine, LiveKey(rows[i]));
    }
  }

  /** A group's overlay from a context loaded for more pairs equals the one from a context loaded for its own. */
  lemma WiderContextChangesNothing(db: Db, pairs: set<Pair>, ledger: Ledger, clock: Clock)
    requires ledger.Pairs() <= pairs
    ensures OverlayOne(Load(db, pairs, clock), ledger, clock) == OverlayOne(Load(db, ledger.Pairs(), clock), ledger, clock)
  {
    var mine := ledger.Pairs();
    var a, b := Load(db, pairs, clock), Load(db, mine, clock);
    if mine == {} {
      NothingForNoPairs(a, mine);
      NothingForNoPairs(b, mine);
      MergeAgrees([], [], a.lookups, b.lookups, clock);
    } else {
      SettledSliceOf(db, pairs, mine, clock);
      SettledSliceOf(db, mine, mine, clock);
      LiveSliceOf(db, pairs, mine, clock);
      LiveSliceOf(db, mine, mine, clock);
      FillSliceOf(db, pairs, mine, clock);
      FillSliceOf(db, mine, mine, clock);
      LoadedAnswers(db, pairs, mine, clock);
      MergeAgrees(Snapshot(db, mine), LoadedLive(db, mine, clock), a.lookups, b.lookups, clock);
    }
  }

  /** Views, totals, per-account figures and the stale flag of a group do not depend on the groups it is batched with. */
  lemma BatchEqualsSingle(db: Db, ledgers: map<int, Ledger>, group: int, clock: Clock)
    requires group in ledgers
    ensures OverlayForLedgers(db, ledgers, clock)[group] == OverlayForLedgers(db, map[group := ledgers[group]], clock)[group]
  {
    var alone := map[group := ledgers[group]];
    assert ledgers[group].Pairs() <= AllPairs(ledgers);
    forall p ensures p in AllPairs(alone) <==> p in ledgers[group].Pairs() {
      assert p in ledgers[group].Pairs() ==> group in alone && p in alone[group].Pairs();
    }
    assert AllPairs(alone) == ledgers[group].Pairs();
    WiderContextChangesNothing(db, AllPairs(ledgers), ledgers[group], clock);
  }

  // ---------------------------------------------------------------------
  // The settled-only path
  // ---------------------------------------------------------------------

  lemma {:induction false} SharesPerRow(rows: seq<Position>, held: map<Pair, real>, r: Position)
    requires UniqueSettled(rows) && r in rows
    ensures Lookup(FlexShares(rows, held), SettledKey(r)) == Some(ShareOf(r, held))
  {
    var front, last := rows[..|rows| - 1], rows[|rows| - 1];
    assert rows == front + [last];
    DistinctKeys(front, last);
    if r != last { SharesPerRow(front, held, r); }
  }

  /** The part of a row's unrealized PnL that belongs to the group. */
  function Worth(held: map<Pair, real>): Position -> real {
    (row: Position) => OrZero(ScaleBy(row.unrealized, ShareOf(row, held)))
  }

  lemma OrZeroOfPresent(xs: seq<Option<real>>)
    ensures OrZero(SumPresent(xs)) == Sum(xs, OrZero)
  {
    if forall x :: x in xs ==> x.None? { SumOfAbsent(xs); }
  }

  lemma {:induction false} SumOfAbsent(xs: seq<Option<real>>)
    requires forall x :: x in xs ==> x.None?
    ensures Sum(xs, OrZero) == 0.0
  {
    if xs != [] {
      assert xs[|xs| - 1] in xs;
      SumOfAbsent(xs[..|xs| - 1]);
    }
  }

  lemma SumPresentOfMap<T(!new)>(xs: seq<T>, f: T -> Option<real>)
    ensures OrZero(SumPresent(Map(xs, f))) == Sum(xs, Then(f, OrZero))
  {
    OrZeroOfPresent(Map(xs, f));
    SumOfMap(xs, f, OrZero);
  }

  /** The full path's settled figure is the worth of the group's snapshot rows. */
  lemma FullPathFigure(rows: seq<Position>, held: map<Pair, real>)
    requires UniqueSettled(rows)
    ensures OrZero(SumPresent(Map(rows, SettledPart(FlexShares(rows, held))))) == Sum(rows, Worth(held))
  {
    var shares := FlexShares(rows, held);
    SumPresentOfMap(rows, SettledPart(shares));
    forall r | r in rows ensures Then(SettledPart(shares), OrZero)(r) == Worth(held)(r) {
      SharesPerRow(rows, held, r);
    }
    SumAgrees(rows, Then(SettledPart(shares), OrZero), Worth(held));
  }

  lemma {:induction false} TableKeys(rows: seq<Position>, key: Pair)
    ensures key in SettledTable(rows) <==> exists r :: r in rows && r.unrealized.Some? && SettledKey(r) == key
  {
    if rows != [] {
      var front, last := rows[..|rows| - 1], rows[|rows| - 1];
      assert rows == front + [last];
      TableKeys(front, key);
      if r :| r in rows && r.unrealized.Some? && SettledKey(r) == key {
        assert r in front || r == last;
      }
      if key in SettledTable(front) {
        var r :| r in front && r.unrealized.Some? && SettledKey(r) == key;
        assert r in rows;
      }
      assert last in rows;
    }
  }

  lemma DistinctKeys(front: seq<Position>, last: Position)
    requires UniqueSettled(front + [last])
    ensures UniqueSettled(front) && forall r :: r in front ==> SettledKey(r) != SettledKey(last)
  {
    var rows := front + [last];
    forall i, j | 0 <= i < j < |front| ensures SettledKey(front[i]) != SettledKey(front[j]) {
      assert rows[i] == front[i] && rows[j] == front[j];
    }
    forall r | r in front ensures SettledKey(r) != SettledKey(last) {
      var i :| 0 <= i < |front| && front[i] == r;
      assert rows[i] == r && rows[|front|] == last;
    }
  }

  function EntryOf(r: Position): Option<(real, real)> {
    if r.unrealized.Some? then Some((r.position, r.unrealized.value)) else None
  }

  lemma {:induction false} TableEntry(rows: seq<Position>, r: Position)
    requires UniqueSettled(rows) && r in rows
    ensures Lookup(SettledTable(rows), SettledKey(r)) == EntryOf(r)
  {
    var front, last := rows[..|rows| - 1], rows[|rows| - 1];
    assert rows == front + [last];
    DistinctKeys(front, last);
    if r == last {
      TableKeys(front, SettledKey(r));
    } else {
      TableEntry(front, r);
    }
  }

  lemma EntryIsWorth(r: Position, held: Option<real>)
    ensures OrZero(EntryPart(EntryOf(r), held)) == OrZero(ScaleBy(r.unrealized, HeldFraction(held, r.position)))
  {}

  /** What the table says of a row's pair is the row's worth. */
  lemma {:induction false} TablePartIsWorth(rows: seq<Position>, held: map<Pair, real>, r: Position)
    requires UniqueSettled(rows) && r in rows
    ensures OrZero(TablePart(SettledTable(rows), held)(SettledKey(r))) == Worth(held)(r)
  {
    TableEntry(rows, r);
    EntryIsWorth(r, Lookup(held, SettledKey(r)));
  }

  lemma MappedKeysAreDistinct(rows: seq<Position>)
    requires UniqueSettled(rows)
    ensures Distinct(Map(rows, SettledKey))
  {}

  lemma KeysOfRows(rows: seq<Position>, key: Pair)
    ensures key in Map(rows, SettledKey) <==> HasSettledRow(rows, key)
  {
    if key in Map(rows, SettledKey) {
      var i :| 0 <= i < |Map(rows, SettledKey)| && Map(rows, SettledKey)[i] == key;
      assert SettledKey(rows[i]) == key;
    }
    if HasSettledRow(rows, key) {
      var i :| 0 <= i < |rows| && SettledKey(rows[i]) == key;
      assert Map(rows, SettledKey)[i] == key;
    }
  }

  function InPairs(pairs: set<Pair>): Position -> bool {
    (r: Position) => SettledKey(r) in pairs
  }

  function HasKey(keys: seq<Pair>): Pair -> bool {
    (pair: Pair) => pair in keys
  }

  /** Pairs without a row add nothing, so the order may be narrowed to the pairs of the rows. */
  lemma SumOverKeys(all: seq<Position>, mine: set<Pair>, held: map<Pair, real>, order: seq<Pair>)
    requires UniqueSettled(all) && Lists(order, mine)
    ensures var keys, part := Map(Filter(all, InPairs(mine)), SettledKey), Then(TablePart(SettledTable(all), held), OrZero);
      Sum(order, part) == Sum(keys, part)
  {
    var rows, part := Filter(all, InPairs(mine)), Then(TablePart(SettledTable(all), held), OrZero);
    var keys := Map(rows, SettledKey);
    PairsWithoutRow(all, mine, held, order);
    SumDropsZeros(order, HasKey(keys), part);
    FilterKeepsUnique(all, InPairs(mine));
    MappedKeysAreDistinct(rows);
    FilterKeepsDistinct(order, HasKey(keys));
    KeysAreListed(all, mine, order);
    SameListing(Filter(order, HasKey(keys)), keys);
    SumOfPermutation(Filter(order, HasKey(keys)), keys, part);
  }

  /** Summing over the pairs in any order is summing over the rows of those pairs. */
  lemma SumOverPairs(all: seq<Position>, mine: set<Pair>, held: map<Pair, real>, order: seq<Pair>)
    requires UniqueSettled(all) && Lists(order, mine)
    ensures OrZero(SettledFigure(SettledTable(all), held, order)) == Sum(Filter(all, InPairs(mine)), Worth(held))
  {
    var rows, part := Filter(all, InPairs(mine)), Then(TablePart(SettledTable(all), held), OrZero);
    SumPresentOfMap(order, TablePart(SettledTable(all), held));
    SumOverKeys(all, mine, held, order);
    SumOfMap(rows, SettledKey, part);
    forall r | r in rows ensures Then(SettledKey, part)(r) == Worth(held)(r) {
      TablePartIsWorth(all, held, r);
    }
    SumAgrees(rows, Then(SettledKey, part), Worth(held));
  }

  lemma PairsWithoutRow(all: seq<Position>, mine: set<Pair>, held: map<Pair, real>, order: seq<Pair>)
    requires UniqueSettled(all) && Lists(order, mine)
    ensures var keys := Map(Filter(all, InPairs(mine)), SettledKey);
      forall pair :: pair in order && pair !in keys ==> OrZero(TablePart(SettledTable(all), held)(pair)) == 0.0
  {
    var rows := Filter(all, InPairs(mine));
    forall pair | pair in order && pair !in Map(rows, SettledKey) ensures pair !in SettledTable(all) {
      KeysOfRows(rows, pair);
      TableKeys(all, pair);
      forall r | r in all && r.unrealized.Some? ensures SettledKey(r) != pair {
        assert r in rows ==> HasSettledRow(rows, SettledKey(r)) by {
          if i :| 0 <= i < |rows| && rows[i] == r { assert SettledKey(rows[i]) == SettledKey(r); }
        }
        assert SettledKey(r) in mine ==> r in rows;
      }
    }
  }

  lemma KeysAreListed(all: seq<Position>, mine: set<Pair>, order: seq<Pair>)
    requires Lists(order, mine)
    ensures var keys := Map(Filter(all, InPairs(mine)), SettledKey);
      forall pair :: pair in keys ==> pair in order
  {
    var rows := Filter(all, InPairs(mine));
    forall pair | pair in Map(rows, SettledKey) ensures pair in order {
      KeysOfRows(rows, pair);
      var i :| 0 <= i < |rows| && SettledKey(rows[i]) == pair;
      assert rows[i] in rows;
    }
  }

  /** The settled side of the holdings knows only pairs of settled fills. */
  lemma HeldPairs(ledger: Ledger, pair: Pair)
    requires pair in ledger.Holdings().settled
    ensures pair in ledger.SettledPairs()
  {}

  lemma UnheldIsWorthNothing(ledger: Ledger, r: Position)
    requires SettledKey(r) !in ledger.SettledPairs()
    ensures Worth(ledger.Holdings().settled)(r) == 0.0
  {
    if SettledKey(r) in ledger.Holdings().settled { HeldPairs(ledger, SettledKey(r)); }
  }

  lemma SlicesOfSnapshots(db: Db, pairs: set<Pair>, mine: set<Pair>)
    requires mine <= pairs
    ensures Filter(Snapshot(db, pairs), InPairs(mine)) == Snapshot(db, mine)
  {
    FilterTwice(db.positions, (p: Position) => SettledKey(p) in pairs && p.position != 0.0, InPairs(mine),
                (p: Position) => SettledKey(p) in mine && p.position != 0.0);
  }

  lemma LiveOnlyPairsAddNothing(db: Db, ledger: Ledger)
    ensures var held := ledger.Holdings().settled;
      Sum(Snapshot(db, ledger.Pairs()), Worth(held)) == Sum(Snapshot(db, ledger.SettledPairs()), Worth(held))
  {
    var held, rows := ledger.Holdings().settled, Snapshot(db, ledger.Pairs());
    var keep := InPairs(ledger.SettledPairs());
    SlicesOfSnapshots(db, ledger.Pairs(), ledger.SettledPairs());
    forall r | r in rows && !keep(r) ensures Worth(held)(r) == 0.0 {
      UnheldIsWorthNothing(ledger, r);
    }
    SumDropsZeros(rows, keep, Worth(held));
  }

  /** The full path totals the settled figure over the open snapshot rows of the group's pairs. */
  lemma SettledTotalOf(db: Db, pairs: set<Pair>, ledger: Ledger, clock: Clock)
    requires ledger.Pairs() <= pairs
    ensures var rows := Snapshot(db, ledger.Pairs());
      OverlayOne(Load(db, pairs, clock), ledger, clock).totals.settledUnrealized
      == SumPresent(Map(rows, SettledPart(FlexShares(rows, ledger.Holdings().settled))))
  {
    var mine := ledger.Pairs();
    if pairs == {} {
      NothingForNoPairs(Load(db, pairs, clock), mine);
      FilterNone(db.positions, (p: Position) => SettledKey(p) in mine && p.position != 0.0);
    } else {
      SettledSliceOf(db, pairs, mine, clock);
    }
  }

  lemma FullFigureOf(db: Db, pairs: set<Pair>, ledger: Ledger, clock: Clock)
    requires UniqueSettled(db.positions) && ledger.Pairs() <= pairs
    ensures var full, held := OverlayOne(Load(db, pairs, clock), ledger, clock), ledger.Holdings().settled;
      OrZero(full.totals.settledUnrealized) == Sum(Snapshot(db, ledger.Pairs()), Worth(held))
  {
    var mine := ledger.Pairs();
    SettledTotalOf(db, pairs, ledger, clock);
    FilterKeepsUnique(db.positions, (p: Position) => SettledKey(p) in mine && p.position != 0.0);
    FullPathFigure(Snapshot(db, mine), ledger.Holdings().settled);
  }

  /**
    The settled-only batch path, over a table loaded for any set of pairs that
    holds the group's settled ones, gives the settled figures of the full path.
   */
  lemma SettledPathEqualsFullPath(db: Db, pairs: set<Pair>, settledPairs: set<Pair>, ledger: Ledger, order: seq<Pair>, clock: Clock)
    requires UniqueSettled(db.positions)
    requires ledger.Pairs() <= pairs && ledger.SettledPairs() <= settledPairs && Lists(order, ledger.SettledPairs())
    ensures var full := OverlayOne(Load(db, pairs, clock), ledger, clock);
      && full.realized == ledger.SettledOnly().Realized()
      && OrZero(SettledFigure(SettledTable(Snapshot(db, settledPairs)), ledger.SettledOnly().Holdings().settled, order))
         == OrZero(full.totals.settledUnrealized)
  {
    FullFigureOf(db, pairs, ledger, clock);
    LiveOnlyPairsAddNothing(db, ledger);
    FilterKeepsUnique(db.positions, (p: Position) => SettledKey(p) in settledPairs && p.position != 0.0);
    SumOverPairs(Snapshot(db, settledPairs), ledger.SettledPairs(), ledger.Holdings().settled, order);
    SlicesOfSnapshots(db, settledPairs, ledger.SettledPairs());
  }

  /** A group's figures as the settled-only entry point answers them and as the overlay entry point does. */
  function QuickPnl(db: Db, ledgers: map<int, Ledger>, g: int, order: seq<Pair>): BatchPnl
    requires g in ledgers
  {
    SettledPnl(SettledTable(Snapshot(db, SettledPairsOf(ledgers))), ledgers[g], order)
  }

  function FullPnl(db: Db, ledgers: map<int, Ledger>, g: int, clock: Clock): BatchPnl
    requires g in ledgers
  {
    var full := OverlayForLedgers(db, ledgers, clock)[g];
    BatchPnl(full.realized, full.totals.settledUnrealized)
  }

  /** Some open snapshot row of the pairs has an unrealized PnL. */
  ghost predicate HasValuedRow(db: Db, pairs: set<Pair>) {
    exists r :: r in Snapshot(db, pairs) && r.unrealized.Some?
  }

  lemma TableHasPair(db: Db, all: set<Pair>, mine: set<Pair>, order: seq<Pair>)
    requires Lists(order, mine) && mine <= all
    ensures HasValuedRow(db, mine) <==> exists pair :: pair in order && pair in SettledTable(Snapshot(db, all))
  {
    if HasValuedRow(db, mine) {
      var r :| r in Snapshot(db, mine) && r.unrealized.Some?;
      assert r in Snapshot(db, all);
      TableKeys(Snapshot(db, all), SettledKey(r));
      assert SettledKey(r) in order;
    }
    if pair :| pair in order && pair in SettledTable(Snapshot(db, all)) {
      TableKeys(Snapshot(db, all), pair);
      var r :| r in Snapshot(db, all) && r.unrealized.Some? && SettledKey(r) == pair;
      assert r in Snapshot(db, mine);
    }
  }

  lemma QuickFigureIsPresent(db: Db, all: set<Pair>, mine: set<Pair>, held: map<Pair, real>, order: seq<Pair>)
    requires Lists(order, mine) && mine <= all
    ensures SettledFigure(SettledTable(Snapshot(db, all)), held, order).Some? <==> HasValuedRow(db, mine)
  {
    AllAbsent(order, TablePart(SettledTable(Snapshot(db, all)), held));
    TableHasPair(db, all, mine, order);
  }

  lemma FullFigureIsPresent(db: Db, pairs: set<Pair>, ledger: Ledger, clock: Clock)
    requires ledger.Pairs() <= pairs
    ensures OverlayOne(Load(db, pairs, clock), ledger, clock).totals.settledUnrealized.Some? <==> HasValuedRow(db, ledger.Pairs())
  {
    var rows := Snapshot(db, ledger.Pairs());
    SettledTotalOf(db, pairs, ledger, clock);
    AllAbsent(rows, SettledPart(FlexShares(rows, ledger.Holdings().settled)));
  }

  /**
    The two batch entry points agree on every group, reading an absent figure
    as zero; they give the very same answer exactly when no valued position
    waits at the group's unsettled pairs alone.
   */
  lemma BatchPathsAgree(db: Db, ledgers: map<int, Ledger>, g: int, order: seq<Pair>, clock: Clock)
    requires UniqueSettled(db.positions) && g in ledgers && Lists(order, ledgers[g].SettledPairs())
    ensures QuickPnl(db, ledgers, g, order).realized == FullPnl(db, ledgers, g, clock).realized
    ensures OrZero(QuickPnl(db, ledgers, g, order).settledUnrealized) == OrZero(FullPnl(db, ledgers, g, clock).settledUnrealized)
    ensures QuickPnl(db, ledgers, g, order) == FullPnl(db, ledgers, g, clock) <==>
      (HasValuedRow(db, ledgers[g].Pairs()) ==> HasValuedRow(db, ledgers[g].SettledPairs()))
  {
    var all, settled := AllPairs(ledgers), SettledPairsOf(ledgers);
    assert ledgers[g].Pairs() <= all && ledgers[g].SettledPairs() <= settled;
    SettledPathEqualsFullPath(db, all, settled, ledgers[g], order, clock);
    QuickFigureIsPresent(db, settled, ledgers[g].SettledPairs(), HoldingsOf(ledgers[g].executions, []).settled, order);
    FullFigureIsPresent(db, all, ledgers[g], clock);
    MoreRowsMoreValued(db, ledgers[g].SettledPairs(), ledgers[g].Pairs());
  }

  lemma MoreRowsMoreValued(db: Db, mine: set<Pair>, all: set<Pair>)
    requires mine <= all
    ensures HasValuedRow(db, mine) ==> HasValuedRow(db, all)
  {
    if r :| r in Snapshot(db, mine) && r.unrealized.Some? {
      assert r in Snapshot(db, all);
    }
  }

  // ---------------------------------------------------------------------
  // No live rows
  // ---------------------------------------------------------------------

  /** What a view contributes to the intraday total once cut to the group's share. */
  function CutWorth(shares: map<Pair, real>, holdings: GroupHoldings): View -> real {
    (v: View) => OrZero(Contribution(Cut(v, shares, holdings)))
  }

  lemma SettledViewContributes(row: Position, shares: map<Pair, real>, holdings: GroupHoldings)
    ensures CutWorth(shares, holdings)(SettledView(row)) == OrZero(SettledPart(shares)(row))
    ensures PositionShare(SettledView(row), shares, holdings) == 0.0 ==> CutWorth(shares, holdings)(SettledView(row)) == 0.0
  {}

  lemma ApportionedTotal(views: seq<View>, shares: map<Pair, real>, holdings: GroupHoldings)
    requires forall v :: v in views && PositionShare(v, shares, holdings) == 0.0 ==> CutWorth(shares, holdings)(v) == 0.0
    ensures OrZero(IntradayUnrealized(Apportion(views, shares, holdings))) == Sum(views, CutWorth(shares, holdings))
  {
    var keep, size, worth := HoldsSome(shares, holdings), CutTo(shares, holdings), CutWorth(shares, holdings);
    var kept := Filter(views, keep);
    SumPresentOfMap(Map(kept, size), Contribution);
    SumOfMap(kept, size, Then(Contribution, OrZero));
    SumAgrees(kept, Then(size, Then(Contribution, OrZero)), worth);
    SumDropsZeros(views, keep, worth);
  }

  lemma IntradayOfSettledViews(rows: seq<Position>, shares: map<Pair, real>, holdings: GroupHoldings)
    ensures OrZero(IntradayUnrealized(Apportion(Map(rows, SettledView), shares, holdings))) == Sum(rows, Then(SettledPart(shares), OrZero))
  {
    var views, worth := Map(rows, SettledView), CutWorth(shares, holdings);
    forall v | v in views && PositionShare(v, shares, holdings) == 0.0 ensures worth(v) == 0.0 {
      var i :| 0 <= i < |views| && views[i] == v;
      SettledViewContributes(rows[i], shares, holdings);
    }
    ApportionedTotal(views, shares, holdings);
    SumOfMap(rows, SettledView, worth);
    forall r | r in rows ensures Then(SettledView, worth)(r) == Then(SettledPart(shares), OrZero)(r) {
      SettledViewContributes(r, shares, holdings);
    }
    SumAgrees(rows, Then(SettledView, worth), Then(SettledPart(shares), OrZero));
  }

  lemma MergeWithoutLive(rows: seq<Position>, lookups: Lookups, clock: Clock)
    ensures Merge(rows, [], lookups, clock) == Map(rows, SettledView)
  {
    assert KeysOf([]) == {} && LiveAccounts([], lookups.asOf, clock) == {};
    FilterAll(rows, (f: Position) => IsSettledOnly(f, {}, {}));
  }

  lemma ComposeWithoutLive(rows: seq<Position>, fills: seq<LiveFill>, ledger: Ledger, clock: Clock)
    ensures var o := Compose(rows, [], fills, Map(rows, SettledView), ledger, clock);
      OrZero(o.totals.intradayUnrealized) == OrZero(o.totals.settledUnrealized)
  {
    var shares := FlexShares(rows, ledger.Holdings().settled);
    IntradayOfSettledViews(rows, shares, ledger.Holdings());
    SumPresentOfMap(rows, SettledPart(shares));
  }

  /** With no live position row of the group's pairs, its intraday unrealized is its settled unrealized. */
  lemma NoLiveRowsNoDifference(context: Context, ledger: Ledger, clock: Clock)
    requires forall r :: r in context.liveRows ==> LiveKey(r) !in ledger.Pairs()
    ensures var o := OverlayOne(context, ledger, clock);
      OrZero(o.totals.intradayUnrealized) == OrZero(o.totals.settledUnrealized)
  {
    var pairs := ledger.Pairs();
    var rows := SettledSlice(context, pairs);
    FilterNone(context.liveRows, (p: LivePosition) => LiveKey(p) in pairs);
    MergeWithoutLive(rows, context.lookups, clock);
    ComposeWithoutLive(rows, FillSlice(context, pairs), ledger, clock);
  }

  // ---------------------------------------------------------------------
  // Conservation across groups
  // ---------------------------------------------------------------------

  /** A settled view has its snapshot row behind it. */
  ghost predicate Backed(v: View, rows: seq<Position>) {
    v.source == FromSettled ==> UniqueSettled(rows) && exists r :: r in rows && SettledKey(r) == ViewKey(v) && r.position == v.position
  }

  /** What a group holds of the view's contract: all its fills for a live view, settled ones for a settled view. */
  function Held(v: View, h: GroupHoldings): real {
    OrZero(Lookup(if v.source == FromLive then h.total else h.settled, ViewKey(v)))
  }

  function HeldOf(v: View): GroupHoldings -> real {
    (h: GroupHoldings) => Held(v, h)
  }

  function QuantityOf(v: View): real { v.position }

  /** The part of the view one group is shown; a dropped view counts as nothing. */
  function Shown(v: View, rows: seq<Position>, h: GroupHoldings): seq<View> {
    Apportion([v], FlexShares(rows, h.settled), h)
  }

  function ShownQuantity(v: View, rows: seq<Position>): GroupHoldings -> real {
    (h: GroupHoldings) => Sum(Shown(v, rows, h), QuantityOf)
  }

  lemma {:induction false} ApportionOne(v: View, shares: map<Pair, real>, h: GroupHoldings)
    ensures Apportion([v], shares, h) == if PositionShare(v, shares, h) != 0.0 then [Cut(v, shares, h)] else []
  {
    FilterStep([v], 0, HoldsSome(shares, h));
    assert [v][..1] == [v] && [v][..0] == [];
    if PositionShare(v, shares, h) != 0.0 { MapAppend([], v, CutTo(shares, h)); }
  }

  lemma AbsentIsNothing(held: Option<real>, position: real)
    ensures HeldFraction(held, position) == HeldFraction(Some(OrZero(held)), position)
  {}

  lemma {:induction false} BackedShare(v: View, rows: seq<Position>, h: GroupHoldings)
    requires Backed(v, rows)
    ensures PositionShare(v, FlexShares(rows, h.settled), h) == HeldFraction(Some(Held(v, h)), v.position)
  {
    AbsentIsNothing(Lookup(if v.source == FromLive then h.total else h.settled, ViewKey(v)), v.position);
    if v.source == FromSettled {
      var r :| r in rows && SettledKey(r) == ViewKey(v) && r.position == v.position;
      SharesPerRow(rows, h.settled, r);
    }
  }

  lemma SumOfOne(v: View, f: View -> real)
    ensures Sum([v], f) == f(v)
  {
    assert [v][..0] == [];
  }

  /** What one group is shown of the view, summed: nothing when the group's share is zero. */
  lemma {:induction false} ShownSum(v: View, shares: map<Pair, real>, h: GroupHoldings, f: View -> real)
    ensures Sum(Apportion([v], shares, h), f) == if PositionShare(v, shares, h) != 0.0 then f(Cut(v, shares, h)) else 0.0
  {
    ApportionOne(v, shares, h);
    if PositionShare(v, shares, h) != 0.0 { SumOfOne(Cut(v, shares, h), f); }
  }

  lemma {:induction false} OneView(v: View, rows: seq<Position>, h: GroupHoldings, share: real)
    requires Backed(v, rows) && share == HeldFraction(Some(Held(v, h)), v.position)
    ensures ShownQuantity(v, rows)(h) == v.position * share
  {
    BackedShare(v, rows, h);
    ShownSum(v, FlexShares(rows, h.settled), h, QuantityOf);
  }

  lemma ShareScalesTo(position: real, held: real, share: real)
    requires share == HeldFraction(Some(held), position) && Covers(position, held)
    ensures position * share == held
  {
    ShareIsTheHolding(held, position);
  }

  lemma {:induction false} ShownIsHeld(v: View, rows: seq<Position>, h: GroupHoldings)
    requires Backed(v, rows) && Covers(v.position, Held(v, h))
    ensures ShownQuantity(v, rows)(h) == HeldOf(v)(h)
  {
    var share := HeldFraction(Some(Held(v, h)), v.position);
    OneView(v, rows, h, share);
    ShareScalesTo(v.position, Held(v, h), share);
  }

  /**
    For one position and any groups whose holdings of it the position covers,
    the quantities shown sum to exactly those holdings.
   */
  lemma {:induction false} ApportioningConservesQuantity(v: View, rows: seq<Position>, groups: seq<GroupHoldings>)
    requires Backed(v, rows) && forall h :: h in groups ==> Covers(v.position, Held(v, h))
    ensures Sum(groups, ShownQuantity(v, rows)) == Sum(groups, HeldOf(v))
  {
    forall h | h in groups ensures ShownQuantity(v, rows)(h) == HeldOf(v)(h) {
      ShownIsHeld(v, rows, h);
    }
    SumAgrees(groups, ShownQuantity(v, rows), HeldOf(v));
  }

  /** The view's figure is its live one; a live view without a mark shows the snapshot's. */
  predicate ShowsLive(v: View) {
    v.source == FromLive && v.liveUnrealized.Some?
  }

  /** The position the view's figure values: its own, or the snapshot row's when it shows the snapshot's figure. */
  ghost predicate IsValued(v: View, rows: seq<Position>, position: real) {
    if ShowsLive(v) then position == v.position
    else UniqueSettled(rows) && exists r :: r in rows && SettledKey(r) == ViewKey(v) && r.position == position
  }

  /** What a group holds of the valued position: by all its fills, or by its settled ones. */
  function ValuedHeld(v: View, h: GroupHoldings): real {
    OrZero(if ShowsLive(v) then Lookup(h.total, ViewKey(v)) else Lookup(h.settled, ViewKey(v)))
  }

  function ValuedHolding(v: View): GroupHoldings -> real {
    (h: GroupHoldings) => ValuedHeld(v, h)
  }

  function ValuedShare(v: View, position: real): GroupHoldings -> real {
    (h: GroupHoldings) => HeldFraction(Some(ValuedHeld(v, h)), position)
  }

  /** What a view adds to the intraday unrealized total. */
  function FigureOf(v: View): real { OrZero(Contribution(v)) }

  function ShownFigure(v: View, rows: seq<Position>): GroupHoldings -> real {
    (h: GroupHoldings) => Sum(Shown(v, rows, h), FigureOf)
  }

  /** The group keeps the view: a live view is dropped when the group's fills net to nothing on its side. */
  predicate Keeps(v: View, rows: seq<Position>, h: GroupHoldings) {
    PositionShare(v, FlexShares(rows, h.settled), h) != 0.0
  }

  /** The share that scales the view's figure when it is cut down to a group. */
  function FigureShare(v: View, shares: map<Pair, real>, h: GroupHoldings): real {
    if ShowsLive(v) then PositionShare(v, shares, h) else SettledShare(v, shares)
  }

  lemma CutFigure(v: View, shares: map<Pair, real>, h: GroupHoldings)
    ensures FigureOf(Cut(v, shares, h)) == FigureOf(v) * FigureShare(v, shares, h)
  {}

  lemma {:induction false} FigureShareOf(v: View, rows: seq<Position>, h: GroupHoldings, position: real)
    requires IsValued(v, rows, position)
    ensures FigureShare(v, FlexShares(rows, h.settled), h) == HeldFraction(Some(ValuedHeld(v, h)), position)
  {
    if ShowsLive(v) {
      AbsentIsNothing(Lookup(h.total, ViewKey(v)), position);
    } else {
      AbsentIsNothing(Lookup(h.settled, ViewKey(v)), position);
      var r :| r in rows && SettledKey(r) == ViewKey(v) && r.position == position;
      SharesPerRow(rows, h.settled, r);
      assert ShareOf(r, h.settled) == HeldFraction(Lookup(h.settled, ViewKey(v)), position);
    }
  }

  lemma {:induction false} CutOrDropped(v: View, shares: map<Pair, real>, h: GroupHoldings, figure: real, share: real, part: real)
    requires share == if PositionShare(v, shares, h) != 0.0 then FigureShare(v, shares, h) else 0.0
    requires figure == FigureOf(v) && part == figure * share
    ensures Sum(Apportion([v], shares, h), FigureOf) == part
  {
    CutFigure(v, shares, h);
    ShownSum(v, shares, h, FigureOf);
  }

  /** The share of the valued position a group is shown: nothing when it drops the view. */
  function KeptShare(v: View, rows: seq<Position>, position: real): GroupHoldings -> real {
    (h: GroupHoldings) => if Keeps(v, rows, h) then HeldFraction(Some(ValuedHeld(v, h)), position) else 0.0
  }

  lemma {:induction false} FigureIsScaled(v: View, rows: seq<Position>, h: GroupHoldings, position: real, figure: real, share: real, part: real)
    requires IsValued(v, rows, position) && share == KeptShare(v, rows, position)(h)
    requires figure == FigureOf(v) && part == figure * share
    ensures ShownFigure(v, rows)(h) == part
  {
    FigureShareOf(v, rows, h, position);
    CutOrDropped(v, FlexShares(rows, h.settled), h, figure, share, part);
  }

  lemma {:induction false} SharesAddUp(v: View, groups: seq<GroupHoldings>, position: real)
    requires forall h :: h in groups ==> Covers(position, ValuedHeld(v, h))
    ensures Sum(groups, Scaled(ValuedShare(v, position), position)) == Sum(groups, ValuedHolding(v))
  {
    forall h | h in groups ensures Scaled(ValuedShare(v, position), position)(h) == ValuedHolding(v)(h) {
      ShareScalesTo(position, ValuedHeld(v, h), ValuedShare(v, position)(h));
    }
    SumAgrees(groups, Scaled(ValuedShare(v, position), position), ValuedHolding(v));
  }

  lemma {:induction false} FigureOfGroup(v: View, rows: seq<Position>, h: GroupHoldings, position: real, kept: GroupHoldings -> real, figure: real)
    requires IsValued(v, rows, position) && kept == KeptShare(v, rows, position) && figure == FigureOf(v)
    ensures ShownFigure(v, rows)(h) == Scaled(kept, figure)(h)
  {
    FigureIsScaled(v, rows, h, position, figure, kept(h), Scaled(kept, figure)(h));
  }

  lemma {:induction false} FiguresAddUp(v: View, rows: seq<Position>, groups: seq<GroupHoldings>, position: real, kept: GroupHoldings -> real, figure: real)
    requires IsValued(v, rows, position) && kept == KeptShare(v, rows, position) && figure == FigureOf(v)
    ensures Sum(groups, ShownFigure(v, rows)) == Sum(groups, Scaled(kept, figure))
  {
    var shown, scaled := ShownFigure(v, rows), Scaled(kept, figure);
    forall h | h in groups ensures shown(h) == scaled(h) {
      FigureOfGroup(v, rows, h, position, kept, figure);
    }
    SumAgrees(groups, shown, scaled);
  }

  lemma {:induction false} ScaledInFull(groups: seq<GroupHoldings>, kept: GroupHoldings -> real, figure: real, shown: real)
    requires shown == Sum(groups, Scaled(kept, figure))
    ensures shown == figure <==> figure == 0.0 || Sum(groups, kept) == 1.0
  {
    SumScaled(groups, kept, figure);
    WholeFigure(shown, figure, Sum(groups, kept));
  }

  lemma {:induction false} ShownInFull(v: View, rows: seq<Position>, groups: seq<GroupHoldings>, position: real, kept: GroupHoldings -> real, figure: real)
    requires IsValued(v, rows, position) && kept == KeptShare(v, rows, position) && figure == FigureOf(v)
    ensures Sum(groups, ShownFigure(v, rows)) == figure <==> figure == 0.0 || Sum(groups, kept) == 1.0
  {
    FiguresAddUp(v, rows, groups, position, kept, figure);
    ScaledInFull(groups, kept, figure, Sum(groups, ShownFigure(v, rows)));
  }

  lemma UnitShare(position: real, shares: real)
    requires position != 0.0 && position * shares == position
    ensures shares == 1.0
  {}

  /** Shares of a position the groups exhaust are one in all. */
  lemma {:induction false} SharesAreWhole(v: View, groups: seq<GroupHoldings>, position: real)
    requires position != 0.0 && forall h :: h in groups ==> Covers(position, ValuedHeld(v, h))
    requires Sum(groups, ValuedHolding(v)) == position
    ensures Sum(groups, ValuedShare(v, position)) == 1.0
  {
    SharesAddUp(v, groups, position);
    UnitScaled(groups, ValuedShare(v, position), position);
  }

  lemma {:induction false} UnitScaled(groups: seq<GroupHoldings>, share: GroupHoldings -> real, position: real)
    requires position != 0.0 && Sum(groups, Scaled(share, position)) == position
    ensures Sum(groups, share) == 1.0
  {
    SumScaled(groups, share, position);
    UnitShare(position, Sum(groups, share));
  }

  lemma NoShareNoHolding(position: real, held: real, share: real)
    requires position != 0.0 && Covers(position, held) && share == HeldFraction(Some(held), position)
    ensures 0.0 <= share && (share == 0.0 <==> held == 0.0)
  {
    FractionIsAShare(Some(held), position);
    ShareScalesTo(position, held, share);
  }

  lemma {:induction false} SumAtMost<T(!new)>(xs: seq<T>, f: T -> real, g: T -> real)
    requires forall x :: x in xs ==> f(x) <= g(x)
    ensures Sum(xs, f) <= Sum(xs, g)
    ensures Sum(xs, f) == Sum(xs, g) <==> forall x :: x in xs ==> f(x) == g(x)
  {
    if xs != [] {
      var front, last := xs[..|xs| - 1], xs[|xs| - 1];
      assert xs == front + [last];
      assert last in xs && forall x :: x in front ==> x in xs;
      SumAtMost(front, f, g);
    }
  }

  /** The shares shown are one in all exactly when no group that holds part of the position drops the view. */
  lemma {:induction false} KeptSharesAreWhole(v: View, rows: seq<Position>, groups: seq<GroupHoldings>, position: real)
    requires position != 0.0 && forall h :: h in groups ==> Covers(position, ValuedHeld(v, h))
    requires Sum(groups, ValuedHolding(v)) == position
    ensures Sum(groups, KeptShare(v, rows, position)) == 1.0 <==> forall h :: h in groups && ValuedHeld(v, h) != 0.0 ==> Keeps(v, rows, h)
  {
    var kept, valued := KeptShare(v, rows, position), ValuedShare(v, position);
    SharesAreWhole(v, groups, position);
    forall h | h in groups
      ensures kept(h) <= valued(h) && (kept(h) == valued(h) <==> (ValuedHeld(v, h) != 0.0 ==> Keeps(v, rows, h)))
    {
      NoShareNoHolding(position, ValuedHeld(v, h), valued(h));
    }
    SumAtMost(groups, kept, valued);
  }

  lemma WholeFigure(shown: real, figure: real, shares: real)
    requires shown == figure * shares
    ensures shown == figure <==> figure == 0.0 || shares == 1.0
  {
    if figure != 0.0 && shown == figure { UnitShare(figure, shares); }
  }

  /**
    Where the groups' holdings exhaust the position a view's figure values, the
    whole figure is split between the groups if and only if it is zero or every
    group that holds part of the position keeps the view.
   */
  lemma {:induction false} ApportioningConservesUnrealized(v: View, rows: seq<Position>, groups: seq<GroupHoldings>, position: real)
    requires IsValued(v, rows, position) && position != 0.0
    requires forall h :: h in groups ==> Covers(position, ValuedHeld(v, h))
    requires Sum(groups, ValuedHolding(v)) == position
    ensures Sum(groups, ShownFigure(v, rows)) == FigureOf(v) <==>
      FigureOf(v) == 0.0 || forall h :: h in groups && ValuedHeld(v, h) != 0.0 ==> Keeps(v, rows, h)
  {
    ShownInFull(v, rows, groups, position, KeptShare(v, rows, position), FigureOf(v));
    KeptSharesAreWhole(v, rows, groups, position);
  }

  /** Only a live view without a mark can be dropped by a group that holds part of what it values. */
  lemma {:induction false} HolderKeepsTheView(v: View, rows: seq<Position>, h: GroupHoldings, position: real)
    requires IsValued(v, rows, position) && position != 0.0 && Covers(position, ValuedHeld(v, h)) && ValuedHeld(v, h) != 0.0
    requires ShowsLive(v) || v.source == FromSettled
    ensures Keeps(v, rows, h)
  {
    FigureShareOf(v, rows, h, position);
    NoShareNoHolding(position, ValuedHeld(v, h), HeldFraction(Some(ValuedHeld(v, h)), position));
  }

  /** A live view with a mark, or a settled one, is always split whole. */
  lemma {:induction false} MarkedFigureIsWhole(v: View, rows: seq<Position>, groups: seq<GroupHoldings>, position: real)
    requires IsValued(v, rows, position) && position != 0.0 && (ShowsLive(v) || v.source == FromSettled)
    requires forall h :: h in groups ==> Covers(position, ValuedHeld(v, h))
    requires Sum(groups, ValuedHolding(v)) == position
    ensures Sum(groups, ShownFigure(v, rows)) == FigureOf(v)
  {
    forall h | h in groups && ValuedHeld(v, h) != 0.0 ensures Keeps(v, rows, h) {
      HolderKeepsTheView(v, rows, h, position);
    }
    ApportioningConservesUnrealized(v, rows, groups, position);
  }

  /** The groups exhaust what the view values, and yet its figure is not shown in full. */
  ghost predicate FigureIsLost(v: View, rows: seq<Position>, groups: seq<GroupHoldings>, position: real) {
    && IsValued(v, rows, position) && position != 0.0 && Sum(groups, ValuedHolding(v)) == position
    && (forall h :: h in groups ==> Covers(position, ValuedHeld(v, h)))
    && Sum(groups, ShownFigure(v, rows)) != FigureOf(v)
  }

  /**
    A group that bought the whole settled position and has sold it today, net
    of nothing left, drops the live view; without a mark the snapshot's figure
    is then shown to no group.
   */
  lemma {:induction false} DroppedViewLosesItsFigure()
    ensures exists v, rows, groups, position :: FigureIsLost(v, rows, groups, position)
  {
    var row := Position(1, 5, None, None, 1.0, 70.0, Some(80.0), None, Some(10.0), None, 0);
    var v := View(1, 5, None, 1.0, 70.0, None, None, FromLive, None, Some(80.0), Some(10.0), None, None);
    var h := GroupHoldings(map[(1, 5) := 1.0], map[(1, 5) := 0.0]);
    DroppedIsLost(v, [row], h, 1.0);
  }

  lemma {:induction false} DroppedIsLost(v: View, rows: seq<Position>, h: GroupHoldings, position: real)
    requires v.source == FromLive && v.liveUnrealized.None? && FigureOf(v) != 0.0 && position != 0.0
    requires |rows| == 1 && SettledKey(rows[0]) == ViewKey(v) && rows[0].position == position
    requires Lookup(h.settled, ViewKey(v)) == Some(position) && Lookup(h.total, ViewKey(v)) == Some(0.0)
    ensures FigureIsLost(v, rows, [h], position)
  {
    assert rows[0] in rows;
    assert [h][..0] == [] && h in [h];
    assert !Keeps(v, rows, h) && ValuedHeld(v, h) == position;
    ApportioningConservesUnrealized(v, rows, [h], position);
  }

  // ---------------------------------------------------------------------
  // The per-account breakdown
  // ---------------------------------------------------------------------

  function OfAccount(views: seq<View>, f: View -> real): int -> real {
    (a: int) => Sum(Filter(views, InAccount(a)), f)
  }

  /** Partitioning by account loses nothing. */
  lemma {:induction false} PartitionByAccount(views: seq<View>, accounts: seq<int>, f: View -> real)
    requires Distinct(accounts) && forall v :: v in views ==> v.account in accounts
    ensures Sum(accounts, OfAccount(views, f)) == Sum(views, f)
  {
    if views == [] {
      SumOfZeros(accounts, OfAccount(views, f));
    } else {
      var front, last := views[..|views| - 1], views[|views| - 1];
      assert views == front + [last];
      PartitionByAccount(front, accounts, f);
      forall a | a in accounts ensures OfAccount(views, f)(a) == OfAccount(front, f)(a) + if a == last.account then f(last) else 0.0 {
        LastOfAccount(views, f, a);
      }
      SumOfPoint(accounts, OfAccount(front, f), OfAccount(views, f), last.account, f(last));
    }
  }

  lemma {:induction false} LastOfAccount(views: seq<View>, f: View -> real, a: int)
    requires views != []
    ensures var front, last := views[..|views| - 1], views[|views| - 1];
      OfAccount(views, f)(a) == OfAccount(front, f)(a) + if a == last.account then f(last) else 0.0
  {
    var mine := InAccount(a);
    var kept, last := Filter(views[..|views| - 1], mine), views[|views| - 1];
    if a == last.account {
      assert (kept + [last])[..|kept|] == kept;
      assert Filter(views, mine) == kept + [last];
    } else {
      assert Filter(views, mine) == kept;
    }
  }

  function IntradayOf(byAccount: map<int, AccountOverlay>): int -> real {
    (a: int) => if a in byAccount then OrZero(byAccount[a].intradayUnrealized) else 0.0
  }

  /** The per-account intraday unrealized figures add up to the group's. */
  lemma {:induction false} AccountsReconcile(context: Context, ledger: Ledger, clock: Clock, accounts: seq<int>)
    requires Lists(accounts, OverlayOne(context, ledger, clock).byAccount.Keys)
    ensures var o := OverlayOne(context, ledger, clock);
      Sum(accounts, IntradayOf(o.byAccount)) == OrZero(o.totals.intradayUnrealized)
  {
    var o := OverlayOne(context, ledger, clock);
    var worth := Then(Contribution, OrZero);
    SumPresentOfMap(o.views, Contribution);
    PartitionByAccount(o.views, accounts, worth);
    forall a | a in accounts ensures IntradayOf(o.byAccount)(a) == OfAccount(o.views, worth)(a) {
      SumPresentOfMap(Filter(o.views, InAccount(a)), Contribution);
    }
    SumAgrees(accounts, IntradayOf(o.byAccount), OfAccount(o.views, worth));
  }
}
