/**
  The overlay read off the columns of the stored rows: which rows are loaded,
  what each view shows, and what the totals add up.
 */
module OverlayColumns {
  import opened Common
  import opened Calendar
  import opened Holdings
  import opened Overlay
  import opened OverlayLoops
  import opened OverlayProperties

  // ---------------------------------------------------------------------
  // One view
  // ---------------------------------------------------------------------

  /** `m` is the factor a column names: its value when positive, else 1. */
  ghost predicate IsFactor(column: Option<real>, m: real) {
    m == if column.None? || column.value <= 0.0 then 1.0 else column.value
  }

  ghost predicate IsPriced(quote: Option<Quote>) {
    quote.Some? && quote.value.mark.Some? && quote.value.mark.value > 0.0
  }

  /** A future or future option last quoted more than an hour ago. */
  ghost predicate IsTooOld(quote: Option<Quote>, secType: Option<string>, clock: Clock) {
    && (secType == Some("FUT") || secType == Some("FOP"))
    && quote.Some? && quote.value.marketTs.Some? && clock.now > quote.value.marketTs.value + 3600
  }

  /** There is a mark exactly for a positive, recent quote; times the magnifier it is the quoted price. */
  ghost predicate ShowsMark(v: View, quote: Option<Quote>, magnifier: Option<real>, clock: Clock) {
    && (v.mark.Some? <==> IsPriced(quote) && !IsTooOld(quote, v.secType, clock))
    && (v.mark.Some? ==> forall m :: IsFactor(magnifier, m) ==> v.mark.value * m == quote.value.mark.value)
    && v.markTs == if v.mark.Some? then quote.value.marketTs else None
  }

  /** The capture's Denver day is before today, and the import postdates the start of that day. */
  ghost predicate IsOutdated(live: LivePosition, row: Position, clock: Clock) {
    DateOf(clock.denver, live.fetchedAt) < DateOf(clock.denver, clock.now)
    && row.fetchedAt > clock.denver(DateOf(clock.denver, live.fetchedAt))
  }

  /** The settled figures of a view: those of its snapshot row, absent when there is none. */
  ghost predicate ShowsSnapshot(v: View, row: Option<Position>) {
    && v.settledMark == (if row.Some? then row.value.markPrice else None)
    && v.settledUnrealized == (if row.Some? then row.value.unrealized else None)
    && v.settledValue == (if row.Some? then row.value.positionValue else None)
    && v.asOf == (if row.Some? then row.value.asOf else None)
  }

  /** The numbers of the snapshot row, its per-unit cost times the multiplier. */
  ghost predicate IsOfSnapshot(v: View, row: Position) {
    && v.source == FromSettled && v.position == row.position && v.liveUnrealized == None
    && (forall m :: IsFactor(row.multiplier, m) ==> v.avgCost == row.avgCost * m)
  }

  /** What the position is worth at the mark over what it cost; absent without a mark. */
  ghost predicate ShowsGain(v: View, multiplier: Option<real>) {
    && (v.liveUnrealized.Some? <==> v.mark.Some?)
    && (v.mark.Some? ==> forall m :: IsFactor(multiplier, m) ==> v.liveUnrealized.value == v.position * (v.mark.value * m - v.avgCost))
  }

  ghost predicate IsOfCapture(v: View, live: LivePosition) {
    v.source == FromLive && v.position == live.position && v.avgCost == live.avgCost && ShowsGain(v, live.multiplier)
  }

  /** The view of a live row: named by it, or by its snapshot row where it is silent; in numbers the snapshot's when outdated. */
  ghost predicate ShowsLiveRow(v: View, live: LivePosition, row: Option<Position>, quote: Option<Quote>, magnifier: Option<real>, clock: Clock) {
    && v.account == live.account && v.conId == live.conId
    && v.secType == (if live.secType.Some? && live.secType.value != "" then live.secType else if row.Some? then row.value.secType else None)
    && ShowsMark(v, quote, magnifier, clock)
    && ShowsSnapshot(v, row)
    && if row.Some? && IsOutdated(live, row.value, clock) then IsOfSnapshot(v, row.value) else IsOfCapture(v, live)
  }

  ghost predicate ShowsSettledRow(v: View, row: Position) {
    && v.account == row.account && v.conId == row.conId && v.secType == row.secType
    && v.mark == row.markPrice && v.markTs == None
    && ShowsSnapshot(v, Some(row)) && IsOfSnapshot(v, row)
  }

  lemma {:induction false} Magnified(price: real, m: real)
    requires m > 0.0
    ensures price / m * m == price
  {}

  lemma {:induction false} GainFactors(position: real, mark: real, m: real, cost: real)
    ensures position * mark * m - position * cost == position * (mark * m - cost)
  {}

  lemma {:induction false} FactorIsUnit(column: Option<real>, m: real)
    requires IsFactor(column, m)
    ensures m == PositiveOr1(column) && m > 0.0
  {}

  lemma {:induction false} MarkInColumns(v: View, quote: Option<Quote>, magnifier: Option<real>, clock: Clock)
    requires v.mark == MarkIfFresh(QuotedMark(quote, magnifier), MarkTime(quote), v.secType, clock)
    requires v.markTs == if v.mark.Some? then MarkTime(quote) else None
    ensures ShowsMark(v, quote, magnifier, clock)
  {
    forall m | v.mark.Some? && IsFactor(magnifier, m) ensures v.mark.value * m == quote.value.mark.value {
      FactorIsUnit(magnifier, m);
      Magnified(quote.value.mark.value, m);
    }
  }

  lemma {:induction false} GainInColumns(v: View, multiplier: Option<real>)
    requires v.liveUnrealized == Unrealized(v.position, v.avgCost, v.mark, PositiveOr1(multiplier))
    ensures ShowsGain(v, multiplier)
  {
    forall m | v.mark.Some? && IsFactor(multiplier, m) ensures v.liveUnrealized.value == v.position * (v.mark.value * m - v.avgCost) {
      FactorIsUnit(multiplier, m);
      GainFactors(v.position, v.mark.value, m, v.avgCost);
    }
  }

  /** A long position shows a gain exactly when the mark exceeds its cost, a short one exactly when the cost exceeds the mark. */
  lemma {:induction false} GainHasTheSign(v: View, multiplier: Option<real>, m: real)
    requires ShowsGain(v, multiplier) && IsFactor(multiplier, m) && v.mark.Some?
    ensures v.position > 0.0 ==> (v.liveUnrealized.value > 0.0 <==> v.mark.value * m > v.avgCost)
    ensures v.position < 0.0 ==> (v.liveUnrealized.value > 0.0 <==> v.mark.value * m < v.avgCost)
  {
    SignOfProduct(v.position, v.mark.value * m - v.avgCost);
  }

  lemma {:induction false} SignOfProduct(a: real, b: real)
    ensures a > 0.0 ==> (a * b > 0.0 <==> b > 0.0)
    ensures a < 0.0 ==> (a * b > 0.0 <==> b < 0.0)
  {}

  lemma {:induction false} CostInColumns(v: View, row: Position)
    requires v.source == FromSettled && v.position == row.position && v.liveUnrealized == None && v.avgCost == SettledCost(row)
    ensures IsOfSnapshot(v, row)
  {
    forall m | IsFactor(row.multiplier, m) ensures v.avgCost == row.avgCost * m {
      FactorIsUnit(row.multiplier, m);
    }
  }

  lemma {:induction false} OutdatedInColumns(live: LivePosition, row: Position, clock: Clock)
    ensures IsLiveStale(Some(live.fetchedAt), Some(row.fetchedAt), clock) <==> IsOutdated(live, row, clock)
  {
    StaleMeansPriorDay(live.fetchedAt, row.fetchedAt, clock);
  }

  lemma {:induction false} LiveViewInColumns(live: LivePosition, row: Option<Position>, quote: Option<Quote>, magnifier: Option<real>, clock: Clock)
    ensures ShowsLiveRow(LiveView(live, row, quote, magnifier, clock), live, row, quote, magnifier, clock)
  {
    var v := LiveView(live, row, quote, magnifier, clock);
    MarkInColumns(v, quote, magnifier, clock);
    if row.Some? { OutdatedInColumns(live, row.value, clock); }
    if row.Some? && IsOutdated(live, row.value, clock) {
      CostInColumns(v, row.value);
    } else {
      GainInColumns(v, live.multiplier);
    }
  }

  lemma {:induction false} SettledViewInColumns(row: Position)
    ensures ShowsSettledRow(SettledView(row), row)
  {
    CostInColumns(SettledView(row), row);
  }

  // ---------------------------------------------------------------------
  // The merged views
  // ---------------------------------------------------------------------

  /** The snapshot row of a key, when it has one. */
  ghost predicate IsSnapshotRow(rows: seq<Position>, account: int, conId: int, row: Option<Position>) {
    match row
    case None => forall r :: r in rows ==> (r.account, r.conId) != (account, conId)
    case Some(f) => f in rows && f.account == account && f.conId == conId
  }

  lemma {:induction false} SnapshotRowIsFound(rows: seq<Position>, account: int, conId: int, row: Option<Position>)
    requires UniqueSettled(rows) && IsSnapshotRow(rows, account, conId, row)
    ensures SnapshotOf(rows, (account, conId)) == row
  {
    if rows != [] {
      var front, last := rows[..|rows| - 1], rows[|rows| - 1];
      assert rows == front + [last];
      DistinctKeys(front, last);
      if SettledKey(last) != (account, conId) { SnapshotRowIsFound(front, account, conId, row); }
    }
  }

  /** The views come live rows first, each showing its row over the snapshot's. */
  lemma {:induction false} MergedLiveRow(flexRows: seq<Position>, liveRows: seq<LivePosition>, lookups: Lookups, clock: Clock, i: nat, row: Option<Position>)
    requires UniqueSettled(flexRows) && i < |liveRows| && IsSnapshotRow(flexRows, liveRows[i].account, liveRows[i].conId, row)
    ensures i < |Merge(flexRows, liveRows, lookups, clock)|
    ensures var live, v := liveRows[i], Merge(flexRows, liveRows, lookups, clock)[i];
      ShowsLiveRow(v, live, row, if live.conId in lookups.quotes then Some(lookups.quotes[live.conId]) else None,
                   if live.conId in lookups.magnifiers then lookups.magnifiers[live.conId] else None, clock)
  {
    var live := liveRows[i];
    SnapshotRowIsFound(flexRows, live.account, live.conId, row);
    var quote := if live.conId in lookups.quotes then Some(lookups.quotes[live.conId]) else None;
    var magnifier := if live.conId in lookups.magnifiers then lookups.magnifiers[live.conId] else None;
    LiveViewInColumns(live, row, quote, magnifier, clock);
    assert ViewOf(live, flexRows, lookups, clock) == LiveView(live, row, quote, magnifier, clock);
  }

  /** The account has a capture taken on the day of its newest snapshot or later, or no snapshot date. */
  ghost predicate HasFreshCapture(liveRows: seq<LivePosition>, account: int, asOf: map<int, Option<int>>, clock: Clock) {
    exists i :: 0 <= i < |liveRows| && liveRows[i].account == account &&
      (account in asOf && asOf[account].Some? ==> asOf[account].value <= DateOf(clock.chicago, liveRows[i].fetchedAt))
  }

  lemma {:induction false} FreshInColumns(liveRows: seq<LivePosition>, account: int, asOf: map<int, Option<int>>, clock: Clock)
    ensures HasCurrentCapture(liveRows, account, asOf, clock) <==> HasFreshCapture(liveRows, account, asOf, clock)
  {
    if HasFreshCapture(liveRows, account, asOf, clock) {
      var i :| 0 <= i < |liveRows| && liveRows[i].account == account &&
        (account in asOf && asOf[account].Some? ==> asOf[account].value <= DateOf(clock.chicago, liveRows[i].fetchedAt));
      assert IsCurrent(liveRows[i], asOf, clock);
    }
  }

  ghost predicate IsLeftToSnapshot(row: Position, liveRows: seq<LivePosition>, lookups: Lookups, clock: Clock) {
    !HasLiveRow(liveRows, (row.account, row.conId)) && !HasFreshCapture(liveRows, row.account, lookups.asOf, clock)
  }

  /** Then the snapshot rows no live row has the key of, in accounts without a fresh capture, as they are stored. */
  lemma {:induction false} MergedSettledRow(flexRows: seq<Position>, liveRows: seq<LivePosition>, lookups: Lookups, clock: Clock, i: nat)
    requires |liveRows| <= i < |Merge(flexRows, liveRows, lookups, clock)|
    ensures exists row :: row in flexRows && IsLeftToSnapshot(row, liveRows, lookups, clock) && ShowsSettledRow(Merge(flexRows, liveRows, lookups, clock)[i], row)
  {
    var keep := NetClosedOrKept(flexRows, liveRows, lookups, clock);
    var kept := Filter(flexRows, keep);
    MergeParts(flexRows, liveRows, lookups, clock);
    var row := kept[i - |liveRows|];
    assert row in flexRows && keep(row);
    SettledOnlyMeans(row, liveRows, lookups, clock);
    FreshInColumns(liveRows, row.account, lookups.asOf, clock);
    SettledViewInColumns(row);
  }

  /** And all of them: such a row is shown. */
  lemma {:induction false} ShownInColumns(flexRows: seq<Position>, liveRows: seq<LivePosition>, lookups: Lookups, clock: Clock, key: Pair)
    ensures IsShown(Merge(flexRows, liveRows, lookups, clock), key) <==>
      HasLiveRow(liveRows, key) || (HasSettledRow(flexRows, key) && !HasFreshCapture(liveRows, key.0, lookups.asOf, clock))
  {
    ShownExactly(flexRows, liveRows, lookups, clock, key);
    FreshInColumns(liveRows, key.0, lookups.asOf, clock);
  }

  // ---------------------------------------------------------------------
  // The loaded rows
  // ---------------------------------------------------------------------

  /** `date` is the newest snapshot date of the account, over its closed rows too. */
  ghost predicate IsNewestDate(positions: seq<Position>, account: int, date: Option<int>) {
    match date
    case None => forall p :: p in positions && p.account == account ==> p.asOf.None?
    case Some(d) =>
      && (exists p :: p in positions && p.account == account && p.asOf == Some(d))
      && (forall p :: p in positions && p.account == account && p.asOf.Some? ==> p.asOf.value <= d)
  }

  lemma {:induction false} NewestInColumns(positions: seq<Position>, account: int)
    ensures IsNewestDate(positions, account, NewestAsOf(positions, account))
  {
    if positions != [] {
      var front, last := positions[..|positions| - 1], positions[|positions| - 1];
      assert positions == front + [last];
      NewestInColumns(front, account);
      assert last in positions;
      var date := NewestAsOf(front, account);
      if date.Some? {
        var p :| p in front && p.account == account && p.asOf == date;
        assert p in positions;
      }
    }
  }

  /** The snapshot rows loaded are the open ones of the pairs, in table order. */
  lemma {:induction false} LoadedSettledRows(db: Db, pairs: set<Pair>, clock: Clock)
    ensures Load(db, pairs, clock).flexRows == Filter(db.positions, (p: Position) => (p.account, p.conId) in pairs && p.position != 0.0)
  {
    FilterAgrees(db.positions, (p: Position) => SettledKey(p) in pairs && p.position != 0.0,
                   (p: Position) => (p.account, p.conId) in pairs && p.position != 0.0);
    if pairs == {} { FilterNone(db.positions, (p: Position) => (p.account, p.conId) in pairs && p.position != 0.0); }
  }

  /** A live row is loaded when open and of a pair, and either an open snapshot row has its key or the capture is not older than the account's newest snapshot. */
  ghost predicate IsLoadedRow(db: Db, pairs: set<Pair>, row: LivePosition, date: Option<int>, clock: Clock) {
    && row in db.live && (row.account, row.conId) in pairs && row.position != 0.0
    && (|| (exists p :: p in db.positions && p.account == row.account && p.conId == row.conId && p.position != 0.0)
        || date.None? || date.value <= DateOf(clock.chicago, row.fetchedAt))
  }

  lemma {:induction false} NoRowsNoDate(positions: seq<Position>, account: int, date: Option<int>)
    requires IsNewestDate(positions, account, date) && forall p :: p in positions ==> p.account != account
    ensures date.None?
  {}

  lemma {:induction false} SameNewest(positions: seq<Position>, account: int, a: Option<int>, b: Option<int>)
    requires IsNewestDate(positions, account, a) && IsNewestDate(positions, account, b)
    ensures a == b
  {}

  lemma {:induction false} DateInTheTable(db: Db, pairs: set<Pair>, row: LivePosition, date: Option<int>)
    requires (row.account, row.conId) in pairs && IsNewestDate(db.positions, row.account, date)
    ensures var asOf := AsOfTable(db, pairs); (if row.account in asOf then asOf[row.account] else None) == date
  {
    NewestInColumns(db.positions, row.account);
    SameNewest(db.positions, row.account, NewestAsOf(db.positions, row.account), date);
    assert row.account in (set p: Pair | p in pairs :: p.0) by { assert (row.account, row.conId).0 == row.account; }
    if row.account !in AsOfTable(db, pairs) { NoRowsNoDate(db.positions, row.account, date); }
  }

  lemma {:induction false} LoadedLiveRows(db: Db, pairs: set<Pair>, row: LivePosition, date: Option<int>, clock: Clock)
    requires IsNewestDate(db.positions, row.account, date)
    ensures row in Load(db, pairs, clock).liveRows <==> IsLoadedRow(db, pairs, row, date, clock)
  {
    if (row.account, row.conId) in pairs {
      DateInTheTable(db, pairs, row, date);
      HeldIsOpen(db, pairs, LiveKey(row));
    }
  }

  /** For a loaded row the context answers as the tables do. */
  lemma {:induction false} LoadedLookups(db: Db, pairs: set<Pair>, row: LivePosition, clock: Clock)
    requires row in Load(db, pairs, clock).liveRows
    ensures var lookups := Load(db, pairs, clock).lookups;
      && Lookup(lookups.quotes, row.conId) == Lookup(db.quotes, row.conId)
      && Lookup(lookups.magnifiers, row.conId) == Lookup(db.magnifiers, row.conId)
  {}

  /** Over a loaded context the view of a live row shows the stored quote and magnifier of its contract. */
  lemma {:induction false} LoadedRowInColumns(db: Db, pairs: set<Pair>, clock: Clock, i: nat, row: Option<Position>)
    requires UniqueSettled(db.positions) && i < |Load(db, pairs, clock).liveRows|
    requires var c := Load(db, pairs, clock); IsSnapshotRow(c.flexRows, c.liveRows[i].account, c.liveRows[i].conId, row)
    ensures var c := Load(db, pairs, clock); i < |Merge(c.flexRows, c.liveRows, c.lookups, clock)|
    ensures var c := Load(db, pairs, clock); var live := c.liveRows[i];
      ShowsLiveRow(Merge(c.flexRows, c.liveRows, c.lookups, clock)[i], live, row, Lookup(db.quotes, live.conId),
                   Lookup(db.magnifiers, live.conId).GetOr(None), clock)
  {
    var c := Load(db, pairs, clock);
    LoadedSettledRows(db, pairs, clock);
    FilterKeepsUnique(db.positions, (p: Position) => (p.account, p.conId) in pairs && p.position != 0.0);
    LoadedLookups(db, pairs, c.liveRows[i], clock);
    MergedLiveRow(c.flexRows, c.liveRows, c.lookups, clock, i, row);
  }

  // ---------------------------------------------------------------------
  // The group's pairs and fills
  // ---------------------------------------------------------------------

  ghost predicate HasSettledFill(ledger: Ledger, key: Pair) {
    exists e :: e in ledger.executions && e.conId.Some? && e.account == key.0 && e.conId.value == key.1
  }

  ghost predicate HasLiveFill(ledger: Ledger, key: Pair) {
    exists e :: e in ledger.liveFills && e.conId.Some? && e.account == key.0 && e.conId.value == key.1
  }

  /** A group's pairs are those its fills name, settled or not, and the ones its links carry themselves. */
  lemma {:induction false} PairsInColumns(ledger: Ledger, key: Pair)
    ensures key in ledger.SettledPairs() <==> HasSettledFill(ledger, key)
    ensures key in ledger.Pairs() <==> HasSettledFill(ledger, key) || HasLiveFill(ledger, key) || key in ledger.extraPairs
  {
    if HasSettledFill(ledger, key) {
      var e :| e in ledger.executions && e.conId.Some? && e.account == key.0 && e.conId.value == key.1;
      assert (e.account, e.conId.value) == key;
    }
    if HasLiveFill(ledger, key) {
      var e :| e in ledger.liveFills && e.conId.Some? && e.account == key.0 && e.conId.value == key.1;
      assert (e.account, e.conId.value) == key;
    }
  }

  /** A live fill of the group's pairs that is not settled under its id: what its realized PnL adds to. */
  ghost predicate AddsRealized(ledger: Ledger, e: LiveFill) {
    && e.conId.Some? && (e.account, e.conId.value) in ledger.Pairs()
    && forall x :: x in ledger.executions && x.execId != "" ==> x.execId != e.execId
  }

  function RealizedValue(e: LiveFill): real {
    match e.realized
    case None => 0.0
    case Some(x) => x
  }

  ghost function Adding(ledger: Ledger): LiveFill -> bool {
    (e: LiveFill) => AddsRealized(ledger, e)
  }

  /** `r` is the settled realized PnL plus what the live fills add; absent when neither is there. */
  ghost predicate IsSettledAndLive(r: Option<real>, settled: Option<real>, live: real) {
    && (r.None? <==> settled.None? && live == 0.0)
    && (r.Some? ==> r.value == live + if settled.Some? then settled.value else 0.0)
  }

  lemma {:induction false} UnsettledSum(fills: seq<LiveFill>, settledIds: set<string>, adds: LiveFill -> bool)
    requires forall e :: e in fills ==> (adds(e) <==> e.execId !in settledIds)
    ensures LiveRealized(fills, settledIds) == Sum(Filter(fills, adds), RealizedValue)
  {
    FilterAgrees(fills, (e: LiveFill) => e.execId !in settledIds, adds);
    SumAgrees(Filter(fills, adds), (e: LiveFill) => OrZero(e.realized), RealizedValue);
  }

  /** The group's intraday realized PnL counts each live fill of its pairs that has not settled, once, on top of the settled figure. */
  lemma {:induction false} IntradayRealizedInColumns(db: Db, pairs: set<Pair>, ledger: Ledger, clock: Clock)
    requires ledger.Pairs() <= pairs
    ensures var full := OverlayOne(Load(db, pairs, clock), ledger, clock);
      IsSettledAndLive(full.totals.intradayRealized, RealizedTotal(ledger.executions), Sum(Filter(db.fills, Adding(ledger)), RealizedValue))
  {
    var mine := ledger.Pairs();
    var slice := Filter(db.fills, (e: LiveFill) => IsPairOf(e, mine));
    if pairs == {} {
      NothingForNoPairs(Load(db, pairs, clock), mine);
      FilterNone(db.fills, (e: LiveFill) => IsPairOf(e, mine));
    } else {
      FillSliceOf(db, pairs, mine, clock);
    }
    FilterTwice(db.fills, (e: LiveFill) => IsPairOf(e, mine), Adding(ledger), Adding(ledger));
    UnsettledSum(slice, ledger.SettledIds(), Adding(ledger));
  }

  /** `t` is the sum of the parts that are there; absent when none is. */
  ghost predicate IsSumOfParts(t: Option<real>, a: Option<real>, b: Option<real>) {
    match (a, b)
    case (None, None) => t == None
    case (Some(x), None) => t == Some(x)
    case (None, Some(y)) => t == Some(y)
    case (Some(x), Some(y)) => t == Some(x + y)
  }

  /** The newest time of a live mark among the views. */
  ghost predicate IsNewestMark(views: seq<View>, t: Option<int>) {
    match t
    case None => forall v :: v in views ==> v.markTs.None?
    case Some(x) => (exists v :: v in views && v.markTs == Some(x)) && (forall v :: v in views && v.markTs.Some? ==> v.markTs.value <= x)
  }

  lemma {:induction false} NewestMarkInColumns(views: seq<View>)
    ensures IsNewestMark(views, NewestMark(views))
  {
    if views != [] {
      var front, last := views[..|views| - 1], views[|views| - 1];
      assert views == front + [last];
      NewestMarkInColumns(front);
      assert last in views;
      if NewestMark(front).Some? {
        var v :| v in front && v.markTs == NewestMark(front);
        assert v in views;
      }
    }
  }

  /** What a view counts for in the intraday figure: its live unrealized PnL, else the snapshot's. */
  ghost predicate CountsFor(v: View, x: Option<real>) {
    x == if v.source == FromLive && v.liveUnrealized.Some? then v.liveUnrealized else v.settledUnrealized
  }

  /** `t` is the sum of the views' figures, absent when no view has one. */
  ghost predicate IsSumOf(t: Option<real>, views: seq<View>, figure: View -> Option<real>) {
    && (t.None? <==> forall v :: v in views ==> figure(v).None?)
    && (t.Some? ==> t.value == Sum(views, Then(figure, OrZero)))
  }

  lemma {:induction false} PresentSum(views: seq<View>, figure: View -> Option<real>)
    ensures IsSumOf(SumPresent(Map(views, figure)), views, figure)
  {
    AllAbsent(views, figure);
    SumOfMap(views, figure, OrZero);
  }

  lemma {:induction false} SameFigures(views: seq<View>, f: View -> Option<real>, g: View -> Option<real>)
    requires forall v: View :: f(v) == g(v)
    ensures SumPresent(Map(views, f)) == SumPresent(Map(views, g))
  {
    MapAgrees(views, f, g);
  }

  lemma {:induction false} IntradayInColumns(views: seq<View>, figure: View -> Option<real>)
    requires forall v: View :: CountsFor(v, figure(v))
    ensures IsSumOf(IntradayUnrealized(views), views, figure)
  {
    SameFigures(views, Contribution, figure);
    PresentSum(views, figure);
  }

  /** The totals of a group: unrealized over its views, realized plus unrealized, and the newest mark. */
  lemma {:induction false} TotalsInColumns(flexRows: seq<Position>, views: seq<View>, fills: seq<LiveFill>, settledIds: set<string>,
                                           realized: Option<real>, shares: map<Pair, real>, figure: View -> Option<real>)
    requires forall v: View :: CountsFor(v, figure(v))
    ensures var totals := TotalsOf(flexRows, views, fills, settledIds, realized, shares);
      && IsSumOf(totals.intradayUnrealized, views, figure)
      && IsSumOfParts(totals.intradayTotal, totals.intradayUnrealized, totals.intradayRealized)
      && IsNewestMark(views, totals.marksAsOf)
  {
    NewestMarkInColumns(views);
    IntradayInColumns(views, figure);
  }

  // ---------------------------------------------------------------------
  // The group's views
  // ---------------------------------------------------------------------

  /** The share a holding has of a position: none on the other side, all when it is larger, else the part it is. */
  ghost predicate IsShare(held: Option<real>, position: real, share: real) {
    if held.None? || held.value * position <= 0.0 then share == 0.0
    else if Abs(held.value) >= Abs(position) then share == 1.0
    else share * position == held.value
  }

  lemma {:induction false} ShareInColumns(held: Option<real>, position: real)
    ensures IsShare(held, position, HeldFraction(held, position))
  {
    if held.Some? && held.value * position > 0.0 {
      DivideWithin(Abs(held.value), Abs(position));
      if Abs(held.value) < Abs(position) {
        ShareIsTheHolding(held.value, position);
      } else {
        WholeWhenLarger(Abs(held.value), Abs(position));
      }
    }
  }

  lemma {:induction false} WholeWhenLarger(a: real, b: real)
    requires b > 0.0 && a >= b
    ensures a / b >= 1.0
  {
    assert a / b >= b / b;
  }

  ghost predicate IsScaled(part: Option<real>, whole: Option<real>, share: real) {
    (part.Some? <==> whole.Some?) && (whole.Some? ==> part.value == whole.value * share)
  }

  /** `c` is `v` with its position and live figure cut by `share` and both snapshot figures by `settledShare`; per-unit columns stay. */
  ghost predicate IsCutBy(c: View, v: View, share: real, settledShare: real) {
    && (c.account, c.conId, c.secType, c.source) == (v.account, v.conId, v.secType, v.source)
    && (c.avgCost, c.mark, c.markTs, c.settledMark, c.asOf) == (v.avgCost, v.mark, v.markTs, v.settledMark, v.asOf)
    && c.position == v.position * share && IsScaled(c.liveUnrealized, v.liveUnrealized, share)
    && IsScaled(c.settledUnrealized, v.settledUnrealized, settledShare) && IsScaled(c.settledValue, v.settledValue, settledShare)
  }

  /** The settled share of a key: of its snapshot row by the settled fills, none without a row. */
  ghost predicate IsSettledShare(rows: seq<Position>, held: map<Pair, real>, v: View, share: real) {
    if exists r :: r in rows && (r.account, r.conId) == (v.account, v.conId)
    then exists r :: r in rows && (r.account, r.conId) == (v.account, v.conId) && IsShare(Lookup(held, (v.account, v.conId)), r.position, share)
    else share == 0.0
  }

  lemma {:induction false} NoRowNoShare(rows: seq<Position>, held: map<Pair, real>, key: Pair)
    requires forall r :: r in rows ==> SettledKey(r) != key
    ensures key !in FlexShares(rows, held)
  {
    if rows != [] {
      assert rows[|rows| - 1] in rows;
      NoRowNoShare(rows[..|rows| - 1], held, key);
    }
  }

  lemma {:induction false} SettledShareInColumns(rows: seq<Position>, held: map<Pair, real>, v: View)
    requires UniqueSettled(rows)
    ensures IsSettledShare(rows, held, v, SettledShare(v, FlexShares(rows, held)))
  {
    if r :| r in rows && (r.account, r.conId) == (v.account, v.conId) {
      SharesPerRow(rows, held, r);
      ShareInColumns(Lookup(held, (v.account, v.conId)), r.position);
    } else {
      NoRowNoShare(rows, held, ViewKey(v));
    }
  }

  /** The share of a view: a live one's of its position by all the group's fills, a settled one's by its settled fills. */
  ghost predicate IsViewShare(rows: seq<Position>, holdings: GroupHoldings, v: View, share: real) {
    if v.source == FromLive then IsShare(Lookup(holdings.total, (v.account, v.conId)), v.position, share)
    else IsSettledShare(rows, holdings.settled, v, share)
  }

  /** `c` is the merged view `v` cut to what the group holds of it. */
  ghost predicate IsPartOf(rows: seq<Position>, holdings: GroupHoldings, v: View, c: View) {
    exists share, settledShare ::
      IsViewShare(rows, holdings, v, share) && IsSettledShare(rows, holdings.settled, v, settledShare) && IsCutBy(c, v, share, settledShare)
  }

  lemma {:induction false} ViewShareInColumns(rows: seq<Position>, holdings: GroupHoldings, v: View)
    requires UniqueSettled(rows)
    ensures IsViewShare(rows, holdings, v, PositionShare(v, FlexShares(rows, holdings.settled), holdings))
  {
    if v.source == FromLive {
      ShareInColumns(Lookup(holdings.total, ViewKey(v)), v.position);
    } else {
      SettledShareInColumns(rows, holdings.settled, v);
    }
  }

  lemma {:induction false} CutByShares(v: View, shares: map<Pair, real>, holdings: GroupHoldings)
    ensures IsCutBy(Cut(v, shares, holdings), v, PositionShare(v, shares, holdings), SettledShare(v, shares))
  {}

  lemma {:induction false} PartByShares(rows: seq<Position>, holdings: GroupHoldings, v: View, c: View, share: real, settledShare: real)
    requires IsViewShare(rows, holdings, v, share) && IsSettledShare(rows, holdings.settled, v, settledShare) && IsCutBy(c, v, share, settledShare)
    ensures IsPartOf(rows, holdings, v, c)
  {}

  lemma {:induction false} CutInColumns(rows: seq<Position>, holdings: GroupHoldings, v: View)
    requires UniqueSettled(rows)
    ensures IsViewShare(rows, holdings, v, PositionShare(v, FlexShares(rows, holdings.settled), holdings))
    ensures IsPartOf(rows, holdings, v, Cut(v, FlexShares(rows, holdings.settled), holdings))
  {
    var shares := FlexShares(rows, holdings.settled);
    SettledShareInColumns(rows, holdings.settled, v);
    ViewShareInColumns(rows, holdings, v);
    CutByShares(v, shares, holdings);
    PartByShares(rows, holdings, v, Cut(v, shares, holdings), PositionShare(v, shares, holdings), SettledShare(v, shares));
  }

  /** Every view of a group is a merged view cut to size, and a merged view without one is held by none of its share. */
  lemma {:induction false} GroupViewsInColumns(rows: seq<Position>, views: seq<View>, holdings: GroupHoldings)
    requires UniqueSettled(rows)
    ensures var cut := Apportion(views, FlexShares(rows, holdings.settled), holdings);
      && (forall c :: c in cut ==> exists v :: v in views && IsPartOf(rows, holdings, v, c))
      && (forall v :: v in views && !IsViewShare(rows, holdings, v, 0.0) ==> exists c :: c in cut && IsPartOf(rows, holdings, v, c))
  {
    var shares := FlexShares(rows, holdings.settled);
    var cut, kept := Apportion(views, shares, holdings), Filter(views, HoldsSome(shares, holdings));
    forall c | c in cut ensures exists v :: v in views && IsPartOf(rows, holdings, v, c) {
      var i :| 0 <= i < |cut| && cut[i] == c;
      CutInColumns(rows, holdings, kept[i]);
      assert kept[i] in kept;
    }
    forall v | v in views && !IsViewShare(rows, holdings, v, 0.0) ensures exists c :: c in cut && IsPartOf(rows, holdings, v, c) {
      CutInColumns(rows, holdings, v);
      assert v in kept;
      var i :| 0 <= i < |kept| && kept[i] == v;
      assert cut[i] in cut;
    }
  }

  // ---------------------------------------------------------------------
  // Accounts and staleness
  // ---------------------------------------------------------------------

  function OfThisAccount(account: int): LedgerFill -> bool {
    (e: LedgerFill) => e.account == account
  }

  ghost function AddingIn(settledIds: set<string>, account: int): LiveFill -> bool {
    (e: LiveFill) => e.account == account && e.execId !in settledIds
  }

  lemma {:induction false} LiveOfAccount(fills: seq<LiveFill>, settledIds: set<string>, account: int)
    ensures LiveRealized(Filter(fills, (e: LiveFill) => e.account == account), settledIds) == Sum(Filter(fills, AddingIn(settledIds, account)), RealizedValue)
  {
    var mine := (e: LiveFill) => e.account == account;
    FilterTwice(fills, mine, AddingIn(settledIds, account), AddingIn(settledIds, account));
    UnsettledSum(Filter(fills, mine), settledIds, AddingIn(settledIds, account));
  }

  lemma {:induction false} RealizedOfAccount(ledger: Ledger, account: int)
    ensures Lookup(ledger.RealizedByAccount(), account).GetOr(None) == RealizedTotal(Filter(ledger.executions, OfThisAccount(account)))
  {
    FilterAgrees(ledger.executions, (e: LedgerFill) => e.account == account, OfThisAccount(account));
    if account !in ledger.RealizedByAccount() { FilterNone(ledger.executions, OfThisAccount(account)); }
  }

  /** One account's figures, from its views, its settled realized PnL and what its live fills add. */
  ghost predicate IsAccountOf(a: AccountOverlay, mine: seq<View>, realized: Option<real>, live: real,
                              figure: View -> Option<real>, settled: View -> Option<real>) {
    && IsSumOf(a.unrealized, mine, settled) && IsSumOf(a.intradayUnrealized, mine, figure)
    && IsSettledAndLive(a.intradayRealized, realized, live)
    && IsSumOfParts(a.intradayTotal, a.intradayUnrealized, a.intradayRealized)
  }

  lemma {:induction false} SettledInColumns(views: seq<View>, settled: View -> Option<real>)
    requires forall v: View :: settled(v) == v.settledUnrealized
    ensures IsSumOf(SumPresent(Map(views, ShownSettled)), views, settled)
  {
    SameFigures(views, ShownSettled, settled);
    PresentSum(views, settled);
  }

  lemma {:induction false} FiguresInColumns(views: seq<View>, fills: seq<LiveFill>, settledIds: set<string>, realized: Option<real>, account: int,
                                            figure: View -> Option<real>, settled: View -> Option<real>)
    requires forall v: View :: CountsFor(v, figure(v))
    requires forall v: View :: settled(v) == v.settledUnrealized
    ensures IsAccountOf(AccountFigures(views, fills, settledIds, realized, account), Filter(views, InAccount(account)), realized,
                        Sum(Filter(fills, AddingIn(settledIds, account)), RealizedValue), figure, settled)
  {
    var mine := Filter(views, InAccount(account));
    LiveOfAccount(fills, settledIds, account);
    IntradayInColumns(mine, figure);
    SettledInColumns(mine, settled);
  }

  /** An account is broken out when it has a view or a settled fill of the group, and from its own rows alone. */
  lemma {:induction false} AccountInColumns(views: seq<View>, fills: seq<LiveFill>, ledger: Ledger, account: int,
                                            figure: View -> Option<real>, settled: View -> Option<real>)
    requires forall v: View :: CountsFor(v, figure(v))
    requires forall v: View :: settled(v) == v.settledUnrealized
    ensures var byAccount := AccountBreakdown(views, fills, ledger.SettledIds(), ledger.RealizedByAccount());
      && (account in byAccount <==> (exists v :: v in views && v.account == account) || exists e :: e in ledger.executions && e.account == account)
      && (account in byAccount ==>
            IsAccountOf(byAccount[account], Filter(views, InAccount(account)), RealizedTotal(Filter(ledger.executions, OfThisAccount(account))),
                        Sum(Filter(fills, AddingIn(ledger.SettledIds(), account)), RealizedValue), figure, settled))
  {
    RealizedOfAccount(ledger, account);
    FiguresInColumns(views, fills, ledger.SettledIds(), Lookup(ledger.RealizedByAccount(), account).GetOr(None), account, figure, settled);
  }

  lemma {:induction false} CaptureIsFound(liveRows: seq<LivePosition>, l: LivePosition)
    requires UniqueLive(liveRows) && l in liveRows
    ensures FetchedAt(liveRows, LiveKey(l)) == Some(l.fetchedAt)
  {
    var front, last := liveRows[..|liveRows| - 1], liveRows[|liveRows| - 1];
    assert liveRows == front + [last];
    if LiveKey(last) != LiveKey(l) {
      assert l in front;
      CaptureIsFound(front, l);
    } else {
      var i :| 0 <= i < |liveRows| && liveRows[i] == l;
    }
  }

  /** The capture behind a view is outdated by the snapshot row of its key. */
  ghost predicate IsBehind(l: LivePosition, flexRows: seq<Position>, clock: Clock) {
    exists r :: r in flexRows && (r.account, r.conId) == (l.account, l.conId) && IsOutdated(l, r, clock)
  }

  lemma {:induction false} BehindInColumns(v: View, l: LivePosition, flexRows: seq<Position>, liveRows: seq<LivePosition>, clock: Clock)
    requires UniqueLive(liveRows) && UniqueSettled(flexRows) && l in liveRows && ViewKey(v) == LiveKey(l)
    ensures IsStaleView(v, flexRows, liveRows, clock) <==> IsBehind(l, flexRows, clock)
  {
    CaptureIsFound(liveRows, l);
    if r :| r in flexRows && (r.account, r.conId) == (l.account, l.conId) {
      SnapshotRowIsFound(flexRows, l.account, l.conId, Some(r));
      OutdatedInColumns(l, r, clock);
      forall x | x in flexRows && (x.account, x.conId) == (l.account, l.conId) ensures x == r {
        SnapshotRowIsFound(flexRows, l.account, l.conId, Some(x));
      }
    } else {
      SnapshotRowIsFound(flexRows, l.account, l.conId, None);
    }
  }

  ghost predicate IsBacked(v: View, l: LivePosition, liveRows: seq<LivePosition>) {
    l in liveRows && (v.account, v.conId) == (l.account, l.conId)
  }

  /** A group is flagged stale exactly when it shows a captured position and the snapshot outdates the capture of every one it shows. */
  lemma {:induction false} StaleFlagInColumns(views: seq<View>, flexRows: seq<Position>, liveRows: seq<LivePosition>, clock: Clock)
    requires UniqueLive(liveRows) && UniqueSettled(flexRows)
    ensures GroupIsStale(views, flexRows, liveRows, clock) <==>
      && (exists v, l :: v in views && IsBacked(v, l, liveRows))
      && (forall v, l :: v in views && IsBacked(v, l, liveRows) ==> IsBehind(l, flexRows, clock))
  {
    forall v, l | v in views && IsBacked(v, l, liveRows) ensures IsStaleView(v, flexRows, liveRows, clock) <==> IsBehind(l, flexRows, clock) {
      BehindInColumns(v, l, flexRows, liveRows, clock);
    }
    forall v | v in views ensures ViewKey(v) in KeysOf(liveRows) <==> exists l :: IsBacked(v, l, liveRows) {
      if ViewKey(v) in KeysOf(liveRows) {
        var l :| l in liveRows && LiveKey(l) == ViewKey(v);
        assert IsBacked(v, l, liveRows);
      }
    }
  }
}
