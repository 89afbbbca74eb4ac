/**
  The live-over-settled overlay of one trade group: merge live rows over the
  settled snapshot, cut the account's positions down to the group's share, and
  total realized and unrealized PnL.
 */
module Overlay {
  import opened Common
  import opened Calendar
  import opened Holdings

  /** A settled snapshot row.  A contract multiplier is absent when missing or not a number. */
  datatype Position = Position(
    account: int, conId: int, secType: Option<string>, multiplier: Option<real>, position: real, avgCost: real,
    markPrice: Option<real>, positionValue: Option<real>, unrealized: Option<real>, asOf: Option<int>, fetchedAt: int)

  datatype LivePosition = LivePosition(
    account: int, conId: int, secType: Option<string>, multiplier: Option<real>, position: real, avgCost: real, fetchedAt: int)

  datatype Quote = Quote(mark: Option<real>, marketTs: Option<int>)

  datatype ViewSource = FromLive | FromSettled

  datatype View = View(
    account: int, conId: int, secType: Option<string>, position: real, avgCost: real, mark: Option<real>, markTs: Option<int>,
    source: ViewSource, liveUnrealized: Option<real>, settledMark: Option<real>, settledUnrealized: Option<real>,
    settledValue: Option<real>, asOf: Option<int>)

  /** What the merge looks up: quotes and price magnifiers per contract, newest snapshot date per account. */
  datatype Lookups = Lookups(quotes: map<int, Quote>, magnifiers: map<int, Option<real>>, asOf: map<int, Option<int>>)

  function SettledKey(row: Position): Pair { (row.account, row.conId) }
  function LiveKey(row: LivePosition): Pair { (row.account, row.conId) }
  function ViewKey(v: View): Pair { (v.account, v.conId) }

  // ---------------------------------------------------------------------
  // Merging
  // ---------------------------------------------------------------------

  function PositiveOr1(x: Option<real>): real {
    if x.Some? && x.value > 0.0 then x.value else 1.0
  }

  function Unrealized(quantity: real, avgCost: real, mark: Option<real>, multiplier: real): Option<real> {
    if mark.None? then None else Some(quantity * mark.value * multiplier - quantity * avgCost)
  }

  /** The per-unit settled cost in the multiplier-inclusive convention of the live side. */
  function SettledCost(row: Position): real {
    row.avgCost * PositiveOr1(row.multiplier)
  }

  function OrElse(a: Option<string>, b: Option<string>): Option<string> {
    if a.Some? && a.value != "" then a else b
  }

  /** A quoted price in the multiplier's unit; the no-data sentinel and every non-positive price count as absent. */
  function QuotedMark(quote: Option<Quote>, magnifier: Option<real>): Option<real> {
    if quote.None? || quote.value.mark.None? || quote.value.mark.value <= 0.0 then None
    else Some(quote.value.mark.value / PositiveOr1(magnifier))
  }

  function SnapshotOf(rows: seq<Position>, key: Pair): Option<Position> {
    if rows == [] then None
    else if SettledKey(rows[|rows| - 1]) == key then Some(rows[|rows| - 1])
    else SnapshotOf(rows[..|rows| - 1], key)
  }

  function MarkTime(quote: Option<Quote>): Option<int> {
    if quote.Some? then quote.value.marketTs else None
  }

  /** One live row over its settled counterpart: a stale capture keeps the row but shows the snapshot's numbers. */
  function LiveView(live: LivePosition, flex: Option<Position>, quote: Option<Quote>, magnifier: Option<real>, clock: Clock): View {
    var secType := OrElse(live.secType, if flex.Some? then flex.value.secType else None);
    var mark := MarkIfFresh(QuotedMark(quote, magnifier), MarkTime(quote), secType, clock);
    var markTs := if mark.Some? then MarkTime(quote) else None;
    if flex.None? then
      View(live.account, live.conId, secType, live.position, live.avgCost, mark, markTs, FromLive,
           Unrealized(live.position, live.avgCost, mark, PositiveOr1(live.multiplier)), None, None, None, None)
    else if IsLiveStale(Some(live.fetchedAt), Some(flex.value.fetchedAt), clock) then
      View(live.account, live.conId, secType, flex.value.position, SettledCost(flex.value), mark, markTs, FromSettled,
           None, flex.value.markPrice, flex.value.unrealized, flex.value.positionValue, flex.value.asOf)
    else
      View(live.account, live.conId, secType, live.position, live.avgCost, mark, markTs, FromLive,
           Unrealized(live.position, live.avgCost, mark, PositiveOr1(live.multiplier)),
           flex.value.markPrice, flex.value.unrealized, flex.value.positionValue, flex.value.asOf)
  }

  function SettledView(flex: Position): View {
    View(flex.account, flex.conId, flex.secType, flex.position, SettledCost(flex), flex.markPrice, None, FromSettled,
         None, flex.markPrice, flex.unrealized, flex.positionValue, flex.asOf)
  }

  predicate IsCurrent(row: LivePosition, asOf: map<int, Option<int>>, clock: Clock) {
    !IsOverlaySuperseded(Some(row.fetchedAt), if row.account in asOf then asOf[row.account] else None, clock)
  }

  /** The accounts some live row of which the snapshot has not superseded. */
  function LiveAccounts(liveRows: seq<LivePosition>, asOf: map<int, Option<int>>, clock: Clock): set<int> {
    set row | row in liveRows && IsCurrent(row, asOf, clock) :: row.account
  }

  function KeysOf(liveRows: seq<LivePosition>): set<Pair> {
    set row | row in liveRows :: LiveKey(row)
  }

  function ViewOf(live: LivePosition, flexRows: seq<Position>, lookups: Lookups, clock: Clock): View {
    LiveView(live, SnapshotOf(flexRows, LiveKey(live)), Lookup(lookups.quotes, live.conId),
             Lookup(lookups.magnifiers, live.conId).GetOr(None), clock)
  }

  /** A settled row shown as such: no live row for its key, and no current capture of its account. */
  predicate IsSettledOnly(row: Position, seen: set<Pair>, liveAccounts: set<int>) {
    SettledKey(row) !in seen && row.account !in liveAccounts
  }

  function Merge(flexRows: seq<Position>, liveRows: seq<LivePosition>, lookups: Lookups, clock: Clock): seq<View> {
    var seen, current := KeysOf(liveRows), LiveAccounts(liveRows, lookups.asOf, clock);
    Map(liveRows, (l: LivePosition) => ViewOf(l, flexRows, lookups, clock)) +
    Map(Filter(flexRows, (f: Position) => IsSettledOnly(f, seen, current)), SettledView)
  }

  // ---------------------------------------------------------------------
  // Apportioning
  // ---------------------------------------------------------------------

  function ShareOf(row: Position, held: map<Pair, real>): real {
    HeldFraction(Lookup(held, SettledKey(row)), row.position)
  }

  function FlexShares(flexRows: seq<Position>, held: map<Pair, real>): map<Pair, real> {
    if flexRows == [] then map[]
    else
      var row := flexRows[|flexRows| - 1];
      FlexShares(flexRows[..|flexRows| - 1], held)[SettledKey(row) := ShareOf(row, held)]
  }

  function ScaleBy(value: Option<real>, share: real): Option<real> {
    if value.None? then None else Some(value.value * share)
  }

  function SettledShare(v: View, shares: map<Pair, real>): real {
    Lookup(shares, ViewKey(v)).GetOr(0.0)
  }

  /** A live view is sized by all the group's fills, a settled one by its settled fills. */
  function PositionShare(v: View, shares: map<Pair, real>, holdings: GroupHoldings): real {
    if v.source == FromLive then HeldFraction(Lookup(holdings.total, ViewKey(v)), v.position) else SettledShare(v, shares)
  }

  function Cut(v: View, shares: map<Pair, real>, holdings: GroupHoldings): View {
    var share, settledShare := PositionShare(v, shares, holdings), SettledShare(v, shares);
    v.(position := v.position * share, liveUnrealized := ScaleBy(v.liveUnrealized, share),
       settledUnrealized := ScaleBy(v.settledUnrealized, settledShare), settledValue := ScaleBy(v.settledValue, settledShare))
  }

  function HoldsSome(shares: map<Pair, real>, holdings: GroupHoldings): View -> bool {
    (v: View) => PositionShare(v, shares, holdings) != 0.0
  }

  function CutTo(shares: map<Pair, real>, holdings: GroupHoldings): View -> View {
    (v: View) => Cut(v, shares, holdings)
  }

  function Apportion(views: seq<View>, shares: map<Pair, real>, holdings: GroupHoldings): seq<View> {
    Map(Filter(views, HoldsSome(shares, holdings)), CutTo(shares, holdings))
  }

  // ---------------------------------------------------------------------
  // Totals
  // ---------------------------------------------------------------------

  /** The sum of the present values; absent when none is present. */
  function SumPresent(xs: seq<Option<real>>): Option<real> {
    if forall x | x in xs :: x.None? then None else Some(Sum(xs, OrZero))
  }

  function OrZero(x: Option<real>): real { x.GetOr(0.0) }

  function Contribution(v: View): Option<real> {
    if v.source == FromLive && v.liveUnrealized.Some? then v.liveUnrealized else v.settledUnrealized
  }

  function ShownSettled(v: View): Option<real> { v.settledUnrealized }

  function IntradayUnrealized(views: seq<View>): Option<real> {
    SumPresent(Map(views, Contribution))
  }

  function NewestMark(views: seq<View>): Option<int> {
    if views == [] then None
    else
      var front, last := NewestMark(views[..|views| - 1]), views[|views| - 1].markTs;
      if front.None? || (last.Some? && last.value > front.value) then last else front
  }

  function Unsettled(fills: seq<LiveFill>, settledIds: set<string>): seq<LiveFill> {
    Filter(fills, (e: LiveFill) => e.execId !in settledIds)
  }

  function LiveRealized(fills: seq<LiveFill>, settledIds: set<string>): real {
    Sum(Unsettled(fills, settledIds), (e: LiveFill) => OrZero(e.realized))
  }

  function AddRealized(realized: Option<real>, live: real): Option<real> {
    if realized.Some? || live != 0.0 then Some(OrZero(realized) + live) else None
  }

  function AddParts(a: Option<real>, b: Option<real>): Option<real> {
    if a.None? && b.None? then None else Some(OrZero(a) + OrZero(b))
  }

  datatype Totals = Totals(
    settledUnrealized: Option<real>, intradayUnrealized: Option<real>, intradayRealized: Option<real>,
    intradayTotal: Option<real>, marksAsOf: Option<int>)

  /** The part of a settled row's unrealized PnL that the shares give the scope. */
  function SettledPart(shares: map<Pair, real>): Position -> Option<real> {
    (row: Position) => ScaleBy(row.unrealized, Lookup(shares, SettledKey(row)).GetOr(0.0))
  }

  function TotalsOf(flexRows: seq<Position>, views: seq<View>, fills: seq<LiveFill>, settledIds: set<string>,
                    realized: Option<real>, shares: map<Pair, real>): Totals {
    var unrealized := IntradayUnrealized(views);
    var intradayRealized := AddRealized(realized, LiveRealized(fills, settledIds));
    Totals(SumPresent(Map(flexRows, SettledPart(shares))), unrealized, intradayRealized,
           AddParts(unrealized, intradayRealized), NewestMark(views))
  }

  function FillRealized(e: LedgerFill): Option<real> { e.realized }

  predicate IsSummaryFill(e: LedgerFill) { e.role == ComboSummary }

  predicate IsLegFill(e: LedgerFill) { e.role != ComboSummary && e.role != Standalone }

  predicate IsPlainFill(e: LedgerFill) { !IsSummaryFill(e) && !IsLegFill(e) }

  function RealizedSum(execs: seq<LedgerFill>, p: LedgerFill -> bool): Option<real> {
    SumPresent(Map(Filter(execs, p), FillRealized))
  }

  /** Realized PnL: valued combo summaries replace their legs; otherwise every fill that is no summary counts. */
  function RealizedTotal(execs: seq<LedgerFill>): Option<real> {
    var summaries := RealizedSum(execs, IsSummaryFill);
    if summaries.Some? then Some(summaries.value + OrZero(RealizedSum(execs, IsPlainFill)))
    else RealizedSum(execs, (e: LedgerFill) => !IsSummaryFill(e))
  }

  function Accounts(execs: seq<LedgerFill>): set<int> {
    set e | e in execs :: e.account
  }

  function RealizedOf(execs: seq<LedgerFill>, account: int): Option<real> {
    RealizedTotal(Filter(execs, (e: LedgerFill) => e.account == account))
  }

  // ---------------------------------------------------------------------
  // One group
  // ---------------------------------------------------------------------

  datatype Ledger = Ledger(executions: seq<LedgerFill>, liveFills: seq<LiveFill>, extraPairs: set<Pair>) {
    function SettledPairs(): set<Pair> {
      set e | e in executions && e.conId.Some? :: (e.account, e.conId.value)
    }

    function Pairs(): set<Pair> {
      SettledPairs() + (set e | e in liveFills && e.conId.Some? :: (e.account, e.conId.value)) + extraPairs
    }

    function SettledIds(): set<string> {
      set e | e in executions && e.execId != "" :: e.execId
    }

    function Holdings(): GroupHoldings { HoldingsOf(executions, liveFills) }

    function Realized(): Option<real> { RealizedTotal(executions) }

    function RealizedByAccount(): map<int, Option<real>> {
      map a | a in Accounts(executions) :: RealizedOf(executions, a)
    }

    /** The ledger as loaded without its unsettled side. */
    function SettledOnly(): Ledger { Ledger(executions, [], {}) }
  }

  datatype AccountOverlay = AccountOverlay(
    unrealized: Option<real>, intradayUnrealized: Option<real>, intradayRealized: Option<real>, intradayTotal: Option<real>)

  datatype GroupOverlay = GroupOverlay(
    views: seq<View>, flexRows: seq<Position>, liveRows: seq<LivePosition>, realized: Option<real>, totals: Totals,
    byAccount: map<int, AccountOverlay>, liveIsStale: bool)

  function FetchedAt(liveRows: seq<LivePosition>, key: Pair): Option<int> {
    if liveRows == [] then None
    else if LiveKey(liveRows[|liveRows| - 1]) == key then Some(liveRows[|liveRows| - 1].fetchedAt)
    else FetchedAt(liveRows[..|liveRows| - 1], key)
  }

  predicate IsStaleView(v: View, flexRows: seq<Position>, liveRows: seq<LivePosition>, clock: Clock) {
    var flex := SnapshotOf(flexRows, ViewKey(v));
    IsLiveStale(FetchedAt(liveRows, ViewKey(v)), if flex.Some? then Some(flex.value.fetchedAt) else None, clock)
  }

  /** Some view has a live row behind it, and every such view is stale. */
  predicate GroupIsStale(views: seq<View>, flexRows: seq<Position>, liveRows: seq<LivePosition>, clock: Clock) {
    && (exists v | v in views :: ViewKey(v) in KeysOf(liveRows))
    && (forall v | v in views :: ViewKey(v) in KeysOf(liveRows) ==> IsStaleView(v, flexRows, liveRows, clock))
  }

  function InAccount(account: int): View -> bool {
    (v: View) => v.account == account
  }

  function AccountFigures(views: seq<View>, fills: seq<LiveFill>, settledIds: set<string>, realized: Option<real>, account: int): AccountOverlay {
    var mine := Filter(views, InAccount(account));
    var intraday := IntradayUnrealized(mine);
    var intradayRealized := AddRealized(realized, LiveRealized(Filter(fills, (e: LiveFill) => e.account == account), settledIds));
    AccountOverlay(SumPresent(Map(mine, ShownSettled)), intraday, intradayRealized, AddParts(intraday, intradayRealized))
  }

  function AccountBreakdown(views: seq<View>, fills: seq<LiveFill>, settledIds: set<string>, realized: map<int, Option<real>>): map<int, AccountOverlay> {
    map a | a in (set v | v in views :: v.account) + realized.Keys ::
      AccountFigures(views, fills, settledIds, Lookup(realized, a).GetOr(None), a)
  }

  /** The pipeline over rows already sliced to the group's pairs. */
  function Compose(flexRows: seq<Position>, liveRows: seq<LivePosition>, fills: seq<LiveFill>, merged: seq<View>, ledger: Ledger, clock: Clock): GroupOverlay {
    var shares := FlexShares(flexRows, ledger.Holdings().settled);
    var views := Apportion(merged, shares, ledger.Holdings());
    GroupOverlay(views, flexRows, liveRows, ledger.Realized(),
                 TotalsOf(flexRows, views, fills, ledger.SettledIds(), ledger.Realized(), shares),
                 AccountBreakdown(views, fills, ledger.SettledIds(), ledger.RealizedByAccount()),
                 GroupIsStale(views, flexRows, liveRows, clock))
  }

  // ---------------------------------------------------------------------
  // Loading
  // ---------------------------------------------------------------------

  /** The stored rows, settled positions in (account, contract) order. */
  datatype Db = Db(
    positions: seq<Position>, live: seq<LivePosition>, quotes: map<int, Quote>, magnifiers: map<int, Option<real>>, fills: seq<LiveFill>)

  datatype Context = Context(flexRows: seq<Position>, liveRows: seq<LivePosition>, fills: seq<LiveFill>, lookups: Lookups)

  /** The newest snapshot date of an account over all its rows, closed ones included. */
  function NewestAsOf(positions: seq<Position>, account: int): Option<int> {
    if positions == [] then None
    else
      var front, last := NewestAsOf(positions[..|positions| - 1], account), positions[|positions| - 1];
      if last.account == account && last.asOf.Some? && (front.None? || last.asOf.value > front.value) then last.asOf else front
  }

  function Snapshot(db: Db, pairs: set<Pair>): seq<Position> {
    Filter(db.positions, (p: Position) => SettledKey(p) in pairs && p.position != 0.0)
  }

  predicate IsHeld(rows: seq<Position>, key: Pair) {
    exists i | 0 <= i < |rows| :: SettledKey(rows[i]) == key
  }

  function AsOfTable(db: Db, pairs: set<Pair>): map<int, Option<int>> {
    map a | a in (set p | p in db.positions :: p.account) && a in (set p: Pair | p in pairs :: p.0) :: NewestAsOf(db.positions, a)
  }

  /** A live row is loaded unless it is superseded and has no settled counterpart among the loaded rows. */
  predicate IsLoaded(row: LivePosition, pairs: set<Pair>, flexRows: seq<Position>, asOf: map<int, Option<int>>, clock: Clock) {
    LiveKey(row) in pairs && row.position != 0.0 && (IsHeld(flexRows, LiveKey(row)) || IsCurrent(row, asOf, clock))
  }

  function Contracts(flexRows: seq<Position>, liveRows: seq<LivePosition>): set<int> {
    (set p | p in flexRows :: p.conId) + (set p | p in liveRows :: p.conId)
  }

  predicate IsPairOf(e: LiveFill, pairs: set<Pair>) {
    e.conId.Some? && (e.account, e.conId.value) in pairs
  }

  function Load(db: Db, pairs: set<Pair>, clock: Clock): Context {
    if pairs == {} then Context([], [], [], Lookups(map[], map[], map[]))
    else
      var flexRows, asOf := Snapshot(db, pairs), AsOfTable(db, pairs);
      var liveRows := Filter(db.live, (r: LivePosition) => IsLoaded(r, pairs, flexRows, asOf, clock));
      var contracts := Contracts(flexRows, liveRows);
      Context(flexRows, liveRows, Filter(db.fills, (e: LiveFill) => IsPairOf(e, pairs)),
              Lookups(map c | c in contracts && c in db.quotes :: db.quotes[c],
                      map c | c in contracts && c in db.magnifiers :: db.magnifiers[c], asOf))
  }

  /** One group over a context loaded for its pairs or more. */
  function OverlayOne(context: Context, ledger: Ledger, clock: Clock): GroupOverlay {
    var pairs := ledger.Pairs();
    var flexRows := Filter(context.flexRows, (p: Position) => SettledKey(p) in pairs);
    var liveRows := Filter(context.liveRows, (p: LivePosition) => LiveKey(p) in pairs);
    var fills := Filter(context.fills, (e: LiveFill) => IsPairOf(e, pairs));
    Compose(flexRows, liveRows, fills, Merge(flexRows, liveRows, context.lookups, clock), ledger, clock)
  }

  function AllPairs(ledgers: map<int, Ledger>): set<Pair> {
    set g, p | g in ledgers && p in ledgers[g].Pairs() :: p
  }

  /** Every ledger's overlay from one context loaded for all of them. */
  function OverlayForLedgers(db: Db, ledgers: map<int, Ledger>, clock: Clock): map<int, GroupOverlay> {
    var context := Load(db, AllPairs(ledgers), clock);
    map g | g in ledgers :: OverlayOne(context, ledgers[g], clock)
  }
}
