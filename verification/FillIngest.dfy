/**
  Ingest of settled fills from either broker feed: parent resolution, upsert on
  the execution id, synthesized combo summaries, revision flags, leg re-tagging
  and the parents' aggregates, as functions on table values.  A row's id is its
  position in its table; rows are never deleted.
 */
module FillIngest {
  import opened Common

  /** Lifecycle outcome of one execution, read from its notes. */
  datatype Outcome = Filled | Expired | Assigned | Exercised

  /** What differs per feed. */
  datatype Source = Source(name: string, matchesTradeDate: bool, retagsLegs: bool)

  const FLEX := Source("flex", false, false)
  const TWS := Source("tws", true, true)

  datatype Fill = Fill(
    account: int, execId: string, executedAt: int, quantity: real, price: real, side: Option<string>,
    symbol: Option<string>, secType: Option<string>, exchange: Option<string>, currency: Option<string>,
    commission: Option<real>, outcome: Outcome, permId: Option<int>, orderId: Option<int>, orderRef: Option<string>,
    comboKey: Option<string>, comboUnderlying: Option<string>, isComboSummary: bool)
  {
    function Role(): Role {
      if isComboSummary then ComboSummary else if comboKey.Some? then Leg else Standalone
    }
  }

  datatype Status = Partial | Unknown | Settled(outcome: Outcome)

  /** The aggregates of a trade, derived from its canonical executions. */
  datatype Totals = Totals(status: Status, quantity: real, avgPrice: Option<real>, firstAt: Option<int>, lastAt: Option<int>)

  /** The identity of a trade. */
  datatype TradeInfo = TradeInfo(
    account: int, permId: Option<int>, orderRef: Option<string>, orderId: Option<int>, symbol: Option<string>,
    secType: Option<string>, side: Option<string>, exchange: Option<string>, currency: Option<string>, source: string)

  datatype Trade = Trade(info: TradeInfo, totals: Totals)

  /** `comboKey` is the combo key a synthesized summary keeps in its raw payload. */
  datatype Exec = Exec(
    tradeId: nat, account: int, execId: string, base: string, revision: int, role: Role, executedAt: int,
    quantity: real, price: real, side: Option<string>, secType: Option<string>, commission: Option<real>,
    orderRef: Option<string>, canonical: bool, outcome: Outcome, comboKey: Option<string>, source: string)

  datatype Book = Book(trades: seq<Trade>, execs: seq<Exec>)

  const EMPTY := Book([], [])
  const OWN_REF_PREFIX := "ngtrader-"

  // ---------------------------------------------------------------------
  // Execution ids
  // ---------------------------------------------------------------------

  predicate IsNumber(s: string) {
    s != [] && forall i :: 0 <= i < |s| ==> '0' <= s[i] <= '9'
  }

  function NumberOf(s: string): nat
    requires forall i :: 0 <= i < |s| ==> '0' <= s[i] <= '9'
  {
    if s == [] then 0 else 10 * NumberOf(s[..|s| - 1]) + (s[|s| - 1] - '0') as nat
  }

  /** The id up to and including its last dot, and the number after it; revision 1 when there is none. */
  function ParseExecId(id: string): (string, int) {
    var dot := LastDot(id);
    if dot < 0 then (id + ".", 1)
    else (id[..dot + 1], if IsNumber(id[dot + 1..]) then NumberOf(id[dot + 1..]) else 1)
  }

  // ---------------------------------------------------------------------
  // Parent resolution
  // ---------------------------------------------------------------------

  predicate SameTradeDate(t: Trade, fill: Fill) {
    t.totals.firstAt.Some? && Day(t.totals.firstAt.value) == Day(fill.executedAt)
  }

  predicate HasPermId(fill: Fill) {
    fill.permId.Some? && fill.permId.value > 0
  }

  predicate HasOwnRef(fill: Fill) {
    fill.orderRef.Some? && OWN_REF_PREFIX <= fill.orderRef.value
  }

  predicate IsParent(t: Trade, fill: Fill, source: Source) {
    && t.info.account == fill.account
    && if HasPermId(fill) then t.info.permId == fill.permId
       else if HasOwnRef(fill) then t.info.orderRef == fill.orderRef
       else
         && t.info.orderId == fill.orderId && t.info.symbol == fill.symbol && t.info.side == fill.side
         && (source.matchesTradeDate ==> SameTradeDate(t, fill))
  }

  /** The first trade of the one tier that applies; a tier that finds nothing does not fall through. */
  function MatchParent(trades: seq<Trade>, fill: Fill, source: Source): Option<nat> {
    First(trades, (t: Trade) => IsParent(t, fill, source))
  }

  const NEW_TOTALS := Totals(Partial, 0.0, None, None, None)

  function NewTrade(fill: Fill, source: Source): Trade {
    Trade(TradeInfo(fill.account, fill.permId, fill.orderRef, fill.orderId, fill.symbol, None, fill.side, None, None, source.name), NEW_TOTALS)
  }

  function NewComboTrade(fill: Fill, source: Source): Trade {
    Trade(TradeInfo(fill.account, None, fill.orderRef, None, fill.comboUnderlying, Some("BAG"), None, None, None, source.name), NEW_TOTALS)
  }

  function Backfilled(stored: Option<string>, incoming: Option<string>): Option<string> {
    if stored.None? && incoming.Some? && incoming.value != "" then incoming else stored
  }

  function Backfill(info: TradeInfo, fill: Fill): TradeInfo {
    info.(symbol := Backfilled(info.symbol, fill.symbol), secType := Backfilled(info.secType, fill.secType),
          exchange := Backfilled(info.exchange, fill.exchange), currency := Backfilled(info.currency, fill.currency))
  }

  // ---------------------------------------------------------------------
  // Writing executions
  // ---------------------------------------------------------------------

  function RowOf(execs: seq<Exec>, id: string): Option<nat> {
    First(execs, (e: Exec) => e.execId == id)
  }

  function NewExec(tradeId: nat, fill: Fill, source: Source): Exec {
    var (base, revision) := ParseExecId(fill.execId);
    Exec(tradeId, fill.account, fill.execId, base, revision, fill.Role(), fill.executedAt, fill.quantity, fill.price,
         fill.side, fill.secType, fill.commission, fill.orderRef, true, fill.outcome, None, source.name)
  }

  /** On conflict only some columns are rewritten: not the account, the time, the side or the revision flag. */
  function UpsertFill(execs: seq<Exec>, tradeId: nat, fill: Fill, source: Source): seq<Exec> {
    match RowOf(execs, fill.execId)
    case None => execs + [NewExec(tradeId, fill, source)]
    case Some(k) =>
      execs[k := execs[k].(
        tradeId := tradeId, quantity := fill.quantity, price := fill.price, commission := fill.commission,
        secType := fill.secType, role := fill.Role(), outcome := fill.outcome, comboKey := None, source := source.name)]
  }

  /** A synthesized summary row, as inserted. */
  datatype Summary = Summary(
    execId: string, quantity: real, price: real, side: string, commission: Option<real>, executedAt: int,
    orderRef: Option<string>, comboKey: string)

  function NewSummaryExec(tradeId: nat, account: int, s: Summary, source: Source): Exec {
    Exec(tradeId, account, s.execId, ParseExecId(s.execId).0, 1, ComboSummary, s.executedAt, s.quantity, s.price,
         Some(s.side), Some("BAG"), s.commission, s.orderRef, true, Filled, Some(s.comboKey), source.name)
  }

  function UpsertSummary(execs: seq<Exec>, tradeId: nat, account: int, s: Summary, source: Source): seq<Exec> {
    match RowOf(execs, s.execId)
    case None => execs + [NewSummaryExec(tradeId, account, s, source)]
    case Some(k) =>
      execs[k := execs[k].(
        tradeId := tradeId, quantity := s.quantity, price := s.price, side := Some(s.side), commission := s.commission,
        role := ComboSummary, secType := Some("BAG"), executedAt := s.executedAt, orderRef := s.orderRef,
        outcome := Filled, comboKey := Some(s.comboKey))]
  }

  // ---------------------------------------------------------------------
  // The passes at the end of an ingest
  // ---------------------------------------------------------------------

  type Group = (int, string)

  predicate InGroup(e: Exec, g: Group) {
    e.account == g.0 && e.base == g.1
  }

  function GroupOf(e: Exec): Group { (e.account, e.base) }

  /**
    Where a query meets the row of an execution id among rows it does not order.
    Nothing in the services fixes it, so it is a parameter of every claim; rows
    it does not tell apart come in table order.
   */
  const ROW_ORDER: string -> int

  /** Row `a` comes before row `b` when rows are read by falling revision. */
  predicate ComesBefore(a: Exec, b: Exec, order: string -> int) {
    a.revision > b.revision || (a.revision == b.revision && order(a.execId) < order(b.execId))
  }

  /** The group's row that is read first, by falling revision and then in the given order. */
  function BestBy(execs: seq<Exec>, g: Group, order: string -> int): (k: Option<nat>)
    ensures k.Some? ==>
      && k.value < |execs| && InGroup(execs[k.value], g)
      && (forall j :: 0 <= j < |execs| && InGroup(execs[j], g) ==> !ComesBefore(execs[j], execs[k.value], order))
      && (forall j :: 0 <= j < k.value && InGroup(execs[j], g) ==> ComesBefore(execs[k.value], execs[j], order))
    ensures k.None? ==> forall j :: 0 <= j < |execs| ==> !InGroup(execs[j], g)
  {
    if execs == [] then None
    else
      var n := |execs| - 1;
      var front := BestBy(execs[..n], g, order);
      if InGroup(execs[n], g) && (front.None? || ComesBefore(execs[n], execs[front.value], order)) then Some(n) else front
  }

  function Best(execs: seq<Exec>, g: Group): Option<nat> {
    BestBy(execs, g, ROW_ORDER)
  }

  /** Canonical for the best row of the group, cleared for its other rows. */
  function Enforce(execs: seq<Exec>, g: Group): seq<Exec> {
    seq(|execs|, i requires 0 <= i < |execs| =>
      if InGroup(execs[i], g) then execs[i].(canonical := Best(execs, g) == Some(i)) else execs[i])
  }

  function EnforceAll(execs: seq<Exec>, groups: seq<Group>): seq<Exec> {
    if groups == [] then execs else Enforce(EnforceAll(execs, groups[..|groups| - 1]), groups[|groups| - 1])
  }

  predicate HoldsSummary(execs: seq<Exec>, t: nat) {
    exists i | 0 <= i < |execs| :: execs[i].tradeId == t && execs[i].role == ComboSummary
  }

  /** On touched trades that hold a summary: the parent becomes BAG and its standalone fills become legs. */
  function Retag(book: Book, touched: set<nat>): Book {
    Book(
      seq(|book.trades|, t requires 0 <= t < |book.trades| =>
        if t in touched && HoldsSummary(book.execs, t) then book.trades[t].(info := book.trades[t].info.(secType := Some("BAG")))
        else book.trades[t]),
      seq(|book.execs|, i requires 0 <= i < |book.execs| =>
        var e := book.execs[i];
        if e.tradeId in touched && e.role == Standalone && HoldsSummary(book.execs, e.tradeId) then e.(role := Leg) else e))
  }

  /** The canonical executions of a trade. */
  function CanonicalOf(execs: seq<Exec>, t: nat): seq<Exec> {
    Filter(execs, (e: Exec) => e.tradeId == t && e.canonical)
  }

  /** The executions the quantity and price are taken from: the combo summaries when there are any. */
  function CountedOf(canonical: seq<Exec>): seq<Exec> {
    var summaries := Filter(canonical, (e: Exec) => e.role == ComboSummary);
    if summaries != [] then summaries else canonical
  }

  function Size(e: Exec): real { Abs(e.quantity) }

  function Notional(e: Exec): real { Abs(e.quantity) * e.price }

  function Earliest(rows: seq<Exec>): int
    requires rows != []
  {
    var last := rows[|rows| - 1].executedAt;
    if |rows| == 1 then last else var t := Earliest(rows[..|rows| - 1]); if t <= last then t else last
  }

  function Latest(rows: seq<Exec>): int
    requires rows != []
  {
    var last := rows[|rows| - 1].executedAt;
    if |rows| == 1 then last else var t := Latest(rows[..|rows| - 1]); if t >= last then t else last
  }

  /** The one outcome all executions share, else a plain fill. */
  function StatusOf(rows: seq<Exec>): Status
    requires rows != []
  {
    if forall e | e in rows :: e.outcome == rows[0].outcome then Settled(rows[0].outcome) else Settled(Filled)
  }

  /** The aggregates of a trade computed from scratch over its canonical executions. */
  function TotalsOf(execs: seq<Exec>, t: nat): Totals {
    TotalsFrom(CanonicalOf(execs, t))
  }

  function TotalsFrom(rows: seq<Exec>): Totals {
    if rows == [] then Totals(Unknown, 0.0, None, None, None)
    else
      var counted := CountedOf(rows);
      var quantity := Sum(counted, Size);
      Totals(StatusOf(rows), quantity, if quantity > 0.0 then Some(Sum(counted, Notional) / quantity) else None,
             Some(Earliest(rows)), Some(Latest(rows)))
  }

  function Recompute(book: Book, touched: set<nat>): Book {
    book.(trades := seq(|book.trades|, t requires 0 <= t < |book.trades| =>
      if t in touched then book.trades[t].(totals := TotalsOf(book.execs, t)) else book.trades[t]))
  }
}
