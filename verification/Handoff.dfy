/**
  The live-to-settled handoff: one economic fill is reported first by the
  intraday TWS feed (a live row) and later by FlexQuery (a settled row), often
  under another execution id.  This module holds the tables, the matching rules
  and the passes as functions on table values; HandoffStore runs them in place.
 */
module Handoff {
  import opened Common

  type ExecId = string

  /** A `sec_type` column: exactly "BAG", "BAG" only once trimmed and upper-cased, or anything else. */
  datatype SecType = Bag | LooseBag | NotBag

  /** A side after normalization; an unrecognized or missing side is `UnknownSide` and never matches. */
  datatype Side = Buy | Sell | UnknownSide

  datatype LiveFill = LiveFill(
    account: int, permId: Option<int>, orderId: Option<int>, role: Role, secType: SecType,
    conId: Option<int>, side: Side, quantity: real, price: real, execTime: int)

  datatype SettledFill = SettledFill(
    execId: ExecId, account: int, role: Role, secType: SecType, conId: Option<int>,
    side: Side, quantity: real, price: real, executedAt: int, bookNote: bool)

  /** What a group link carries besides its key; copied whole onto the settled link. */
  datatype Assignment = Assignment(group: int, source: string, assignedAt: int)

  /** A settled group link; `exec` is the settled row's id, which is its position in the settled table. */
  datatype Member = Member(exec: nat, link: Assignment)

  /** The two group-link tables: links of live fills by execution id, and links of settled rows. */
  datatype Ledger = Ledger(tags: map<ExecId, Assignment>, members: set<Member>)

  datatype Db = Db(live: map<ExecId, LiveFill>, settled: seq<SettledFill>, ledger: Ledger)

  const PRICE_EPS := 0.000001
  const QTY_EPS := 0.000000001

  // ---------------------------------------------------------------------
  // Matching rules
  // ---------------------------------------------------------------------

  /** The id without its final `.segment`; nothing when there is no dot, or only a leading one. */
  function StripLastSegment(id: ExecId): Option<ExecId> {
    var dot := LastDot(id);
    if dot <= 0 then None else Some(id[..dot])
  }

  predicate SameSide(live: LiveFill, s: SettledFill) {
    live.side != UnknownSide && live.side == s.side
  }

  predicate SameSize(live: LiveFill, s: SettledFill) {
    Abs(Abs(live.quantity) - Abs(s.quantity)) <= QTY_EPS
  }

  predicate SameContractFill(live: LiveFill, s: SettledFill) {
    live.conId.Some? && live.conId == s.conId && SameSize(live, s) && SameSide(live, s)
  }

  predicate IsBookEvent(s: SettledFill) {
    "FLEX-TX-" <= s.execId || s.bookNote
  }

  /** Class A: the settled id is the live id with its leg segment removed, and the fills agree. */
  predicate StripTwin(id: ExecId, live: LiveFill, s: SettledFill) {
    StripLastSegment(id) == Some(s.execId) && SameContractFill(live, s)
  }

  /** Class B: a settled book event of the same account, contract, size, side, price and day. */
  predicate BookTwin(live: LiveFill, s: SettledFill) {
    && live.conId.Some? && s.account == live.account && s.conId == live.conId
    && IsBookEvent(s)
    && SameSize(live, s)
    && SameSide(live, s)
    && Abs(s.price - live.price) <= PRICE_EPS
    && Day(s.executedAt) == Day(live.execTime)
  }

  /** A settled BAG row at a live BAG row's account and instant. */
  predicate BagTwin(live: LiveFill, s: SettledFill) {
    live.secType == Bag && s.secType == Bag && s.account == live.account && s.executedAt == live.execTime
  }

  predicate SettledLegAt(live: LiveFill, s: SettledFill) {
    s.account == live.account && s.role == Leg && s.executedAt == live.execTime
  }

  predicate IsBagSummary(live: LiveFill) {
    live.role == ComboSummary || live.secType != NotBag
  }

  datatype OrderKey = Perm(id: int) | Order(id: int)

  /** The perm id when present and nonzero, else the order id when present and nonzero. */
  function GroupKey(permId: Option<int>, orderId: Option<int>): Option<OrderKey> {
    if permId.GetOr(0) != 0 then Some(Perm(permId.value))
    else if orderId.GetOr(0) != 0 then Some(Order(orderId.value))
    else None
  }

  function OrderGroupKey(live: LiveFill): Option<OrderKey> {
    GroupKey(live.permId, live.orderId)
  }

  /** The column the key names holds the key's value; note that the account is not compared. */
  predicate SharesOrder(key: OrderKey, other: LiveFill) {
    match key
    case Perm(v) => other.permId == Some(v)
    case Order(v) => other.orderId == Some(v)
  }

  // ---------------------------------------------------------------------
  // Queries over the settled table
  // ---------------------------------------------------------------------

  /** The last settled row satisfying `p`: what a dictionary built over the rows keeps. */
  function Last(settled: seq<SettledFill>, p: SettledFill -> bool): (k: Option<nat>)
    ensures k.Some? ==> k.value < |settled| && p(settled[k.value]) && forall j :: k.value < j < |settled| ==> !p(settled[j])
    ensures k.None? ==> forall j :: 0 <= j < |settled| ==> !p(settled[j])
  {
    if settled == [] then None
    else if p(settled[|settled| - 1]) then Some(|settled| - 1)
    else Last(settled[..|settled| - 1], p)
  }

  /** The ids of every settled row satisfying `p`. */
  function RowsWhere(settled: seq<SettledFill>, p: SettledFill -> bool): (ks: seq<nat>)
    ensures forall k: nat :: k in ks <==> k < |settled| && p(settled[k])
  {
    if settled == [] then []
    else
      var n := |settled| - 1;
      RowsWhere(settled[..n], p) + if p(settled[n]) then [n] else []
  }

  function RowOf(settled: seq<SettledFill>, id: ExecId): (k: Option<nat>) {
    First(settled, (s: SettledFill) => s.execId == id)
  }

  function MatchLegStrip(settled: seq<SettledFill>, id: ExecId, live: LiveFill): Option<nat> {
    match StripLastSegment(id)
    case None => None
    case Some(base) =>
      match RowOf(settled, base)
      case None => None
      case Some(k) => if SameContractFill(live, settled[k]) then Some(k) else None
  }

  function FirstBookTwin(settled: seq<SettledFill>, live: LiveFill): Option<nat> {
    First(settled, (s: SettledFill) => BookTwin(live, s))
  }

  /** The settled row a live fill reconciles to: by stripped id, else by book event. */
  function MatchTwin(settled: seq<SettledFill>, id: ExecId, live: LiveFill): Option<nat> {
    var strip := MatchLegStrip(settled, id, live);
    if strip.Some? then strip else FirstBookTwin(settled, live)
  }

  /** True while some other live row that is not a summary shares the order, or there is no order key. */
  predicate HasLiveSiblings(live: map<ExecId, LiveFill>, id: ExecId)
    requires id in live
  {
    var key := OrderGroupKey(live[id]);
    key.None? || exists other | other in live :: other != id && SharesOrder(key.value, live[other]) && !IsBagSummary(live[other])
  }

  /** Class C: the settled legs a redundant BAG summary hands its tag to; empty leaves the row in place. */
  function MatchBagSummary(settled: seq<SettledFill>, live: map<ExecId, LiveFill>, id: ExecId): seq<nat>
    requires id in live
  {
    if !IsBagSummary(live[id]) || OrderGroupKey(live[id]).None? || HasLiveSiblings(live, id) then []
    else RowsWhere(settled, (s: SettledFill) => SettledLegAt(live[id], s))
  }

  // ---------------------------------------------------------------------
  // Carrying links
  // ---------------------------------------------------------------------

  /** One carry-over: the live fill and the settled rows its group link moves to. */
  datatype Carry = Carry(id: ExecId, targets: seq<nat>)

  ghost predicate Assigned(members: set<Member>, exec: nat) {
    exists m :: m in members && m.exec == exec
  }

  ghost predicate AtMostOneGroup(members: set<Member>) {
    forall m, m' :: m in members && m' in members && m.exec == m'.exec ==> m == m'
  }

  /** Link each target not yet in a group; a target that already has one keeps it. */
  function InsertAll(members: set<Member>, targets: seq<nat>, link: Assignment): set<Member> {
    if targets == [] then members
    else
      var front, last := InsertAll(members, targets[..|targets| - 1], link), targets[|targets| - 1];
      if exists m | m in front :: m.exec == last then front else front + {Member(last, link)}
  }

  function CarryOne(l: Ledger, c: Carry): Ledger {
    if c.id !in l.tags || c.targets == [] then l
    else Ledger(l.tags - {c.id}, InsertAll(l.members, c.targets, l.tags[c.id]))
  }

  function CarryAll(l: Ledger, cs: seq<Carry>): Ledger {
    if cs == [] then l else CarryOne(CarryAll(l, cs[..|cs| - 1]), cs[|cs| - 1])
  }

  /** The carry-overs a pass performs: for each id in visiting order, the targets `decide` finds, if any. */
  function Collect(order: seq<ExecId>, decide: ExecId -> seq<nat>): seq<Carry> {
    if order == [] then []
    else
      var id := order[|order| - 1];
      Collect(order[..|order| - 1], decide) + if decide(id) == [] then [] else [Carry(id, decide(id))]
  }

  function Ids(cs: seq<Carry>): set<ExecId> {
    set c | c in cs :: c.id
  }

  /** Carry the links, then delete the live rows. */
  function Retire(db: Db, cs: seq<Carry>): Db {
    Db(db.live - Ids(cs), db.settled, CarryAll(db.ledger, cs))
  }

  // ---------------------------------------------------------------------
  // The passes
  // ---------------------------------------------------------------------

  function One(k: Option<nat>): seq<nat> {
    if k.Some? then [k.value] else []
  }

  function ExactTargets(db: Db, id: ExecId): seq<nat> {
    One(RowOf(db.settled, id))
  }

  function BagTargets(db: Db, id: ExecId): seq<nat> {
    if id in db.live then One(Last(db.settled, (s: SettledFill) => BagTwin(db.live[id], s))) else []
  }

  function TwinTargets(db: Db, id: ExecId): seq<nat> {
    if id in db.live && RowOf(db.settled, id).None? then One(MatchTwin(db.settled, id, db.live[id])) else []
  }

  /** What the second reconcile loop does with a row, judged by `rest`, the live rows the first loop left. */
  function SummaryTargets(db: Db, rest: map<ExecId, LiveFill>, id: ExecId): seq<nat> {
    if id in rest && RowOf(db.settled, id).None? && TwinTargets(db, id) == []
    then MatchBagSummary(db.settled, rest, id) else []
  }

  /** The two carry loops of a purge run over queries of their own, each in its own order. */
  function PurgeCarries(db: Db, linkOrder: seq<ExecId>, bagOrder: seq<ExecId>): seq<Carry> {
    Collect(linkOrder, id => ExactTargets(db, id)) + Collect(bagOrder, id => BagTargets(db, id))
  }

  function TwinCarries(db: Db, order: seq<ExecId>): seq<Carry> {
    Collect(order, id => TwinTargets(db, id))
  }

  function SummaryCarries(db: Db, rest: map<ExecId, LiveFill>, order: seq<ExecId>): seq<Carry> {
    Collect(order, id => SummaryTargets(db, rest, id))
  }

  function ReconcileCarries(db: Db, order: seq<ExecId>): seq<Carry> {
    var first := TwinCarries(db, order);
    first + SummaryCarries(db, db.live - Ids(first), order)
  }

  function Purge(db: Db, linkOrder: seq<ExecId>, bagOrder: seq<ExecId>): Db { Retire(db, PurgeCarries(db, linkOrder, bagOrder)) }

  function Reconcile(db: Db, order: seq<ExecId>): Db { Retire(db, ReconcileCarries(db, order)) }

  /** Upsert by execution id; the last fill written under an id wins. */
  function WriteFills(live: map<ExecId, LiveFill>, fills: seq<(ExecId, LiveFill)>): map<ExecId, LiveFill> {
    if fills == [] then live
    else WriteFills(live, fills[..|fills| - 1])[fills[|fills| - 1].0 := fills[|fills| - 1].1]
  }

  // ---------------------------------------------------------------------
  // What a carry does to the ledger
  // ---------------------------------------------------------------------

  lemma {:induction false} InsertAllProperty(members: set<Member>, targets: seq<nat>, link: Assignment)
    requires AtMostOneGroup(members)
    ensures var after := InsertAll(members, targets, link);
      && members <= after
      && AtMostOneGroup(after)
      && (forall k :: k in targets ==> Assigned(after, k))
      && (forall m :: m in after && m !in members ==> m.exec in targets && m.link == link)
  {
    if targets != [] {
      var front, last := targets[..|targets| - 1], targets[|targets| - 1];
      InsertAllProperty(members, front, link);
      var before, after := InsertAll(members, front, link), InsertAll(members, targets, link);
      assert targets == front + [last];
      if !Assigned(before, last) {
        assert after == before + {Member(last, link)};
        assert Member(last, link) in after;
      }
      forall k | k in targets ensures Assigned(after, k) {
        if k != last {
          assert k in front;
          var m :| m in before && m.exec == k;
          assert m in after;
        }
      }
    }
  }

  /** Every link of a carried fill is dropped and all its targets end in a group: its own when it was free. */
  lemma {:induction false} CarryAllProperty(l: Ledger, cs: seq<Carry>)
    requires AtMostOneGroup(l.members)
    requires forall c :: c in cs ==> c.targets != []
    ensures var after := CarryAll(l, cs);
      && after.tags == l.tags - Ids(cs)
      && l.members <= after.members
      && AtMostOneGroup(after.members)
      && (forall c, k :: c in cs && c.id in l.tags && k in FirstTargets(cs, c.id) ==> Assigned(after.members, k))
      && (forall m :: m in after.members && m !in l.members ==>
            exists c :: c in cs && c.id in l.tags && m.exec in c.targets && m.link == l.tags[c.id])
  {
    if cs != [] {
      var front, last := cs[..|cs| - 1], cs[|cs| - 1];
      CarryAllProperty(l, front);
      var mid, after := CarryAll(l, front), CarryAll(l, cs);
      assert cs == front + [last];
      assert Ids(cs) == Ids(front) + {last.id};
      if last.id in mid.tags {
        InsertAllProperty(mid.members, last.targets, mid.tags[last.id]);
      }
      forall c, k | c in cs && c.id in l.tags && k in FirstTargets(cs, c.id)
        ensures Assigned(after.members, k)
      {
        if c.id in Ids(front) {
          var c' :| c' in front && c'.id == c.id;
          assert Assigned(mid.members, k);
          var m :| m in mid.members && m.exec == k;
          assert m in after.members;
        } else {
          assert c == last;
        }
      }
    }
  }

  /** The targets of the first carry for `id`: the one that finds the link still there. */
  function FirstTargets(cs: seq<Carry>, id: ExecId): seq<nat> {
    if cs == [] then []
    else if id in Ids(cs[..|cs| - 1]) then FirstTargets(cs[..|cs| - 1], id)
    else if cs[|cs| - 1].id == id then cs[|cs| - 1].targets
    else []
  }

  lemma {:induction false} CollectProperty(order: seq<ExecId>, decide: ExecId -> seq<nat>)
    ensures forall c :: c in Collect(order, decide) <==> c.id in order && decide(c.id) != [] && c.targets == decide(c.id)
    ensures forall id :: id in Ids(Collect(order, decide)) <==> id in order && decide(id) != []
    ensures |Collect(order, decide)| == Count(order, id => decide(id) != [])
  {
    if order != [] {
      var front, last := order[..|order| - 1], order[|order| - 1];
      CollectProperty(front, decide);
      assert order == front + [last];
    }
    forall id ensures id in Ids(Collect(order, decide)) <==> id in order && decide(id) != [] {
      if id in order && decide(id) != [] {
        assert Carry(id, decide(id)) in Collect(order, decide);
      }
    }
  }
}
