/**
  The matching rules read off the columns of the rows, and what the passes of
  the handoff leave in those terms alone: no rule of Handoff is named in what
  is claimed here.
 */
module HandoffColumns {
  import opened Common
  import opened Handoff
  import opened HandoffProperties
  import opened HandoffAssignments

  // ---------------------------------------------------------------------
  // The rules in columns
  // ---------------------------------------------------------------------

  ghost predicate Within(x: real, y: real, tolerance: real) {
    -tolerance <= x - y <= tolerance
  }

  /** One contract, one known side, and sizes within 10^-9 whatever their signs. */
  ghost predicate SameTrade(live: LiveFill, s: SettledFill) {
    && live.conId.Some? && s.conId == live.conId
    && (live.side == Buy || live.side == Sell) && s.side == live.side
    && Within(Abs(s.quantity), Abs(live.quantity), 0.000000001)
  }

  /** `id` is `base`, a dot, and a segment without a dot. */
  ghost predicate StripsTo(id: ExecId, base: ExecId) {
    base != "" && exists segment: string :: '.' !in segment && id == base + "." + segment
  }

  ghost predicate IsBooked(s: SettledFill) {
    s.bookNote || (|s.execId| >= 8 && s.execId[..8] == "FLEX-TX-")
  }

  ghost predicate IsStripTwin(id: ExecId, live: LiveFill, s: SettledFill) {
    SameTrade(live, s) && StripsTo(id, s.execId)
  }

  ghost predicate IsBookTwin(live: LiveFill, s: SettledFill) {
    && SameTrade(live, s) && IsBooked(s) && s.account == live.account
    && Within(s.price, live.price, 0.000001) && Day(s.executedAt) == Day(live.execTime)
  }

  /** The settled row is the same economic fill under another id. */
  ghost predicate IsDivergentTwin(id: ExecId, live: LiveFill, s: SettledFill) {
    IsStripTwin(id, live, s) || IsBookTwin(live, s)
  }

  ghost predicate IsBagAt(live: LiveFill, s: SettledFill) {
    live.secType == Bag && s.secType == Bag && s.account == live.account && s.executedAt == live.execTime
  }

  /** Or under its own id, or as the BAG row of the same account and instant. */
  ghost predicate IsTwin(id: ExecId, live: LiveFill, s: SettledFill) {
    || s.execId == id
    || IsBagAt(live, s)
    || IsDivergentTwin(id, live, s)
  }

  ghost predicate IsOrderLeg(live: LiveFill) {
    live.role != ComboSummary && live.secType != Bag && live.secType != LooseBag
  }

  /** The perm id decides when it is present, whatever the order ids say; else the order id. */
  ghost predicate OfSameOrder(live: LiveFill, other: LiveFill) {
    if IsPresent(live.permId) then other.permId == live.permId
    else IsPresent(live.orderId) && other.orderId == live.orderId
  }

  /** A summary of a known order whose account and instant have settled legs. */
  ghost predicate IsCovered(live: LiveFill, settled: seq<SettledFill>) {
    && !IsOrderLeg(live) && (IsPresent(live.permId) || IsPresent(live.orderId))
    && exists s :: s in settled && s.role == Leg && s.account == live.account && s.executedAt == live.execTime
  }

  ghost predicate HasTwin(db: Db, id: ExecId)
    requires id in db.live
  {
    exists s :: s in db.settled && IsTwin(id, db.live[id], s)
  }

  ghost predicate HasDivergent(db: Db, id: ExecId)
    requires id in db.live
  {
    exists s :: s in db.settled && IsDivergentTwin(id, db.live[id], s)
  }

  ghost predicate HasOwnRow(db: Db, id: ExecId) {
    exists s :: s in db.settled && s.execId == id
  }

  // ---------------------------------------------------------------------
  // They are the rules of the passes
  // ---------------------------------------------------------------------

  lemma {:induction false} LastDotOf(base: ExecId, segment: string)
    requires '.' !in segment
    ensures LastDot(base + "." + segment) == |base|
  {
    var id := base + "." + segment;
    assert id[|base|] == '.';
    assert forall j :: |base| < j < |id| ==> id[j] == segment[j - |base| - 1];
  }

  /** Stripping the last segment finds exactly the base the id is made of. */
  lemma {:induction false} StripInColumns(id: ExecId, base: ExecId)
    ensures StripLastSegment(id) == Some(base) <==> StripsTo(id, base)
  {
    if StripLastSegment(id) == Some(base) {
      var segment := id[|base| + 1..];
      assert id == base + "." + segment;
      assert '.' !in segment;
    }
    if StripsTo(id, base) {
      var segment: string :| '.' !in segment && id == base + "." + segment;
      LastDotOf(base, segment);
      assert id[..|base|] == base;
    }
  }

  lemma {:induction false} BookedInColumns(s: SettledFill)
    ensures IsBookEvent(s) <==> IsBooked(s)
  {
    assert |"FLEX-TX-"| == 8;
    if |s.execId| >= 8 {
      assert "FLEX-TX-" <= s.execId <==> s.execId[..8] == "FLEX-TX-";
    }
  }

  lemma {:induction false} DivergentInColumns(id: ExecId, live: LiveFill, s: SettledFill)
    ensures StripTwin(id, live, s) <==> IsStripTwin(id, live, s)
    ensures BookTwin(live, s) <==> IsBookTwin(live, s)
    ensures BagTwin(live, s) <==> IsBagAt(live, s)
  {
    StripInColumns(id, s.execId);
    BookedInColumns(s);
  }

  lemma {:induction false} TwinsInColumns(db: Db, id: ExecId)
    requires id in db.live
    ensures HasDivergentTwin(db, id) <==> HasDivergent(db, id)
    ensures HasAnyTwin(db, id) <==> HasTwin(db, id)
    ensures Settled(db, id) <==> HasOwnRow(db, id)
  {
    forall s | s in db.settled
      ensures StripTwin(id, db.live[id], s) || BookTwin(db.live[id], s) <==> IsDivergentTwin(id, db.live[id], s)
      ensures BagTwin(db.live[id], s) <==> IsBagAt(db.live[id], s)
    {
      DivergentInColumns(id, db.live[id], s);
    }
    if HasTwin(db, id) {
      var s :| s in db.settled && IsTwin(id, db.live[id], s);
      assert s.execId == id || BagTwin(db.live[id], s) || IsDivergentTwin(id, db.live[id], s);
    }
  }

  lemma {:induction false} KeyInColumns(live: LiveFill, other: LiveFill)
    ensures OrderGroupKey(live).Some? <==> IsPresent(live.permId) || IsPresent(live.orderId)
    ensures OrderGroupKey(live).Some? ==> (SharesOrder(OrderGroupKey(live).value, other) <==> OfSameOrder(live, other))
    ensures IsBagSummary(other) <==> !IsOrderLeg(other)
  {}

  /** Two rows under one order key are rows of one order, either way round. */
  lemma {:induction false} SameKeySameOrder(live: LiveFill, other: LiveFill)
    requires OrderGroupKey(live).Some? && OrderGroupKey(other) == OrderGroupKey(live)
    ensures OfSameOrder(live, other) && OfSameOrder(other, live)
  {}

  lemma {:induction false} RedundantInColumns(db: Db, id: ExecId, legsLeft: set<ExecId>)
    requires id in db.live
    ensures RedundantSummary(db, id, legsLeft) <==>
      IsCovered(db.live[id], db.settled)
      && forall x :: x in legsLeft && x in db.live && IsOrderLeg(db.live[x]) ==> !OfSameOrder(db.live[id], db.live[x])
  {
    KeyInColumns(db.live[id], db.live[id]);
    forall x | x in db.live && OrderGroupKey(db.live[id]).Some?
      ensures SharesOrder(OrderGroupKey(db.live[id]).value, db.live[x]) <==> OfSameOrder(db.live[id], db.live[x])
      ensures IsBagSummary(db.live[x]) <==> !IsOrderLeg(db.live[x])
    {
      KeyInColumns(db.live[id], db.live[x]);
    }
    assert forall s :: s in db.settled ==>
      (SettledLegAt(db.live[id], s) <==> s.role == Leg && s.account == db.live[id].account && s.executedAt == db.live[id].execTime);
  }

  // ---------------------------------------------------------------------
  // What the passes leave
  // ---------------------------------------------------------------------

  /** A summary is left where it is while a leg of its order is in the live table. */
  lemma {:induction false} LiveLegBlocks(settled: seq<SettledFill>, live: map<ExecId, LiveFill>, id: ExecId, leg: ExecId)
    requires id in live && leg in live && leg != id && IsOrderLeg(live[leg])
    requires OrderGroupKey(live[id]).Some? && OrderGroupKey(live[leg]) == OrderGroupKey(live[id])
    ensures MatchBagSummary(settled, live, id) == []
  {
    SameKeySameOrder(live[id], live[leg]);
    KeyInColumns(live[id], live[leg]);
  }

  /** Some leg of the summary's order stays: it is settled under its own id, or has no twin under another. */
  ghost predicate KeepsLeg(db: Db, id: ExecId)
    requires id in db.live
  {
    exists x :: x in db.live && IsOrderLeg(db.live[x]) && OfSameOrder(db.live[id], db.live[x]) && (HasOwnRow(db, x) || !HasDivergent(db, x))
  }

  /**
    The live rows one reconcile pass leaves, in columns: those with a settled
    row under their id, and those that are neither settled under another id nor
    a covered summary none of whose order's legs stays.
   */
  lemma {:induction false} ReconcileSurvivorsInColumns(db: Db, order: seq<ExecId>)
    requires UniqueIds(db.settled) && Lists(order, db.live.Keys)
    ensures forall id :: id in Reconcile(db, order).live <==>
      id in db.live && (HasOwnRow(db, id) || (!HasDivergent(db, id) && (IsCovered(db.live[id], db.settled) ==> KeepsLeg(db, id))))
  {
    ReconcileSurvivors(db, order);
    forall id | id in db.live ensures id in AfterTwins(db) <==> HasOwnRow(db, id) || !HasDivergent(db, id) {
      TwinsInColumns(db, id);
    }
    forall id | id in db.live
      ensures RedundantSummary(db, id, AfterTwins(db)) <==> IsCovered(db.live[id], db.settled) && !KeepsLeg(db, id)
      ensures HasDivergentTwin(db, id) <==> HasDivergent(db, id)
      ensures Settled(db, id) <==> HasOwnRow(db, id)
    {
      TwinsInColumns(db, id);
      RedundantInColumns(db, id, AfterTwins(db));
    }
  }

  /** Some leg of the summary's order is not settled in any form. */
  ghost predicate AwaitsLeg(db: Db, id: ExecId)
    requires id in db.live
  {
    exists x :: x in db.live && IsOrderLeg(db.live[x]) && OfSameOrder(db.live[id], db.live[x]) && !HasTwin(db, x)
  }

  /**
    The live rows an intraday sync leaves, in columns: those without a settled
    twin, except covered summaries that await no leg of their order.
   */
  lemma {:induction false} IntradaySurvivorsInColumns(db: Db, linkOrder: seq<ExecId>, bagOrder: seq<ExecId>, order: seq<ExecId>)
    requires UniqueIds(db.settled)
    requires Lists(linkOrder, db.live.Keys) && Lists(bagOrder, db.live.Keys)
    requires Lists(order, Purge(db, linkOrder, bagOrder).live.Keys)
    ensures forall id :: id in PurgeAndReconcile(db, linkOrder, bagOrder, order).live <==>
      id in db.live && !HasTwin(db, id) && (IsCovered(db.live[id], db.settled) ==> AwaitsLeg(db, id))
  {
    IntradaySurvivors(db, linkOrder, bagOrder, order);
    forall id | id in db.live ensures HasAnyTwin(db, id) <==> HasTwin(db, id) {
      TwinsInColumns(db, id);
    }
    forall id | id in db.live
      ensures RedundantSummary(db, id, WithoutTwin(db)) <==> IsCovered(db.live[id], db.settled) && !AwaitsLeg(db, id)
    {
      RedundantInColumns(db, id, WithoutTwin(db));
    }
  }

  /** In particular a summary outlasts the sync while a leg of its order has no settled twin. */
  lemma {:induction false} OpenLegKeepsItsSummary(db: Db, linkOrder: seq<ExecId>, bagOrder: seq<ExecId>, order: seq<ExecId>, id: ExecId, leg: ExecId)
    requires UniqueIds(db.settled)
    requires Lists(linkOrder, db.live.Keys) && Lists(bagOrder, db.live.Keys)
    requires Lists(order, Purge(db, linkOrder, bagOrder).live.Keys)
    requires id in db.live && leg in db.live && !HasTwin(db, id) && !HasTwin(db, leg) && IsOrderLeg(db.live[leg])
    requires OrderGroupKey(db.live[id]).Some? && OrderGroupKey(db.live[leg]) == OrderGroupKey(db.live[id])
    ensures id in PurgeAndReconcile(db, linkOrder, bagOrder, order).live
  {
    SameKeySameOrder(db.live[id], db.live[leg]);
    IntradaySurvivorsInColumns(db, linkOrder, bagOrder, order);
  }

  // ---------------------------------------------------------------------
  // What is written and what is handed
  // ---------------------------------------------------------------------

  /** A settled leg of the account and instant of a live summary. */
  ghost predicate IsLegOfSummary(live: LiveFill, s: SettledFill) {
    !IsOrderLeg(live) && s.role == Leg && s.account == live.account && s.executedAt == live.execTime
  }

  /** Whatever a transaction hands over goes to settled rows of the same fill, or to the settled legs of a summary. */
  lemma {:induction false} CarriesInColumns(db: Db, a: Action, c: Carry, k: nat)
    requires Invariant(db) && Enabled(db, a) && c in Carries(db, a) && k in c.targets
    ensures k < |Written(db, a).settled|
    ensures var w := Written(db, a); var s := w.settled[k];
      s.execId == c.id || (c.id in w.live && (IsTwin(c.id, w.live[c.id], s) || IsLegOfSummary(w.live[c.id], s)))
  {
    CarriesAreJustified(db, a);
    var w := Written(db, a);
    assert Justified(w, c);
    if c.id in w.live {
      DivergentInColumns(c.id, w.live[c.id], w.settled[k]);
      KeyInColumns(w.live[c.id], w.live[c.id]);
    }
  }

  /** After the fills of a sync are written a row is the last fill under its id, and as it was when there is none. */
  lemma {:induction false} WrittenRowIsTheLast(live: map<ExecId, LiveFill>, fills: seq<(ExecId, LiveFill)>, id: ExecId)
    ensures var after := WriteFills(live, fills);
      && (forall n :: 0 <= n < |fills| && fills[n].0 == id && (forall m :: n < m < |fills| ==> fills[m].0 != id) ==>
            id in after && after[id] == fills[n].1)
      && ((forall n :: 0 <= n < |fills| ==> fills[n].0 != id) ==> (id in after <==> id in live) && (id in live ==> after[id] == live[id]))
  {
    if fills != [] {
      WrittenRowIsTheLast(live, fills[..|fills| - 1], id);
    }
  }

  // ---------------------------------------------------------------------
  // Which rows a tagged fill is handed
  // ---------------------------------------------------------------------

  ghost predicate HasStripTwin(settled: seq<SettledFill>, id: ExecId, live: LiveFill) {
    exists k :: 0 <= k < |settled| && IsStripTwin(id, live, settled[k])
  }

  ghost predicate IsFirstBookTwin(settled: seq<SettledFill>, live: LiveFill, k: nat) {
    k < |settled| && IsBookTwin(live, settled[k]) && forall j :: 0 <= j < k ==> !IsBookTwin(live, settled[j])
  }

  ghost predicate IsLastBag(settled: seq<SettledFill>, live: LiveFill, k: nat) {
    k < |settled| && IsBagAt(live, settled[k]) && forall j :: k < j < |settled| ==> !IsBagAt(live, settled[j])
  }

  lemma {:induction false} BookTwinFound(settled: seq<SettledFill>, live: LiveFill, k: nat)
    ensures FirstBookTwin(settled, live) == Some(k) <==> IsFirstBookTwin(settled, live, k)
  {
    forall s ensures BookTwin(live, s) <==> IsBookTwin(live, s) {
      DivergentInColumns("", live, s);
    }
  }

  lemma {:induction false} BagFound(settled: seq<SettledFill>, live: LiveFill, k: nat)
    ensures Last(settled, (s: SettledFill) => BagTwin(live, s)) == Some(k) <==> IsLastBag(settled, live, k)
  {
    forall s ensures BagTwin(live, s) <==> IsBagAt(live, s) {
      DivergentInColumns("", live, s);
    }
  }

  lemma {:induction false} StripTwinFound(settled: seq<SettledFill>, id: ExecId, live: LiveFill, k: nat)
    requires UniqueIds(settled)
    ensures MatchLegStrip(settled, id, live) == Some(k) <==> k < |settled| && IsStripTwin(id, live, settled[k])
  {
    forall s ensures StripTwin(id, live, s) <==> IsStripTwin(id, live, s) {
      DivergentInColumns(id, live, s);
    }
    if k < |settled| && StripTwin(id, live, settled[k]) {
      assert RowOf(settled, settled[k].execId) == Some(k);
    }
  }

  /** The row under the stripped id when it agrees, else the first book event. */
  lemma {:induction false} TwinInColumns(settled: seq<SettledFill>, id: ExecId, live: LiveFill, k: nat)
    requires UniqueIds(settled)
    ensures MatchTwin(settled, id, live) == Some(k) <==>
      if HasStripTwin(settled, id, live) then k < |settled| && IsStripTwin(id, live, settled[k]) else IsFirstBookTwin(settled, live, k)
  {
    StripTwinFound(settled, id, live, k);
    BookTwinFound(settled, live, k);
    if j :| 0 <= j < |settled| && IsStripTwin(id, live, settled[j]) { StripTwinFound(settled, id, live, j); }
    var strip := MatchLegStrip(settled, id, live);
    if strip.Some? { StripTwinFound(settled, id, live, strip.value); }
  }

  /** Whether a leg of the summary's order is still there when summaries are judged. */
  ghost predicate HasLegLeft(w: Db, a: Action, id: ExecId)
    requires id in w.live
  {
    if a.Intraday? then AwaitsLeg(w, id) else KeepsLeg(w, id)
  }

  /** Row `k` is one the fill is handed: by its own id, else as the last BAG row of its instant, else as its twin, else as a leg of its combo. */
  ghost predicate IsHandedTo(w: Db, a: Action, id: ExecId, k: nat)
    requires id in w.live
  {
    && k < |w.settled|
    && if HasOwnRow(w, id) then w.settled[k].execId == id
       else if a.Intraday? && exists s :: s in w.settled && IsBagAt(w.live[id], s) then IsLastBag(w.settled, w.live[id], k)
       else if HasStripTwin(w.settled, id, w.live[id]) then IsStripTwin(id, w.live[id], w.settled[k])
       else if exists s :: s in w.settled && IsBookTwin(w.live[id], s) then IsFirstBookTwin(w.settled, w.live[id], k)
       else IsCovered(w.live[id], w.settled) && !HasLegLeft(w, a, id) && IsLegOfSummary(w.live[id], w.settled[k])
  }

  lemma {:induction false} LegsLeftInColumns(w: Db, a: Action, id: ExecId)
    requires id in w.live
    ensures RedundantSummary(w, id, LegsLeft(w, a)) <==> IsCovered(w.live[id], w.settled) && !HasLegLeft(w, a, id)
  {
    RedundantInColumns(w, id, LegsLeft(w, a));
    forall x | x in w.live
      ensures HasAnyTwin(w, x) <==> HasTwin(w, x)
      ensures HasDivergentTwin(w, x) <==> HasDivergent(w, x)
      ensures Settled(w, x) <==> HasOwnRow(w, x)
    {
      TwinsInColumns(w, x);
    }
  }

  lemma {:induction false} RuleInColumns(w: Db, a: Action, id: ExecId)
    requires id in w.live && !a.TagLive?
    ensures RuleFor(w, a, id) ==
      if HasOwnRow(w, id) then OwnId
      else if a.Intraday? && exists s :: s in w.settled && IsBagAt(w.live[id], s) then SameInstant
      else if HasStripTwin(w.settled, id, w.live[id]) || exists s :: s in w.settled && IsBookTwin(w.live[id], s) then DivergentId
      else if IsCovered(w.live[id], w.settled) && !HasLegLeft(w, a, id) then SummaryLegs
      else NoRule
  {
    TwinsInColumns(w, id);
    LegsLeftInColumns(w, a, id);
    forall s | s in w.settled ensures BagTwin(w.live[id], s) <==> IsBagAt(w.live[id], s) {
      DivergentInColumns(id, w.live[id], s);
    }
    if HasStripTwin(w.settled, id, w.live[id]) {
      var k :| 0 <= k < |w.settled| && IsStripTwin(id, w.live[id], w.settled[k]);
      assert w.settled[k] in w.settled;
    }
    if HasDivergent(w, id) && !HasStripTwin(w.settled, id, w.live[id]) {
      var s :| s in w.settled && IsDivergentTwin(id, w.live[id], s);
      var k :| 0 <= k < |w.settled| && w.settled[k] == s;
      assert !IsStripTwin(id, w.live[id], w.settled[k]);
    }
  }

  lemma {:induction false} HandedByRule(w: Db, a: Action, id: ExecId, k: nat, rule: Rule)
    requires UniqueIds(w.settled) && id in w.live && !a.TagLive? && rule == RuleFor(w, a, id)
    ensures k in Handed(w, a, id) <==>
      match rule
      case OwnId => k < |w.settled| && w.settled[k].execId == id
      case SameInstant => IsLastBag(w.settled, w.live[id], k)
      case DivergentId => MatchTwin(w.settled, id, w.live[id]) == Some(k)
      case SummaryLegs => k < |w.settled| && SettledLegAt(w.live[id], w.settled[k])
      case NoRule => false
  {
    BagFound(w.settled, w.live[id], k);
  }

  /** The settled rows a transaction hands a live fill, in columns; a tag goes to exactly these. */
  lemma {:induction false} HandedInColumns(w: Db, a: Action, id: ExecId, k: nat)
    requires UniqueIds(w.settled) && id in w.live && !a.TagLive?
    ensures k in Handed(w, a, id) <==> IsHandedTo(w, a, id, k)
  {
    RuleInColumns(w, a, id);
    HandedByRule(w, a, id, k, RuleFor(w, a, id));
    TwinInColumns(w.settled, id, w.live[id], k);
  }
}
