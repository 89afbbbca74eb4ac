/** The handoff tables updated in place, each operation proved against the functions of Handoff. */
module HandoffStore {
  import opened Common
  import opened Handoff
  import P = HandoffProperties

  /** What one reconcile pass reports. */
  datatype Counts = Counts(legStrip: nat, bookEvent: nat, bagSummary: nat, linksCarried: nat, unmatched: nat)

  predicate IsOrphan(settled: seq<SettledFill>, id: ExecId) {
    RowOf(settled, id).None?
  }

  /** The orphans the first reconcile loop pairs through the leg-strip rule. */
  predicate StripsTo(db: Db, id: ExecId) {
    id in db.live && IsOrphan(db.settled, id) && MatchLegStrip(db.settled, id, db.live[id]).Some?
  }

  /** The orphans it pairs through the book-event rule, having found no stripped id. */
  predicate BooksTo(db: Db, id: ExecId) {
    id in db.live && IsOrphan(db.settled, id) && MatchLegStrip(db.settled, id, db.live[id]).None? && FirstBookTwin(db.settled, db.live[id]).Some?
  }

  predicate IsDeferred(db: Db, id: ExecId) {
    IsOrphan(db.settled, id) && TwinTargets(db, id) == []
  }

  // ---------------------------------------------------------------------
  // One loop iteration at a time
  // ---------------------------------------------------------------------

  lemma CarryStep(l: Ledger, order: seq<ExecId>, i: nat, decide: ExecId -> seq<nat>)
    requires i < |order|
    ensures var done := Collect(order[..i], decide);
      Collect(order[..i + 1], decide) == done + if decide(order[i]) == [] then [] else [Carry(order[i], decide(order[i]))]
    ensures CarryAll(l, Collect(order[..i + 1], decide)) == CarryOne(CarryAll(l, Collect(order[..i], decide)), Carry(order[i], decide(order[i])))
    ensures Ids(Collect(order[..i + 1], decide)) == Ids(Collect(order[..i], decide)) + if decide(order[i]) == [] then {} else {order[i]}
  {
    var done, c := Collect(order[..i], decide), Carry(order[i], decide(order[i]));
    assert order[..i + 1][..i] == order[..i];
    assert (done + [c])[..|done|] == done;
    assert done + [] == done;
    assert CarryAll(l, done + [c]) == CarryOne(CarryAll(l, done), c);
  }

  lemma CountStep(order: seq<ExecId>, i: nat, p: ExecId -> bool)
    requires i < |order|
    ensures Count(order[..i + 1], p) == Count(order[..i], p) + if p(order[i]) then 1 else 0
    ensures Filter(order[..i + 1], p) == Filter(order[..i], p) + if p(order[i]) then [order[i]] else []
  {
    assert order[..i + 1][..i] == order[..i];
  }

  lemma {:induction false} CollectAgrees(order: seq<ExecId>, decide: ExecId -> seq<nat>, decide': ExecId -> seq<nat>)
    requires forall id :: id in order ==> decide(id) == decide'(id)
    ensures Collect(order, decide) == Collect(order, decide')
  {
    if order != [] {
      CollectAgrees(order[..|order| - 1], decide, decide');
    }
  }

  lemma FilterProperty(order: seq<ExecId>, p: ExecId -> bool)
    ensures |Filter(order, p)| == Count(order, p)
    ensures Distinct(order) ==> Distinct(Filter(order, p))
  {
    CountFiltered(order, p);
    if Distinct(order) { FilterKeepsDistinct(order, p); }
  }

  lemma {:induction false} CollectFiltered(order: seq<ExecId>, p: ExecId -> bool, decide: ExecId -> seq<nat>)
    requires forall id :: id in order && !p(id) ==> decide(id) == []
    ensures Collect(Filter(order, p), decide) == Collect(order, decide)
  {
    if order != [] {
      var front, last := order[..|order| - 1], order[|order| - 1];
      CollectFiltered(front, p, decide);
      var kept := Filter(front, p);
      if p(last) {
        assert Filter(order, p)[..|kept|] == kept;
      } else {
        assert Filter(order, p) == kept;
      }
    }
  }

  // ---------------------------------------------------------------------
  // Where the first reconcile loop stands after the ids in `seen`
  // ---------------------------------------------------------------------

  ghost predicate TwinsDone(db: Db, seen: seq<ExecId>, now: Db, counts: Counts, deferred: seq<ExecId>) {
    && now == Retire(db, TwinCarries(db, seen))
    && |now.ledger.members| == |db.ledger.members| + counts.linksCarried
    && |now.live| == |db.live| - counts.legStrip - counts.bookEvent
    && TwinsCounted(db, seen, counts, deferred)
  }

  ghost predicate TwinsCounted(db: Db, seen: seq<ExecId>, counts: Counts, deferred: seq<ExecId>) {
    && deferred == Filter(seen, id => IsDeferred(db, id))
    && counts.legStrip == Count(seen, id => StripsTo(db, id))
    && counts.bookEvent == Count(seen, id => BooksTo(db, id))
    && counts.bagSummary == 0 && counts.unmatched == 0
  }

  /** The counts after one visit that carried `n` links. */
  function Tally(db: Db, id: ExecId, counts: Counts, n: nat): Counts {
    counts.(
      linksCarried := counts.linksCarried + n,
      legStrip := counts.legStrip + if StripsTo(db, id) then 1 else 0,
      bookEvent := counts.bookEvent + if BooksTo(db, id) then 1 else 0)
  }

  lemma TwinsCountedStep(db: Db, order: seq<ExecId>, i: nat, counts: Counts, deferred: seq<ExecId>, n: nat)
    requires i < |order| && TwinsCounted(db, order[..i], counts, deferred)
    ensures TwinsCounted(db, order[..i + 1], Tally(db, order[i], counts, n),
                         deferred + if IsDeferred(db, order[i]) then [order[i]] else [])
  {
    CountStep(order, i, id => IsDeferred(db, id));
    CountStep(order, i, id => StripsTo(db, id));
    CountStep(order, i, id => BooksTo(db, id));
  }

  /** What the first loop decides about a row depends on that row and the settled table only. */
  lemma SameRowSameDecision(db: Db, now: Db, id: ExecId, counts: Counts, n: nat)
    requires now.settled == db.settled && id in db.live && id in now.live && now.live[id] == db.live[id]
    ensures TwinTargets(now, id) == TwinTargets(db, id)
    ensures IsDeferred(now, id) == IsDeferred(db, id)
    ensures Tally(now, id, counts, n) == Tally(db, id, counts, n)
  {}

  lemma RetireStep(db: Db, order: seq<ExecId>, i: nat, decide: ExecId -> seq<nat>, now: Db, next: Db)
    requires i < |order| && now == Retire(db, Collect(order[..i], decide))
    requires next.settled == now.settled
    requires next.ledger == CarryOne(now.ledger, Carry(order[i], decide(order[i])))
    requires next.live == now.live - (if decide(order[i]) == [] then {} else {order[i]})
    ensures next == Retire(db, Collect(order[..i + 1], decide))
  {
    CarryStep(db.ledger, order, i, decide);
  }

  lemma TwinsStep(db: Db, order: seq<ExecId>, i: nat, now: Db, next: Db, was: Counts, counts: Counts, put: seq<ExecId>, defer: bool, n: nat)
    requires i < |order| && TwinsDone(db, order[..i], now, was, put)
    requires now.settled == db.settled == next.settled && order[i] in db.live && order[i] in now.live && now.live[order[i]] == db.live[order[i]]
    requires next.ledger == CarryOne(now.ledger, Carry(order[i], TwinTargets(now, order[i])))
    requires next.live == now.live - (if TwinTargets(now, order[i]) == [] then {} else {order[i]})
    requires defer <==> IsDeferred(now, order[i])
    requires counts == Tally(now, order[i], was, n)
    requires |next.ledger.members| == |now.ledger.members| + n
    requires |next.live| + counts.legStrip + counts.bookEvent == |now.live| + was.legStrip + was.bookEvent
    ensures TwinsDone(db, order[..i + 1], next, counts, put + if defer then [order[i]] else [])
  {
    SameRowSameDecision(db, now, order[i], was, n);
    RetireStep(db, order, i, id => TwinTargets(db, id), now, next);
    TwinsCountedStep(db, order, i, was, put, n);
  }

  /** Deleting other summaries does not change what a summary is handed: only non-summary rows are siblings. */
  lemma DeletedSummariesDoNotMatter(settled: seq<SettledFill>, rest: map<ExecId, LiveFill>, live: map<ExecId, LiveFill>, id: ExecId)
    requires id in live && live.Keys <= rest.Keys && forall x :: x in live ==> live[x] == rest[x]
    requires forall x :: x in rest && x !in live ==> IsBagSummary(rest[x])
    ensures MatchBagSummary(settled, live, id) == MatchBagSummary(settled, rest, id)
  {
    var key := OrderGroupKey(rest[id]);
    if key.Some? && HasLiveSiblings(rest, id) {
      var other :| other in rest && other != id && SharesOrder(key.value, rest[other]) && !IsBagSummary(rest[other]);
      assert other in live;
    }
  }

  class LiveStore {
    var live: map<ExecId, LiveFill>
    var settled: seq<SettledFill>
    var tags: map<ExecId, Assignment>
    var members: set<Member>

    constructor ()
      ensures View() == Db(map[], [], Ledger(map[], {}))
    {
      live, settled, tags, members := map[], [], map[], {};
    }

    function Links(): Ledger
      reads this
    {
      Ledger(tags, members)
    }

    function View(): Db
      reads this
    {
      Db(live, settled, Links())
    }

    /** Create the settled group link for one settled row unless it has one. */
    method InsertGroupExecution(link: Assignment, exec: nat) returns (inserted: bool)
      modifies this`members
      ensures members == InsertAll(old(members), [exec], link)
      ensures inserted <==> !Assigned(old(members), exec)
      ensures |members| == |old(members)| + if inserted then 1 else 0
    {
      inserted := !exists m | m in members :: m.exec == exec;
      if inserted {
        members := members + {Member(exec, link)};
      }
      assert [exec][..0] == [];
    }

    /** Fold one live link onto one settled row; 1 when a settled link was created. */
    method CarryOverLinkToExecution(id: ExecId, exec: nat) returns (carried: nat)
      modifies this`members, this`tags
      ensures Links() == CarryOne(old(Links()), Carry(id, [exec]))
      ensures |members| == |old(members)| + carried
    {
      carried := 0;
      if id in tags {
        var inserted := InsertGroupExecution(tags[id], exec);
        tags := tags - {id};
        carried := if inserted then 1 else 0;
      }
    }

    /** Fold one live link onto several settled rows, then drop it; a repeated target is already linked. */
    method CarryOverLinkToExecutions(id: ExecId, targets: seq<nat>) returns (carried: nat)
      modifies this`members, this`tags
      ensures Links() == CarryOne(old(Links()), Carry(id, targets))
      ensures |members| == |old(members)| + carried
    {
      carried := 0;
      if id in tags && targets != [] {
        for i := 0 to |targets|
          invariant tags == old(tags)
          invariant members == InsertAll(old(members), targets[..i], tags[id])
          invariant |members| == |old(members)| + carried
        {
          assert targets[..i + 1][..i] == targets[..i];
          var inserted := InsertGroupExecution(tags[id], targets[i]);
          assert [targets[i]][..0] == [];
          carried := carried + if inserted then 1 else 0;
        }
        assert targets[..|targets|] == targets;
        tags := tags - {id};
      }
    }

    /** Fold every live link, or those in `scope`, whose id has settled; links not yet settled stay. */
    method CarryOverSettledGroupLinks(scope: Option<set<ExecId>>, order: seq<ExecId>) returns (carried: nat)
      modifies this`members, this`tags
      ensures Links() == CarryAll(old(Links()), Collect(order, ScopedTargets(old(View()), scope)))
      ensures |members| == |old(members)| + carried
    {
      carried := 0;
      ghost var decide := ScopedTargets(View(), scope);
      for i := 0 to |order|
        invariant Links() == CarryAll(old(Links()), Collect(order[..i], decide))
        invariant |members| == |old(members)| + carried
      {
        CarryStep(old(Links()), order, i, decide);
        var id := order[i];
        if scope.None? || id in scope.value {
          var row := RowOf(settled, id);
          if row.Some? {
            var n := CarryOverLinkToExecution(id, row.value);
            carried := carried + n;
          }
        }
      }
      assert order[..|order|] == order;
    }

    /** The first settled book event of this live fill, scanning the candidates in row order. */
    method MatchBookEvent(fill: LiveFill) returns (k: Option<nat>)
      ensures k == FirstBookTwin(settled, fill)
    {
      if fill.conId.None? {
        return None;
      }
      for i := 0 to |settled|
        invariant forall j :: 0 <= j < i ==> !BookTwin(fill, settled[j])
      {
        var s := settled[i];
        if s.account != fill.account || s.conId != fill.conId || !IsBookEvent(s) { continue; }
        if Abs(Abs(s.quantity) - Abs(fill.quantity)) > QTY_EPS { continue; }
        if fill.side == UnknownSide || s.side != fill.side { continue; }
        if Abs(s.price - fill.price) > PRICE_EPS { continue; }
        if Day(s.executedAt) != Day(fill.execTime) { continue; }
        return Some(i);
      }
      return None;
    }

    /** The settled row an orphan reconciles to, and whether the stripped id found it. */
    method MatchOrphan(id: ExecId) returns (twin: Option<nat>, byStrip: bool)
      requires id in live
      ensures twin == MatchTwin(settled, id, live[id])
      ensures byStrip <==> MatchLegStrip(settled, id, live[id]).Some?
    {
      twin := MatchLegStrip(settled, id, live[id]);
      byStrip := twin.Some?;
      if twin.None? {
        twin := MatchBookEvent(live[id]);
      }
    }

    /** One visit of the first loop: carry and delete a row with a divergent twin, or defer an orphan without one. */
    method ReconcileRow(id: ExecId, counts: Counts) returns (counted: Counts, deferred: bool, ghost n: nat)
      requires id in live
      modifies this`live, this`tags, this`members
      ensures Links() == CarryOne(old(Links()), Carry(id, TwinTargets(old(View()), id)))
      ensures live == old(live) - (if TwinTargets(old(View()), id) == [] then {} else {id})
      ensures deferred <==> IsDeferred(old(View()), id)
      ensures counted == Tally(old(View()), id, counts, n)
      ensures |members| == |old(members)| + n
      ensures |live| + counted.legStrip + counted.bookEvent == |old(live)| + counts.legStrip + counts.bookEvent
    {
      counted, deferred, n := counts, false, 0;
      if IsOrphan(settled, id) {
        var twin, byStrip := MatchOrphan(id);
        if twin.None? {
          deferred := true;
        } else {
          var carried := CarryOverLinkToExecution(id, twin.value);
          n := carried;
          live := live - {id};
          counted := counts.(
            linksCarried := counts.linksCarried + carried,
            legStrip := counts.legStrip + if byStrip then 1 else 0,
            bookEvent := counts.bookEvent + if byStrip then 0 else 1);
        }
      }
    }

    /** First loop of the reconcile pass: rows with a divergent twin leave, the other orphans are deferred. */
    method ReconcileTwins(order: seq<ExecId>) returns (counts: Counts, deferred: seq<ExecId>)
      requires Lists(order, live.Keys)
      modifies this`live, this`tags, this`members
      ensures TwinsDone(old(View()), order, View(), counts, deferred)
    {
      ghost var db := View();
      counts, deferred := Counts(0, 0, 0, 0, 0), [];
      for i := 0 to |order|
        invariant settled == db.settled
        invariant forall j :: i <= j < |order| ==> order[j] in live && live[order[j]] == db.live[order[j]]
        invariant TwinsDone(db, order[..i], View(), counts, deferred)
      {
        ghost var now, counted, put := View(), counts, deferred;
        var defer: bool;
        ghost var n: nat;
        counts, defer, n := ReconcileRow(order[i], counts);
        deferred := deferred + if defer then [order[i]] else [];
        TwinsStep(db, order, i, now, View(), counted, counts, put, defer, n);
      }
      assert order[..|order|] == order;
    }

    /** One visit of the second loop: hand a redundant summary's link to its settled legs and delete it. */
    method ReconcileSummary(id: ExecId, counts: Counts) returns (counted: Counts)
      requires id in live
      modifies this`live, this`tags, this`members
      ensures Links() == CarryOne(old(Links()), Carry(id, SummaryOf(old(View()), id)))
      ensures live == old(live) - (if SummaryOf(old(View()), id) == [] then {} else {id})
      ensures counted.legStrip == counts.legStrip && counted.bookEvent == counts.bookEvent
      ensures counted.bagSummary + counted.unmatched == counts.bagSummary + counts.unmatched + 1
      ensures |live| + counted.bagSummary == |old(live)| + counts.bagSummary
      ensures |members| + counts.linksCarried == |old(members)| + counted.linksCarried
    {
      var legs := MatchBagSummary(settled, live, id);
      if legs == [] {
        counted := counts.(unmatched := counts.unmatched + 1);
      } else {
        var n := CarryOverLinkToExecutions(id, legs);
        live := live - {id};
        counted := counts.(bagSummary := counts.bagSummary + 1, linksCarried := counts.linksCarried + n);
      }
    }

    /** Second loop: a deferred summary leaves once no live leg of its order is left and its legs have settled. */
    method ReconcileSummaries(deferred: seq<ExecId>, counts: Counts) returns (counted: Counts)
      requires Distinct(deferred) && forall id :: id in deferred ==> id in live
      modifies this`live, this`tags, this`members
      ensures View() == Retire(old(View()), Collect(deferred, id => SummaryOf(old(View()), id)))
      ensures counted.legStrip == counts.legStrip && counted.bookEvent == counts.bookEvent
      ensures counted.bagSummary + counted.unmatched == counts.bagSummary + counts.unmatched + |deferred|
      ensures |live| + counted.bagSummary == |old(live)| + counts.bagSummary
      ensures |members| + counts.linksCarried == |old(members)| + counted.linksCarried
    {
      ghost var db := View();
      counted := counts;
      for i := 0 to |deferred|
        invariant forall j :: i <= j < |deferred| ==> deferred[j] in live
        invariant SummariesDone(db, deferred[..i], View())
        invariant counted.legStrip == counts.legStrip && counted.bookEvent == counts.bookEvent
        invariant counted.bagSummary + counted.unmatched == counts.bagSummary + counts.unmatched + i
        invariant |live| + counted.bagSummary == |db.live| + counts.bagSummary
        invariant |members| + counts.linksCarried == |db.ledger.members| + counted.linksCarried
      {
        ghost var now := View();
        counted := ReconcileSummary(deferred[i], counted);
        SummariesStep(db, deferred, i, now, View());
      }
      assert deferred[..|deferred|] == deferred;
    }

    /**
      Purge live fills whose settled twin exists under a different id, in any
      visiting order, and account for every orphan.
     */
    method ReconcileOrphans(order: seq<ExecId>) returns (counts: Counts)
      requires Lists(order, live.Keys)
      modifies this`live, this`tags, this`members
      ensures View() == Reconcile(old(View()), order)
      ensures |members| == |old(members)| + counts.linksCarried
      ensures counts.legStrip == |StrippedIds(old(View()))|
      ensures counts.bookEvent == |BookedIds(old(View()))|
      ensures counts.legStrip + counts.bookEvent + counts.bagSummary == |old(live)| - |live|
      ensures counts.legStrip + counts.bookEvent + counts.bagSummary + counts.unmatched
           == |OrphanIds(old(View()))|
    {
      ghost var db := View();
      var deferred: seq<ExecId>;
      counts, deferred := ReconcileTwins(order);
      FilterProperty(order, id => IsDeferred(db, id));
      ReconcileInTwoLoops(db, order);
      SplitCount(db, order);
      CountStripped(db, order);
      CountBooked(db, order);
      CountOrphans(db, order);
      counts := ReconcileSummaries(deferred, counts);
    }

    /** Carry the link of every BAG row that has a settled BAG twin; the ids differ, so each is resolved explicitly. */
    method CarryComboSummaries(combos: map<ExecId, nat>, order: seq<ExecId>)
      modifies this`tags, this`members
      ensures Links() == CarryAll(old(Links()), Collect(order, ComboTargets(combos)))
    {
      ghost var before, decide := Links(), ComboTargets(combos);
      for i := 0 to |order|
        invariant Links() == CarryAll(before, Collect(order[..i], decide))
      {
        CarryStep(before, order, i, decide);
        if order[i] in combos {
          var _ := CarryOverLinkToExecution(order[i], combos[order[i]]);
        }
      }
      assert order[..|order|] == order;
    }

    /** The settled BAG rows by account and instant; a later row takes the place of an earlier one. */
    method SettledByKey() returns (byKey: map<Instant, nat>)
      ensures forall key :: (if key in byKey then Some(byKey[key]) else None) == LastBagAt(settled, key)
    {
      byKey := map[];
      for i := 0 to |settled|
        invariant forall key :: (if key in byKey then Some(byKey[key]) else None) == LastBagAt(settled[..i], key)
      {
        assert settled[..i + 1][..i] == settled[..i];
        if settled[i].secType == Bag {
          byKey := byKey[InstantOf(settled[i]) := i];
        }
      }
      assert settled[..|settled|] == settled;
    }

    /** The settled row of each live BAG row: the last settled BAG row at its account and instant. */
    method SettledComboSummaries() returns (combos: map<ExecId, nat>)
      ensures combos == ComboSummaries(View())
    {
      if !exists id | id in live :: live[id].secType == Bag {
        NoBagsNoSummaries(View());
        return map[];
      }
      var byKey := SettledByKey();
      combos := SummariesBy(live, byKey);
      SummariesByKey(View(), byKey);
    }

    /** Drop live fills that have settled, under their own id or as a BAG row, carrying their links first. */
    method PurgeSettled(linkOrder: seq<ExecId>, bagOrder: seq<ExecId>) returns (purged: nat)
      requires Lists(linkOrder, live.Keys) && Lists(bagOrder, live.Keys)
      modifies this`live, this`tags, this`members
      ensures View() == Purge(old(View()), linkOrder, bagOrder)
      ensures purged == |old(live)| - |live|
    {
      var settledIds := set id | id in live && RowOf(settled, id).Some?;
      var combos := SettledComboSummaries();
      purged := 0;
      PurgeByTables(View(), linkOrder, bagOrder);
      if settledIds != {} || combos != map[] {
        purged := ApplyPurge(settledIds, combos, linkOrder, bagOrder);
      } else {
        NothingToPurge(View(), linkOrder, bagOrder);
      }
    }

    method CarryBoth(settledIds: set<ExecId>, combos: map<ExecId, nat>, linkOrder: seq<ExecId>, bagOrder: seq<ExecId>)
      modifies this`tags, this`members
      ensures Links() == PurgedBy(old(View()), settledIds, combos, linkOrder, bagOrder).ledger
    {
      var _ := CarryOverSettledGroupLinks(Some(settledIds), linkOrder);
      CarryComboSummaries(combos, bagOrder);
    }

    /** Carry the links of both tables, then delete their rows. */
    method ApplyPurge(settledIds: set<ExecId>, combos: map<ExecId, nat>, linkOrder: seq<ExecId>, bagOrder: seq<ExecId>) returns (purged: nat)
      requires settledIds + combos.Keys <= live.Keys
      modifies this`live, this`tags, this`members
      ensures View() == PurgedBy(old(View()), settledIds, combos, linkOrder, bagOrder)
      ensures purged == |old(live)| - |live|
    {
      CarryBoth(settledIds, combos, linkOrder, bagOrder);
      var gone := settledIds + combos.Keys;
      purged := |gone|;
      DeletedRows(live, gone);
      live := live - gone;
    }

    /** Upsert the fills by execution id. */
    method WriteFills(fills: seq<(ExecId, LiveFill)>)
      modifies this`live
      ensures live == Handoff.WriteFills(old(live), fills)
    {
      for i := 0 to |fills|
        invariant live == Handoff.WriteFills(old(live), fills[..i])
      {
        assert fills[..i + 1][..i] == fills[..i];
        live := live[fills[i].0 := fills[i].1];
      }
      assert fills[..|fills|] == fills;
    }

    /** The table part of one intraday sync: write the window's fills, purge, reconcile. */
    method IntradaySync(fills: seq<(ExecId, LiveFill)>, linkOrder: seq<ExecId>, bagOrder: seq<ExecId>, order: seq<ExecId>)
      requires P.Invariant(View()) && P.Enabled(View(), P.Intraday(fills, linkOrder, bagOrder, order))
      modifies this`live, this`tags, this`members
      ensures View() == P.Next(old(View()), P.Intraday(fills, linkOrder, bagOrder, order))
      ensures P.Invariant(View())
    {
      P.StepKeepsInvariant(View(), P.Intraday(fills, linkOrder, bagOrder, order));
      WriteFills(fills);
      var _ := PurgeSettled(linkOrder, bagOrder);
      var _ := ReconcileOrphans(order);
    }

    /** Carry every tag whose fill has settled under its own id. */
    method CarrySettled(order: seq<ExecId>)
      modifies this`tags, this`members
      ensures View() == P.CarrySettled(old(View()), order)
    {
      CollectAgrees(order, ScopedTargets(View(), None), id => ExactTargets(old(View()), id));
      var _ := CarryOverSettledGroupLinks(None, order);
    }

    /** The table part of one Flex sync: the ingest has produced `rows`; carry settled links, then reconcile. */
    method FlexSync(rows: seq<SettledFill>, carryOrder: seq<ExecId>, order: seq<ExecId>)
      requires P.Invariant(View()) && P.Enabled(View(), P.Flex(rows, carryOrder, order))
      modifies this
      ensures View() == P.Next(old(View()), P.Flex(rows, carryOrder, order))
      ensures P.Invariant(View())
    {
      P.StepKeepsInvariant(View(), P.Flex(rows, carryOrder, order));
      settled := rows;
      CarrySettled(carryOrder);
      var _ := ReconcileOrphans(order);
    }

    /** Tag live fills to one group, each link stamped as it is written; a fill already tagged moves. */
    method TagLive(fills: seq<ExecId>, group: int, source: string, stamps: seq<int>) returns (ghost links: map<ExecId, Assignment>)
      requires P.Invariant(View()) && |stamps| == |fills| && forall id :: id in fills ==> id in live
      modifies this`tags
      ensures links.Keys == (set id | id in fills) && forall id :: id in links ==> links[id].group == group && links[id].source == source
      ensures View() == P.Next(old(View()), P.TagLive(links))
      ensures P.Invariant(View())
    {
      ghost var before := View();
      links := map[];
      for i := 0 to |fills|
        invariant links.Keys == (set id | id in fills[..i]) && tags == before.ledger.tags + links
        invariant forall id :: id in links ==> links[id].group == group && links[id].source == source
      {
        assert fills[..i + 1] == fills[..i] + [fills[i]];
        tags := tags[fills[i] := Assignment(group, source, stamps[i])];
        links := links[fills[i] := Assignment(group, source, stamps[i])];
      }
      assert fills[..|fills|] == fills;
      P.StepKeepsInvariant(before, P.TagLive(links));
    }
  }

  /** Live rows settled under their own id. */
  function SettledIds(db: Db): set<ExecId> {
    set id | id in db.live && RowOf(db.settled, id).Some?
  }

  /** Live BAG rows with a settled BAG row at their account and instant, each with the last such row. */
  function ComboSummaries(db: Db): map<ExecId, nat> {
    map id | id in db.live && BagTargets(db, id) != [] :: BagTargets(db, id)[0]
  }

  function ComboTargets(combos: map<ExecId, nat>): ExecId -> seq<nat> {
    id => if id in combos then [combos[id]] else []
  }

  type Instant = (int, int)

  function InstantOf(s: SettledFill): Instant { (s.account, s.executedAt) }

  function LastBagAt(settled: seq<SettledFill>, key: Instant): Option<nat> {
    Last(settled, (s: SettledFill) => s.secType == Bag && InstantOf(s) == key)
  }

  lemma {:induction false} LastAgrees(settled: seq<SettledFill>, p: SettledFill -> bool, q: SettledFill -> bool)
    requires forall s :: p(s) == q(s)
    ensures Last(settled, p) == Last(settled, q)
  {
    if settled != [] { LastAgrees(settled[..|settled| - 1], p, q); }
  }

  /** The live BAG rows whose account and instant the table holds. */
  function SummariesBy(live: map<ExecId, LiveFill>, byKey: map<Instant, nat>): map<ExecId, nat> {
    map id | id in live && live[id].secType == Bag && (live[id].account, live[id].execTime) in byKey
           :: byKey[(live[id].account, live[id].execTime)]
  }

  /** A live BAG row's settled twin is looked up by its account and instant; no other row has one. */
  lemma {:induction false} BagTargetByKey(db: Db, id: ExecId)
    requires id in db.live
    ensures BagTargets(db, id) == if db.live[id].secType == Bag then One(LastBagAt(db.settled, (db.live[id].account, db.live[id].execTime))) else []
  {
    var fill := db.live[id];
    if fill.secType == Bag {
      LastAgrees(db.settled, (s: SettledFill) => BagTwin(fill, s),
                 (s: SettledFill) => s.secType == Bag && InstantOf(s) == (fill.account, fill.execTime));
    }
  }

  lemma {:induction false} SummariesByKey(db: Db, byKey: map<Instant, nat>)
    requires forall key :: (if key in byKey then Some(byKey[key]) else None) == LastBagAt(db.settled, key)
    ensures SummariesBy(db.live, byKey) == ComboSummaries(db)
  {
    var found, wanted := SummariesBy(db.live, byKey), ComboSummaries(db);
    forall id | id in db.live
      ensures (id in found <==> id in wanted) && (id in found ==> found[id] == wanted[id])
    {
      BagTargetByKey(db, id);
    }
  }

  lemma {:induction false} NoBagsNoSummaries(db: Db)
    requires !exists id :: id in db.live && db.live[id].secType == Bag
    ensures ComboSummaries(db) == map[]
  {
    forall id | id in db.live ensures BagTargets(db, id) == [] { BagTargetByKey(db, id); }
  }

  /** The store with the links of both tables carried and their rows deleted. */
  function PurgedBy(db: Db, settledIds: set<ExecId>, combos: map<ExecId, nat>, linkOrder: seq<ExecId>, bagOrder: seq<ExecId>): Db {
    Db(db.live - (settledIds + combos.Keys), db.settled,
       CarryAll(CarryAll(db.ledger, Collect(linkOrder, ScopedTargets(db, Some(settledIds)))), Collect(bagOrder, ComboTargets(combos))))
  }

  lemma PurgedIds(db: Db, linkOrder: seq<ExecId>, bagOrder: seq<ExecId>)
    requires Lists(linkOrder, db.live.Keys) && Lists(bagOrder, db.live.Keys)
    ensures Ids(PurgeCarries(db, linkOrder, bagOrder)) == SettledIds(db) + ComboSummaries(db).Keys
  {
    CollectProperty(linkOrder, id => ExactTargets(db, id));
    CollectProperty(bagOrder, id => BagTargets(db, id));
    assert Ids(PurgeCarries(db, linkOrder, bagOrder))
        == Ids(Collect(linkOrder, id => ExactTargets(db, id))) + Ids(Collect(bagOrder, id => BagTargets(db, id)));
  }

  lemma ScopedCarries(db: Db, order: seq<ExecId>)
    requires Lists(order, db.live.Keys)
    ensures Collect(order, ScopedTargets(db, Some(SettledIds(db)))) == Collect(order, id => ExactTargets(db, id))
  {
    CollectAgrees(order, ScopedTargets(db, Some(SettledIds(db))), id => ExactTargets(db, id));
  }

  lemma ComboCarries(db: Db, order: seq<ExecId>)
    ensures Collect(order, ComboTargets(ComboSummaries(db))) == Collect(order, id => BagTargets(db, id))
  {
    forall id ensures ComboTargets(ComboSummaries(db))(id) == BagTargets(db, id) {}
    CollectAgrees(order, ComboTargets(ComboSummaries(db)), id => BagTargets(db, id));
  }

  /** The purge in terms of the two tables it builds first: the rows it deletes and the links it carries. */
  lemma PurgeByTables(db: Db, linkOrder: seq<ExecId>, bagOrder: seq<ExecId>)
    requires Lists(linkOrder, db.live.Keys) && Lists(bagOrder, db.live.Keys)
    ensures Purge(db, linkOrder, bagOrder) == PurgedBy(db, SettledIds(db), ComboSummaries(db), linkOrder, bagOrder)
  {
    PurgedIds(db, linkOrder, bagOrder);
    ScopedCarries(db, linkOrder);
    ComboCarries(db, bagOrder);
    P.CarryAllConcat(db.ledger, Collect(linkOrder, id => ExactTargets(db, id)), Collect(bagOrder, id => BagTargets(db, id)));
  }

  lemma NothingToPurge(db: Db, linkOrder: seq<ExecId>, bagOrder: seq<ExecId>)
    requires Lists(linkOrder, db.live.Keys) && Lists(bagOrder, db.live.Keys) && SettledIds(db) == {} && ComboSummaries(db) == map[]
    ensures Purge(db, linkOrder, bagOrder) == db
  {
    PurgedIds(db, linkOrder, bagOrder);
    P.NoIdsNoCarries(PurgeCarries(db, linkOrder, bagOrder));
  }

  lemma DeletedRows(live: map<ExecId, LiveFill>, gone: set<ExecId>)
    requires gone <= live.Keys
    ensures |live - gone| + |gone| == |live|
  {
    assert live.Keys == (live - gone).Keys + gone;
  }

  function SummaryOf(db: Db, id: ExecId): seq<nat> {
    if id in db.live then MatchBagSummary(db.settled, db.live, id) else []
  }

  /** Where the second loop stands after the ids in `seen`: only summaries have been deleted. */
  ghost predicate SummariesDone(db: Db, seen: seq<ExecId>, now: Db) {
    && now == Retire(db, Collect(seen, id => SummaryOf(db, id)))
    && (forall x :: x in now.live ==> x in db.live && now.live[x] == db.live[x])
    && (forall x :: x in db.live && x !in now.live ==> IsBagSummary(db.live[x]))
  }

  lemma SummariesStep(db: Db, order: seq<ExecId>, i: nat, now: Db, next: Db)
    requires i < |order| && SummariesDone(db, order[..i], now) && order[i] in now.live
    requires next.settled == now.settled
    requires next.ledger == CarryOne(now.ledger, Carry(order[i], SummaryOf(now, order[i])))
    requires next.live == now.live - (if SummaryOf(now, order[i]) == [] then {} else {order[i]})
    ensures SummariesDone(db, order[..i + 1], next)
  {
    SameSummaryDecision(db, now, order[i]);
    RetireStep(db, order, i, id => SummaryOf(db, id), now, next);
  }

  lemma SameSummaryDecision(db: Db, now: Db, id: ExecId)
    requires now.settled == db.settled && id in now.live
    requires forall x :: x in now.live ==> x in db.live && now.live[x] == db.live[x]
    requires forall x :: x in db.live && x !in now.live ==> IsBagSummary(db.live[x])
    ensures SummaryOf(now, id) == SummaryOf(db, id)
    ensures SummaryOf(db, id) != [] ==> IsBagSummary(db.live[id])
  {
    DeletedSummariesDoNotMatter(db.settled, db.live, now.live, id);
  }

  lemma DeferredStayLive(db: Db, order: seq<ExecId>)
    requires Lists(order, db.live.Keys)
    ensures forall id :: id in Filter(order, id => IsDeferred(db, id)) ==> id in Retire(db, TwinCarries(db, order)).live
  {
    FilterProperty(order, id => IsDeferred(db, id));
    CollectProperty(order, id => TwinTargets(db, id));
  }

  lemma DeferredCarries(db: Db, mid: Db, order: seq<ExecId>)
    requires mid.settled == db.settled
    requires forall id :: id in Filter(order, id => IsDeferred(db, id)) ==> id in mid.live
    ensures Collect(Filter(order, id => IsDeferred(db, id)), id => SummaryOf(mid, id)) == SummaryCarries(db, mid.live, order)
  {
    var deferred := Filter(order, id => IsDeferred(db, id));
    FilterProperty(order, id => IsDeferred(db, id));
    CollectFiltered(order, id => IsDeferred(db, id), id => SummaryTargets(db, mid.live, id));
    CollectAgrees(deferred, id => SummaryTargets(db, mid.live, id), id => SummaryOf(mid, id));
  }

  lemma RetireTwice(db: Db, first: seq<Carry>, second: seq<Carry>)
    ensures Retire(Retire(db, first), second) == Retire(db, first + second)
  {
    P.CarryAllConcat(db.ledger, first, second);
    P.TwoLists(first, second);
  }

  /** The two loops together are the reconcile pass, and a deferred row is still live between them. */
  lemma {:induction false} ReconcileInTwoLoops(db: Db, order: seq<ExecId>)
    requires Lists(order, db.live.Keys)
    ensures var mid, deferred := Retire(db, TwinCarries(db, order)), Filter(order, id => IsDeferred(db, id));
      && (forall id :: id in deferred ==> id in mid.live)
      && Retire(mid, Collect(deferred, id => SummaryOf(mid, id))) == Reconcile(db, order)
  {
    var first := TwinCarries(db, order);
    var mid := Retire(db, first);
    DeferredStayLive(db, order);
    DeferredCarries(db, mid, order);
    RetireTwice(db, first, SummaryCarries(db, mid.live, order));
  }

  lemma StrippedBookedOrDeferred(db: Db, id: ExecId)
    requires id in db.live
    ensures (if IsOrphan(db.settled, id) then 1 else 0)
         == (if StripsTo(db, id) then 1 else 0) + (if BooksTo(db, id) then 1 else 0) + (if IsDeferred(db, id) then 1 else 0)
  {}

  lemma {:induction false} SplitCount(db: Db, order: seq<ExecId>)
    requires forall id :: id in order ==> id in db.live
    ensures Count(order, id => StripsTo(db, id)) + Count(order, id => BooksTo(db, id)) + Count(order, id => IsDeferred(db, id))
         == Count(order, id => IsOrphan(db.settled, id))
  {
    if order != [] {
      var front, last := order[..|order| - 1], order[|order| - 1];
      SplitCount(db, front);
      StrippedBookedOrDeferred(db, last);
    }
  }

  function StrippedIds(db: Db): set<ExecId> {
    set id | id in db.live && StripsTo(db, id)
  }

  function BookedIds(db: Db): set<ExecId> {
    set id | id in db.live && BooksTo(db, id)
  }

  function OrphanIds(db: Db): set<ExecId> {
    set id | id in db.live && IsOrphan(db.settled, id)
  }

  lemma CountStripped(db: Db, order: seq<ExecId>)
    requires Lists(order, db.live.Keys)
    ensures Count(order, id => StripsTo(db, id)) == |StrippedIds(db)|
  {
    var p: ExecId -> bool := id => StripsTo(db, id);
    CountOverSet(order, db.live.Keys, p);
    assert Selected(db.live.Keys, p) == StrippedIds(db);
  }

  lemma CountBooked(db: Db, order: seq<ExecId>)
    requires Lists(order, db.live.Keys)
    ensures Count(order, id => BooksTo(db, id)) == |BookedIds(db)|
  {
    var p: ExecId -> bool := id => BooksTo(db, id);
    CountOverSet(order, db.live.Keys, p);
    assert Selected(db.live.Keys, p) == BookedIds(db);
  }

  lemma CountOrphans(db: Db, order: seq<ExecId>)
    requires Lists(order, db.live.Keys)
    ensures Count(order, id => IsOrphan(db.settled, id)) == |OrphanIds(db)|
  {
    var p: ExecId -> bool := id => IsOrphan(db.settled, id);
    CountOverSet(order, db.live.Keys, p);
    assert Selected(db.live.Keys, p) == OrphanIds(db);
  }

  function ScopedTargets(db: Db, scope: Option<set<ExecId>>): ExecId -> seq<nat> {
    id => if scope.None? || id in scope.value then ExactTargets(db, id) else []
  }
}
