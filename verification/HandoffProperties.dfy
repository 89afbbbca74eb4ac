/** What the handoff passes guarantee, stated on the rows themselves rather than on the passes. */
module HandoffProperties {
  import opened Common
  import opened Handoff

  // ---------------------------------------------------------------------
  // Which rows stay
  // ---------------------------------------------------------------------

  ghost predicate UniqueIds(settled: seq<SettledFill>) {
    forall i, j :: 0 <= i < j < |settled| ==> settled[i].execId != settled[j].execId
  }

  ghost predicate Settled(db: Db, id: ExecId) {
    exists s :: s in db.settled && s.execId == id
  }

  /** A settled row that the leg-strip or the book-event rule pairs with this live row. */
  ghost predicate HasDivergentTwin(db: Db, id: ExecId)
    requires id in db.live
  {
    exists s :: s in db.settled && (StripTwin(id, db.live[id], s) || BookTwin(db.live[id], s))
  }

  ghost predicate HasBagTwin(db: Db, id: ExecId)
    requires id in db.live
  {
    exists s :: s in db.settled && BagTwin(db.live[id], s)
  }

  ghost predicate HasSettledLegs(db: Db, id: ExecId)
    requires id in db.live
  {
    exists s :: s in db.settled && SettledLegAt(db.live[id], s)
  }

  ghost predicate HasAnyTwin(db: Db, id: ExecId)
    requires id in db.live
  {
    Settled(db, id) || HasBagTwin(db, id) || HasDivergentTwin(db, id)
  }

  /** A keyed combo summary with settled legs at its instant, none of whose order's legs is in `legsLeft`. */
  ghost predicate RedundantSummary(db: Db, id: ExecId, legsLeft: set<ExecId>)
    requires id in db.live
  {
    var key := OrderGroupKey(db.live[id]);
    && IsBagSummary(db.live[id])
    && key.Some?
    && HasSettledLegs(db, id)
    && forall other :: other in legsLeft && other in db.live && !IsBagSummary(db.live[other]) ==> !SharesOrder(key.value, db.live[other])
  }

  /** Rows the first reconcile loop leaves: settled under the same id, or with no divergent twin. */
  ghost function AfterTwins(db: Db): set<ExecId> {
    set id | id in db.live && (Settled(db, id) || !HasDivergentTwin(db, id))
  }

  /** Rows with no twin of any kind. */
  ghost function WithoutTwin(db: Db): set<ExecId> {
    set id | id in db.live && !HasAnyTwin(db, id)
  }

  lemma RowOfProperty(settled: seq<SettledFill>, id: ExecId)
    ensures RowOf(settled, id).Some? <==> exists s :: s in settled && s.execId == id
  {
    if s :| s in settled && s.execId == id {
      var k :| 0 <= k < |settled| && settled[k] == s;
    }
  }

  /** The matcher finds a twin exactly when one exists. */
  lemma MatchTwinProperty(db: Db, id: ExecId)
    requires UniqueIds(db.settled) && id in db.live
    ensures MatchTwin(db.settled, id, db.live[id]).Some? <==> HasDivergentTwin(db, id)
    ensures var k := MatchTwin(db.settled, id, db.live[id]);
      k.Some? ==> k.value < |db.settled| && (StripTwin(id, db.live[id], db.settled[k.value]) || BookTwin(db.live[id], db.settled[k.value]))
  {
    var live := db.live[id];
    if HasDivergentTwin(db, id) {
      var s :| s in db.settled && (StripTwin(id, live, s) || BookTwin(live, s));
      var k :| 0 <= k < |db.settled| && db.settled[k] == s;
      if StripTwin(id, live, s) {
        assert RowOf(db.settled, s.execId) == Some(k);
      }
    }
    var found := MatchTwin(db.settled, id, live);
    if found.Some? {
      assert db.settled[found.value] in db.settled;
    }
  }

  lemma SummaryTargetsProperty(db: Db, legsLeft: map<ExecId, LiveFill>, id: ExecId)
    requires id in legsLeft && legsLeft.Keys <= db.live.Keys && forall x :: x in legsLeft ==> legsLeft[x] == db.live[x]
    ensures MatchBagSummary(db.settled, legsLeft, id) != [] <==> RedundantSummary(db, id, legsLeft.Keys)
    ensures forall k :: k in MatchBagSummary(db.settled, legsLeft, id) ==> k < |db.settled| && SettledLegAt(db.live[id], db.settled[k])
  {
    var legs := RowsWhere(db.settled, (s: SettledFill) => SettledLegAt(db.live[id], s));
    if HasSettledLegs(db, id) {
      var s :| s in db.settled && SettledLegAt(db.live[id], s);
      var k :| 0 <= k < |db.settled| && db.settled[k] == s;
      assert k in legs;
    }
    if legs != [] {
      assert legs[0] in legs;
      assert db.settled[legs[0]] in db.settled;
    }
  }

  /**
    Exactly the rows a reconcile pass leaves, whatever order it visits them in:
    those settled under their own id, and those with no divergent twin that are
    not a redundant summary.
   */
  lemma ReconcileSurvivors(db: Db, order: seq<ExecId>)
    requires UniqueIds(db.settled) && Lists(order, db.live.Keys)
    ensures forall id :: id in Reconcile(db, order).live <==>
      && id in db.live
      && (Settled(db, id) || (!HasDivergentTwin(db, id) && !RedundantSummary(db, id, AfterTwins(db))))
  {
    var first := TwinCarries(db, order);
    var rest := db.live - Ids(first);
    CollectProperty(order, id => TwinTargets(db, id));
    CollectProperty(order, id => SummaryTargets(db, rest, id));
    assert Ids(ReconcileCarries(db, order)) == Ids(first) + Ids(SummaryCarries(db, rest, order));
    forall id | id in db.live
      ensures id in Ids(first) <==> !Settled(db, id) && HasDivergentTwin(db, id)
    {
      RowOfProperty(db.settled, id);
      MatchTwinProperty(db, id);
    }
    assert rest.Keys == AfterTwins(db);
    forall id | id in rest
      ensures SummaryTargets(db, rest, id) != [] <==> !Settled(db, id) && RedundantSummary(db, id, AfterTwins(db))
    {
      RowOfProperty(db.settled, id);
      SummaryTargetsProperty(db, rest, id);
    }
  }

  lemma PurgeSurvivors(db: Db, linkOrder: seq<ExecId>, bagOrder: seq<ExecId>)
    requires Lists(linkOrder, db.live.Keys) && Lists(bagOrder, db.live.Keys)
    ensures forall id :: id in Purge(db, linkOrder, bagOrder).live <==> id in db.live && !Settled(db, id) && !HasBagTwin(db, id)
  {
    CollectProperty(linkOrder, id => ExactTargets(db, id));
    CollectProperty(bagOrder, id => BagTargets(db, id));
    forall id | id in db.live
      ensures id in Ids(PurgeCarries(db, linkOrder, bagOrder)) <==> Settled(db, id) || HasBagTwin(db, id)
    {
      RowOfProperty(db.settled, id);
      var bag := Last(db.settled, (s: SettledFill) => BagTwin(db.live[id], s));
      if bag.Some? {
        assert db.settled[bag.value] in db.settled;
      }
      assert Ids(PurgeCarries(db, linkOrder, bagOrder))
          == Ids(Collect(linkOrder, id => ExactTargets(db, id))) + Ids(Collect(bagOrder, id => BagTargets(db, id)));
    }
  }

  /** The purge and the reconcile pass of one intraday transaction, over the rows just written. */
  function PurgeAndReconcile(db: Db, linkOrder: seq<ExecId>, bagOrder: seq<ExecId>, order: seq<ExecId>): Db {
    Reconcile(Purge(db, linkOrder, bagOrder), order)
  }

  /**
    Exactly the live rows an intraday sync leaves: those with no settled twin
    of any kind that are not a keyed summary whose order keeps no leg.
   */
  lemma IntradaySurvivors(db: Db, linkOrder: seq<ExecId>, bagOrder: seq<ExecId>, order: seq<ExecId>)
    requires UniqueIds(db.settled)
    requires Lists(linkOrder, db.live.Keys) && Lists(bagOrder, db.live.Keys)
    requires Lists(order, Purge(db, linkOrder, bagOrder).live.Keys)
    ensures forall id :: id in PurgeAndReconcile(db, linkOrder, bagOrder, order).live <==>
      id in db.live && !HasAnyTwin(db, id) && !RedundantSummary(db, id, WithoutTwin(db))
  {
    var mid := Purge(db, linkOrder, bagOrder);
    PurgeSurvivors(db, linkOrder, bagOrder);
    ReconcileSurvivors(mid, order);
    PurgedRowsKeepTheirTwins(db, mid);
  }

  lemma PurgedRowsKeepTheirTwins(db: Db, mid: Db)
    requires mid.settled == db.settled
    requires forall id :: id in mid.live <==> id in db.live && !Settled(db, id) && !HasBagTwin(db, id)
    requires forall id :: id in mid.live ==> mid.live[id] == db.live[id]
    ensures forall id :: id in mid.live ==> !Settled(mid, id) && (HasDivergentTwin(mid, id) <==> HasDivergentTwin(db, id))
    ensures forall id :: id in mid.live ==> (RedundantSummary(mid, id, AfterTwins(mid)) <==> RedundantSummary(db, id, WithoutTwin(db)))
  {
    assert AfterTwins(mid) == WithoutTwin(db);
    forall id | id in mid.live
      ensures RedundantSummary(mid, id, AfterTwins(mid)) <==> RedundantSummary(db, id, WithoutTwin(db))
    {
      assert HasSettledLegs(mid, id) <==> HasSettledLegs(db, id);
    }
  }

  /** Summaries never block each other: only the order's surviving legs decide, whatever other summaries exist. */
  lemma PeerSummariesDoNotBlock(db: Db, id: ExecId, peer: ExecId, fill: LiveFill)
    requires id in db.live && peer !in db.live && IsBagSummary(fill)
    ensures var more := db.(live := db.live[peer := fill]);
      && (RedundantSummary(db, id, WithoutTwin(db)) <==> RedundantSummary(more, id, WithoutTwin(more)))
      && (HasAnyTwin(db, id) <==> HasAnyTwin(more, id))
  {
    var more := db.(live := db.live[peer := fill]);
    forall x | x in db.live ensures x in WithoutTwin(db) <==> x in WithoutTwin(more) {
      assert HasAnyTwin(db, x) <==> HasAnyTwin(more, x);
    }
    assert HasSettledLegs(db, id) <==> HasSettledLegs(more, id);
    assert forall x :: x in WithoutTwin(more) && x !in WithoutTwin(db) ==> x == peer;
  }

  // ---------------------------------------------------------------------
  // Visiting order and repetition
  // ---------------------------------------------------------------------

  function Execs(members: set<Member>): set<nat> {
    set m | m in members :: m.exec
  }

  lemma FirstTargetsOfConcat(a: seq<Carry>, b: seq<Carry>, id: ExecId)
    ensures FirstTargets(a + b, id) == if id in Ids(a) then FirstTargets(a, id) else FirstTargets(b, id)
  {
    if b == [] {
      assert a + b == a;
      if id !in Ids(a) { NoCarryNoTargets(a, id); }
    } else {
      var front := b[..|b| - 1];
      FirstTargetsOfConcat(a, front, id);
      assert (a + b)[..|a + b| - 1] == a + front;
      assert Ids(a + front) == Ids(a) + Ids(front);
      if id !in Ids(front) { NoCarryNoTargets(front, id); }
    }
  }

  lemma NoCarryNoTargets(cs: seq<Carry>, id: ExecId)
    requires id !in Ids(cs)
    ensures FirstTargets(cs, id) == []
  {
    if cs != [] {
      var front := cs[..|cs| - 1];
      assert cs[|cs| - 1] in cs;
      assert forall c :: c in front ==> c in cs;
      NoCarryNoTargets(front, id);
    }
  }

  lemma {:induction false} FirstTargetsOfCollect(order: seq<ExecId>, decide: ExecId -> seq<nat>, id: ExecId)
    ensures FirstTargets(Collect(order, decide), id) == if id in order then decide(id) else []
  {
    CollectProperty(order, decide);
    if id !in order || decide(id) == [] {
      NoCarryNoTargets(Collect(order, decide), id);
    } else {
      var front, last := order[..|order| - 1], order[|order| - 1];
      assert order == front + [last];
      FirstTargetsOfCollect(front, decide, id);
      CollectProperty(front, decide);
      var cs, step := Collect(front, decide), if decide(last) == [] then [] else [Carry(last, decide(last))];
      assert Collect(order, decide) == cs + step;
      FirstTargetsOfConcat(cs, step, id);
    }
  }

  function Elements(ks: seq<nat>): set<nat> {
    set k | k in ks
  }

  /** The targets of each tagged fill's first carry. */
  function CarriedTo(l: Ledger, cs: seq<Carry>): set<nat> {
    set id, k | id in l.tags && k in FirstTargets(cs, id) :: k
  }

  lemma LastCarryTargets(l: Ledger, front: seq<Carry>, last: Carry)
    ensures CarriedTo(l, front + [last])
         == CarriedTo(l, front) + if last.id in l.tags && last.id !in Ids(front) then Elements(last.targets) else {}
  {
    forall id ensures FirstTargets(front + [last], id) == if id !in Ids(front) && id == last.id then last.targets else FirstTargets(front, id)
    {
      assert (front + [last])[..|front|] == front;
      if id !in Ids(front) { NoCarryNoTargets(front, id); }
    }
  }

  /** The settled rows in a group after a list of carries: those before, and the targets of each tagged fill's first carry. */
  lemma {:induction false} CarriedExecs(l: Ledger, cs: seq<Carry>)
    requires forall c :: c in cs ==> c.targets != []
    ensures Execs(CarryAll(l, cs).members) == Execs(l.members) + CarriedTo(l, cs)
    ensures CarryAll(l, cs).tags == l.tags - Ids(cs)
  {
    if cs != [] {
      var front, last := cs[..|cs| - 1], cs[|cs| - 1];
      assert cs == front + [last];
      CarriedExecs(l, front);
      assert Ids(cs) == Ids(front) + {last.id};
      LastCarryTargets(l, front, last);
      CarriedOnce(CarryAll(l, front), last);
      UnionRegroup(Execs(l.members), CarriedTo(l, front), if last.id in l.tags && last.id !in Ids(front) then Elements(last.targets) else {});
    }
  }

  lemma CarriedOnce(mid: Ledger, c: Carry)
    requires c.targets != []
    ensures Execs(CarryOne(mid, c).members) == Execs(mid.members) + if c.id in mid.tags then Elements(c.targets) else {}
    ensures CarryOne(mid, c).tags == mid.tags - {c.id}
  {
    if c.id in mid.tags { InsertedExecs(mid.members, c.targets, mid.tags[c.id]); }
  }

  lemma {:induction false} InsertedExecs(members: set<Member>, targets: seq<nat>, link: Assignment)
    ensures Execs(InsertAll(members, targets, link)) == Execs(members) + Elements(targets)
  {
    if targets != [] {
      var front, last := targets[..|targets| - 1], targets[|targets| - 1];
      InsertedExecs(members, front, link);
      assert targets == front + [last];
      var before, after := InsertAll(members, front, link), InsertAll(members, targets, link);
      if !(exists m | m in before :: m.exec == last) {
        assert after == before + {Member(last, link)};
        assert Execs(after) == Execs(before) + {last};
      } else {
        assert last in Execs(before);
      }
    }
  }

  /** The rows the first loop leaves, with their contents; no visiting order is involved. */
  function RowsLeft(db: Db): map<ExecId, LiveFill> {
    map id | id in db.live && TwinTargets(db, id) == [] :: db.live[id]
  }

  /** The settled rows a reconcile pass hands a live fill's links to. */
  function ReconcileTargets(db: Db, id: ExecId): seq<nat> {
    if TwinTargets(db, id) != [] then TwinTargets(db, id) else SummaryTargets(db, RowsLeft(db), id)
  }

  lemma FirstOfTwoLists(order: seq<ExecId>, f: ExecId -> seq<nat>, g: ExecId -> seq<nat>, id: ExecId)
    ensures FirstTargets(Collect(order, f) + Collect(order, g), id) == if id !in order then [] else if f(id) != [] then f(id) else g(id)
  {
    CollectProperty(order, f);
    FirstTargetsOfConcat(Collect(order, f), Collect(order, g), id);
    FirstTargetsOfCollect(order, f, id);
    FirstTargetsOfCollect(order, g, id);
  }

  lemma FirstReconcileTargets(db: Db, order: seq<ExecId>, id: ExecId)
    requires Lists(order, db.live.Keys)
    ensures FirstTargets(TwinCarries(db, order) + SummaryCarries(db, RowsLeft(db), order), id) == ReconcileTargets(db, id)
  {
    FirstOfTwoLists(order, id => TwinTargets(db, id), id => SummaryTargets(db, RowsLeft(db), id), id);
  }

  lemma TwoLists(first: seq<Carry>, second: seq<Carry>)
    ensures Ids(first + second) == Ids(first) + Ids(second)
    ensures forall c :: c in first + second <==> c in first || c in second
  {}

  lemma RowsLeftByTwins(db: Db, order: seq<ExecId>)
    requires Lists(order, db.live.Keys)
    ensures db.live - Ids(TwinCarries(db, order)) == RowsLeft(db)
    ensures ReconcileCarries(db, order) == TwinCarries(db, order) + SummaryCarries(db, RowsLeft(db), order)
  {
    CollectProperty(order, id => TwinTargets(db, id));
  }

  lemma ReconcileCarriesProperty(db: Db, order: seq<ExecId>)
    requires Lists(order, db.live.Keys)
    ensures var cs := ReconcileCarries(db, order);
      && db.live - Ids(TwinCarries(db, order)) == RowsLeft(db)
      && (forall id :: FirstTargets(cs, id) == ReconcileTargets(db, id))
      && (forall id :: id in Ids(cs) <==> ReconcileTargets(db, id) != [])
      && (forall c :: c in cs ==> c.id in db.live && c.targets == ReconcileTargets(db, c.id) != [])
  {
    RowsLeftByTwins(db, order);
    TwoLists(TwinCarries(db, order), SummaryCarries(db, RowsLeft(db), order));
    CollectProperty(order, id => TwinTargets(db, id));
    CollectProperty(order, id => SummaryTargets(db, RowsLeft(db), id));
    forall id ensures FirstTargets(ReconcileCarries(db, order), id) == ReconcileTargets(db, id) {
      FirstReconcileTargets(db, order, id);
    }
  }

  /** Tagged fills that move to the same settled row carry the same assignment. */
  ghost predicate TagsAgree(db: Db) {
    forall a, b, k :: a in db.ledger.tags && b in db.ledger.tags && k in ReconcileTargets(db, a) && k in ReconcileTargets(db, b)
      ==> db.ledger.tags[a] == db.ledger.tags[b]
  }

  /** Tagged fills that move to the same settled row are tagged to the same group, whenever each was tagged. */
  ghost predicate GroupsAgree(db: Db) {
    forall a, b, k :: a in db.ledger.tags && b in db.ledger.tags && k in ReconcileTargets(db, a) && k in ReconcileTargets(db, b)
      ==> db.ledger.tags[a].group == db.ledger.tags[b].group
  }

  /** Every settled row of the first table is in the same group in the second. */
  ghost predicate SameGroups(members: set<Member>, members': set<Member>) {
    forall m :: m in members ==> exists m' :: m' in members' && m'.exec == m.exec && m'.link.group == m.link.group
  }

  /**
    The visiting order never changes which rows and links are left or which
    settled rows end in a group; it can only choose the group of a settled row
    that fills tagged to different groups compete for, and of links to one group
    which source and time stamp the row keeps.
   */
  lemma ReconcileOrderDoesNotMatter(db: Db, order: seq<ExecId>, order': seq<ExecId>)
    requires AtMostOneGroup(db.ledger.members)
    requires Lists(order, db.live.Keys) && Lists(order', db.live.Keys)
    ensures var r, r' := Reconcile(db, order), Reconcile(db, order');
      && r.live == r'.live && r.ledger.tags == r'.ledger.tags
      && Execs(r.ledger.members) == Execs(r'.ledger.members)
      && (GroupsAgree(db) ==> SameGroups(r.ledger.members, r'.ledger.members) && SameGroups(r'.ledger.members, r.ledger.members))
      && (TagsAgree(db) ==> r == r')
  {
    var cs, cs' := ReconcileCarries(db, order), ReconcileCarries(db, order');
    ReconcileCarriesProperty(db, order);
    ReconcileCarriesProperty(db, order');
    assert Ids(cs) == Ids(cs');
    CarriedExecs(db.ledger, cs);
    CarriedExecs(db.ledger, cs');
    assert CarriedTo(db.ledger, cs) == CarriedTo(db.ledger, cs');
    if GroupsAgree(db) {
      AgreeingGroupsFixTheGroups(db, order, order');
      AgreeingGroupsFixTheGroups(db, order', order);
    }
    if TagsAgree(db) {
      AgreeingTagsFixTheLinks(db, order, order');
      AgreeingTagsFixTheLinks(db, order', order);
      assert Reconcile(db, order).ledger.members == Reconcile(db, order').ledger.members;
    }
  }

  lemma {:induction false} AgreeingGroupsFixTheGroups(db: Db, order: seq<ExecId>, order': seq<ExecId>)
    requires AtMostOneGroup(db.ledger.members) && GroupsAgree(db)
    requires Lists(order, db.live.Keys) && Lists(order', db.live.Keys)
    requires Execs(Reconcile(db, order).ledger.members) == Execs(Reconcile(db, order').ledger.members)
    ensures SameGroups(Reconcile(db, order).ledger.members, Reconcile(db, order').ledger.members)
  {
    var after, after' := Reconcile(db, order).ledger.members, Reconcile(db, order').ledger.members;
    ReconcileCarriesProperty(db, order);
    ReconcileCarriesProperty(db, order');
    CarryAllProperty(db.ledger, ReconcileCarries(db, order));
    CarryAllProperty(db.ledger, ReconcileCarries(db, order'));
    forall m | m in after ensures exists m' :: m' in after' && m'.exec == m.exec && m'.link.group == m.link.group {
      assert m.exec in Execs(after');
      var m' :| m' in after' && m'.exec == m.exec;
      if m in db.ledger.members || m' in db.ledger.members {
      } else {
        assert m.link.group == m'.link.group;
      }
    }
  }

  lemma AgreeingTagsFixTheLinks(db: Db, order: seq<ExecId>, order': seq<ExecId>)
    requires AtMostOneGroup(db.ledger.members) && TagsAgree(db)
    requires Lists(order, db.live.Keys) && Lists(order', db.live.Keys)
    requires Execs(Reconcile(db, order).ledger.members) == Execs(Reconcile(db, order').ledger.members)
    ensures Reconcile(db, order).ledger.members <= Reconcile(db, order').ledger.members
  {
    var after, after' := Reconcile(db, order).ledger.members, Reconcile(db, order').ledger.members;
    ReconcileCarriesProperty(db, order);
    ReconcileCarriesProperty(db, order');
    CarryAllProperty(db.ledger, ReconcileCarries(db, order));
    CarryAllProperty(db.ledger, ReconcileCarries(db, order'));
    forall m | m in after ensures m in after' {
      assert m.exec in Execs(after');
      var m' :| m' in after' && m'.exec == m.exec;
      if m in db.ledger.members || m' in db.ledger.members {
      } else {
        assert m.link == m'.link;
      }
    }
  }

  /** Among the rows a pass leaves, no row has become reconcilable: the legs left are the same as before. */
  lemma NothingLeftToReconcile(db: Db, r: Db)
    requires r.settled == db.settled && r.live.Keys <= db.live.Keys && forall id :: id in r.live ==> r.live[id] == db.live[id]
    requires forall id :: id in r.live <==>
      id in db.live && (Settled(db, id) || (!HasDivergentTwin(db, id) && !RedundantSummary(db, id, AfterTwins(db))))
    ensures forall id :: id in r.live ==> Settled(r, id) || (!HasDivergentTwin(r, id) && !RedundantSummary(r, id, AfterTwins(r)))
  {
    forall id | id in r.live && !Settled(r, id)
      ensures !HasDivergentTwin(r, id) && !RedundantSummary(r, id, AfterTwins(r))
    {
      assert !RedundantSummary(db, id, AfterTwins(db));
      assert HasSettledLegs(r, id) <==> HasSettledLegs(db, id);
      forall leg | leg in AfterTwins(db) && !IsBagSummary(db.live[leg]) ensures leg in AfterTwins(r) {
        assert !RedundantSummary(db, leg, AfterTwins(db));
      }
    }
  }

  /** A second pass, in any order, changes nothing. */
  lemma ReconcileIsIdempotent(db: Db, order: seq<ExecId>, order': seq<ExecId>)
    requires UniqueIds(db.settled) && Lists(order, db.live.Keys)
    requires Lists(order', Reconcile(db, order).live.Keys)
    ensures Reconcile(Reconcile(db, order), order') == Reconcile(db, order)
  {
    var r := Reconcile(db, order);
    ReconcileSurvivors(db, order);
    NothingLeftToReconcile(db, r);
    SurvivorsStay(r, order');
  }

  /** A pass over rows none of which is reconcilable carries nothing. */
  lemma SurvivorsStay(r: Db, order: seq<ExecId>)
    requires UniqueIds(r.settled) && Lists(order, r.live.Keys)
    requires forall id :: id in r.live ==> Settled(r, id) || (!HasDivergentTwin(r, id) && !RedundantSummary(r, id, AfterTwins(r)))
    ensures Reconcile(r, order) == r
  {
    ReconcileSurvivors(r, order);
    ReconcileCarriesProperty(r, order);
    NothingRetired(r, ReconcileCarries(r, order));
  }

  lemma NothingRetired(r: Db, cs: seq<Carry>)
    requires (forall c :: c in cs ==> c.id in r.live) && forall id :: id in r.live ==> id in Retire(r, cs).live
    ensures Retire(r, cs) == r
  {
    NoIdsNoCarries(cs);
    assert r.live - {} == r.live;
  }

  lemma NoIdsNoCarries(cs: seq<Carry>)
    ensures Ids(cs) == {} ==> cs == []
  {
    if cs != [] {
      assert cs[0].id in Ids(cs);
    }
  }

  // ---------------------------------------------------------------------
  // Whole runs
  // ---------------------------------------------------------------------

  /** One committed transaction.  Orders are the unspecified row orders of its queries. */
  datatype Action =
    | Intraday(fills: seq<(ExecId, LiveFill)>, linkOrder: seq<ExecId>, bagOrder: seq<ExecId>, order: seq<ExecId>)
    | Flex(settled: seq<SettledFill>, carryOrder: seq<ExecId>, order: seq<ExecId>)
    | TagLive(links: map<ExecId, Assignment>)

  /** The tables once the transaction has written its rows and before it hands anything over. */
  function Written(db: Db, a: Action): Db {
    match a
    case Intraday(fills, _, _, _) => db.(live := WriteFills(db.live, fills))
    case Flex(settled, _, _) => db.(settled := settled)
    case TagLive(links) => db.(ledger := db.ledger.(tags := db.ledger.tags + links))
  }

  /** The id-equality carry of a Flex sync, which leaves the live rows in place. */
  function CarrySettled(db: Db, order: seq<ExecId>): Db {
    db.(ledger := CarryAll(db.ledger, Collect(order, id => ExactTargets(db, id))))
  }

  function Next(db: Db, a: Action): Db {
    var w := Written(db, a);
    match a
    case Intraday(_, linkOrder, bagOrder, order) => PurgeAndReconcile(w, linkOrder, bagOrder, order)
    case Flex(_, carryOrder, order) => Reconcile(CarrySettled(w, carryOrder), order)
    case TagLive(_) => w
  }

  /** Every carry the transaction attempts, in order. */
  function Carries(db: Db, a: Action): seq<Carry> {
    var w := Written(db, a);
    match a
    case Intraday(_, linkOrder, bagOrder, order) => PurgeCarries(w, linkOrder, bagOrder) + ReconcileCarries(Purge(w, linkOrder, bagOrder), order)
    case Flex(_, carryOrder, order) =>
      Collect(carryOrder, id => ExactTargets(w, id)) + ReconcileCarries(CarrySettled(w, carryOrder), order)
    case TagLive(_) => []
  }

  /** Flex ingest only adds settled rows or rewrites a row under its own id; only existing live rows are tagged. */
  ghost predicate Enabled(db: Db, a: Action) {
    var w := Written(db, a);
    match a
    case Intraday(_, linkOrder, bagOrder, order) =>
      && Lists(linkOrder, w.live.Keys) && Lists(bagOrder, w.live.Keys)
      && Lists(order, Purge(w, linkOrder, bagOrder).live.Keys)
    case Flex(settled, carryOrder, order) =>
      && UniqueIds(settled) && |db.settled| <= |settled|
      && (forall k :: 0 <= k < |db.settled| ==> settled[k].execId == db.settled[k].execId)
      && Lists(carryOrder, db.ledger.tags.Keys) && Lists(order, db.live.Keys)
    case TagLive(links) => links.Keys <= db.live.Keys
  }

  ghost predicate Invariant(db: Db) {
    && UniqueIds(db.settled)
    && AtMostOneGroup(db.ledger.members)
    && db.ledger.tags.Keys <= db.live.Keys
    && forall m :: m in db.ledger.members ==> m.exec < |db.settled|
  }

  /** A carry follows a matching rule: same id, settled BAG row, divergent twin, or settled legs of a summary. */
  ghost predicate Justified(w: Db, c: Carry) {
    c.targets != [] && forall k :: k in c.targets ==>
      k < |w.settled| && (
        || w.settled[k].execId == c.id
        || (c.id in w.live && BagTwin(w.live[c.id], w.settled[k]))
        || (c.id in w.live && (StripTwin(c.id, w.live[c.id], w.settled[k]) || BookTwin(w.live[c.id], w.settled[k])))
        || (c.id in w.live && IsBagSummary(w.live[c.id]) && SettledLegAt(w.live[c.id], w.settled[k])))
  }

  lemma ReconcileCarriesAreJustified(w: Db, db: Db, order: seq<ExecId>)
    requires UniqueIds(db.settled) && Lists(order, db.live.Keys)
    requires w.settled == db.settled && forall id :: id in db.live ==> id in w.live && w.live[id] == db.live[id]
    ensures forall c :: c in ReconcileCarries(db, order) ==> c.id in db.live && Justified(w, c)
  {
    ReconcileCarriesProperty(db, order);
    forall c | c in ReconcileCarries(db, order) ensures Justified(w, c) {
      MatchTwinProperty(db, c.id);
      if TwinTargets(db, c.id) == [] {
        SummaryTargetsProperty(db, RowsLeft(db), c.id);
      }
    }
  }

  lemma {:induction false} ExactCarriesAreJustified(w: Db, order: seq<ExecId>)
    ensures forall c :: c in Collect(order, id => ExactTargets(w, id)) ==> Justified(w, c)
  {
    CollectProperty(order, id => ExactTargets(w, id));
  }

  lemma {:induction false} BagCarriesAreJustified(w: Db, order: seq<ExecId>)
    ensures forall c :: c in Collect(order, id => BagTargets(w, id)) ==> Justified(w, c)
  {
    CollectProperty(order, id => BagTargets(w, id));
  }

  lemma CarriesAreJustified(db: Db, a: Action)
    requires Invariant(db) && Enabled(db, a)
    ensures forall c :: c in Carries(db, a) ==> Justified(Written(db, a), c)
  {
    var w := Written(db, a);
    match a
    case Intraday(_, linkOrder, bagOrder, order) =>
      ExactCarriesAreJustified(w, linkOrder);
      BagCarriesAreJustified(w, bagOrder);
      ReconcileCarriesAreJustified(w, Purge(w, linkOrder, bagOrder), order);
    case Flex(_, carryOrder, order) =>
      ExactCarriesAreJustified(w, carryOrder);
      ReconcileCarriesAreJustified(w, CarrySettled(w, carryOrder), order);
    case TagLive(_) =>
  }

  lemma {:induction false} CarryAllConcat(l: Ledger, a: seq<Carry>, b: seq<Carry>)
    ensures CarryAll(CarryAll(l, a), b) == CarryAll(l, a + b)
  {
    if b == [] {
      assert a + b == a;
    } else {
      assert (a + b)[..|a + b| - 1] == a + b[..|b| - 1];
      CarryAllConcat(l, a, b[..|b| - 1]);
    }
  }

  lemma {:induction false} NextLedger(db: Db, a: Action)
    ensures Next(db, a).ledger == CarryAll(Written(db, a).ledger, Carries(db, a))
    ensures a.Intraday? ==> Next(db, a).live == Written(db, a).live - Ids(Carries(db, a))
    ensures a.Flex? ==> Next(db, a).live.Keys >= db.live.Keys - Ids(Carries(db, a))
    ensures Next(db, a).settled == Written(db, a).settled
  {
    var w := Written(db, a);
    match a
    case Intraday(_, linkOrder, bagOrder, order) =>
      var cs, cs' := PurgeCarries(w, linkOrder, bagOrder), ReconcileCarries(Purge(w, linkOrder, bagOrder), order);
      CarryAllConcat(w.ledger, cs, cs');
      assert Ids(cs + cs') == Ids(cs) + Ids(cs');
    case Flex(_, carryOrder, order) =>
      var cs, cs' := Collect(carryOrder, id => ExactTargets(w, id)), ReconcileCarries(CarrySettled(w, carryOrder), order);
      CarryAllConcat(w.ledger, cs, cs');
      assert Ids(cs + cs') == Ids(cs) + Ids(cs');
    case TagLive(_) =>
  }

  lemma {:induction false} WriteFillsKeepsRows(live: map<ExecId, LiveFill>, fills: seq<(ExecId, LiveFill)>)
    ensures live.Keys <= WriteFills(live, fills).Keys
  {
    if fills != [] { WriteFillsKeepsRows(live, fills[..|fills| - 1]); }
  }

  /** Every transaction keeps the tables consistent: one group per settled row, no tag without its live row. */
  lemma StepKeepsInvariant(db: Db, a: Action)
    requires Invariant(db) && Enabled(db, a)
    ensures Invariant(Next(db, a))
    ensures db.ledger.members <= Next(db, a).ledger.members
  {
    var w, cs := Written(db, a), Carries(db, a);
    CarriesAreJustified(db, a);
    NextLedger(db, a);
    CarryAllProperty(w.ledger, cs);
    if a.Intraday? { WriteFillsKeepsRows(db.live, a.fills); }
  }

  function Run(db: Db, actions: seq<Action>): Db {
    if actions == [] then db else Next(Run(db, actions[..|actions| - 1]), actions[|actions| - 1])
  }

  ghost predicate RunEnabled(db: Db, actions: seq<Action>) {
    forall n :: 0 <= n < |actions| ==> Enabled(Run(db, actions[..n]), actions[n])
  }

  lemma LastStep(db: Db, actions: seq<Action>)
    requires RunEnabled(db, actions) && actions != []
    ensures var front, last := actions[..|actions| - 1], actions[|actions| - 1];
      RunEnabled(db, front) && Enabled(Run(db, front), last) && Run(db, actions) == Next(Run(db, front), last)
  {
    var front := actions[..|actions| - 1];
    forall n | 0 <= n < |front| ensures Enabled(Run(db, front[..n]), front[n]) {
      assert front[..n] == actions[..n];
    }
  }

  lemma {:induction false} RunKeepsInvariant(db: Db, actions: seq<Action>)
    requires Invariant(db) && RunEnabled(db, actions)
    ensures Invariant(Run(db, actions))
  {
    if actions != [] {
      LastStep(db, actions);
      RunKeepsInvariant(db, actions[..|actions| - 1]);
      StepKeepsInvariant(Run(db, actions[..|actions| - 1]), actions[|actions| - 1]);
    }
  }
}
