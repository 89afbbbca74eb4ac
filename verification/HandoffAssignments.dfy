/**
  Which settled rows a transaction hands each tagged fill, and whose group each
  settled row ends in, stated by the matching rules on the rows themselves.
 */
module HandoffAssignments {
  import opened Common
  import opened Handoff
  import opened HandoffProperties

  // ---------------------------------------------------------------------
  // The rule that matches a fill first
  // ---------------------------------------------------------------------

  datatype Rule = OwnId | SameInstant | DivergentId | SummaryLegs | NoRule

  /** The live rows still there when summaries are judged: a Flex sync does not delete rows settled under their own id. */
  ghost function LegsLeft(w: Db, a: Action): set<ExecId> {
    if a.Intraday? then WithoutTwin(w) else AfterTwins(w)
  }

  /** The first rule of the transaction that matches a live fill, by the rows written; only an intraday sync matches BAG rows by instant. */
  ghost function RuleFor(w: Db, a: Action, id: ExecId): Rule {
    if a.TagLive? || id !in w.live then NoRule
    else if Settled(w, id) then OwnId
    else if a.Intraday? && HasBagTwin(w, id) then SameInstant
    else if HasDivergentTwin(w, id) then DivergentId
    else if RedundantSummary(w, id, LegsLeft(w, a)) then SummaryLegs
    else NoRule
  }

  function LegsAt(settled: seq<SettledFill>, live: LiveFill): seq<nat> {
    RowsWhere(settled, (s: SettledFill) => SettledLegAt(live, s))
  }

  /**
    The settled rows a fill is handed: the row under its own id, else the last
    BAG row of its instant, else the row under its stripped id or the first
    book event, else the settled legs of its instant.
   */
  ghost function Handed(w: Db, a: Action, id: ExecId): seq<nat> {
    match RuleFor(w, a, id)
    case OwnId => One(RowOf(w.settled, id))
    case SameInstant => One(Last(w.settled, (s: SettledFill) => BagTwin(w.live[id], s)))
    case DivergentId => One(MatchTwin(w.settled, id, w.live[id]))
    case SummaryLegs => LegsAt(w.settled, w.live[id])
    case NoRule => []
  }

  lemma {:induction false} PurgeRules(w: Db, id: ExecId)
    requires id in w.live
    ensures ExactTargets(w, id) != [] <==> Settled(w, id)
    ensures BagTargets(w, id) != [] <==> HasBagTwin(w, id)
  {
    RowOfProperty(w.settled, id);
    var bag := Last(w.settled, (s: SettledFill) => BagTwin(w.live[id], s));
    if bag.Some? { assert w.settled[bag.value] in w.settled; }
  }

  lemma {:induction false} RowsLeftAreAfterTwins(db: Db)
    requires UniqueIds(db.settled)
    ensures RowsLeft(db).Keys == AfterTwins(db)
  {
    forall id | id in db.live ensures TwinTargets(db, id) == [] <==> Settled(db, id) || !HasDivergentTwin(db, id) {
      RowOfProperty(db.settled, id);
      MatchTwinProperty(db, id);
    }
  }

  /** What a reconcile pass hands a row, by the rules. */
  lemma {:induction false} ReconcileRules(db: Db, id: ExecId)
    requires UniqueIds(db.settled) && id in db.live
    ensures TwinTargets(db, id) == if !Settled(db, id) && HasDivergentTwin(db, id) then One(MatchTwin(db.settled, id, db.live[id])) else []
    ensures SummaryTargets(db, RowsLeft(db), id)
         == if !Settled(db, id) && !HasDivergentTwin(db, id) && RedundantSummary(db, id, AfterTwins(db)) then LegsAt(db.settled, db.live[id]) else []
    ensures HasDivergentTwin(db, id) ==> MatchTwin(db.settled, id, db.live[id]).Some?
    ensures RedundantSummary(db, id, AfterTwins(db)) ==> LegsAt(db.settled, db.live[id]) != []
  {
    RowOfProperty(db.settled, id);
    MatchTwinProperty(db, id);
    RowsLeftAreAfterTwins(db);
    if id in RowsLeft(db) { SummaryTargetsProperty(db, RowsLeft(db), id); }
    if RedundantSummary(db, id, AfterTwins(db)) { SettledLegsAreFound(db, id); }
  }

  lemma {:induction false} SettledLegsAreFound(db: Db, id: ExecId)
    requires id in db.live && HasSettledLegs(db, id)
    ensures LegsAt(db.settled, db.live[id]) != []
  {
    var s :| s in db.settled && SettledLegAt(db.live[id], s);
    var k: nat :| k < |db.settled| && db.settled[k] == s;
    assert k in LegsAt(db.settled, db.live[id]);
  }

  // ---------------------------------------------------------------------
  // The carries of a transaction follow the rules
  // ---------------------------------------------------------------------

  /** What the pass over the rows a purge left hands a row, in terms of the rows before the purge. */
  lemma {:induction false} AfterPurge(w: Db, a: Action, mid: Db, id: ExecId)
    requires a.Intraday? && UniqueIds(w.settled) && mid.settled == w.settled && id in mid.live
    requires forall x :: x in mid.live <==> x in w.live && !Settled(w, x) && !HasBagTwin(w, x)
    requires forall x :: x in mid.live ==> mid.live[x] == w.live[x]
    ensures TwinTargets(mid, id) == if RuleFor(w, a, id) == DivergentId then Handed(w, a, id) else []
    ensures SummaryTargets(mid, RowsLeft(mid), id) == if RuleFor(w, a, id) == SummaryLegs then Handed(w, a, id) else []
    ensures RuleFor(w, a, id) != OwnId && RuleFor(w, a, id) != SameInstant
    ensures RuleFor(w, a, id) != NoRule ==> Handed(w, a, id) != []
  {
    PurgedRowsKeepTheirTwins(w, mid);
    ReconcileRules(mid, id);
  }

  lemma {:induction false} AfterCarry(w: Db, a: Action, order: seq<ExecId>, id: ExecId)
    requires a.Flex? && UniqueIds(w.settled) && id in w.live
    ensures var mid := CarrySettled(w, order);
      && TwinTargets(mid, id) == (if RuleFor(w, a, id) == DivergentId then Handed(w, a, id) else [])
      && SummaryTargets(mid, RowsLeft(mid), id) == (if RuleFor(w, a, id) == SummaryLegs then Handed(w, a, id) else [])
    ensures RuleFor(w, a, id) != SameInstant
    ensures RuleFor(w, a, id) != NoRule ==> Handed(w, a, id) != []
  {
    var mid := CarrySettled(w, order);
    SameRules(w, mid, id);
    ReconcileRules(mid, id);
    PurgeRules(w, id);
  }

  lemma {:induction false} SameRules(w: Db, mid: Db, id: ExecId)
    requires mid.settled == w.settled && mid.live == w.live && id in w.live
    ensures Settled(mid, id) == Settled(w, id) && HasDivergentTwin(mid, id) == HasDivergentTwin(w, id)
    ensures AfterTwins(mid) == AfterTwins(w)
    ensures RedundantSummary(mid, id, AfterTwins(mid)) == RedundantSummary(w, id, AfterTwins(w))
  {
    assert HasSettledLegs(mid, id) == HasSettledLegs(w, id);
    forall x | x in w.live ensures Settled(mid, x) == Settled(w, x) && HasDivergentTwin(mid, x) == HasDivergentTwin(w, x) {}
  }

  lemma {:induction false} FirstOfTwoOrders(o: seq<ExecId>, f: ExecId -> seq<nat>, o': seq<ExecId>, g: ExecId -> seq<nat>, id: ExecId)
    requires id in o && id in o'
    ensures FirstTargets(Collect(o, f) + Collect(o', g), id) == if f(id) != [] then f(id) else g(id)
    ensures id in Ids(Collect(o, f) + Collect(o', g)) <==> f(id) != [] || g(id) != []
  {
    CollectProperty(o, f);
    CollectProperty(o', g);
    TwoLists(Collect(o, f), Collect(o', g));
    FirstTargetsOfConcat(Collect(o, f), Collect(o', g), id);
    FirstTargetsOfCollect(o, f, id);
    FirstTargetsOfCollect(o', g, id);
  }

  lemma {:induction false} PurgeFacts(w: Db, linkOrder: seq<ExecId>, bagOrder: seq<ExecId>)
    requires Lists(linkOrder, w.live.Keys) && Lists(bagOrder, w.live.Keys)
    ensures var mid := Purge(w, linkOrder, bagOrder);
      && mid.settled == w.settled
      && (forall x :: x in mid.live <==> x in w.live && !Settled(w, x) && !HasBagTwin(w, x))
      && (forall x :: x in mid.live ==> mid.live[x] == w.live[x])
      && mid.live.Keys == w.live.Keys - Ids(PurgeCarries(w, linkOrder, bagOrder))
  {
    PurgeSurvivors(w, linkOrder, bagOrder);
  }

  lemma {:induction false} IntradayHands(w: Db, a: Action, id: ExecId)
    requires a.Intraday? && UniqueIds(w.settled) && id in w.live
    requires Lists(a.linkOrder, w.live.Keys) && Lists(a.bagOrder, w.live.Keys)
    requires Lists(a.order, Purge(w, a.linkOrder, a.bagOrder).live.Keys)
    ensures var mid := Purge(w, a.linkOrder, a.bagOrder);
      FirstTargets(PurgeCarries(w, a.linkOrder, a.bagOrder) + ReconcileCarries(mid, a.order), id) == Handed(w, a, id)
  {
    var mid, first := Purge(w, a.linkOrder, a.bagOrder), PurgeCarries(w, a.linkOrder, a.bagOrder);
    FirstTargetsOfConcat(first, ReconcileCarries(mid, a.order), id);
    PurgeHands(w, a, id);
    if id !in Ids(first) { HandsAfterPurge(w, a, id); }
  }

  /** A fill the purge hands over is handed the rows of its own id or instant. */
  lemma {:induction false} PurgeHands(w: Db, a: Action, id: ExecId)
    requires a.Intraday? && id in w.live && Lists(a.linkOrder, w.live.Keys) && Lists(a.bagOrder, w.live.Keys)
    ensures var first := PurgeCarries(w, a.linkOrder, a.bagOrder);
      && (id in Ids(first) ==> FirstTargets(first, id) == Handed(w, a, id))
      && (id in Ids(first) <==> Settled(w, id) || HasBagTwin(w, id))
  {
    PurgeRules(w, id);
    FirstOfTwoOrders(a.linkOrder, id => ExactTargets(w, id), a.bagOrder, id => BagTargets(w, id), id);
  }

  lemma {:induction false} HandsAfterPurge(w: Db, a: Action, id: ExecId)
    requires a.Intraday? && UniqueIds(w.settled) && id in w.live && !Settled(w, id) && !HasBagTwin(w, id)
    requires Lists(a.linkOrder, w.live.Keys) && Lists(a.bagOrder, w.live.Keys)
    requires Lists(a.order, Purge(w, a.linkOrder, a.bagOrder).live.Keys)
    ensures FirstTargets(ReconcileCarries(Purge(w, a.linkOrder, a.bagOrder), a.order), id) == Handed(w, a, id)
  {
    var mid := Purge(w, a.linkOrder, a.bagOrder);
    PurgeFacts(w, a.linkOrder, a.bagOrder);
    ReconcileCarriesProperty(mid, a.order);
    AfterPurge(w, a, mid, id);
  }

  lemma {:induction false} FlexHands(w: Db, a: Action, id: ExecId)
    requires a.Flex? && UniqueIds(w.settled) && id in w.live && id in a.carryOrder && Lists(a.order, w.live.Keys)
    ensures var first, mid := Collect(a.carryOrder, id => ExactTargets(w, id)), CarrySettled(w, a.carryOrder);
      FirstTargets(first + ReconcileCarries(mid, a.order), id) == Handed(w, a, id)
  {
    var first, mid := Collect(a.carryOrder, id => ExactTargets(w, id)), CarrySettled(w, a.carryOrder);
    PurgeRules(w, id);
    CollectProperty(a.carryOrder, id => ExactTargets(w, id));
    FirstTargetsOfCollect(a.carryOrder, id => ExactTargets(w, id), id);
    FirstTargetsOfConcat(first, ReconcileCarries(mid, a.order), id);
    ReconcileCarriesProperty(mid, a.order);
    AfterCarry(w, a, a.carryOrder, id);
  }

  /** Over the whole transaction a tagged fill is handed exactly the rows of the first rule that matches it. */
  lemma {:induction false} HandedExactly(db: Db, a: Action, id: ExecId)
    requires Invariant(db) && Enabled(db, a) && id in Written(db, a).ledger.tags
    ensures FirstTargets(Carries(db, a), id) == Handed(Written(db, a), a, id)
  {
    var w := Written(db, a);
    TaggedIsLive(db, a);
    match a
    case Intraday(_, _, _, _) => IntradayHands(w, a, id);
    case Flex(_, _, _) => FlexHands(w, a, id);
    case TagLive(_) =>
  }

  lemma {:induction false} TaggedIsLive(db: Db, a: Action)
    requires Invariant(db) && Enabled(db, a)
    ensures Written(db, a).ledger.tags.Keys <= Written(db, a).live.Keys && UniqueIds(Written(db, a).settled)
    ensures Written(db, a).ledger.members == db.ledger.members
  {
    if a.Intraday? { WriteFillsKeepsRows(db.live, a.fills); }
  }

  // ---------------------------------------------------------------------
  // Which settled rows end in a group
  // ---------------------------------------------------------------------

  /** Row `k` is handed to the tagged fill `id`. */
  ghost predicate Claims(w: Db, a: Action, id: ExecId, k: nat) {
    id in w.ledger.tags && k in Handed(w, a, id)
  }

  /**
    Exactly which settled rows are in a group after a transaction: those that
    were, and those handed to a tagged fill.
   */
  lemma {:induction false} GroupedExactly(db: Db, a: Action)
    requires Invariant(db) && Enabled(db, a)
    ensures var w := Written(db, a);
      forall k :: k in Execs(Next(db, a).ledger.members) <==> k in Execs(db.ledger.members) || exists id :: Claims(w, a, id, k)
  {
    var w, cs := Written(db, a), Carries(db, a);
    CarriesAreJustified(db, a);
    NextLedger(db, a);
    TaggedIsLive(db, a);
    CarriedExecs(w.ledger, cs);
    forall id, k: nat ensures id in w.ledger.tags && k in FirstTargets(cs, id) <==> Claims(w, a, id, k) {
      if id in w.ledger.tags { HandedExactly(db, a, id); }
    }
    forall k ensures k in CarriedTo(w.ledger, cs) <==> exists id :: Claims(w, a, id, k) {
      if id :| Claims(w, a, id, k) {
        assert id in w.ledger.tags && k in FirstTargets(cs, id);
      }
    }
  }

  /** Some rule of the transaction pairs the fill with row `k`, whether or not another rule matches first. */
  ghost predicate Pairs(w: Db, a: Action, id: ExecId, k: nat) {
    && !a.TagLive? && id in w.live && k < |w.settled|
    && var live, s := w.live[id], w.settled[k];
      || s.execId == id
      || (a.Intraday? && BagTwin(live, s))
      || StripTwin(id, live, s) || BookTwin(live, s)
      || (RedundantSummary(w, id, LegsLeft(w, a)) && SettledLegAt(live, s))
  }

  ghost predicate EveryTwinGrouped(db: Db, a: Action) {
    var w := Written(db, a);
    forall id, k :: id in w.ledger.tags && Pairs(w, a, id, k) ==> k in Execs(Next(db, a).ledger.members)
  }

  /**
    Every row that some rule pairs with a tagged fill ends in a group exactly
    when each such row that its own fill is not handed was in a group already
    or is handed to another tagged fill.
   */
  lemma {:induction false} EveryTwinGroupedExactly(db: Db, a: Action)
    requires Invariant(db) && Enabled(db, a)
    ensures var w := Written(db, a);
      EveryTwinGrouped(db, a) <==>
        forall id, k :: id in w.ledger.tags && Pairs(w, a, id, k) && k !in Handed(w, a, id) ==>
          k in Execs(db.ledger.members) || exists other :: other != id && Claims(w, a, other, k)
  {
    var w := Written(db, a);
    GroupedExactly(db, a);
    forall id, k | id in w.ledger.tags && Pairs(w, a, id, k) && k !in Handed(w, a, id)
      ensures k in Execs(Next(db, a).ledger.members) <==>
        k in Execs(db.ledger.members) || exists other :: other != id && Claims(w, a, other, k)
    {
      assert !Claims(w, a, id, k);
    }
    forall id, k | id in w.ledger.tags && k in Handed(w, a, id) ensures k in Execs(Next(db, a).ledger.members) {
      assert Claims(w, a, id, k);
    }
  }

  // ---------------------------------------------------------------------
  // Whose group a free row gets
  // ---------------------------------------------------------------------

  ghost function Matches(w: Db, a: Action, rule: Rule): ExecId -> bool {
    (id: ExecId) => RuleFor(w, a, id) == rule
  }

  /** The live fills a transaction hands over, in the order it visits them: rule by rule, each in the order of its query. */
  ghost function Turns(w: Db, a: Action): seq<ExecId> {
    match a
    case Intraday(_, linkOrder, bagOrder, order) =>
      Filter(linkOrder, Matches(w, a, OwnId)) + Filter(bagOrder, Matches(w, a, SameInstant))
      + (Filter(order, Matches(w, a, DivergentId)) + Filter(order, Matches(w, a, SummaryLegs)))
    case Flex(_, carryOrder, order) =>
      Filter(carryOrder, Matches(w, a, OwnId)) + (Filter(order, Matches(w, a, DivergentId)) + Filter(order, Matches(w, a, SummaryLegs)))
    case TagLive(_) => []
  }

  /** The first listed fill that claims something. */
  ghost function FirstOf(ids: seq<ExecId>, claims: ExecId -> bool): Option<ExecId> {
    if ids == [] then None
    else
      var front, last := FirstOf(ids[..|ids| - 1], claims), ids[|ids| - 1];
      if front.Some? then front else if claims(last) then Some(last) else None
  }

  ghost function ClaimsTo(w: Db, a: Action, k: nat): ExecId -> bool {
    (id: ExecId) => Claims(w, a, id, k)
  }

  /** The first tagged fill in visiting order that is handed row `k`. */
  ghost function Claimant(w: Db, a: Action, k: nat): (id: Option<ExecId>)
    ensures id.Some? ==> Claims(w, a, id.value, k)
  {
    FirstOfHolds(Turns(w, a), ClaimsTo(w, a, k));
    FirstOf(Turns(w, a), ClaimsTo(w, a, k))
  }

  lemma {:induction false} FirstOfHolds(ids: seq<ExecId>, claims: ExecId -> bool)
    ensures FirstOf(ids, claims).Some? ==> FirstOf(ids, claims).value in ids && claims(FirstOf(ids, claims).value)
    ensures FirstOf(ids, claims).None? ==> forall id :: id in ids ==> !claims(id)
  {
    if ids != [] {
      var front, last := ids[..|ids| - 1], ids[|ids| - 1];
      assert ids == front + [last];
      FirstOfHolds(front, claims);
    }
  }

  lemma {:induction false} FirstOfAgrees(ids: seq<ExecId>, p: ExecId -> bool, q: ExecId -> bool)
    requires forall id :: id in ids ==> p(id) == q(id)
    ensures FirstOf(ids, p) == FirstOf(ids, q)
  {
    if ids != [] {
      assert ids[|ids| - 1] in ids;
      FirstOfAgrees(ids[..|ids| - 1], p, q);
    }
  }

  /** The ids of a list of carries, each where it first occurs. */
  function Firsts(cs: seq<Carry>): seq<ExecId> {
    if cs == [] then []
    else
      var front, last := cs[..|cs| - 1], cs[|cs| - 1];
      Firsts(front) + if last.id in Ids(front) then [] else [last.id]
  }

  lemma {:induction false} FirstsAreIds(cs: seq<Carry>)
    ensures forall id :: id in Firsts(cs) <==> id in Ids(cs)
  {
    if cs != [] {
      var front, last := cs[..|cs| - 1], cs[|cs| - 1];
      assert cs == front + [last];
      FirstsAreIds(front);
    }
  }

  function Outside(cs: seq<Carry>): ExecId -> bool {
    (id: ExecId) => id !in Ids(cs)
  }

  function Decided(decide: ExecId -> seq<nat>): ExecId -> bool {
    (id: ExecId) => decide(id) != []
  }

  lemma {:induction false} FirstsStep(cs: seq<Carry>, c: Carry)
    ensures Firsts(cs + [c]) == Firsts(cs) + if c.id in Ids(cs) then [] else [c.id]
  {
    assert (cs + [c])[..|cs|] == cs;
  }

  lemma {:induction false} FirstsOfConcat(a: seq<Carry>, b: seq<Carry>)
    ensures Firsts(a + b) == Firsts(a) + Filter(Firsts(b), Outside(a))
  {
    if b == [] {
      assert a + b == a;
    } else {
      var front, last := b[..|b| - 1], b[|b| - 1];
      assert b == front + [last];
      FirstsOfConcat(a, front);
      Regroup(a, front, [last]);
      FirstsOfOneMore(a, front, last);
    }
  }

  lemma {:induction false} FirstsOfOneMore(a: seq<Carry>, front: seq<Carry>, last: Carry)
    requires Firsts(a + front) == Firsts(a) + Filter(Firsts(front), Outside(a))
    ensures Firsts(a + front + [last]) == Firsts(a) + Filter(Firsts(front + [last]), Outside(a))
  {
    FirstsStep(a + front, last);
    FirstsStep(front, last);
    TwoLists(a, front);
    if last.id in Ids(front) {
      assert Firsts(front) + [] == Firsts(front);
    } else {
      FilterAppend(Firsts(front), last.id, Outside(a));
      Regroup(Firsts(a), Filter(Firsts(front), Outside(a)), if last.id in Ids(a) then [] else [last.id]);
    }
  }

  lemma {:induction false} FirstsOfCollect(order: seq<ExecId>, decide: ExecId -> seq<nat>)
    requires Distinct(order)
    ensures Firsts(Collect(order, decide)) == Filter(order, Decided(decide))
  {
    if order != [] {
      var front, last := order[..|order| - 1], order[|order| - 1];
      assert order == front + [last];
      FirstsOfCollect(front, decide);
      NotDecidedYet(front, decide, last);
      FilterAppend(front, last, Decided(decide));
      if decide(last) != [] {
        FirstsStep(Collect(front, decide), Carry(last, decide(last)));
      } else {
        assert Collect(order, decide) == Collect(front, decide);
        assert Filter(order, Decided(decide)) == Filter(front, Decided(decide));
      }
    }
  }

  lemma {:induction false} NotDecidedYet(order: seq<ExecId>, decide: ExecId -> seq<nat>, id: ExecId)
    requires id !in order
    ensures id !in Ids(Collect(order, decide))
  {
    CollectProperty(order, decide);
  }

  /** Two passes over carries decided per fill: the second hands over only what the first did not. */
  lemma {:induction false} FirstsOfTwo(a: seq<Carry>, order: seq<ExecId>, decide: ExecId -> seq<nat>, p: ExecId -> bool)
    requires Distinct(order) && forall id :: id in order ==> (p(id) <==> decide(id) != [] && id !in Ids(a))
    ensures Firsts(a + Collect(order, decide)) == Firsts(a) + Filter(order, p)
  {
    FirstsOfConcat(a, Collect(order, decide));
    FirstsOfCollect(order, decide);
    FilterTwice(order, Decided(decide), Outside(a), p);
  }

  /** Two passes in one order or two, each fill handed over by the first that decides for it. */
  lemma {:induction false} FirstsOfPasses(o: seq<ExecId>, f: ExecId -> seq<nat>, o': seq<ExecId>, g: ExecId -> seq<nat>, p: ExecId -> bool, q: ExecId -> bool)
    requires Distinct(o) && Distinct(o') && forall id :: id in o <==> id in o'
    requires forall id :: id in o ==> (p(id) <==> f(id) != []) && (q(id) <==> f(id) == [] && g(id) != [])
    ensures Firsts(Collect(o, f) + Collect(o', g)) == Filter(o, p) + Filter(o', q)
  {
    CollectProperty(o, f);
    FirstsOfCollect(o, f);
    FilterAgrees(o, Decided(f), p);
    FirstsOfTwo(Collect(o, f), o', g, q);
  }

  lemma {:induction false} PurgeTurns(w: Db, a: Action)
    requires a.Intraday? && Lists(a.linkOrder, w.live.Keys) && Lists(a.bagOrder, w.live.Keys)
    ensures Firsts(PurgeCarries(w, a.linkOrder, a.bagOrder)) == Filter(a.linkOrder, Matches(w, a, OwnId)) + Filter(a.bagOrder, Matches(w, a, SameInstant))
  {
    forall id | id in w.live ensures (ExactTargets(w, id) != [] <==> Settled(w, id)) && (BagTargets(w, id) != [] <==> HasBagTwin(w, id)) {
      PurgeRules(w, id);
    }
    FirstsOfPasses(a.linkOrder, id => ExactTargets(w, id), a.bagOrder, id => BagTargets(w, id), Matches(w, a, OwnId), Matches(w, a, SameInstant));
  }

  /** Whether the pass hands a row over is what the rules say. */
  ghost predicate Follows(w: Db, a: Action, mid: Db) {
    forall id :: id in mid.live ==>
      && (TwinTargets(mid, id) != [] <==> RuleFor(w, a, id) == DivergentId)
      && (SummaryTargets(mid, RowsLeft(mid), id) != [] <==> RuleFor(w, a, id) == SummaryLegs)
  }

  lemma {:induction false} ReconcileTurns(w: Db, a: Action, mid: Db, order: seq<ExecId>)
    requires Lists(order, mid.live.Keys) && Follows(w, a, mid)
    ensures Firsts(ReconcileCarries(mid, order)) == Filter(order, Matches(w, a, DivergentId)) + Filter(order, Matches(w, a, SummaryLegs))
  {
    RowsLeftByTwins(mid, order);
    FirstsOfPasses(order, id => TwinTargets(mid, id), order, id => SummaryTargets(mid, RowsLeft(mid), id),
                   Matches(w, a, DivergentId), Matches(w, a, SummaryLegs));
  }

  lemma {:induction false} TurnsAfter(first: seq<Carry>, second: seq<Carry>)
    requires forall id :: id in Ids(second) ==> id !in Ids(first)
    ensures Firsts(first + second) == Firsts(first) + Firsts(second)
  {
    FirstsOfConcat(first, second);
    FirstsAreIds(second);
    FilterAll(Firsts(second), Outside(first));
  }

  lemma {:induction false} AfterPurgeFollows(w: Db, a: Action, mid: Db)
    requires a.Intraday? && UniqueIds(w.settled) && mid.settled == w.settled
    requires forall x :: x in mid.live <==> x in w.live && !Settled(w, x) && !HasBagTwin(w, x)
    requires forall x :: x in mid.live ==> mid.live[x] == w.live[x]
    ensures Follows(w, a, mid)
  {
    forall id | id in mid.live
      ensures (TwinTargets(mid, id) != [] <==> RuleFor(w, a, id) == DivergentId)
           && (SummaryTargets(mid, RowsLeft(mid), id) != [] <==> RuleFor(w, a, id) == SummaryLegs)
    {
      AfterPurge(w, a, mid, id);
    }
  }

  lemma {:induction false} AfterCarryFollows(w: Db, a: Action)
    requires a.Flex? && UniqueIds(w.settled)
    ensures Follows(w, a, CarrySettled(w, a.carryOrder))
  {
    var mid := CarrySettled(w, a.carryOrder);
    forall id | id in mid.live
      ensures (TwinTargets(mid, id) != [] <==> RuleFor(w, a, id) == DivergentId)
           && (SummaryTargets(mid, RowsLeft(mid), id) != [] <==> RuleFor(w, a, id) == SummaryLegs)
    {
      AfterCarry(w, a, a.carryOrder, id);
    }
  }

  lemma {:induction false} CarryTurns(w: Db, a: Action)
    requires a.Flex? && w.ledger.tags.Keys <= w.live.Keys && Lists(a.carryOrder, w.ledger.tags.Keys)
    ensures var first := Collect(a.carryOrder, id => ExactTargets(w, id));
      && Firsts(first) == Filter(a.carryOrder, Matches(w, a, OwnId))
      && forall id :: id in Ids(first) ==> id in w.live && Settled(w, id)
  {
    forall id | id in a.carryOrder ensures Settled(w, id) <==> ExactTargets(w, id) != [] {
      PurgeRules(w, id);
    }
    TurnsOfOne(a.carryOrder, id => ExactTargets(w, id), Matches(w, a, OwnId));
    CollectProperty(a.carryOrder, id => ExactTargets(w, id));
  }

  lemma {:induction false} TurnsOfOne(order: seq<ExecId>, decide: ExecId -> seq<nat>, p: ExecId -> bool)
    requires Distinct(order) && forall id :: id in order ==> (p(id) <==> decide(id) != [])
    ensures Firsts(Collect(order, decide)) == Filter(order, p)
  {
    FirstsOfCollect(order, decide);
    FilterAgrees(order, Decided(decide), p);
  }

  lemma {:induction false} IntradayTurns(w: Db, a: Action)
    requires a.Intraday? && UniqueIds(w.settled)
    requires Lists(a.linkOrder, w.live.Keys) && Lists(a.bagOrder, w.live.Keys)
    requires Lists(a.order, Purge(w, a.linkOrder, a.bagOrder).live.Keys)
    ensures var mid := Purge(w, a.linkOrder, a.bagOrder);
      Firsts(PurgeCarries(w, a.linkOrder, a.bagOrder) + ReconcileCarries(mid, a.order)) == Turns(w, a)
  {
    var mid := Purge(w, a.linkOrder, a.bagOrder);
    PurgeFacts(w, a.linkOrder, a.bagOrder);
    AfterPurgeFollows(w, a, mid);
    PurgeTurns(w, a);
    ReconcileTurns(w, a, mid, a.order);
    ReconcileCarriesProperty(mid, a.order);
    CarriesAreLive(mid, a.order);
    TurnsAfter(PurgeCarries(w, a.linkOrder, a.bagOrder), ReconcileCarries(mid, a.order));
  }

  /** A reconcile pass hands over no row settled under its own id. */
  lemma {:induction false} OrphansOnly(mid: Db)
    ensures forall id :: id in mid.live && Settled(mid, id) ==> ReconcileTargets(mid, id) == []
  {
    forall id | id in mid.live && Settled(mid, id) ensures ReconcileTargets(mid, id) == [] {
      RowOfProperty(mid.settled, id);
    }
  }

  lemma {:induction false} CarriesAreLive(mid: Db, order: seq<ExecId>)
    requires Lists(order, mid.live.Keys)
    ensures forall id :: id in Ids(ReconcileCarries(mid, order)) ==> id in mid.live && ReconcileTargets(mid, id) != []
  {
    ReconcileCarriesProperty(mid, order);
  }

  lemma {:induction false} FlexTurns(w: Db, a: Action)
    requires a.Flex? && UniqueIds(w.settled) && w.ledger.tags.Keys <= w.live.Keys
    requires Lists(a.carryOrder, w.ledger.tags.Keys) && Lists(a.order, w.live.Keys)
    ensures Firsts(Collect(a.carryOrder, id => ExactTargets(w, id)) + ReconcileCarries(CarrySettled(w, a.carryOrder), a.order)) == Turns(w, a)
  {
    var first, mid := Collect(a.carryOrder, id => ExactTargets(w, id)), CarrySettled(w, a.carryOrder);
    CarryTurns(w, a);
    AfterCarryFollows(w, a);
    ReconcileTurns(w, a, mid, a.order);
    OrphansOnly(mid);
    CarriesAreLive(mid, a.order);
    TurnsAfter(first, ReconcileCarries(mid, a.order));
  }

  lemma {:induction false} FirstsAreTurns(db: Db, a: Action)
    requires Invariant(db) && Enabled(db, a)
    ensures Firsts(Carries(db, a)) == Turns(Written(db, a), a)
  {
    var w := Written(db, a);
    TaggedIsLive(db, a);
    match a
    case Intraday(_, _, _, _) => IntradayTurns(w, a);
    case Flex(_, _, _) => FlexTurns(w, a);
    case TagLive(_) =>
  }

  lemma {:induction false} InsertedAt(members: set<Member>, targets: seq<nat>, link: Assignment, k: nat)
    ensures forall x :: Member(k, x) in InsertAll(members, targets, link) <==>
      Member(k, x) in members || (!Assigned(members, k) && k in targets && x == link)
  {
    if targets != [] {
      var front, last := targets[..|targets| - 1], targets[|targets| - 1];
      assert targets == front + [last];
      InsertedAt(members, front, link, k);
      var mid := InsertAll(members, front, link);
      assert Assigned(mid, k) <==> Assigned(members, k) || k in front by {
        if Assigned(members, k) {
          var m :| m in members && m.exec == k;
          assert Member(k, m.link) in mid;
        } else if k in front {
          assert Member(k, link) in mid;
        }
        if m :| m in mid && m.exec == k { assert Member(k, m.link) in mid; }
      }
    }
  }

  ghost function ClaimsOn(l: Ledger, cs: seq<Carry>, k: nat): ExecId -> bool {
    (id: ExecId) => ClaimsIn(l, cs, id, k)
  }

  ghost predicate ClaimsIn(l: Ledger, cs: seq<Carry>, id: ExecId, k: nat) {
    id in l.tags && k in FirstTargets(cs, id)
  }

  /** A free row gets the assignment of the first tagged fill of the list that carries to it, and no other. */
  lemma {:induction false} FirstClaimWins(l: Ledger, cs: seq<Carry>, k: nat)
    requires !Assigned(l.members, k) && forall c :: c in cs ==> c.targets != []
    ensures var first := FirstOf(Firsts(cs), ClaimsOn(l, cs, k));
      forall x :: Member(k, x) in CarryAll(l, cs).members <==> first.Some? && first.value in l.tags && x == l.tags[first.value]
    ensures CarryAll(l, cs).tags == l.tags - Ids(cs)
  {
    if cs == [] {
      assert forall x :: Member(k, x) !in l.members;
    } else {
      var front, last := cs[..|cs| - 1], cs[|cs| - 1];
      assert cs == front + [last];
      FirstClaimWins(l, front, k);
      CarriedExecs(l, cs);
      LastClaim(l, front, last, k);
      var mid := CarryAll(l, front);
      FirstOfHolds(Firsts(front), ClaimsOn(l, front, k));
      if last.id in mid.tags { InsertedAt(mid.members, last.targets, mid.tags[last.id], k); }
      var before := FirstOf(Firsts(front), ClaimsOn(l, front, k));
      assert Assigned(mid.members, k) <==> before.Some? by {
        if before.Some? { assert Member(k, l.tags[before.value]) in mid.members; }
        if m :| m in mid.members && m.exec == k { assert Member(k, m.link) in mid.members; }
      }
    }
  }

  lemma {:induction false} LastClaim(l: Ledger, front: seq<Carry>, last: Carry, k: nat)
    ensures var before := FirstOf(Firsts(front), ClaimsOn(l, front, k));
      FirstOf(Firsts(front + [last]), ClaimsOn(l, front + [last], k))
        == if before.Some? then before
           else if last.id in l.tags && last.id !in Ids(front) && k in last.targets then Some(last.id) else None
  {
    var cs, ids := front + [last], Firsts(front);
    FirstsStep(front, last);
    FirstsAreIds(front);
    FirstTargetsOfConcat(front, [last], last.id);
    forall id | id in ids ensures ClaimsIn(l, cs, id, k) == ClaimsIn(l, front, id, k) {
      FirstTargetsOfConcat(front, [last], id);
    }
    FirstOfAgrees(ids, ClaimsOn(l, cs, k), ClaimsOn(l, front, k));
    if last.id in Ids(front) {
      assert ids + [] == ids;
    } else {
      FirstOfOneMore(ids, last.id, ClaimsOn(l, cs, k));
      OneCarry(last);
    }
  }

  lemma OneCarry(c: Carry)
    ensures FirstTargets([c], c.id) == c.targets
  {
    assert [c][..0] == [];
  }

  lemma {:induction false} FirstOfOneMore(ids: seq<ExecId>, id: ExecId, claims: ExecId -> bool)
    ensures FirstOf(ids + [id], claims) == if FirstOf(ids, claims).Some? then FirstOf(ids, claims) else if claims(id) then Some(id) else None
  {
    assert (ids + [id])[..|ids|] == ids;
  }

  /**
    A settled row that was in no group ends with the assignment of the first
    tagged fill that is handed it in visiting order; with none, it stays in no group.
   */
  lemma {:induction false} FreeRowGoesToItsClaimant(db: Db, a: Action, k: nat)
    requires Invariant(db) && Enabled(db, a) && !Assigned(db.ledger.members, k)
    ensures var w, first := Written(db, a), Claimant(Written(db, a), a, k);
      forall x :: Member(k, x) in Next(db, a).ledger.members <==> first.Some? && x == w.ledger.tags[first.value]
  {
    var w, cs := Written(db, a), Carries(db, a);
    CarriesAreJustified(db, a);
    NextLedger(db, a);
    TaggedIsLive(db, a);
    FirstsAreTurns(db, a);
    FirstClaimWins(w.ledger, cs, k);
    forall id ensures ClaimsIn(w.ledger, cs, id, k) == Claims(w, a, id, k) {
      if id in w.ledger.tags { HandedExactly(db, a, id); }
    }
    FirstOfAgrees(Turns(w, a), ClaimsOn(w.ledger, cs, k), ClaimsTo(w, a, k));
  }

  /** The settled row is in this group, whatever the source and the time of its link. */
  ghost predicate IsInGroup(members: set<Member>, k: nat, group: int) {
    exists x :: Member(k, x) in members && x.group == group
  }

  /** A row that was in a group keeps its assignment. */
  lemma {:induction false} AssignedRowStays(db: Db, a: Action, m: Member)
    requires Invariant(db) && Enabled(db, a) && Assigned(db.ledger.members, m.exec)
    ensures m in Next(db, a).ledger.members <==> m in db.ledger.members
  {
    StepKeepsInvariant(db, a);
    var m' :| m' in db.ledger.members && m'.exec == m.exec;
    assert m' in Next(db, a).ledger.members;
  }

  /** A fill's own group ends on a free row it is handed exactly when the first fill to claim the row is tagged to the same group. */
  lemma {:induction false} OwnGroupExactly(db: Db, a: Action, id: ExecId, k: nat)
    requires Invariant(db) && Enabled(db, a) && !Assigned(db.ledger.members, k) && Claims(Written(db, a), a, id, k)
    ensures var w, first := Written(db, a), Claimant(Written(db, a), a, k);
      && first.Some?
      && (IsInGroup(Next(db, a).ledger.members, k, w.ledger.tags[id].group) <==> w.ledger.tags[first.value].group == w.ledger.tags[id].group)
  {
    FreeRowGoesToItsClaimant(db, a, k);
    GroupedExactly(db, a);
    assert k in Execs(Next(db, a).ledger.members);
    var m :| m in Next(db, a).ledger.members && m.exec == k;
    assert Member(k, m.link) in Next(db, a).ledger.members;
  }

  // ---------------------------------------------------------------------
  // Whole runs
  // ---------------------------------------------------------------------

  /** The assignment row `k` has after a transaction: the one it had, else that of the first tagged fill to claim it. */
  ghost predicate IsGroupOf(d: Db, a: Action, k: nat, x: Assignment) {
    var w, first := Written(d, a), Claimant(Written(d, a), a, k);
    if Assigned(d.ledger.members, k) then Member(k, x) in d.ledger.members
    else first.Some? && x == w.ledger.tags[first.value]
  }

  ghost predicate Housed(d: Db, a: Action, k: nat, members: set<Member>) {
    exists x :: Member(k, x) in members && IsGroupOf(d, a, k, x)
  }

  ghost predicate AllHoused(d: Db, a: Action, targets: seq<nat>, members: set<Member>) {
    forall k :: k in targets ==> Housed(d, a, k, members)
  }

  /**
    Transaction `a` on `d` took the fill's tag and, in the members given, every
    settled row the fill was handed is in its group: the one it had, or that of
    the first tagged fill to claim it.
   */
  ghost predicate HandedOver(d: Db, a: Action, id: ExecId, members: set<Member>) {
    var targets := Handed(Written(d, a), a, id);
    targets != [] && AllHoused(d, a, targets, members)
  }

  lemma FirstTargetsAreACarry(cs: seq<Carry>, id: ExecId)
    requires id in Ids(cs)
    ensures exists c :: c in cs && c.id == id && c.targets == FirstTargets(cs, id)
  {
    var front := cs[..|cs| - 1];
    if id in Ids(front) {
      FirstTargetsAreACarry(front, id);
      var c :| c in front && c.id == id && c.targets == FirstTargets(front, id);
      assert c in cs;
    } else {
      assert cs[|cs| - 1] in cs && cs == front + [cs[|cs| - 1]];
    }
  }

  lemma {:induction false} UnhandedKeepsItsTag(db: Db, a: Action, id: ExecId)
    requires Invariant(db) && Enabled(db, a) && id in db.ledger.tags && Handed(Written(db, a), a, id) == []
    ensures id in Next(db, a).ledger.tags
  {
    var w, cs := Written(db, a), Carries(db, a);
    CarriesAreJustified(db, a);
    NextLedger(db, a);
    HandedExactly(db, a, id);
    if id in Ids(cs) { FirstTargetsAreACarry(cs, id); }
    CarriedExecs(w.ledger, cs);
  }

  lemma {:induction false} HandedRowIsHoused(db: Db, a: Action, id: ExecId, k: nat)
    requires Invariant(db) && Enabled(db, a) && Claims(Written(db, a), a, id, k)
    ensures Housed(db, a, k, Next(db, a).ledger.members)
  {
    var members := Next(db, a).ledger.members;
    if Assigned(db.ledger.members, k) {
      StepKeepsInvariant(db, a);
      var m :| m in db.ledger.members && m.exec == k;
      assert Member(k, m.link) in members && IsGroupOf(db, a, k, m.link);
    } else {
      OwnGroupExactly(db, a, id, k);
      FreeRowGoesToItsClaimant(db, a, k);
      var x := Written(db, a).ledger.tags[Claimant(Written(db, a), a, k).value];
      assert Member(k, x) in members && IsGroupOf(db, a, k, x);
    }
  }

  lemma {:induction false} StepHandsTagsOver(db: Db, a: Action, id: ExecId)
    requires Invariant(db) && Enabled(db, a) && id in db.ledger.tags
    ensures id in Next(db, a).ledger.tags || HandedOver(db, a, id, Next(db, a).ledger.members)
  {
    var w := Written(db, a);
    if Handed(w, a, id) == [] {
      UnhandedKeepsItsTag(db, a, id);
    } else {
      forall k | k in Handed(w, a, id) ensures Housed(db, a, k, Next(db, a).ledger.members) {
        assert Claims(w, a, id, k);
        HandedRowIsHoused(db, a, id, k);
      }
    }
  }

  /** Members only grow along a run, so a handover once made stays made. */
  lemma {:induction false} HandedOverStays(d: Db, a: Action, id: ExecId, members: set<Member>, members': set<Member>)
    requires HandedOver(d, a, id, members) && members <= members'
    ensures HandedOver(d, a, id, members')
  {
    forall k | k in Handed(Written(d, a), a, id) ensures Housed(d, a, k, members') {
      assert Housed(d, a, k, members);
      var x :| Member(k, x) in members && IsGroupOf(d, a, k, x);
      assert Member(k, x) in members';
    }
  }

  /**
    No tag is ever lost: whatever sequence of intraday syncs, Flex syncs and
    taggings follows, a fill that was tagged is still tagged, or some
    transaction of the run took its tag and at the end every settled row it was
    handed is in its group: the one the row had, or that of the first tagged
    fill to claim it.
   */
  lemma {:induction false} RunNeverLosesATag(db: Db, actions: seq<Action>, id: ExecId)
    requires Invariant(db) && RunEnabled(db, actions) && id in db.ledger.tags
    ensures var end := Run(db, actions);
      id in end.ledger.tags || WasHandedOver(db, actions, id, end.ledger.members)
  {
    if actions != [] {
      var front, last := actions[..|actions| - 1], |actions| - 1;
      LastStep(db, actions);
      RunKeepsInvariant(db, front);
      RunNeverLosesATag(db, front, id);
      LastActionLosesNoTag(db, actions, id, Run(db, front), Run(db, actions));
    }
  }

  /** Some transaction of the run took the tag of `id` and put what it was handed in groups, as `members` still shows. */
  ghost predicate WasHandedOver(db: Db, actions: seq<Action>, id: ExecId, members: set<Member>) {
    exists n :: 0 <= n < |actions| && HandedOver(Run(db, actions[..n]), actions[n], id, members)
  }

  lemma {:induction false} EarlierHandover(db: Db, actions: seq<Action>, id: ExecId, members: set<Member>, members': set<Member>)
    requires actions != [] && WasHandedOver(db, actions[..|actions| - 1], id, members) && members <= members'
    ensures WasHandedOver(db, actions, id, members')
  {
    var front := actions[..|actions| - 1];
    var n :| 0 <= n < |front| && HandedOver(Run(db, front[..n]), front[n], id, members);
    var d, a := Run(db, front[..n]), front[n];
    HandedOverStays(d, a, id, members, members');
    HandoverAt(db, actions, n, d, a, id, members');
  }

  lemma {:induction false} HandoverAt(db: Db, actions: seq<Action>, n: nat, d: Db, a: Action, id: ExecId, members: set<Member>)
    requires n < |actions| - 1 && d == Run(db, actions[..|actions| - 1][..n]) && a == actions[n]
    requires HandedOver(d, a, id, members)
    ensures WasHandedOver(db, actions, id, members)
  {
    assert actions[..|actions| - 1][..n] == actions[..n];
  }

  lemma StepKeepsOrHands(mid: Db, a: Action, id: ExecId)
    requires Invariant(mid) && Enabled(mid, a)
    ensures var end := Next(mid, a);
      && mid.ledger.members <= end.ledger.members
      && (id in mid.ledger.tags ==> id in end.ledger.tags || HandedOver(mid, a, id, end.ledger.members))
  {
    StepKeepsInvariant(mid, a);
    if id in mid.ledger.tags { StepHandsTagsOver(mid, a, id); }
  }

  lemma {:induction false} LastActionLosesNoTag(db: Db, actions: seq<Action>, id: ExecId, mid: Db, end: Db)
    requires actions != []
    requires mid == Run(db, actions[..|actions| - 1]) && Invariant(mid) && Enabled(mid, actions[|actions| - 1])
    requires end == Next(mid, actions[|actions| - 1])
    requires id in mid.ledger.tags || WasHandedOver(db, actions[..|actions| - 1], id, mid.ledger.members)
    ensures id in end.ledger.tags || WasHandedOver(db, actions, id, end.ledger.members)
  {
    var last := |actions| - 1;
    StepKeepsOrHands(mid, actions[last], id);
    if id in mid.ledger.tags {
      assert HandedOver(mid, actions[last], id, end.ledger.members) ==> WasHandedOver(db, actions, id, end.ledger.members);
    } else {
      EarlierHandover(db, actions, id, mid.ledger.members, end.ledger.members);
    }
  }

  // ---------------------------------------------------------------------
  // Where the claim cannot be stronger
  // ---------------------------------------------------------------------

  /** Row `k` is the settled BAG twin of the tagged live fill `id`, yet is in no group after the transaction. */
  ghost predicate TwinLeftOut(db: Db, a: Action, id: ExecId, k: nat) {
    && id in db.ledger.tags && Pairs(Written(db, a), a, id, k) && k !in Execs(Next(db, a).ledger.members)
  }

  /**
    A fill matched by two rules hands its tag to the first only: a live BAG row
    settled under its own id, next to another settled BAG row of the same
    instant, leaves that second row without a group.
   */
  lemma {:induction false} SecondTwinStaysUngrouped()
    ensures exists db: Db, a :: Invariant(db) && Enabled(db, a) && TwinLeftOut(db, a, "X", 1)
  {
    var live := LiveFill(1, None, None, Standalone, Bag, None, Buy, 1.0, 1.0, 0);
    var own := SettledFill("X", 1, Standalone, NotBag, None, Buy, 1.0, 1.0, 0, false);
    var other := SettledFill("Y", 1, Standalone, Bag, None, Buy, 1.0, 1.0, 0, false);
    var db := Db(map["X" := live], [own, other], Ledger(map["X" := Assignment(7, "manual", 0)], {}));
    RowOfProperty(db.settled, "X");
    assert own in db.settled;
    OnlyFirstTwin(db, "X", 0, 1);
  }

  /** The one live row, tagged and settled under its own id in row `own`, leaves its settled BAG twin without a group. */
  lemma {:induction false} OnlyFirstTwin(db: Db, id: ExecId, own: nat, k: nat)
    requires Invariant(db) && db.live.Keys == {id} && db.ledger.tags.Keys == {id} && db.ledger.members == {}
    requires own < |db.settled| && RowOf(db.settled, id) == Some(own) && Settled(db, id)
    requires k < |db.settled| && k != own && BagTwin(db.live[id], db.settled[k])
    ensures exists a :: Enabled(db, a) && TwinLeftOut(db, a, id, k)
  {
    var a := Intraday([], [id], [id], []);
    PurgeSurvivors(db, [id], [id]);
    assert Purge(db, [id], [id]).live == map[];
    assert Enabled(db, a);
    GroupedExactly(db, a);
    assert Handed(db, a, id) == [own];
    assert forall x :: Claims(db, a, x, k) ==> x == id;
    assert TwinLeftOut(db, a, id, k);
  }

  /** The tagged fill `id` lost its tag, and the one row it was handed ends in another fill's group. */
  ghost predicate GroupDropped(db: Db, a: Action, id: ExecId, k: nat) {
    && id in db.ledger.tags && !Assigned(db.ledger.members, k) && Handed(Written(db, a), a, id) == [k]
    && id !in Next(db, a).ledger.tags
    && k in Execs(Next(db, a).ledger.members) && !IsInGroup(Next(db, a).ledger.members, k, db.ledger.tags[id].group)
  }

  /**
    Two live partial fills of one combo, tagged to different groups, settle as
    one BAG row: the row gets the group of the fill visited first, and the
    other fill's group gets nothing.
   */
  lemma {:induction false} LaterTagIsDropped()
    ensures exists db: Db, a :: Invariant(db) && Enabled(db, a) && GroupDropped(db, a, "Q", 0)
  {
    var live := LiveFill(1, None, None, Standalone, Bag, None, Buy, 1.0, 1.0, 0);
    var netted := SettledFill("S", 1, Standalone, Bag, None, Buy, 2.0, 1.0, 0, false);
    var tags := map["P" := Assignment(7, "manual", 0), "Q" := Assignment(8, "manual", 0)];
    var db := Db(map["P" := live, "Q" := live], [netted], Ledger(tags, {}));
    assert netted in db.settled;
    assert !Settled(db, "P") && !Settled(db, "Q");
    TwoFillsOneRow(db, "P", "Q");
  }

  /** Two tagged live rows whose only settled twin is one BAG row: visited in this order, the second loses its group. */
  lemma {:induction false} TwoFillsOneRow(db: Db, p: ExecId, q: ExecId)
    requires Invariant(db) && p != q && db.live.Keys == {p, q} && db.ledger.tags.Keys == {p, q} && db.ledger.members == {}
    requires db.ledger.tags[p].group != db.ledger.tags[q].group && |db.settled| == 1 && !Settled(db, p) && !Settled(db, q)
    requires BagTwin(db.live[p], db.settled[0]) && BagTwin(db.live[q], db.settled[0])
    ensures exists a :: Enabled(db, a) && GroupDropped(db, a, q, 0)
  {
    var order := [p, q];
    var a := Intraday([], order, order, []);
    BothGone(db, p, q, order);
    assert Enabled(db, a);
    HandedTheOnlyRow(db, a, p);
    HandedTheOnlyRow(db, a, q);
    FirstInLine(db, a, p, q, order);
    SecondInLineLoses(db, a, p, q);
  }

  lemma {:induction false} SecondInLineLoses(db: Db, a: Action, p: ExecId, q: ExecId)
    requires Invariant(db) && Enabled(db, a) && a.Intraday? && a.fills == [] && db.ledger.members == {}
    requires p in db.ledger.tags && q in db.ledger.tags && db.ledger.tags[p].group != db.ledger.tags[q].group
    requires Handed(db, a, q) == [0] && Claimant(db, a, 0) == Some(p)
    ensures GroupDropped(db, a, q, 0)
  {
    GroupedExactly(db, a);
    assert Claims(db, a, q, 0);
    OwnGroupExactly(db, a, q, 0);
    TagIsTaken(db, a, q);
  }

  lemma {:induction false} BothGone(db: Db, p: ExecId, q: ExecId, order: seq<ExecId>)
    requires db.live.Keys == {p, q} && p != q && order == [p, q] && |db.settled| == 1
    requires BagTwin(db.live[p], db.settled[0]) && BagTwin(db.live[q], db.settled[0])
    ensures Lists(order, db.live.Keys) && Purge(db, order, order).live == map[]
  {
    assert db.settled[0] in db.settled;
    PurgeSurvivors(db, order, order);
  }

  lemma {:induction false} HandedTheOnlyRow(db: Db, a: Action, id: ExecId)
    requires a.Intraday? && id in db.live && |db.settled| == 1 && !Settled(db, id) && BagTwin(db.live[id], db.settled[0])
    ensures RuleFor(db, a, id) == SameInstant && Handed(db, a, id) == [0]
  {
    assert db.settled[0] in db.settled;
  }

  lemma {:induction false} FirstInLine(db: Db, a: Action, p: ExecId, q: ExecId, order: seq<ExecId>)
    requires order == [p, q] && a == Intraday([], order, order, []) && p in db.ledger.tags && p != q
    requires RuleFor(db, a, p) == SameInstant && RuleFor(db, a, q) == SameInstant && Handed(db, a, p) == [0]
    ensures Claimant(db, a, 0) == Some(p)
  {
    OnlyInstantTurns(db, a, order);
    FirstOfPair(p, q, ClaimsTo(db, a, 0));
  }

  lemma {:induction false} OnlyInstantTurns(db: Db, a: Action, order: seq<ExecId>)
    requires a == Intraday([], order, order, []) && forall id :: id in order ==> RuleFor(db, a, id) == SameInstant
    ensures Turns(db, a) == order
  {
    var own, instant := Matches(db, a, OwnId), Matches(db, a, SameInstant);
    forall id | id in order ensures !own(id) && instant(id) {}
    FilterNone(order, own);
    FilterAll(order, instant);
  }

  lemma {:induction false} FirstOfPair(p: ExecId, q: ExecId, claims: ExecId -> bool)
    requires claims(p)
    ensures FirstOf([p, q], claims) == Some(p)
  {
    assert [] + [p] == [p] && [p] + [q] == [p, q];
    FirstOfOneMore([], p, claims);
    FirstOfOneMore([p], q, claims);
  }

  lemma {:induction false} TagIsTaken(db: Db, a: Action, id: ExecId)
    requires Invariant(db) && Enabled(db, a) && id in Written(db, a).ledger.tags && Handed(Written(db, a), a, id) != []
    ensures id !in Next(db, a).ledger.tags
  {
    CarriesAreJustified(db, a);
    NextLedger(db, a);
    HandedExactly(db, a, id);
    CarriedExecs(Written(db, a).ledger, Carries(db, a));
    if id !in Ids(Carries(db, a)) { NoCarryNoTargets(Carries(db, a), id); }
  }
}
