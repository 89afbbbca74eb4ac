/**
  Tag and task links on items: attaching and detaching by hand, merging tags,
  and the sync hooks that move links to settled trades, spread them over an
  order's fills and end them on flat positions.
 */
module ItemLinks {
  import opened Common
  import opened Calendar
  import Handoff

  type ExecId = Handoff.ExecId

  /** A linkable item by its typed key. */
  datatype Item =
    | TradeItem(id: int) | GroupItem(id: int) | TaskItem(id: int) | StrategyItem(id: int)
    | PositionItem(account: int, conId: int) | LiveItem(execId: ExecId)

  /** A link row of a tag or a task, its owner; task links never end. */
  datatype Link = Link(owner: int, item: Item, createdBy: string, at: int, ended: Option<int>)

  datatype Store = Store(tags: seq<Link>, tasks: seq<Link>)

  // ---------------------------------------------------------------------
  // By hand
  // ---------------------------------------------------------------------

  predicate IsOpen(l: Link, owner: int, item: Item) {
    l.owner == owner && l.item == item && l.ended.None?
  }

  predicate HasOpen(links: seq<Link>, owner: int, item: Item) {
    exists i | 0 <= i < |links| :: IsOpen(links[i], owner, item)
  }

  /** Open a link unless one is already open. */
  function Attach(links: seq<Link>, owner: int, item: Item, creator: string, now: int): seq<Link> {
    if HasOpen(links, owner, item) then links else links + [Link(owner, item, creator, now, None)]
  }

  function Detach(links: seq<Link>, owner: int, item: Item): seq<Link> {
    Filter(links, (l: Link) => !IsOpen(l, owner, item))
  }

  function OwnedBy(owner: int): Link -> bool {
    (l: Link) => l.owner == owner
  }

  function NotOwnedBy(owner: int): Link -> bool {
    (l: Link) => l.owner != owner
  }

  /** An open link is re-opened on the target unless the item has one; an ended link is copied with its dates. */
  function MoveOne(links: seq<Link>, l: Link, target: int, now: int): seq<Link> {
    if l.ended.None? then Attach(links, target, l.item, l.createdBy, now) else links + [l.(owner := target)]
  }

  function MoveEach(links: seq<Link>, moved: seq<Link>, target: int, now: int): seq<Link> {
    if moved == [] then links
    else MoveOne(MoveEach(links, moved[..|moved| - 1], target, now), moved[|moved| - 1], target, now)
  }

  /** Merge: every link of the source is re-pointed at the target. */
  function Move(links: seq<Link>, source: int, target: int, now: int): seq<Link> {
    MoveEach(Filter(links, NotOwnedBy(source)), Filter(links, OwnedBy(source)), target, now)
  }

  // ---------------------------------------------------------------------
  // Settlement
  // ---------------------------------------------------------------------

  function OnItem(item: Item): Link -> bool {
    (l: Link) => l.item == item
  }

  function NotOnItem(item: Item): Link -> bool {
    (l: Link) => l.item != item
  }

  /** Open the owner of every open link in `from` on the item. */
  function AttachAll(links: seq<Link>, from: seq<Link>, item: Item, now: int): seq<Link> {
    if from == [] then links
    else
      var done, l := AttachAll(links, from[..|from| - 1], item, now), from[|from| - 1];
      if l.ended.None? then Attach(done, l.owner, item, l.createdBy, now) else done
  }

  function AttachToTrades(links: seq<Link>, from: seq<Link>, trades: seq<int>, now: int): seq<Link> {
    if trades == [] then links
    else AttachAll(AttachToTrades(links, from, trades[..|trades| - 1], now), from, TradeItem(trades[|trades| - 1]), now)
  }

  /** Move a live fill's links onto the settled trades, then drop them; without a trade they stay. */
  function CarryOver(links: seq<Link>, id: ExecId, trades: seq<int>, now: int): seq<Link> {
    if trades == [] then links
    else Filter(AttachToTrades(links, Filter(links, OnItem(LiveItem(id))), trades, now), NotOnItem(LiveItem(id)))
  }

  // ---------------------------------------------------------------------
  // Order inheritance
  // ---------------------------------------------------------------------

  type Fill = (ExecId, Handoff.LiveFill)

  /** A live fill's order within its account. */
  function LiveOrderKey(f: Handoff.LiveFill): Option<(int, Handoff.OrderKey)> {
    match Handoff.OrderGroupKey(f)
    case None => None
    case Some(key) => Some((f.account, key))
  }

  type Key = (int, Handoff.OrderKey)

  /** The order keys of the live fills, in the order first seen. */
  function OrderKeys(lives: seq<Fill>): (keys: seq<Key>)
    ensures forall key :: key in keys <==> exists f :: f in lives && LiveOrderKey(f.1) == Some(key)
  {
    if lives == [] then []
    else
      var front, last := OrderKeys(lives[..|lives| - 1]), LiveOrderKey(lives[|lives| - 1].1);
      assert lives == lives[..|lives| - 1] + [lives[|lives| - 1]];
      if last.Some? && last.value !in front then front + [last.value] else front
  }

  function OfOrder(key: Key): Fill -> bool {
    (f: Fill) => LiveOrderKey(f.1) == Some(key)
  }

  function FillsOf(lives: seq<Fill>, key: Key): seq<Fill> {
    Filter(lives, OfOrder(key))
  }

  /** An insertion-ordered dictionary from owner to who created the link. */
  type Owners = seq<(int, string)>

  predicate Has(owners: Owners, owner: int) {
    exists i | 0 <= i < |owners| :: owners[i].0 == owner
  }

  function Put(owners: Owners, owner: int, creator: string): Owners {
    if owners == [] then [(owner, creator)]
    else if owners[0].0 == owner then [(owner, creator)] + owners[1..]
    else [owners[0]] + Put(owners[1..], owner, creator)
  }

  function Update(owners: Owners, more: Owners): Owners {
    if more == [] then owners
    else Put(Update(owners, more[..|more| - 1]), more[|more| - 1].0, more[|more| - 1].1)
  }

  /** The owners with an open link on a live fill. */
  function OwnersOn(links: seq<Link>, id: ExecId): Owners {
    if links == [] then []
    else
      var front, l := OwnersOn(links[..|links| - 1], id), links[|links| - 1];
      if l.item == LiveItem(id) && l.ended.None? then Put(front, l.owner, l.createdBy) else front
  }

  /** The owners on any of an order's fills. */
  function OrderOwners(links: seq<Link>, fills: seq<Fill>): Owners {
    if fills == [] then []
    else Update(OrderOwners(links, fills[..|fills| - 1]), OwnersOn(links, fills[|fills| - 1].0))
  }

  /** Attach the order's owners that the fill lacked in `before`. */
  function InheritFill(links: seq<Link>, before: seq<Link>, id: ExecId, owners: Owners, now: int): seq<Link> {
    if owners == [] then links
    else
      var done := InheritFill(links, before, id, owners[..|owners| - 1], now);
      var (owner, creator) := owners[|owners| - 1];
      if Has(OwnersOn(before, id), owner) then done else Attach(done, owner, LiveItem(id), creator, now)
  }

  function InheritOrder(links: seq<Link>, before: seq<Link>, fills: seq<Fill>, owners: Owners, now: int): seq<Link> {
    if fills == [] then links
    else InheritFill(InheritOrder(links, before, fills[..|fills| - 1], owners, now), before, fills[|fills| - 1].0, owners, now)
  }

  function InheritKeys(links: seq<Link>, before: seq<Link>, lives: seq<Fill>, keys: seq<Key>, now: int): seq<Link> {
    if keys == [] then links
    else
      var done, fills := InheritKeys(links, before, lives, keys[..|keys| - 1], now), FillsOf(lives, keys[|keys| - 1]);
      if |fills| > 1 then InheritOrder(done, before, fills, OrderOwners(before, fills), now) else done
  }

  /** Give every live fill of an order with several fills the owners of all of them. */
  function Inherit(links: seq<Link>, lives: seq<Fill>, now: int): seq<Link> {
    InheritKeys(links, links, lives, OrderKeys(lives), now)
  }

  // ---------------------------------------------------------------------
  // Flat positions
  // ---------------------------------------------------------------------

  /** The held contracts and the settled snapshot dates the flat test reads. */
  datatype Snapshot = Snapshot(held: set<(int, int)>, dates: map<int, Option<int>>, latest: Option<int>)

  /** The account's snapshot date, else the newest of any account. */
  function DateFor(s: Snapshot, account: int): Option<int> {
    if account in s.dates && s.dates[account].Some? then s.dates[account] else s.latest
  }

  predicate IsFlat(l: Link, s: Snapshot, clock: Clock) {
    && l.item.PositionItem? && l.ended.None?
    && (l.item.account, l.item.conId) !in s.held
    && DateFor(s, l.item.account).Some? && DateFor(s, l.item.account).value >= DateOf(clock.chicago, l.at)
  }

  function EndIfFlat(s: Snapshot, clock: Clock): Link -> Link {
    (l: Link) => if IsFlat(l, s, clock) then l.(ended := Some(clock.now)) else l
  }

  function EndFlat(links: seq<Link>, s: Snapshot, clock: Clock): seq<Link> {
    Map(links, EndIfFlat(s, clock))
  }

  // ---------------------------------------------------------------------
  // The open links of a table
  // ---------------------------------------------------------------------

  ghost function OpenLinks(links: seq<Link>): set<(int, Item)> {
    set l | l in links && l.ended.None? :: (l.owner, l.item)
  }

  ghost predicate AtMostOneOpen(links: seq<Link>) {
    forall i, j :: 0 <= i < j < |links| && links[i].ended.None? && links[j].ended.None? ==>
      (links[i].owner, links[i].item) != (links[j].owner, links[j].item)
  }

  lemma HasOpenMeans(links: seq<Link>, owner: int, item: Item)
    ensures HasOpen(links, owner, item) <==> (owner, item) in OpenLinks(links)
  {
    if HasOpen(links, owner, item) {
      var i :| 0 <= i < |links| && IsOpen(links[i], owner, item);
      assert links[i] in links;
    }
    if (owner, item) in OpenLinks(links) {
      var l :| l in links && l.ended.None? && (l.owner, l.item) == (owner, item);
      var i :| 0 <= i < |links| && links[i] == l;
      assert IsOpen(links[i], owner, item);
    }
  }

  lemma AppendOpens(links: seq<Link>, l: Link)
    ensures OpenLinks(links + [l]) == OpenLinks(links) + if l.ended.None? then {(l.owner, l.item)} else {}
    ensures AtMostOneOpen(links) && (l.ended.None? ==> (l.owner, l.item) !in OpenLinks(links)) ==> AtMostOneOpen(links + [l])
  {
    forall p ensures p in OpenLinks(links + [l]) <==> p in OpenLinks(links) + if l.ended.None? then {(l.owner, l.item)} else {} {
      if p in OpenLinks(links) {
        var m :| m in links && m.ended.None? && (m.owner, m.item) == p;
        assert m in links + [l];
      }
      assert l in links + [l];
    }
    forall i | 0 <= i < |links| && links[i].ended.None? ensures (links[i].owner, links[i].item) in OpenLinks(links) {
      assert links[i] in links;
    }
  }

  lemma AttachProperty(links: seq<Link>, owner: int, item: Item, creator: string, now: int)
    ensures var after := Attach(links, owner, item, creator, now);
      && OpenLinks(after) == OpenLinks(links) + {(owner, item)}
      && (AtMostOneOpen(links) ==> AtMostOneOpen(after))
      && ((owner, item) in OpenLinks(links) ==> after == links)
  {
    HasOpenMeans(links, owner, item);
    AppendOpens(links, Link(owner, item, creator, now, None));
  }

  lemma LastIsNew(front: seq<Link>, last: Link)
    requires AtMostOneOpen(front + [last])
    ensures AtMostOneOpen(front)
    ensures last.ended.None? ==> (last.owner, last.item) !in OpenLinks(front)
  {
    var links := front + [last];
    assert forall i :: 0 <= i < |front| ==> links[i] == front[i];
    forall m | last.ended.None? && m in front && m.ended.None? ensures (m.owner, m.item) != (last.owner, last.item) {
      var i :| 0 <= i < |front| && front[i] == m;
      assert links[i] == m && links[|front|] == last;
    }
  }

  lemma {:induction false} FilterOpens(links: seq<Link>, p: Link -> bool)
    ensures AtMostOneOpen(links) ==> AtMostOneOpen(Filter(links, p))
    ensures forall x :: x in OpenLinks(Filter(links, p)) ==> x in OpenLinks(links)
  {
    if links != [] {
      var front, last := links[..|links| - 1], links[|links| - 1];
      assert links == front + [last];
      FilterOpens(front, p);
      AppendOpens(front, last);
      AppendOpens(Filter(front, p), last);
      if AtMostOneOpen(links) { LastIsNew(front, last); }
    }
  }

  /** The open links a filter keeps, when it judges links by owner and item. */
  lemma FilteredOpens(links: seq<Link>, p: Link -> bool, keep: (int, Item) -> bool)
    requires forall l :: l in links && l.ended.None? ==> (p(l) <==> keep(l.owner, l.item))
    ensures forall o, i :: (o, i) in OpenLinks(Filter(links, p)) <==> (o, i) in OpenLinks(links) && keep(o, i)
  {
    forall o, i ensures (o, i) in OpenLinks(Filter(links, p)) <==> (o, i) in OpenLinks(links) && keep(o, i) {
      if (o, i) in OpenLinks(links) && keep(o, i) {
        var l :| l in links && l.ended.None? && (l.owner, l.item) == (o, i);
        assert l in Filter(links, p);
      }
    }
  }

  /** Detaching removes the open link and nothing else. */
  lemma DetachProperty(links: seq<Link>, owner: int, item: Item)
    ensures OpenLinks(Detach(links, owner, item)) == OpenLinks(links) - {(owner, item)}
    ensures AtMostOneOpen(links) ==> AtMostOneOpen(Detach(links, owner, item))
    ensures forall l :: l in links && l.ended.Some? ==> l in Detach(links, owner, item)
  {
    FilterOpens(links, (l: Link) => !IsOpen(l, owner, item));
    FilteredOpens(links, (l: Link) => !IsOpen(l, owner, item), (o, i) => (o, i) != (owner, item));
  }

  // ---------------------------------------------------------------------
  // Merging
  // ---------------------------------------------------------------------

  /** The ended links of an owner, in table order. */
  function EndedOf(owner: int): Link -> bool {
    (l: Link) => l.owner == owner && l.ended.Some?
  }

  function Retarget(owner: int): Link -> Link {
    (l: Link) => l.(owner := owner)
  }

  function IsEnded(l: Link): bool { l.ended.Some? }

  /** What one merge step adds: rows of the target only. */
  lemma MoveOneProperty(links: seq<Link>, l: Link, target: int, now: int)
    ensures var after := MoveOne(links, l, target, now);
      && OpenLinks(after) == OpenLinks(links) + (if l.ended.None? then {(target, l.item)} else {})
      && (AtMostOneOpen(links) ==> AtMostOneOpen(after))
      && Filter(after, EndedOf(target)) == Filter(links, EndedOf(target)) + (if l.ended.Some? then [l.(owner := target)] else [])
      && (forall owner :: owner != target ==> Filter(after, OwnedBy(owner)) == Filter(links, OwnedBy(owner)))
      && |links| <= |after|
  {
    if l.ended.None? {
      AttachProperty(links, target, l.item, l.createdBy, now);
      AppendedRow(links, Link(target, l.item, l.createdBy, now, None), target);
    } else {
      AppendOpens(links, l.(owner := target));
      AppendedRow(links, l.(owner := target), target);
    }
  }

  lemma AppendedRow(links: seq<Link>, l: Link, target: int)
    requires l.owner == target
    ensures Filter(links + [l], EndedOf(target)) == Filter(links, EndedOf(target)) + if l.ended.Some? then [l] else []
    ensures forall owner :: owner != target ==> Filter(links + [l], OwnedBy(owner)) == Filter(links, OwnedBy(owner))
  {
    FilterAppend(links, l, EndedOf(target));
    forall owner | owner != target ensures Filter(links + [l], OwnedBy(owner)) == Filter(links, OwnedBy(owner)) {
      FilterAppend(links, l, OwnedBy(owner));
    }
  }

  /** The open items of one owner. */
  ghost function ItemsOf(links: seq<Link>, owner: int): set<Item> {
    set l | l in links && l.owner == owner && l.ended.None? :: l.item
  }

  lemma ItemsMeans(links: seq<Link>, owner: int, item: Item)
    ensures item in ItemsOf(links, owner) <==> (owner, item) in OpenLinks(links)
  {
    if item in ItemsOf(links, owner) {
      var l :| l in links && l.owner == owner && l.ended.None? && l.item == item;
      assert (l.owner, l.item) in OpenLinks(links);
    }
  }

  ghost predicate HasOpenItem(links: seq<Link>, item: Item) {
    exists l :: l in links && l.ended.None? && l.item == item
  }

  lemma LastOpenItem(front: seq<Link>, last: Link, item: Item)
    ensures HasOpenItem(front + [last], item) <==> HasOpenItem(front, item) || (last.ended.None? && last.item == item)
  {
    if HasOpenItem(front, item) {
      var l :| l in front && l.ended.None? && l.item == item;
      assert l in front + [last];
    }
    assert last in front + [last];
  }

  lemma {:induction false} MoveEachOpens(links: seq<Link>, moved: seq<Link>, target: int, now: int)
    ensures var after := MoveEach(links, moved, target, now);
      && (forall o, i :: (o, i) in OpenLinks(after) <==> (o, i) in OpenLinks(links) || (o == target && HasOpenItem(moved, i)))
      && (AtMostOneOpen(links) ==> AtMostOneOpen(after))
  {
    if moved != [] {
      var front, last := moved[..|moved| - 1], moved[|moved| - 1];
      assert moved == front + [last];
      MoveEachOpens(links, front, target, now);
      MoveOneProperty(MoveEach(links, front, target, now), last, target, now);
      forall i ensures HasOpenItem(moved, i) <==> HasOpenItem(front, i) || (last.ended.None? && last.item == i) {
        LastOpenItem(front, last, i);
      }
    }
  }

  lemma RetargetedLast(front: seq<Link>, last: Link, target: int)
    ensures Map(Filter(front + [last], IsEnded), Retarget(target))
         == Map(Filter(front, IsEnded), Retarget(target)) + if last.ended.Some? then [last.(owner := target)] else []
  {
    FilterAppend(front, last, IsEnded);
    MapAppend(Filter(front, IsEnded), last, Retarget(target));
  }

  lemma Associative<T>(a: seq<T>, b: seq<T>, c: seq<T>)
    ensures a + b + c == a + (b + c)
  {}

  lemma {:induction false} MoveEachEnded(links: seq<Link>, moved: seq<Link>, target: int, now: int)
    ensures Filter(MoveEach(links, moved, target, now), EndedOf(target))
         == Filter(links, EndedOf(target)) + Map(Filter(moved, IsEnded), Retarget(target))
  {
    if moved != [] {
      var front, last := moved[..|moved| - 1], moved[|moved| - 1];
      MoveEachEnded(links, front, target, now);
      RetargetedLast(front, last, target);
      assert moved == front + [last];
      MoveOneEnded(MoveEach(links, front, target, now), last, target, now);
      Associative(Filter(links, EndedOf(target)), Map(Filter(front, IsEnded), Retarget(target)),
                  if last.ended.Some? then [last.(owner := target)] else []);
    }
  }

  lemma MoveOneEnded(links: seq<Link>, l: Link, target: int, now: int)
    ensures Filter(MoveOne(links, l, target, now), EndedOf(target)) == Filter(links, EndedOf(target)) + if l.ended.Some? then [l.(owner := target)] else []
  {
    MoveOneProperty(links, l, target, now);
  }

  lemma {:induction false} MoveEachOthers(links: seq<Link>, moved: seq<Link>, target: int, now: int, owner: int)
    requires owner != target
    ensures Filter(MoveEach(links, moved, target, now), OwnedBy(owner)) == Filter(links, OwnedBy(owner))
  {
    if moved != [] {
      MoveEachOthers(links, moved[..|moved| - 1], target, now, owner);
      MoveOneProperty(MoveEach(links, moved[..|moved| - 1], target, now), moved[|moved| - 1], target, now);
    }
  }

  lemma SourceIsEmptied(links: seq<Link>, source: int)
    ensures Filter(Filter(links, NotOwnedBy(source)), OwnedBy(source)) == []
  {
    FilterNone(Filter(links, NotOwnedBy(source)), OwnedBy(source));
  }

  /**
    Merging two distinct tags: the target ends with the union of the open items
    and every ended link of both, the source with nothing, other tags untouched.
   */
  lemma {:induction false} MergeProperty(links: seq<Link>, source: int, target: int, now: int)
    requires source != target
    ensures var after := Move(links, source, target, now);
      && ItemsOf(after, target) == ItemsOf(links, target) + ItemsOf(links, source)
      && Filter(after, EndedOf(target)) == Filter(links, EndedOf(target)) + Map(Filter(links, EndedOf(source)), Retarget(target))
      && Filter(after, OwnedBy(source)) == []
      && (forall owner :: owner != source && owner != target ==> Filter(after, OwnedBy(owner)) == Filter(links, OwnedBy(owner)))
      && (AtMostOneOpen(links) ==> AtMostOneOpen(after))
  {
    MergedRows(links, source, target, now);
    if AtMostOneOpen(links) { MergeKeepsOne(links, source, target, now); }
    var after := Move(links, source, target, now);
    forall item ensures item in ItemsOf(after, target) <==> item in ItemsOf(links, target) + ItemsOf(links, source) {
      MergedItem(links, source, target, now, item);
    }
  }

  lemma {:induction false} MergedRows(links: seq<Link>, source: int, target: int, now: int)
    requires source != target
    ensures var after := Move(links, source, target, now);
      && Filter(after, EndedOf(target)) == Filter(links, EndedOf(target)) + Map(Filter(links, EndedOf(source)), Retarget(target))
      && Filter(after, OwnedBy(source)) == []
      && (forall owner :: owner != source && owner != target ==> Filter(after, OwnedBy(owner)) == Filter(links, OwnedBy(owner)))
  {
    MoveEachEnded(Filter(links, NotOwnedBy(source)), Filter(links, OwnedBy(source)), target, now);
    MoveEachOthers(Filter(links, NotOwnedBy(source)), Filter(links, OwnedBy(source)), target, now, source);
    SourceIsEmptied(links, source);
    FilterTwice(links, NotOwnedBy(source), EndedOf(target), EndedOf(target));
    FilterTwice(links, OwnedBy(source), IsEnded, EndedOf(source));
    forall owner | owner != source && owner != target
      ensures Filter(Move(links, source, target, now), OwnedBy(owner)) == Filter(links, OwnedBy(owner))
    {
      MoveEachOthers(Filter(links, NotOwnedBy(source)), Filter(links, OwnedBy(source)), target, now, owner);
      FilterTwice(links, NotOwnedBy(source), OwnedBy(owner), OwnedBy(owner));
    }
  }

  lemma MergeKeepsOne(links: seq<Link>, source: int, target: int, now: int)
    requires AtMostOneOpen(links)
    ensures AtMostOneOpen(Move(links, source, target, now))
  {
    MoveEachOpens(Filter(links, NotOwnedBy(source)), Filter(links, OwnedBy(source)), target, now);
    FilterOpens(links, NotOwnedBy(source));
  }

  lemma MergedItem(links: seq<Link>, source: int, target: int, now: int, item: Item)
    requires source != target
    ensures item in ItemsOf(Move(links, source, target, now), target) <==> item in ItemsOf(links, target) + ItemsOf(links, source)
  {
    var rest, moved := Filter(links, NotOwnedBy(source)), Filter(links, OwnedBy(source));
    MoveEachOpens(rest, moved, target, now);
    ItemsMeans(Move(links, source, target, now), target, item);
    FilteredOpens(links, NotOwnedBy(source), (o, i) => o != source);
    ItemsMeans(links, target, item);
    if item in ItemsOf(links, source) {
      var l :| l in links && l.owner == source && l.ended.None? && l.item == item;
      assert l in moved;
    }
  }

  // ---------------------------------------------------------------------
  // Settlement
  // ---------------------------------------------------------------------

  ghost predicate IsOpenIn(links: seq<Link>, owner: int) {
    exists l :: l in links && l.ended.None? && l.owner == owner
  }

  lemma {:induction false} AttachAllProperty(links: seq<Link>, from: seq<Link>, item: Item, now: int)
    ensures var after := AttachAll(links, from, item, now);
      && (forall o, i :: (o, i) in OpenLinks(after) <==> (o, i) in OpenLinks(links) || (i == item && IsOpenIn(from, o)))
      && (AtMostOneOpen(links) ==> AtMostOneOpen(after))
  {
    if from != [] {
      var front, last := from[..|from| - 1], from[|from| - 1];
      assert from == front + [last];
      AttachAllProperty(links, front, item, now);
      var mid := AttachAll(links, front, item, now);
      if last.ended.None? { AttachProperty(mid, last.owner, item, last.createdBy, now); }
      forall o ensures IsOpenIn(from, o) <==> IsOpenIn(front, o) || (last.ended.None? && last.owner == o) {
        LastOpen(front, last, o);
      }
    }
  }

  lemma LastOpen(front: seq<Link>, last: Link, o: int)
    ensures IsOpenIn(front + [last], o) <==> IsOpenIn(front, o) || (last.ended.None? && last.owner == o)
  {
    if IsOpenIn(front, o) {
      var l :| l in front && l.ended.None? && l.owner == o;
      assert l in front + [last];
    }
    assert last in front + [last];
  }

  lemma {:induction false} AttachToTradesProperty(links: seq<Link>, from: seq<Link>, trades: seq<int>, now: int)
    ensures var after := AttachToTrades(links, from, trades, now);
      && (forall o, i :: (o, i) in OpenLinks(after) <==>
            (o, i) in OpenLinks(links) || (i.TradeItem? && i.id in trades && IsOpenIn(from, o)))
      && (AtMostOneOpen(links) ==> AtMostOneOpen(after))
  {
    if trades != [] {
      var front, last := trades[..|trades| - 1], trades[|trades| - 1];
      assert trades == front + [last];
      AttachToTradesProperty(links, from, front, now);
      AttachAllProperty(AttachToTrades(links, from, front, now), from, TradeItem(last), now);
    }
  }

  lemma OpenOnItem(links: seq<Link>, item: Item, o: int)
    ensures IsOpenIn(Filter(links, OnItem(item)), o) <==> (o, item) in OpenLinks(links)
  {
    if (o, item) in OpenLinks(links) {
      var l :| l in links && l.ended.None? && (l.owner, l.item) == (o, item);
      assert l in Filter(links, OnItem(item));
    }
  }

  /** After a carry-over each trade has the fill's open owners next to its own, and the fill has no link left. */
  lemma CarryOverProperty(links: seq<Link>, id: ExecId, trades: seq<int>, now: int)
    requires trades != []
    ensures var after := CarryOver(links, id, trades, now);
      && (forall o, i :: (o, i) in OpenLinks(after) <==>
            || (i != LiveItem(id) && (o, i) in OpenLinks(links))
            || (i.TradeItem? && i.id in trades && (o, LiveItem(id)) in OpenLinks(links)))
      && (forall l :: l in after ==> l.item != LiveItem(id))
      && (AtMostOneOpen(links) ==> AtMostOneOpen(after))
  {
    var from := Filter(links, OnItem(LiveItem(id)));
    var mid := AttachToTrades(links, from, trades, now);
    AttachToTradesProperty(links, from, trades, now);
    FilterOpens(mid, NotOnItem(LiveItem(id)));
    FilteredOpens(mid, NotOnItem(LiveItem(id)), (o, i) => i != LiveItem(id));
    forall o ensures IsOpenIn(from, o) <==> (o, LiveItem(id)) in OpenLinks(links) {
      OpenOnItem(links, LiveItem(id), o);
    }
  }

  // ---------------------------------------------------------------------
  // Order inheritance
  // ---------------------------------------------------------------------

  lemma {:induction false} PutProperty(owners: Owners, owner: int, creator: string, x: int)
    ensures Has(Put(owners, owner, creator), x) <==> Has(owners, x) || x == owner
  {
    if owners != [] {
      HasSplit(owners, x);
      if owners[0].0 == owner {
        HasSplit([(owner, creator)] + owners[1..], x);
      } else {
        PutProperty(owners[1..], owner, creator, x);
        HasSplit([owners[0]] + Put(owners[1..], owner, creator), x);
      }
    } else {
      HasSplit([(owner, creator)], x);
    }
  }

  lemma HasSplit(owners: Owners, x: int)
    requires owners != []
    ensures Has(owners, x) <==> owners[0].0 == x || Has(owners[1..], x)
  {
    if Has(owners, x) {
      var i :| 0 <= i < |owners| && owners[i].0 == x;
      if i > 0 { assert owners[1..][i - 1].0 == x; }
    }
    if Has(owners[1..], x) {
      var i :| 0 <= i < |owners[1..]| && owners[1..][i].0 == x;
      assert owners[i + 1].0 == x;
    }
  }

  lemma HasLast(owners: Owners, x: int)
    requires owners != []
    ensures Has(owners, x) <==> Has(owners[..|owners| - 1], x) || owners[|owners| - 1].0 == x
  {
    var front := owners[..|owners| - 1];
    if Has(front, x) {
      var i :| 0 <= i < |front| && front[i].0 == x;
      assert owners[i].0 == x;
    }
    if Has(owners, x) && owners[|owners| - 1].0 != x {
      var i :| 0 <= i < |owners| && owners[i].0 == x;
      assert front[i].0 == x;
    }
  }

  lemma {:induction false} UpdateProperty(owners: Owners, more: Owners, x: int)
    ensures Has(Update(owners, more), x) <==> Has(owners, x) || Has(more, x)
  {
    if more != [] {
      UpdateProperty(owners, more[..|more| - 1], x);
      PutProperty(Update(owners, more[..|more| - 1]), more[|more| - 1].0, more[|more| - 1].1, x);
      HasLast(more, x);
    }
  }

  lemma {:induction false} OwnersOnProperty(links: seq<Link>, id: ExecId, x: int)
    ensures Has(OwnersOn(links, id), x) <==> (x, LiveItem(id)) in OpenLinks(links)
  {
    if links != [] {
      var front, last := links[..|links| - 1], links[|links| - 1];
      assert links == front + [last];
      OwnersOnProperty(front, id, x);
      AppendOpens(front, last);
      PutProperty(OwnersOn(front, id), last.owner, last.createdBy, x);
    }
  }

  /** Some fill of the order has an open link of the owner. */
  ghost predicate OnOrder(links: seq<Link>, fills: seq<Fill>, x: int) {
    exists f :: f in fills && (x, LiveItem(f.0)) in OpenLinks(links)
  }

  lemma {:induction false} OrderOwnersProperty(links: seq<Link>, fills: seq<Fill>, x: int)
    ensures Has(OrderOwners(links, fills), x) <==> OnOrder(links, fills, x)
  {
    if fills != [] {
      var front, last := fills[..|fills| - 1], fills[|fills| - 1];
      assert fills == front + [last];
      OrderOwnersProperty(links, front, x);
      OwnersOnProperty(links, last.0, x);
      UpdateProperty(OrderOwners(links, front), OwnersOn(links, last.0), x);
      assert last in fills;
      if OnOrder(links, front, x) {
        var f :| f in front && (x, LiveItem(f.0)) in OpenLinks(links);
        assert f in fills;
      }
    }
  }

  /** The open links of `before` are still there. */
  ghost predicate Extends(before: seq<Link>, links: seq<Link>) {
    OpenLinks(before) <= OpenLinks(links)
  }

  lemma {:induction false} InheritFillProperty(links: seq<Link>, before: seq<Link>, id: ExecId, owners: Owners, now: int)
    requires Extends(before, links)
    ensures var after := InheritFill(links, before, id, owners, now);
      && (forall o, i :: (o, i) in OpenLinks(after) <==> (o, i) in OpenLinks(links) || (i == LiveItem(id) && Has(owners, o)))
      && (AtMostOneOpen(links) ==> AtMostOneOpen(after))
      && ((forall o :: Has(owners, o) ==> (o, LiveItem(id)) in OpenLinks(links)) ==> after == links)
  {
    if owners != [] {
      var front := owners[..|owners| - 1];
      var (owner, creator) := owners[|owners| - 1];
      forall o ensures Has(owners, o) <==> Has(front, o) || owner == o {
        HasLast(owners, o);
      }
      InheritFillProperty(links, before, id, front, now);
      OwnersOnProperty(before, id, owner);
      AttachProperty(InheritFill(links, before, id, front, now), owner, LiveItem(id), creator, now);
    }
  }

  ghost predicate HasFill(fills: seq<Fill>, id: ExecId) {
    exists f :: f in fills && f.0 == id
  }

  lemma HasFillLast(fills: seq<Fill>, id: ExecId)
    requires fills != []
    ensures HasFill(fills, id) <==> HasFill(fills[..|fills| - 1], id) || fills[|fills| - 1].0 == id
  {
    var front, last := fills[..|fills| - 1], fills[|fills| - 1];
    assert fills == front + [last];
    if HasFill(front, id) {
      var f :| f in front && f.0 == id;
      assert f in fills;
    }
    assert last in fills;
  }

  lemma {:induction false} InheritOrderProperty(links: seq<Link>, before: seq<Link>, fills: seq<Fill>, owners: Owners, now: int)
    requires Extends(before, links)
    ensures var after := InheritOrder(links, before, fills, owners, now);
      && (forall o, i :: (o, i) in OpenLinks(after) <==>
            (o, i) in OpenLinks(links) || (i.LiveItem? && HasFill(fills, i.execId) && Has(owners, o)))
      && (AtMostOneOpen(links) ==> AtMostOneOpen(after))
      && ((forall o, f :: f in fills && Has(owners, o) ==> (o, LiveItem(f.0)) in OpenLinks(links)) ==> after == links)
  {
    if fills != [] {
      var front, last := fills[..|fills| - 1], fills[|fills| - 1];
      assert fills == front + [last];
      InheritOrderProperty(links, before, front, owners, now);
      InheritFillProperty(InheritOrder(links, before, front, owners, now), before, last.0, owners, now);
      forall id ensures HasFill(fills, id) <==> HasFill(front, id) || last.0 == id {
        HasFillLast(fills, id);
      }
    }
  }

  /** A fill of the key's order, where that order has several fills, and some fill of it has the owner open. */
  ghost predicate Inherits(before: seq<Link>, lives: seq<Fill>, key: Key, o: int, id: ExecId) {
    |FillsOf(lives, key)| > 1 && HasFill(FillsOf(lives, key), id) && OnOrder(before, FillsOf(lives, key), o)
  }

  ghost predicate InheritsOne(before: seq<Link>, lives: seq<Fill>, keys: seq<Key>, o: int, i: Item) {
    i.LiveItem? && exists key :: key in keys && Inherits(before, lives, key, o, i.execId)
  }

  lemma InheritsLast(before: seq<Link>, lives: seq<Fill>, keys: seq<Key>, o: int, i: Item)
    requires keys != []
    ensures InheritsOne(before, lives, keys, o, i) <==>
      InheritsOne(before, lives, keys[..|keys| - 1], o, i) || (i.LiveItem? && Inherits(before, lives, keys[|keys| - 1], o, i.execId))
  {
    var front, last := keys[..|keys| - 1], keys[|keys| - 1];
    assert keys == front + [last];
    if InheritsOne(before, lives, front, o, i) {
      var key :| key in front && Inherits(before, lives, key, o, i.execId);
      assert key in keys;
    }
    assert last in keys;
  }

  lemma {:induction false} InheritKeysProperty(links: seq<Link>, before: seq<Link>, lives: seq<Fill>, keys: seq<Key>, now: int)
    requires Extends(before, links)
    ensures var after := InheritKeys(links, before, lives, keys, now);
      && (forall o, i :: (o, i) in OpenLinks(after) <==> (o, i) in OpenLinks(links) || InheritsOne(before, lives, keys, o, i))
      && (AtMostOneOpen(links) ==> AtMostOneOpen(after))
      && ((forall o, i :: InheritsOne(before, lives, keys, o, i) ==> (o, i) in OpenLinks(links)) ==> after == links)
  {
    if keys != [] {
      var front, key := keys[..|keys| - 1], keys[|keys| - 1];
      InheritKeysProperty(links, before, lives, front, now);
      var mid, fills := InheritKeys(links, before, lives, front, now), FillsOf(lives, key);
      forall o, i ensures InheritsOne(before, lives, keys, o, i) <==>
        InheritsOne(before, lives, front, o, i) || (i.LiveItem? && Inherits(before, lives, key, o, i.execId))
      {
        InheritsLast(before, lives, keys, o, i);
      }
      if |fills| > 1 {
        InheritOrderProperty(mid, before, fills, OrderOwners(before, fills), now);
        forall o ensures Has(OrderOwners(before, fills), o) <==> OnOrder(before, fills, o) {
          OrderOwnersProperty(before, fills, o);
        }
        assert forall f :: f in fills ==> HasFill(fills, f.0);
      }
    }
  }

  ghost predicate UniqueFills(lives: seq<Fill>) {
    forall f, g :: f in lives && g in lives && f.0 == g.0 ==> f == g
  }

  /** Two different live fills of one order. */
  ghost predicate SameOrder(lives: seq<Fill>, f: Fill, g: Fill) {
    f in lives && g in lives && f.0 != g.0 && LiveOrderKey(f.1).Some? && LiveOrderKey(f.1) == LiveOrderKey(g.1)
  }

  lemma TwoFills(fills: seq<Fill>, f: Fill, g: Fill)
    requires f in fills && g in fills && f != g
    ensures |fills| > 1
  {}

  lemma SeveralMeansAnother(lives: seq<Fill>, key: Key, f: Fill, g: Fill)
    requires f in FillsOf(lives, key) && g in FillsOf(lives, key) && f.0 != g.0
    ensures SameOrder(lives, f, g) && |FillsOf(lives, key)| > 1
  {
    TwoFills(FillsOf(lives, key), f, g);
  }

  /** Another live fill of the order has the owner open. */
  ghost predicate HasMate(links: seq<Link>, lives: seq<Fill>, f: Fill, o: int) {
    exists g :: SameOrder(lives, f, g) && (o, LiveItem(g.0)) in OpenLinks(links)
  }

  lemma InheritedFromMate(links: seq<Link>, lives: seq<Fill>, f: Fill, o: int, key: Key)
    requires UniqueFills(lives) && f in lives && (o, LiveItem(f.0)) !in OpenLinks(links) && Inherits(links, lives, key, o, f.0)
    ensures HasMate(links, lives, f, o)
  {
    var f' :| f' in FillsOf(lives, key) && f'.0 == f.0;
    assert f' == f;
    var g :| g in FillsOf(lives, key) && (o, LiveItem(g.0)) in OpenLinks(links);
    SeveralMeansAnother(lives, key, f, g);
  }

  lemma MatePassesOn(links: seq<Link>, lives: seq<Fill>, f: Fill, o: int)
    requires UniqueFills(lives) && f in lives && HasMate(links, lives, f, o)
    ensures InheritsOne(links, lives, OrderKeys(lives), o, LiveItem(f.0))
  {
    var g :| SameOrder(lives, f, g) && (o, LiveItem(g.0)) in OpenLinks(links);
    var key := LiveOrderKey(f.1).value;
    assert f in FillsOf(lives, key) && g in FillsOf(lives, key);
    SeveralMeansAnother(lives, key, f, g);
    assert Inherits(links, lives, key, o, f.0);
  }

  /** After inheritance a fill has exactly its own owners and those of the other live fills of its order. */
  lemma InheritProperty(links: seq<Link>, lives: seq<Fill>, now: int, o: int, f: Fill)
    requires UniqueFills(lives) && f in lives
    ensures (o, LiveItem(f.0)) in OpenLinks(Inherit(links, lives, now)) <==>
      (o, LiveItem(f.0)) in OpenLinks(links) || HasMate(links, lives, f, o)
  {
    var keys, item := OrderKeys(lives), LiveItem(f.0);
    InheritKeysProperty(links, links, lives, keys, now);
    if (o, item) !in OpenLinks(links) && InheritsOne(links, lives, keys, o, item) {
      var key :| key in keys && Inherits(links, lives, key, o, f.0);
      InheritedFromMate(links, lives, f, o, key);
    }
    if HasMate(links, lives, f, o) { MatePassesOn(links, lives, f, o); }
  }

  /** All live fills of an order end with the same owners. */
  lemma OrderIsUniform(links: seq<Link>, lives: seq<Fill>, now: int, f: Fill, g: Fill, o: int)
    requires UniqueFills(lives) && SameOrder(lives, f, g)
    ensures var after := Inherit(links, lives, now);
      (o, LiveItem(f.0)) in OpenLinks(after) <==> (o, LiveItem(g.0)) in OpenLinks(after)
  {
    assert SameOrder(lives, g, f);
    OrderMates(links, lives, now, f, g, o);
    OrderMates(links, lives, now, g, f, o);
  }

  /** Some live fill of the order, this one included, has the owner open. */
  ghost predicate HasInOrder(links: seq<Link>, lives: seq<Fill>, f: Fill, o: int) {
    exists h :: h in lives && LiveOrderKey(h.1) == LiveOrderKey(f.1) && (o, LiveItem(h.0)) in OpenLinks(links)
  }

  lemma OrderMates(links: seq<Link>, lives: seq<Fill>, now: int, f: Fill, g: Fill, o: int)
    requires UniqueFills(lives) && SameOrder(lives, f, g)
    ensures (o, LiveItem(f.0)) in OpenLinks(Inherit(links, lives, now)) <==> HasInOrder(links, lives, f, o)
  {
    InheritProperty(links, lives, now, o, f);
    if HasInOrder(links, lives, f, o) {
      var h :| h in lives && LiveOrderKey(h.1) == LiveOrderKey(f.1) && (o, LiveItem(h.0)) in OpenLinks(links);
      if h.0 != f.0 { assert SameOrder(lives, f, h); }
    }
  }

  /** A second pass changes nothing. */
  lemma InheritAgainAddsNone(links: seq<Link>, lives: seq<Fill>, now: int, later: int)
    requires UniqueFills(lives)
    ensures var after := Inherit(links, lives, now); Inherit(after, lives, later) == after
  {
    var after, keys := Inherit(links, lives, now), OrderKeys(lives);
    InheritKeysProperty(after, after, lives, keys, later);
    forall o, i | InheritsOne(after, lives, keys, o, i) ensures (o, i) in OpenLinks(after) {
      var key :| key in keys && Inherits(after, lives, key, o, i.execId);
      var f :| f in FillsOf(lives, key) && f.0 == i.execId;
      var g :| g in FillsOf(lives, key) && (o, LiveItem(g.0)) in OpenLinks(after);
      if f.0 != g.0 {
        SeveralMeansAnother(lives, key, f, g);
        OrderIsUniform(links, lives, now, f, g, o);
      }
      assert i == LiveItem(f.0);
    }
  }

  // ---------------------------------------------------------------------
  // Flat positions
  // ---------------------------------------------------------------------

  lemma EndFlatProperty(links: seq<Link>, s: Snapshot, clock: Clock)
    ensures var after := EndFlat(links, s, clock);
      && |after| == |links|
      && (AtMostOneOpen(links) ==> AtMostOneOpen(after))
      && forall i :: 0 <= i < |links| ==>
           && (after[i].ended.None? <==> links[i].ended.None? && !IsFlat(links[i], s, clock))
           && after[i] == links[i].(ended := after[i].ended)
           && (links[i].ended.Some? ==> after[i] == links[i])
  {}

  // ---------------------------------------------------------------------
  // Runs
  // ---------------------------------------------------------------------

  /** One operation on the link tables. */
  datatype Op =
    | AttachTag(tag: int, item: Item, createdBy: string, now: int)
    | DetachTag(tag: int, item: Item)
    | MergeTags(source: int, target: int, now: int)
    | AttachTask(task: int, item: Item, createdBy: string, now: int)
    | DetachTask(task: int, item: Item)
    | Settle(id: ExecId, trades: seq<int>, now: int)
    | InheritOrders(lives: seq<Fill>, now: int)
    | EndFlatTags(snapshot: Snapshot, clock: Clock)

  /** The tag merge of a tag into itself is rejected before any link is moved. */
  function Apply(s: Store, op: Op): Store {
    match op
    case AttachTag(tag, item, createdBy, now) => s.(tags := Attach(s.tags, tag, item, createdBy, now))
    case DetachTag(tag, item) => s.(tags := Detach(s.tags, tag, item))
    case MergeTags(source, target, now) => if source == target then s else s.(tags := Move(s.tags, source, target, now))
    case AttachTask(task, item, createdBy, now) => s.(tasks := Attach(s.tasks, task, item, createdBy, now))
    case DetachTask(task, item) => s.(tasks := Detach(s.tasks, task, item))
    case Settle(id, trades, now) => Store(CarryOver(s.tags, id, trades, now), CarryOver(s.tasks, id, trades, now))
    case InheritOrders(lives, now) => Store(Inherit(s.tags, lives, now), Inherit(s.tasks, lives, now))
    case EndFlatTags(snapshot, clock) => s.(tags := EndFlat(s.tags, snapshot, clock))
  }

  function Run(s: Store, ops: seq<Op>): Store {
    if ops == [] then s else Apply(Run(s, ops[..|ops| - 1]), ops[|ops| - 1])
  }

  lemma CarryKeepsOne(links: seq<Link>, id: ExecId, trades: seq<int>, now: int)
    requires AtMostOneOpen(links)
    ensures AtMostOneOpen(CarryOver(links, id, trades, now))
  {
    if trades != [] { CarryOverProperty(links, id, trades, now); }
  }

  lemma InheritKeepsOne(links: seq<Link>, lives: seq<Fill>, now: int)
    requires AtMostOneOpen(links)
    ensures AtMostOneOpen(Inherit(links, lives, now))
  {
    InheritKeysProperty(links, links, lives, OrderKeys(lives), now);
  }

  lemma StepKeepsOne(s: Store, op: Op)
    requires AtMostOneOpen(s.tags) && AtMostOneOpen(s.tasks)
    ensures AtMostOneOpen(Apply(s, op).tags) && AtMostOneOpen(Apply(s, op).tasks)
  {
    match op
    case AttachTag(tag, item, createdBy, now) => AttachProperty(s.tags, tag, item, createdBy, now);
    case DetachTag(tag, item) => DetachProperty(s.tags, tag, item);
    case MergeTags(source, target, now) => if source != target { MergeProperty(s.tags, source, target, now); }
    case AttachTask(task, item, createdBy, now) => AttachProperty(s.tasks, task, item, createdBy, now);
    case DetachTask(task, item) => DetachProperty(s.tasks, task, item);
    case Settle(id, trades, now) =>
      CarryKeepsOne(s.tags, id, trades, now);
      CarryKeepsOne(s.tasks, id, trades, now);
    case InheritOrders(lives, now) =>
      InheritKeepsOne(s.tags, lives, now);
      InheritKeepsOne(s.tasks, lives, now);
    case EndFlatTags(snapshot, clock) => EndFlatProperty(s.tags, snapshot, clock);
  }

  /** From empty tables, whatever is done, an item has at most one open link of a tag and one of a task. */
  lemma {:induction false} AtMostOneOpenAlways(ops: seq<Op>)
    ensures var s := Run(Store([], []), ops); AtMostOneOpen(s.tags) && AtMostOneOpen(s.tasks)
  {
    if ops != [] {
      AtMostOneOpenAlways(ops[..|ops| - 1]);
      StepKeepsOne(Run(Store([], []), ops[..|ops| - 1]), ops[|ops| - 1]);
    }
  }
}
