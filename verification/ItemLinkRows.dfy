/** What the link rows themselves hold after each hook: who is credited with a new link, when it was opened, and which rows stay as they were. */
module ItemLinkRows {
  import opened Common
  import opened Calendar
  import Handoff
  import opened ItemLinks

  /** The rows before are still there in place, and every added one is right. */
  ghost predicate Adds(before: seq<Link>, after: seq<Link>, right: Link -> bool) {
    before <= after && forall i :: |before| <= i < |after| ==> right(after[i])
  }

  lemma {:induction false} AddsChain(a: seq<Link>, b: seq<Link>, c: seq<Link>, right: Link -> bool)
    requires Adds(a, b, right) && Adds(b, c, right)
    ensures Adds(a, c, right)
  {
    assert forall i :: 0 <= i < |b| ==> c[i] == b[i];
  }

  lemma {:induction false} AttachAdds(links: seq<Link>, owner: int, item: Item, creator: string, now: int, right: Link -> bool)
    requires right(Link(owner, item, creator, now, None))
    ensures Adds(links, Attach(links, owner, item, creator, now), right)
  {}

  /** A link is opened exactly when the item has none open of the owner: by the given creator, at the given time. */
  lemma {:induction false} AttachInColumns(links: seq<Link>, owner: int, item: Item, creator: string, now: int)
    ensures Attach(links, owner, item, creator, now) ==
      if exists l :: l in links && l.owner == owner && l.item == item && l.ended == None then links
      else links + [Link(owner, item, creator, now, None)]
  {
    if l :| l in links && l.owner == owner && l.item == item && l.ended == None {
      var i :| 0 <= i < |links| && links[i] == l;
      assert IsOpen(links[i], owner, item);
    }
    if HasOpen(links, owner, item) {
      var i :| 0 <= i < |links| && IsOpen(links[i], owner, item);
      assert links[i] in links;
    }
  }

  // ---------------------------------------------------------------------
  // Merging
  // ---------------------------------------------------------------------

  /** A row a merge adds: a source row's item and creator opened now, or an ended source row with its dates. */
  ghost predicate IsMovedFrom(r: Link, l: Link, target: int, now: int) {
    && r.owner == target && r.item == l.item && r.createdBy == l.createdBy && r.ended == l.ended
    && r.at == if l.ended.Some? then l.at else now
  }

  ghost function MovedFrom(moved: seq<Link>, target: int, now: int): Link -> bool {
    (r: Link) => exists l :: l in moved && IsMovedFrom(r, l, target, now)
  }

  lemma {:induction false} MoveEachAdds(links: seq<Link>, moved: seq<Link>, all: seq<Link>, target: int, now: int)
    requires forall l :: l in moved ==> l in all
    ensures Adds(links, MoveEach(links, moved, target, now), MovedFrom(all, target, now))
  {
    if moved != [] {
      var front, last := moved[..|moved| - 1], moved[|moved| - 1];
      assert moved == front + [last];
      MoveEachAdds(links, front, all, target, now);
      var mid, right := MoveEach(links, front, target, now), MovedFrom(all, target, now);
      assert last in all && IsMovedFrom(if last.ended.None? then Link(target, last.item, last.createdBy, now, None) else last.(owner := target), last, target, now);
      if last.ended.None? {
        AttachAdds(mid, target, last.item, last.createdBy, now, right);
      } else {
        assert right(last.(owner := target));
      }
      AddsChain(links, mid, MoveEach(links, moved, target, now), right);
    }
  }

  /** A merge keeps the rows of all other tags as they are and adds rows that each come from a row of the source. */
  lemma {:induction false} MergeInColumns(links: seq<Link>, source: int, target: int, now: int)
    ensures Adds(Filter(links, (l: Link) => l.owner != source), Move(links, source, target, now),
                 MovedFrom(Filter(links, (l: Link) => l.owner == source), target, now))
  {
    FilterAgrees(links, NotOwnedBy(source), (l: Link) => l.owner != source);
    FilterAgrees(links, OwnedBy(source), (l: Link) => l.owner == source);
    MoveEachAdds(Filter(links, NotOwnedBy(source)), Filter(links, OwnedBy(source)), Filter(links, OwnedBy(source)), target, now);
  }

  // ---------------------------------------------------------------------
  // Settlement
  // ---------------------------------------------------------------------

  /** A row a carry-over adds: an open link of the fill, by the same creator, opened now on one of the trades. */
  ghost predicate IsCarried(r: Link, from: seq<Link>, trades: seq<int>, now: int) {
    && r.item.TradeItem? && r.item.id in trades && r.at == now && r.ended == None
    && exists l :: l in from && l.ended == None && l.owner == r.owner && l.createdBy == r.createdBy
  }

  ghost function Carried(from: seq<Link>, trades: seq<int>, now: int): Link -> bool {
    (r: Link) => IsCarried(r, from, trades, now)
  }

  lemma {:induction false} AttachAllAdds(links: seq<Link>, part: seq<Link>, from: seq<Link>, trade: int, trades: seq<int>, now: int)
    requires trade in trades && forall l :: l in part ==> l in from
    ensures Adds(links, AttachAll(links, part, TradeItem(trade), now), Carried(from, trades, now))
  {
    if part != [] {
      var front, last := part[..|part| - 1], part[|part| - 1];
      assert part == front + [last];
      AttachAllAdds(links, front, from, trade, trades, now);
      var mid := AttachAll(links, front, TradeItem(trade), now);
      if last.ended.None? {
        assert last in from && IsCarried(Link(last.owner, TradeItem(trade), last.createdBy, now, None), from, trades, now);
        AttachAdds(mid, last.owner, TradeItem(trade), last.createdBy, now, Carried(from, trades, now));
        AddsChain(links, mid, AttachAll(links, part, TradeItem(trade), now), Carried(from, trades, now));
      }
    }
  }

  lemma {:induction false} AttachToTradesAdds(links: seq<Link>, from: seq<Link>, part: seq<int>, trades: seq<int>, now: int)
    requires forall t :: t in part ==> t in trades
    ensures Adds(links, AttachToTrades(links, from, part, now), Carried(from, trades, now))
  {
    if part != [] {
      var front, last := part[..|part| - 1], part[|part| - 1];
      assert part == front + [last];
      AttachToTradesAdds(links, from, front, trades, now);
      var mid := AttachToTrades(links, from, front, now);
      AttachAllAdds(mid, from, from, last, trades, now);
      AddsChain(links, mid, AttachToTrades(links, from, part, now), Carried(from, trades, now));
    }
  }

  lemma {:induction false} KeptRowsAreAdded(links: seq<Link>, mid: seq<Link>, off: Link -> bool, right: Link -> bool)
    requires Adds(links, mid, right) && forall l :: right(l) ==> off(l)
    ensures Adds(Filter(links, off), Filter(mid, off), right)
  {
    var added := mid[|links|..];
    assert mid == links + added;
    forall l | l in added ensures off(l) {
      var i :| 0 <= i < |added| && added[i] == l;
      assert right(mid[|links| + i]);
    }
    FilterConcat(links, added, off);
    FilterAll(added, off);
    assert forall i :: 0 <= i < |added| ==> added[i] == mid[|links| + i];
  }

  /** Nothing moves without a trade; else every row off the fill stays as it is and each added one credits who tagged the fill. */
  lemma {:induction false} CarryOverInColumns(links: seq<Link>, id: ExecId, trades: seq<int>, now: int)
    ensures trades == [] ==> CarryOver(links, id, trades, now) == links
    ensures trades != [] ==>
      Adds(Filter(links, (l: Link) => l.item != LiveItem(id)), CarryOver(links, id, trades, now),
           Carried(Filter(links, (l: Link) => l.item == LiveItem(id)), trades, now))
  {
    if trades != [] {
      var off, item := NotOnItem(LiveItem(id)), LiveItem(id);
      FilterAgrees(links, OnItem(item), (l: Link) => l.item == LiveItem(id));
      FilterAgrees(links, off, (l: Link) => l.item != LiveItem(id));
      AttachToTradesAdds(links, Filter(links, OnItem(item)), trades, trades, now);
      KeptRowsAreAdded(links, AttachToTrades(links, Filter(links, OnItem(item)), trades, now), off, Carried(Filter(links, OnItem(item)), trades, now));
    }
  }

  // ---------------------------------------------------------------------
  // Order inheritance
  // ---------------------------------------------------------------------

  /** Who opened the owner's link on a fill: the creator of the last such row that is open. */
  ghost function CreatorOn(links: seq<Link>, id: ExecId, owner: int): Option<string> {
    if links == [] then None
    else
      var l := links[|links| - 1];
      if l.item == LiveItem(id) && l.ended == None && l.owner == owner then Some(l.createdBy) else CreatorOn(links[..|links| - 1], id, owner)
  }

  /** Who opened it on the order: on the last of its fills that has one. */
  ghost function CreatorInOrder(links: seq<Link>, fills: seq<Fill>, owner: int): Option<string> {
    if fills == [] then None
    else
      var last := CreatorOn(links, fills[|fills| - 1].0, owner);
      if last.Some? then last else CreatorInOrder(links, fills[..|fills| - 1], owner)
  }

  ghost predicate OnceEach(owners: Owners) {
    forall i, j :: 0 <= i < j < |owners| ==> owners[i].0 != owners[j].0
  }

  lemma {:induction false} PutInColumns(owners: Owners, owner: int, creator: string)
    requires OnceEach(owners)
    ensures OnceEach(Put(owners, owner, creator))
    ensures forall x, c :: (x, c) in Put(owners, owner, creator) <==> if x == owner then c == creator else (x, c) in owners
  {
    if owners != [] {
      var head, rest := owners[0], owners[1..];
      assert owners == [head] + rest;
      if head.0 == owner {
        assert forall p :: p in rest ==> p.0 != owner;
      } else {
        PutInColumns(rest, owner, creator);
        var after := Put(rest, owner, creator);
        assert Put(owners, owner, creator) == [head] + after;
        forall i | 0 <= i < |after| ensures after[i].0 != head.0 {
          assert (after[i].0, after[i].1) in after;
        }
      }
    }
  }

  lemma {:induction false} OwnersOnInColumns(links: seq<Link>, id: ExecId)
    ensures OnceEach(OwnersOn(links, id))
    ensures forall x, c :: (x, c) in OwnersOn(links, id) <==> CreatorOn(links, id, x) == Some(c)
  {
    if links != [] {
      OwnersOnInColumns(links[..|links| - 1], id);
      PutInColumns(OwnersOn(links[..|links| - 1], id), links[|links| - 1].owner, links[|links| - 1].createdBy);
    }
  }

  lemma {:induction false} UpdateInColumns(owners: Owners, more: Owners)
    requires OnceEach(owners) && OnceEach(more)
    ensures OnceEach(Update(owners, more))
    ensures forall x, c :: (x, c) in Update(owners, more) <==> if Has(more, x) then (x, c) in more else (x, c) in owners
  {
    if more != [] {
      var front, last := more[..|more| - 1], more[|more| - 1];
      assert more == front + [last];
      UpdateInColumns(owners, front);
      PutInColumns(Update(owners, front), last.0, last.1);
      forall x ensures Has(more, x) <==> Has(front, x) || last.0 == x {
        HasLast(more, x);
      }
      forall p | p in front ensures p.0 != last.0 {
        var i :| 0 <= i < |front| && front[i] == p;
        assert more[i] == p;
      }
    }
  }

  lemma {:induction false} HasMeans(owners: Owners, x: int)
    ensures Has(owners, x) <==> exists c :: (x, c) in owners
  {
    if Has(owners, x) {
      var i :| 0 <= i < |owners| && owners[i].0 == x;
      assert (x, owners[i].1) == owners[i];
    }
  }

  lemma {:induction false} OrderOwnersInColumns(links: seq<Link>, fills: seq<Fill>)
    ensures OnceEach(OrderOwners(links, fills))
    ensures forall x, c :: (x, c) in OrderOwners(links, fills) <==> CreatorInOrder(links, fills, x) == Some(c)
  {
    if fills != [] {
      var front, last := fills[..|fills| - 1], fills[|fills| - 1];
      OrderOwnersInColumns(links, front);
      OwnersOnInColumns(links, last.0);
      UpdateInColumns(OrderOwners(links, front), OwnersOn(links, last.0));
      forall x ensures Has(OwnersOn(links, last.0), x) <==> CreatorOn(links, last.0, x).Some? {
        HasMeans(OwnersOn(links, last.0), x);
        if CreatorOn(links, last.0, x).Some? { assert (x, CreatorOn(links, last.0, x).value) in OwnersOn(links, last.0); }
      }
    }
  }

  /** Two live fills of one order: one account and one perm id, or one order id where neither has a perm id. */
  ghost predicate AreOfOneOrder(f: Handoff.LiveFill, g: Handoff.LiveFill) {
    && f.account == g.account
    && if IsPresent(f.permId) || IsPresent(g.permId) then f.permId == g.permId else IsPresent(f.orderId) && f.orderId == g.orderId
  }

  lemma {:induction false} OrderInColumns(f: Handoff.LiveFill, g: Handoff.LiveFill)
    ensures LiveOrderKey(f).Some? && LiveOrderKey(g) == LiveOrderKey(f) <==> AreOfOneOrder(f, g)
  {}

  ghost function OfOrderOf(f: Handoff.LiveFill): Fill -> bool {
    (g: Fill) => AreOfOneOrder(f, g.1)
  }

  /** A row the hook adds: opened now on a live fill, for an owner that another fill of the order has, crediting who opened it there. */
  ghost predicate IsInherited(r: Link, links: seq<Link>, lives: seq<Fill>, now: int) {
    && r.item.LiveItem? && r.at == now && r.ended == None && CreatorOn(links, r.item.execId, r.owner) == None
    && exists f :: f in lives && f.0 == r.item.execId && CreatorInOrder(links, Filter(lives, OfOrderOf(f.1)), r.owner) == Some(r.createdBy)
  }

  ghost function Inherited(links: seq<Link>, lives: seq<Fill>, now: int): Link -> bool {
    (r: Link) => IsInherited(r, links, lives, now)
  }

  lemma {:induction false} FillsInColumns(lives: seq<Fill>, f: Fill, key: Key)
    requires LiveOrderKey(f.1) == Some(key)
    ensures FillsOf(lives, key) == Filter(lives, OfOrderOf(f.1))
  {
    forall g | g in lives ensures OfOrder(key)(g) == OfOrderOf(f.1)(g) {
      OrderInColumns(f.1, g.1);
    }
    FilterAgrees(lives, OfOrder(key), OfOrderOf(f.1));
  }

  lemma {:induction false} InheritFillAdds(links: seq<Link>, before: seq<Link>, lives: seq<Fill>, f: Fill, key: Key, owners: Owners, now: int)
    requires f in lives && LiveOrderKey(f.1) == Some(key) && forall p :: p in owners ==> p in OrderOwners(before, FillsOf(lives, key))
    ensures Adds(links, InheritFill(links, before, f.0, owners, now), Inherited(before, lives, now))
  {
    if owners != [] {
      var front, last := owners[..|owners| - 1], owners[|owners| - 1];
      assert owners == front + [last];
      InheritFillAdds(links, before, lives, f, key, front, now);
      var mid := InheritFill(links, before, f.0, front, now);
      if !Has(OwnersOn(before, f.0), last.0) {
        InheritedRow(before, lives, f, key, last, now);
        AttachAdds(mid, last.0, LiveItem(f.0), last.1, now, Inherited(before, lives, now));
        AddsChain(links, mid, InheritFill(links, before, f.0, owners, now), Inherited(before, lives, now));
      }
    }
  }

  lemma {:induction false} InheritedRow(before: seq<Link>, lives: seq<Fill>, f: Fill, key: Key, p: (int, string), now: int)
    requires f in lives && LiveOrderKey(f.1) == Some(key) && p in OrderOwners(before, FillsOf(lives, key)) && !Has(OwnersOn(before, f.0), p.0)
    ensures IsInherited(Link(p.0, LiveItem(f.0), p.1, now, None), before, lives, now)
  {
    FillsInColumns(lives, f, key);
    OrderOwnersInColumns(before, FillsOf(lives, key));
    assert (p.0, p.1) in OrderOwners(before, FillsOf(lives, key));
    OwnersOnInColumns(before, f.0);
    HasMeans(OwnersOn(before, f.0), p.0);
    if CreatorOn(before, f.0, p.0).Some? { assert (p.0, CreatorOn(before, f.0, p.0).value) in OwnersOn(before, f.0); }
  }

  lemma {:induction false} InheritOrderAdds(links: seq<Link>, before: seq<Link>, lives: seq<Fill>, key: Key, fills: seq<Fill>, now: int)
    requires forall f :: f in fills ==> f in FillsOf(lives, key)
    ensures Adds(links, InheritOrder(links, before, fills, OrderOwners(before, FillsOf(lives, key)), now), Inherited(before, lives, now))
  {
    var owners := OrderOwners(before, FillsOf(lives, key));
    if fills != [] {
      var front, last := fills[..|fills| - 1], fills[|fills| - 1];
      assert fills == front + [last];
      InheritOrderAdds(links, before, lives, key, front, now);
      var mid := InheritOrder(links, before, front, owners, now);
      assert last in FillsOf(lives, key);
      InheritFillAdds(mid, before, lives, last, key, owners, now);
      AddsChain(links, mid, InheritOrder(links, before, fills, owners, now), Inherited(before, lives, now));
    }
  }

  lemma {:induction false} InheritKeysAdds(links: seq<Link>, before: seq<Link>, lives: seq<Fill>, keys: seq<Key>, now: int)
    ensures Adds(links, InheritKeys(links, before, lives, keys, now), Inherited(before, lives, now))
  {
    if keys != [] {
      var front, key := keys[..|keys| - 1], keys[|keys| - 1];
      InheritKeysAdds(links, before, lives, front, now);
      var mid, fills := InheritKeys(links, before, lives, front, now), FillsOf(lives, key);
      if |fills| > 1 {
        InheritOrderAdds(mid, before, lives, key, fills, now);
        AddsChain(links, mid, InheritKeys(links, before, lives, keys, now), Inherited(before, lives, now));
      }
    }
  }

  /** Inheritance changes no row and adds only links the order has on another fill, crediting who opened the last of them. */
  lemma {:induction false} InheritInColumns(links: seq<Link>, lives: seq<Fill>, now: int)
    ensures Adds(links, Inherit(links, lives, now), Inherited(links, lives, now))
  {
    InheritKeysAdds(links, links, lives, OrderKeys(lives), now);
  }

  // ---------------------------------------------------------------------
  // Flat positions
  // ---------------------------------------------------------------------

  /** The snapshot that speaks for an account: its own when dated, else the newest of all; at least as new as the Chicago day of the link. */
  ghost predicate IsProvenBy(s: Snapshot, account: int, day: int) {
    if account in s.dates && s.dates[account].Some? then s.dates[account].value >= day
    else s.latest.Some? && s.latest.value >= day
  }

  /** Exactly the open links of positions held nowhere end, now, where the snapshot proves it; every other row stays as it is. */
  lemma {:induction false} EndFlatInColumns(links: seq<Link>, s: Snapshot, clock: Clock)
    ensures var after := EndFlat(links, s, clock);
      && |after| == |links|
      && forall i :: 0 <= i < |links| ==>
           var l := links[i];
           after[i] == if l.item.PositionItem? && l.ended == None && (l.item.account, l.item.conId) !in s.held
                          && IsProvenBy(s, l.item.account, DateOf(clock.chicago, l.at))
                       then l.(ended := Some(clock.now)) else l
  {}
}
