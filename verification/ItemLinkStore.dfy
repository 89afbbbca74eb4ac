/** The link tables updated in place, each operation proved against the functions of ItemLinks. */
module ItemLinkStore {
  import opened Common
  import opened Calendar
  import Handoff
  import opened ItemLinks

  /** The row removed: its first occurrence, identical rows being interchangeable. */
  function Without(links: seq<Link>, l: Link): seq<Link> {
    if links == [] then []
    else if links[0] == l then links[1..]
    else [links[0]] + Without(links[1..], l)
  }

  lemma {:induction false} FilterFirst<T(!new)>(xs: seq<T>, p: T -> bool)
    requires xs != []
    ensures Filter(xs, p) == (if p(xs[0]) then [xs[0]] else []) + Filter(xs[1..], p)
  {
    assert xs == [xs[0]] + xs[1..];
    FilterConcat([xs[0]], xs[1..], p);
    FilterOne(xs[0], p);
  }

  lemma {:induction false} FilterCons<T(!new)>(x: T, xs: seq<T>, p: T -> bool)
    ensures Filter([x] + xs, p) == (if p(x) then [x] else []) + Filter(xs, p)
  {
    FilterFirst([x] + xs, p);
    assert ([x] + xs)[1..] == xs;
  }

  /** Removing the first row a filter keeps leaves the rest of what it keeps. */
  lemma {:induction false} WithoutFirstKept(links: seq<Link>, l: Link, p: Link -> bool)
    requires Filter(links, p) != [] && Filter(links, p)[0] == l
    ensures Filter(Without(links, l), p) == Filter(links, p)[1..]
  {
    FilterFirst(links, p);
    assert l in Filter(links, p);
    if links[0] != l {
      WithoutFirstKept(links[1..], l, p);
      FilterCons(links[0], Without(links[1..], l), p);
    }
  }

  /** Removing a row leaves what a filter keeps when the filter drops that row. */
  lemma {:induction false} WithoutDropped(links: seq<Link>, l: Link, q: Link -> bool)
    requires !q(l)
    ensures Filter(Without(links, l), q) == Filter(links, q)
  {
    if links != [] {
      FilterFirst(links, q);
      if links[0] != l {
        WithoutDropped(links[1..], l, q);
        FilterCons(links[0], Without(links[1..], l), q);
      }
    }
  }

  lemma WithoutProperty(links: seq<Link>, l: Link, p: Link -> bool, q: Link -> bool)
    requires Filter(links, p) != [] && Filter(links, p)[0] == l && forall x :: p(x) <==> !q(x)
    ensures Filter(Without(links, l), p) == Filter(links, p)[1..]
    ensures Filter(Without(links, l), q) == Filter(links, q)
  {
    assert l in Filter(links, p);
    WithoutFirstKept(links, l, p);
    WithoutDropped(links, l, q);
  }

  lemma NothingDropped(links: seq<Link>, p: Link -> bool, q: Link -> bool)
    requires Filter(links, p) == [] && forall x :: p(x) <==> !q(x)
    ensures Filter(links, q) == links
  {
    forall l | l in links ensures q(l) {
      assert p(l) ==> l in Filter(links, p);
    }
    FilterAll(links, q);
  }

  // ---------------------------------------------------------------------
  // One step at a time
  // ---------------------------------------------------------------------

  lemma DetachStep(links: seq<Link>, i: nat, owner: int, item: Item)
    requires i < |links|
    ensures Detach(links[..i + 1], owner, item) == Detach(links[..i], owner, item) + if IsOpen(links[i], owner, item) then [] else [links[i]]
  {
    FilterStep(links, i, (l: Link) => !IsOpen(l, owner, item));
  }

  lemma MoveStep(links: seq<Link>, moved: seq<Link>, i: nat, target: int, now: int)
    requires i < |moved|
    ensures MoveEach(links, moved[..i + 1], target, now) == MoveOne(MoveEach(links, moved[..i], target, now), moved[i], target, now)
  {
    assert moved[..i + 1][..i] == moved[..i];
  }

  /** One merge step on the whole table: what it does to the other rows is what it does to them alone. */
  lemma MoveBeside(links: seq<Link>, l: Link, source: int, target: int, now: int)
    requires source != target
    ensures Filter(MoveOne(links, l, target, now), NotOwnedBy(source)) == MoveOne(Filter(links, NotOwnedBy(source)), l, target, now)
    ensures Filter(MoveOne(links, l, target, now), OwnedBy(source)) == Filter(links, OwnedBy(source))
    ensures |MoveOne(Filter(links, NotOwnedBy(source)), l, target, now)| - |Filter(links, NotOwnedBy(source))| == |MoveOne(links, l, target, now)| - |links|
  {
    MoveOneProperty(links, l, target, now);
    var others := Filter(links, NotOwnedBy(source));
    FilteredOpens(links, NotOwnedBy(source), (o, i) => o != source);
    HasOpenMeans(links, target, l.item);
    HasOpenMeans(others, target, l.item);
    FilterAppend(links, Link(target, l.item, l.createdBy, now, None), NotOwnedBy(source));
    FilterAppend(links, l.(owner := target), NotOwnedBy(source));
  }

  lemma AttachAllStep(links: seq<Link>, from: seq<Link>, i: nat, item: Item, now: int)
    requires i < |from|
    ensures var done := AttachAll(links, from[..i], item, now);
      AttachAll(links, from[..i + 1], item, now) ==
        if from[i].ended.None? then Attach(done, from[i].owner, item, from[i].createdBy, now) else done
  {
    assert from[..i + 1][..i] == from[..i];
  }

  lemma AttachToTradesStep(links: seq<Link>, from: seq<Link>, trades: seq<int>, i: nat, now: int)
    requires i < |trades|
    ensures AttachToTrades(links, from, trades[..i + 1], now) == AttachAll(AttachToTrades(links, from, trades[..i], now), from, TradeItem(trades[i]), now)
  {
    assert trades[..i + 1][..i] == trades[..i];
  }

  /** A carry-over of a fill without links changes nothing. */
  lemma NothingToCarry(links: seq<Link>, id: Handoff.ExecId, trades: seq<int>, now: int)
    requires Filter(links, OnItem(LiveItem(id))) == []
    ensures CarryOver(links, id, trades, now) == links
  {
    NothingAttached(links, trades, now);
    NothingDropped(links, OnItem(LiveItem(id)), NotOnItem(LiveItem(id)));
  }

  lemma {:induction false} NothingAttached(links: seq<Link>, trades: seq<int>, now: int)
    ensures AttachToTrades(links, [], trades, now) == links
  {
    if trades != [] { NothingAttached(links, trades[..|trades| - 1], now); }
  }

  /** Rows added on trades are not rows of the live fill. */
  lemma {:induction false} AttachBesideLive(links: seq<Link>, from: seq<Link>, item: Item, live: Item, now: int)
    requires item != live
    ensures Filter(AttachAll(links, from, item, now), OnItem(live)) == Filter(links, OnItem(live))
  {
    if from != [] {
      var l := from[|from| - 1];
      var done := AttachAll(links, from[..|from| - 1], item, now);
      AttachBesideLive(links, from[..|from| - 1], item, live, now);
      FilterAppend(done, Link(l.owner, item, l.createdBy, now, None), OnItem(live));
    }
  }

  lemma InheritFillStep(links: seq<Link>, before: seq<Link>, id: Handoff.ExecId, owners: Owners, i: nat, now: int)
    requires i < |owners|
    ensures var done := InheritFill(links, before, id, owners[..i], now);
      InheritFill(links, before, id, owners[..i + 1], now) ==
        if Has(OwnersOn(before, id), owners[i].0) then done else Attach(done, owners[i].0, LiveItem(id), owners[i].1, now)
  {
    assert owners[..i + 1][..i] == owners[..i];
  }

  lemma InheritOrderStep(links: seq<Link>, before: seq<Link>, fills: seq<Fill>, i: nat, owners: Owners, now: int)
    requires i < |fills|
    ensures InheritOrder(links, before, fills[..i + 1], owners, now)
         == InheritFill(InheritOrder(links, before, fills[..i], owners, now), before, fills[i].0, owners, now)
  {
    assert fills[..i + 1][..i] == fills[..i];
  }

  lemma InheritKeysStep(links: seq<Link>, before: seq<Link>, lives: seq<Fill>, keys: seq<Key>, i: nat, now: int)
    requires i < |keys|
    ensures var done, fills := InheritKeys(links, before, lives, keys[..i], now), FillsOf(lives, keys[i]);
      InheritKeys(links, before, lives, keys[..i + 1], now) ==
        if |fills| > 1 then InheritOrder(done, before, fills, OrderOwners(before, fills), now) else done
  {
    assert keys[..i + 1][..i] == keys[..i];
  }

  /** One of the two link tables. */
  class LinkTable {
    var links: seq<Link>

    constructor ()
      ensures links == []
    {
      links := [];
    }

    /** Open a link unless one is already open. */
    method AttachLink(owner: int, item: Item, creator: string, now: int) returns (added: bool)
      modifies this
      ensures links == Attach(old(links), owner, item, creator, now)
      ensures added <==> !HasOpen(old(links), owner, item)
      ensures |links| == |old(links)| + if added then 1 else 0
    {
      added := !HasOpen(links, owner, item);
      if added {
        links := links + [Link(owner, item, creator, now, None)];
      }
    }

    /** Remove the open link of an owner from an item. */
    method DetachLink(owner: int, item: Item) returns (removed: nat)
      modifies this
      ensures links == Detach(old(links), owner, item) && removed == |old(links)| - |links|
    {
      var kept: seq<Link> := [];
      removed := 0;
      for i := 0 to |links|
        invariant links == old(links)
        invariant kept == Detach(links[..i], owner, item) && removed + |kept| == i
      {
        DetachStep(links, i, owner, item);
        if IsOpen(links[i], owner, item) {
          removed := removed + 1;
        } else {
          kept := kept + [links[i]];
        }
      }
      assert links[..|links|] == links;
      links := kept;
    }

    method Delete(l: Link)
      modifies this
      ensures links == Without(old(links), l)
    {
      links := Without(links, l);
    }

    method MoveLink(l: Link, target: int, now: int) returns (moved: nat)
      modifies this
      ensures links == MoveOne(old(links), l, target, now) && |links| == |old(links)| + moved
    {
      if l.ended.None? {
        var added := AttachLink(target, l.item, l.createdBy, now);
        moved := if added then 1 else 0;
      } else {
        links := links + [l.(owner := target)];
        moved := 1;
      }
    }

    /** Merge: re-point every link of one owner at another, deleting each source row as it is moved. */
    method MoveTagLinks(source: int, target: int, now: int) returns (moved: nat)
      requires source != target
      modifies this
      ensures links == Move(old(links), source, target, now)
      ensures moved == |links| - |Filter(old(links), NotOwnedBy(source))|
    {
      moved := 0;
      var rows := Filter(links, OwnedBy(source));
      ghost var others := Filter(links, NotOwnedBy(source));
      for i := 0 to |rows|
        invariant Filter(links, NotOwnedBy(source)) == MoveEach(others, rows[..i], target, now)
        invariant Filter(links, OwnedBy(source)) == rows[i..]
        invariant |Filter(links, NotOwnedBy(source))| == |others| + moved
      {
        MoveStep(others, rows, i, target, now);
        MoveBeside(links, rows[i], source, target, now);
        var n := MoveLink(rows[i], target, now);
        moved := moved + n;
        WithoutProperty(links, rows[i], OwnedBy(source), NotOwnedBy(source));
        Delete(rows[i]);
      }
      assert rows[..|rows|] == rows;
      NothingDropped(links, OwnedBy(source), NotOwnedBy(source));
    }

    method AttachOwners(from: seq<Link>, item: Item, now: int) returns (added: nat)
      modifies this
      ensures links == AttachAll(old(links), from, item, now) && |links| == |old(links)| + added
    {
      added := 0;
      for i := 0 to |from|
        invariant links == AttachAll(old(links), from[..i], item, now) && |links| == |old(links)| + added
      {
        AttachAllStep(old(links), from, i, item, now);
        if from[i].ended.None? {
          var n := AttachLink(from[i].owner, item, from[i].createdBy, now);
          added := added + if n then 1 else 0;
        }
      }
      assert from[..|from|] == from;
    }

    /** Move a live fill's links onto the settled trades, then delete them one by one. */
    method CarryOverLinks(id: Handoff.ExecId, trades: seq<int>, now: int) returns (added: nat)
      modifies this
      ensures links == CarryOver(old(links), id, trades, now)
      ensures added == |AttachToTrades(old(links), Filter(old(links), OnItem(LiveItem(id))), trades, now)| - |old(links)|
    {
      added := 0;
      var live := LiveItem(id);
      var rows := Filter(links, OnItem(live));
      if rows == [] {
        NothingToCarry(links, id, trades, now);
        NothingAttached(links, trades, now);
        return;
      }
      if trades == [] {
        return;
      }
      for i := 0 to |trades|
        invariant links == AttachToTrades(old(links), rows, trades[..i], now)
        invariant Filter(links, OnItem(live)) == rows && |links| == |old(links)| + added
      {
        AttachToTradesStep(old(links), rows, trades, i, now);
        AttachBesideLive(links, rows, TradeItem(trades[i]), live, now);
        var n := AttachOwners(rows, TradeItem(trades[i]), now);
        added := added + n;
      }
      assert trades[..|trades|] == trades;
      DeleteRows(rows, live);
    }

    method DeleteRows(rows: seq<Link>, live: Item)
      requires Filter(links, OnItem(live)) == rows
      modifies this
      ensures links == Filter(old(links), NotOnItem(live))
    {
      for i := 0 to |rows|
        invariant Filter(links, OnItem(live)) == rows[i..]
        invariant Filter(links, NotOnItem(live)) == Filter(old(links), NotOnItem(live))
      {
        WithoutProperty(links, rows[i], OnItem(live), NotOnItem(live));
        Delete(rows[i]);
      }
      NothingDropped(links, OnItem(live), NotOnItem(live));
    }

    method InheritOnFill(before: seq<Link>, id: Handoff.ExecId, owners: Owners, now: int) returns (added: nat)
      modifies this
      ensures links == InheritFill(old(links), before, id, owners, now) && |links| == |old(links)| + added
    {
      added := 0;
      var have := OwnersOn(before, id);
      for i := 0 to |owners|
        invariant links == InheritFill(old(links), before, id, owners[..i], now) && |links| == |old(links)| + added
      {
        InheritFillStep(old(links), before, id, owners, i, now);
        if !Has(have, owners[i].0) {
          var n := AttachLink(owners[i].0, LiveItem(id), owners[i].1, now);
          added := added + if n then 1 else 0;
        }
      }
      assert owners[..|owners|] == owners;
    }

    method InheritOnOrder(before: seq<Link>, fills: seq<Fill>, now: int) returns (added: nat)
      modifies this
      ensures links == InheritOrder(old(links), before, fills, OrderOwners(before, fills), now) && |links| == |old(links)| + added
    {
      added := 0;
      var owners: Owners := [];
      for i := 0 to |fills|
        invariant owners == OrderOwners(before, fills[..i]) && links == old(links)
      {
        assert fills[..i + 1][..i] == fills[..i];
        owners := Update(owners, OwnersOn(before, fills[i].0));
      }
      assert fills[..|fills|] == fills;
      for i := 0 to |fills|
        invariant links == InheritOrder(old(links), before, fills[..i], owners, now) && |links| == |old(links)| + added
      {
        InheritOrderStep(old(links), before, fills, i, owners, now);
        var n := InheritOnFill(before, fills[i].0, owners, now);
        added := added + n;
      }
    }

    /** Spread the owners over each order with several live fills; the number of links added is reported. */
    method InheritOrderLinks(lives: seq<Fill>, now: int) returns (added: nat)
      modifies this
      ensures links == Inherit(old(links), lives, now) && added == |links| - |old(links)|
    {
      added := 0;
      var before, keys := links, OrderKeys(lives);
      for i := 0 to |keys|
        invariant links == InheritKeys(before, before, lives, keys[..i], now) && |links| == |before| + added
      {
        InheritKeysStep(before, before, lives, keys, i, now);
        var fills := FillsOf(lives, keys[i]);
        if |fills| > 1 {
          var n := InheritOnOrder(before, fills, now);
          added := added + n;
        }
      }
      assert keys[..|keys|] == keys;
    }

    /** End the open tags of positions that are flat in a recent enough snapshot. */
    method EndFlatPositionTags(s: Snapshot, clock: Clock) returns (ended: nat)
      modifies this
      ensures links == EndFlat(old(links), s, clock)
      ensures ended == Count(old(links), (l: Link) => IsFlat(l, s, clock))
    {
      ended := 0;
      for i := 0 to |links|
        invariant |links| == |old(links)|
        invariant forall j :: 0 <= j < i ==> links[j] == EndIfFlat(s, clock)(old(links)[j])
        invariant forall j :: i <= j < |links| ==> links[j] == old(links)[j]
        invariant ended == Count(old(links)[..i], (l: Link) => IsFlat(l, s, clock))
      {
        assert old(links)[..i + 1][..i] == old(links)[..i];
        var l := links[i];
        if l.item.PositionItem? && l.ended.None? && (l.item.account, l.item.conId) !in s.held {
          var snapshot := DateFor(s, l.item.account);
          if snapshot.Some? && snapshot.value >= DateOf(clock.chicago, l.at) {
            links := links[i := l.(ended := Some(clock.now))];
            ended := ended + 1;
          }
        }
      }
      assert old(links)[..|old(links)|] == old(links);
      assert links == EndFlat(old(links), s, clock);
    }
  }
}
