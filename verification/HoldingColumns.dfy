/** What a group holds of a contract, as sums over the fills themselves. */
module HoldingColumns {
  import opened Common
  import opened Holdings

  /** A sale is negative, any other side positive, and without a side the quantity is signed already. */
  ghost predicate IsSigned(side: Option<string>, quantity: real, x: real) {
    match side
    case None => x == quantity
    case Some(s) => (x == quantity || x == -quantity) && if s == "SLD" || s == "SELL" then x <= 0.0 else x >= 0.0
  }

  /** A canonical settled fill of the contract that is no summary. */
  ghost predicate IsHeldFill(e: LedgerFill, key: Pair) {
    e.account == key.0 && e.conId == Some(key.1) && e.canonical && (e.role == Leg || e.role == Standalone)
  }

  ghost predicate IsHeldLive(e: LiveFill, key: Pair) {
    e.account == key.0 && e.conId == Some(key.1) && (e.role == Leg || e.role == Standalone)
  }

  /** What opens the holding: every fill not marked as a close. */
  ghost function Opens(key: Pair): LedgerFill -> bool {
    (e: LedgerFill) => IsHeldFill(e, key) && e.lifecycle != Some(Close)
  }

  /** What unwinds it: the closes against the direction it was opened in. */
  ghost function Unwinds(key: Pair, opening: real): LedgerFill -> bool {
    (e: LedgerFill) => IsHeldFill(e, key) && e.lifecycle == Some(Close) && Signed(e) * opening < 0.0
  }

  ghost function OpensLive(key: Pair): LiveFill -> bool {
    (e: LiveFill) => IsHeldLive(e, key)
  }

  function Signed(e: LedgerFill): real { SignedQuantity(e.side, e.quantity) }

  function SignedLive(e: LiveFill): real { SignedQuantity(e.side, e.quantity) }

  lemma {:induction false} SignInColumns(side: Option<string>, quantity: real)
    ensures IsSigned(side, quantity, SignedQuantity(side, quantity))
  {}

  /** The opened quantity less what unwinds it, and nothing once it is unwound. */
  ghost predicate IsRest(held: real, opening: real, unwound: real) {
    if (opening > 0.0 && opening + unwound > 0.0) || (opening < 0.0 && opening + unwound < 0.0) then held == opening + unwound else held == 0.0
  }

  lemma {:induction false} RestInColumns(opening: real, unwound: real)
    ensures IsRest(NoFlip(opening + unwound, opening), opening, unwound)
  {}

  lemma {:induction false} OneMoreLot(lots: seq<Lot>, lot: Lot, g: Lot -> real)
    ensures Sum(lots + [lot], g) == Sum(lots, g) + g(lot)
  {
    assert (lots + [lot])[..|lots|] == lots;
  }

  lemma {:induction false} LotOf(e: LedgerFill, key: Pair, opening: real)
    requires IsHeldFill(e, key)
    ensures OpenQuantity(Lot(Signed(e), e.lifecycle)) == if Opens(key)(e) then Signed(e) else 0.0
    ensures CloseQuantity(opening, Lot(Signed(e), e.lifecycle)) == if Unwinds(key, opening)(e) then Signed(e) else 0.0
  {}

  lemma {:induction false} OneMoreSettled(front: seq<LedgerFill>, last: LedgerFill, key: Pair)
    ensures SettledLots(front + [last], key) == SettledLots(front, key) + if IsHeldFill(last, key) then [Lot(Signed(last), last.lifecycle)] else []
  {
    assert (front + [last])[..|front|] == front;
  }

  lemma {:induction false} OneMoreLive(front: seq<LiveFill>, last: LiveFill, key: Pair)
    ensures LiveLots(front + [last], key) == LiveLots(front, key) + if IsHeldLive(last, key) then [Lot(SignedLive(last), None)] else []
  {
    assert (front + [last])[..|front|] == front;
  }

  lemma {:induction false} NextSum<T(!new)>(front: seq<T>, last: T, p: T -> bool, f: T -> real, lots: seq<Lot>, lot: Lot, isLot: bool, g: Lot -> real)
    requires Sum(lots, g) == Sum(Filter(front, p), f)
    requires if isLot then g(lot) == if p(last) then f(last) else 0.0 else !p(last)
    ensures Sum(lots + if isLot then [lot] else [], g) == Sum(Filter(front + [last], p), f)
  {
    SumOfOneMore(front, last, p, f);
    if isLot {
      OneMoreLot(lots, lot, g);
    } else {
      assert lots + [] == lots;
    }
  }

  /** The lot of a fill measures its signed quantity when the fill satisfies `p`, which only held fills do, and nothing otherwise. */
  ghost predicate Measures(g: Lot -> real, p: LedgerFill -> bool, key: Pair, e: LedgerFill) {
    if IsHeldFill(e, key) then g(Lot(Signed(e), e.lifecycle)) == if p(e) then Signed(e) else 0.0 else !p(e)
  }

  lemma {:induction false} SumOfSettledLots(execs: seq<LedgerFill>, key: Pair, g: Lot -> real, p: LedgerFill -> bool)
    requires forall e :: e in execs ==> Measures(g, p, key, e)
    ensures Sum(SettledLots(execs, key), g) == Sum(Filter(execs, p), Signed)
  {
    if execs != [] {
      var front, last := execs[..|execs| - 1], execs[|execs| - 1];
      assert execs == front + [last];
      assert last in execs && forall e :: e in front ==> e in execs;
      SumOfSettledLots(front, key, g, p);
      OneMoreSettled(front, last, key);
      assert Measures(g, p, key, last);
      NextSum(front, last, p, Signed, SettledLots(front, key), Lot(Signed(last), last.lifecycle), IsHeldFill(last, key), g);
    }
  }

  lemma {:induction false} SettledSums(execs: seq<LedgerFill>, key: Pair, opening: real)
    ensures Opened(SettledLots(execs, key)) == Sum(Filter(execs, Opens(key)), Signed)
    ensures Closed(SettledLots(execs, key), opening) == Sum(Filter(execs, Unwinds(key, opening)), Signed)
  {
    var close := (l: Lot) => CloseQuantity(opening, l);
    forall e | e in execs ensures Measures(OpenQuantity, Opens(key), key, e) && Measures(close, Unwinds(key, opening), key, e) {
      if IsHeldFill(e, key) { LotOf(e, key, opening); }
    }
    SumOfSettledLots(execs, key, OpenQuantity, Opens(key));
    SumOfSettledLots(execs, key, close, Unwinds(key, opening));
  }

  ghost predicate MeasuresLive(g: Lot -> real, p: LiveFill -> bool, key: Pair, e: LiveFill) {
    if IsHeldLive(e, key) then g(Lot(SignedLive(e), None)) == if p(e) then SignedLive(e) else 0.0 else !p(e)
  }

  lemma {:induction false} SumOfLiveLots(fills: seq<LiveFill>, key: Pair, g: Lot -> real, p: LiveFill -> bool)
    requires forall e :: e in fills ==> MeasuresLive(g, p, key, e)
    ensures Sum(LiveLots(fills, key), g) == Sum(Filter(fills, p), SignedLive)
  {
    if fills != [] {
      var front, last := fills[..|fills| - 1], fills[|fills| - 1];
      assert fills == front + [last];
      assert last in fills && forall e :: e in front ==> e in fills;
      SumOfLiveLots(front, key, g, p);
      OneMoreLive(front, last, key);
      assert MeasuresLive(g, p, key, last);
      NextSum(front, last, p, SignedLive, LiveLots(front, key), Lot(SignedLive(last), None), IsHeldLive(last, key), g);
    }
  }

  lemma {:induction false} LiveSums(fills: seq<LiveFill>, key: Pair, opening: real)
    ensures Opened(LiveLots(fills, key)) == Sum(Filter(fills, OpensLive(key)), SignedLive)
    ensures Closed(LiveLots(fills, key), opening) == 0.0
  {
    var close, never := (l: Lot) => CloseQuantity(opening, l), (e: LiveFill) => false;
    SumOfLiveLots(fills, key, OpenQuantity, OpensLive(key));
    SumOfLiveLots(fills, key, close, never);
    FilterNone(fills, never);
  }

  lemma {:induction false} LotsOfBoth(a: seq<Lot>, b: seq<Lot>, opening: real)
    ensures Opened(a + b) == Opened(a) + Opened(b) && Closed(a + b, opening) == Closed(a, opening) + Closed(b, opening)
  {
    SumOfConcat(a, b, OpenQuantity);
    SumOfConcat(a, b, (l: Lot) => CloseQuantity(opening, l));
  }

  /** The settled holding of a contract: what its fills opened, less the closes against it. */
  lemma {:induction false} SettledHoldingInColumns(execs: seq<LedgerFill>, fills: seq<LiveFill>, key: Pair)
    ensures var held, opening := HoldingsOf(execs, fills).settled, Sum(Filter(execs, Opens(key)), Signed);
      && (key in held <==> exists e :: e in execs && IsHeldFill(e, key))
      && (key in held ==> IsRest(held[key], opening, Sum(Filter(execs, Unwinds(key, opening)), Signed)))
  {
    var opening := Sum(Filter(execs, Opens(key)), Signed);
    SettledSums(execs, key, opening);
    RestInColumns(opening, Closed(SettledLots(execs, key), opening));
    KeyInColumns(execs, key);
  }

  lemma {:induction false} KeyInColumns(execs: seq<LedgerFill>, key: Pair)
    ensures key in SettledKeys(execs) <==> exists e :: e in execs && IsHeldFill(e, key)
  {
    if e :| e in execs && IsHeldFill(e, key) {
      assert (e.account, e.conId.value) == key;
    }
  }

  lemma {:induction false} LiveKeyInColumns(fills: seq<LiveFill>, key: Pair)
    ensures key in LiveKeys(fills) <==> exists e :: e in fills && IsHeldLive(e, key)
  {
    if e :| e in fills && IsHeldLive(e, key) {
      assert (e.account, e.conId.value) == key;
    }
  }

  lemma {:induction false} NetOfBoth(execs: seq<LedgerFill>, fills: seq<LiveFill>, key: Pair, opening: real)
    requires opening == Sum(Filter(execs, Opens(key)), Signed) + Sum(Filter(fills, OpensLive(key)), SignedLive)
    ensures IsRest(NetHeld(SettledLots(execs, key) + LiveLots(fills, key)), opening, Sum(Filter(execs, Unwinds(key, opening)), Signed))
  {
    var settled, live := SettledLots(execs, key), LiveLots(fills, key);
    SettledSums(execs, key, opening);
    LiveSums(fills, key, opening);
    LotsOfBoth(settled, live, opening);
    RestInColumns(opening, Closed(settled + live, opening));
  }

  /** With the unsettled fills, each of which opens. */
  lemma {:induction false} TotalHoldingInColumns(execs: seq<LedgerFill>, fills: seq<LiveFill>, key: Pair)
    ensures var held := HoldingsOf(execs, fills).total;
      var opening := Sum(Filter(execs, Opens(key)), Signed) + Sum(Filter(fills, OpensLive(key)), SignedLive);
      && (key in held <==> (exists e :: e in execs && IsHeldFill(e, key)) || exists e :: e in fills && IsHeldLive(e, key))
      && (key in held ==> IsRest(held[key], opening, Sum(Filter(execs, Unwinds(key, opening)), Signed)))
  {
    NetOfBoth(execs, fills, key, Sum(Filter(execs, Opens(key)), Signed) + Sum(Filter(fills, OpensLive(key)), SignedLive));
    KeyInColumns(execs, key);
    LiveKeyInColumns(fills, key);
  }
}
