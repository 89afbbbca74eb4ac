/** How much of an account position a trade group holds through its own fills. */
module Holdings {
  import opened Common

  /** Account and contract. */
  type Pair = (int, int)

  datatype Lifecycle = Open | Close

  /** A settled fill assigned to a group, with its lifecycle and realized PnL already read from the payload. */
  datatype LedgerFill = LedgerFill(
    execId: string, account: int, conId: Option<int>, role: Role, canonical: bool,
    side: Option<string>, quantity: real, lifecycle: Option<Lifecycle>, realized: Option<real>)

  datatype LiveFill = LiveFill(
    execId: string, account: int, conId: Option<int>, role: Role, side: Option<string>, quantity: real, realized: Option<real>)

  /** A signed fill quantity with its open or close indicator. */
  datatype Lot = Lot(quantity: real, lifecycle: Option<Lifecycle>)

  /** Signed quantity a group holds per pair: from settled fills only, and with its unsettled fills. */
  datatype GroupHoldings = GroupHoldings(settled: map<Pair, real>, total: map<Pair, real>)

  function Lookup<K, V>(m: map<K, V>, k: K): Option<V> {
    if k in m then Some(m[k]) else None
  }

  /** FlexQuery stores quantities signed, TWS unsigned with a side. */
  function SignedQuantity(side: Option<string>, quantity: real): real {
    match side
    case None => quantity
    case Some(s) => if s == "SLD" || s == "SELL" then -Abs(quantity) else Abs(quantity)
  }

  function OpenQuantity(lot: Lot): real {
    if lot.lifecycle == Some(Close) then 0.0 else lot.quantity
  }

  /** The part of a close that unwinds the given opening; a close in the opening's own direction unwinds nothing. */
  function CloseQuantity(opening: real, lot: Lot): real {
    if lot.lifecycle == Some(Close) && lot.quantity * opening < 0.0 then lot.quantity else 0.0
  }

  function Opened(lots: seq<Lot>): real {
    Sum(lots, OpenQuantity)
  }

  function Closed(lots: seq<Lot>, opening: real): real {
    Sum(lots, (l: Lot) => CloseQuantity(opening, l))
  }

  function NoFlip(held: real, opening: real): real {
    if held * opening > 0.0 then held else 0.0
  }

  function NetHeld(lots: seq<Lot>): real {
    NoFlip(Opened(lots) + Closed(lots, Opened(lots)), Opened(lots))
  }

  predicate CountsAsHolding(conId: Option<int>, role: Role) {
    conId.Some? && role != ComboSummary
  }

  function SettledLots(execs: seq<LedgerFill>, key: Pair): seq<Lot> {
    if execs == [] then []
    else
      var e := execs[|execs| - 1];
      SettledLots(execs[..|execs| - 1], key) +
        if CountsAsHolding(e.conId, e.role) && e.canonical && (e.account, e.conId.value) == key
        then [Lot(SignedQuantity(e.side, e.quantity), e.lifecycle)] else []
  }

  function LiveLots(fills: seq<LiveFill>, key: Pair): seq<Lot> {
    if fills == [] then []
    else
      var e := fills[|fills| - 1];
      LiveLots(fills[..|fills| - 1], key) +
        if CountsAsHolding(e.conId, e.role) && (e.account, e.conId.value) == key
        then [Lot(SignedQuantity(e.side, e.quantity), None)] else []
  }

  function SettledKeys(execs: seq<LedgerFill>): set<Pair> {
    set e | e in execs && CountsAsHolding(e.conId, e.role) && e.canonical :: (e.account, e.conId.value)
  }

  function LiveKeys(fills: seq<LiveFill>): set<Pair> {
    set e | e in fills && CountsAsHolding(e.conId, e.role) :: (e.account, e.conId.value)
  }

  /** Net each pair's fills. */
  function NetPerPair(keys: set<Pair>, lots: Pair -> seq<Lot>, net: seq<Lot> -> real): map<Pair, real> {
    map key | key in keys :: net(lots(key))
  }

  function HoldingsOf(execs: seq<LedgerFill>, fills: seq<LiveFill>): GroupHoldings {
    GroupHoldings(
      NetPerPair(SettledKeys(execs), key => SettledLots(execs, key), NetHeld),
      NetPerPair(SettledKeys(execs) + LiveKeys(fills), key => SettledLots(execs, key) + LiveLots(fills, key), NetHeld))
  }

  function HeldFraction(held: Option<real>, position: real): real {
    if held.None? || position == 0.0 || held.value * position <= 0.0 then 0.0
    else Least(Abs(held.value) / Abs(position), 1.0)
  }

  function Least(a: real, b: real): real {
    if a <= b then a else b
  }

  // ---------------------------------------------------------------------
  // The loops
  // ---------------------------------------------------------------------

  lemma SettledStep(execs: seq<LedgerFill>, i: nat)
    requires i < |execs|
    ensures var e := execs[i];
      && SettledKeys(execs[..i + 1]) == SettledKeys(execs[..i]) +
           (if CountsAsHolding(e.conId, e.role) && e.canonical then {(e.account, e.conId.value)} else {})
      && forall key :: SettledLots(execs[..i + 1], key) == SettledLots(execs[..i], key) +
           (if CountsAsHolding(e.conId, e.role) && e.canonical && (e.account, e.conId.value) == key
            then [Lot(SignedQuantity(e.side, e.quantity), e.lifecycle)] else [])
  {
    assert execs[..i + 1][..i] == execs[..i];
    assert execs[..i + 1] == execs[..i] + [execs[i]];
  }

  lemma LiveStep(fills: seq<LiveFill>, i: nat)
    requires i < |fills|
    ensures var e := fills[i];
      && LiveKeys(fills[..i + 1]) == LiveKeys(fills[..i]) +
           (if CountsAsHolding(e.conId, e.role) then {(e.account, e.conId.value)} else {})
      && forall key :: LiveLots(fills[..i + 1], key) == LiveLots(fills[..i], key) +
           (if CountsAsHolding(e.conId, e.role) && (e.account, e.conId.value) == key
            then [Lot(SignedQuantity(e.side, e.quantity), None)] else [])
  {
    assert fills[..i + 1][..i] == fills[..i];
    assert fills[..i + 1] == fills[..i] + [fills[i]];
  }

  lemma {:induction false} NoLots(execs: seq<LedgerFill>, key: Pair)
    requires key !in SettledKeys(execs)
    ensures SettledLots(execs, key) == []
  {
    if execs != [] {
      SettledStep(execs, |execs| - 1);
      assert execs[..|execs|] == execs;
      NoLots(execs[..|execs| - 1], key);
    }
  }

  lemma {:induction false} NoLiveLots(fills: seq<LiveFill>, key: Pair)
    requires key !in LiveKeys(fills)
    ensures LiveLots(fills, key) == []
  {
    if fills != [] {
      LiveStep(fills, |fills| - 1);
      assert fills[..|fills|] == fills;
      NoLiveLots(fills[..|fills| - 1], key);
    }
  }

  function Lots(m: map<Pair, seq<Lot>>, key: Pair): seq<Lot> {
    if key in m then m[key] else []
  }

  function Append(m: map<Pair, seq<Lot>>, key: Pair, lot: Lot): map<Pair, seq<Lot>> {
    m[key := Lots(m, key) + [lot]]
  }

  ghost predicate IndexesSettled(m: map<Pair, seq<Lot>>, execs: seq<LedgerFill>) {
    m.Keys == SettledKeys(execs) && forall key :: Lots(m, key) == SettledLots(execs, key)
  }

  ghost predicate IndexesLive(m: map<Pair, seq<Lot>>, fills: seq<LiveFill>) {
    m.Keys == LiveKeys(fills) && forall key :: Lots(m, key) == LiveLots(fills, key)
  }

  lemma AppendProperty(m: map<Pair, seq<Lot>>, key: Pair, lot: Lot)
    ensures Append(m, key, lot).Keys == m.Keys + {key}
    ensures forall k :: Lots(Append(m, key, lot), k) == Lots(m, k) + if k == key then [lot] else []
  {}

  method CollectSettled(execs: seq<LedgerFill>) returns (fills: map<Pair, seq<Lot>>)
    ensures IndexesSettled(fills, execs)
  {
    fills := map[];
    for i := 0 to |execs|
      invariant IndexesSettled(fills, execs[..i])
    {
      SettledStep(execs, i);
      var e := execs[i];
      if e.conId.None? || e.role == ComboSummary || !e.canonical { continue; }
      var key, lot := (e.account, e.conId.value), Lot(SignedQuantity(e.side, e.quantity), e.lifecycle);
      AppendProperty(fills, key, lot);
      fills := Append(fills, key, lot);
    }
    assert execs[..|execs|] == execs;
  }

  method CollectLive(live: seq<LiveFill>) returns (fills: map<Pair, seq<Lot>>)
    ensures IndexesLive(fills, live)
  {
    fills := map[];
    for i := 0 to |live|
      invariant IndexesLive(fills, live[..i])
    {
      LiveStep(live, i);
      var e := live[i];
      if e.conId.None? || e.role == ComboSummary { continue; }
      var key, lot := (e.account, e.conId.value), Lot(SignedQuantity(e.side, e.quantity), None);
      AppendProperty(fills, key, lot);
      fills := Append(fills, key, lot);
    }
    assert live[..|live|] == live;
  }

  lemma SameNets(keys: set<Pair>, f: Pair -> seq<Lot>, g: Pair -> seq<Lot>, net: seq<Lot> -> real)
    requires forall key :: f(key) == g(key)
    ensures NetPerPair(keys, f, net) == NetPerPair(keys, g, net)
  {}

  /** Group the fills by pair, then net each pair. */
  method ComputeHoldings(execs: seq<LedgerFill>, live: seq<LiveFill>) returns (h: GroupHoldings)
    ensures h == HoldingsOf(execs, live)
  {
    var settledFills := CollectSettled(execs);
    var liveFills := CollectLive(live);
    h := GroupHoldings(
      NetPerPair(settledFills.Keys, key => Lots(settledFills, key), NetHeld),
      NetPerPair(settledFills.Keys + liveFills.Keys, key => Lots(settledFills, key) + Lots(liveFills, key), NetHeld));
    SameNets(settledFills.Keys, key => Lots(settledFills, key), key => SettledLots(execs, key), NetHeld);
    SameNets(settledFills.Keys + liveFills.Keys, key => Lots(settledFills, key) + Lots(liveFills, key),
             key => SettledLots(execs, key) + LiveLots(live, key), NetHeld);
  }

  // ---------------------------------------------------------------------
  // What a holding is
  // ---------------------------------------------------------------------

  ghost predicate Opposes(x: real, opening: real) {
    (opening > 0.0 ==> x <= 0.0) && (opening < 0.0 ==> x >= 0.0) && (opening == 0.0 ==> x == 0.0)
  }

  lemma CloseOpposes(opening: real, lot: Lot)
    ensures Opposes(CloseQuantity(opening, lot), opening)
  {}

  lemma {:induction false} ClosedOpposes(lots: seq<Lot>, opening: real)
    ensures Opposes(Closed(lots, opening), opening)
  {
    if lots != [] {
      ClosedOpposes(lots[..|lots| - 1], opening);
      CloseOpposes(opening, lots[|lots| - 1]);
    }
  }

  /** On the same side as `opening` and not beyond it. */
  ghost predicate WithinOpening(held: real, opening: real) {
    0.0 <= held <= opening || opening <= held <= 0.0
  }

  lemma NoFlipStaysWithin(opening: real, closed: real)
    requires Opposes(closed, opening)
    ensures WithinOpening(NoFlip(opening + closed, opening), opening)
  {}

  /** Whatever the fills, the net holding never exceeds or flips what they opened. */
  lemma HoldingStaysWithinOpening(lots: seq<Lot>)
    ensures WithinOpening(NetHeld(lots), Opened(lots))
  {
    ClosedOpposes(lots, Opened(lots));
    NoFlipStaysWithin(Opened(lots), Closed(lots, Opened(lots)));
  }

  /** Exactly when something is still held: the opening outweighs the closes that oppose it. */
  lemma NothingHeldExactly(lots: seq<Lot>)
    ensures NetHeld(lots) == 0.0 <==> Abs(Closed(lots, Opened(lots))) >= Abs(Opened(lots))
  {
    ClosedOpposes(lots, Opened(lots));
    SignOfRest(Opened(lots), Closed(lots, Opened(lots)));
  }

  lemma SignOfRest(opening: real, closed: real)
    requires Opposes(closed, opening)
    ensures NoFlip(opening + closed, opening) == 0.0 <==> Abs(closed) >= Abs(opening)
  {}

  // ---------------------------------------------------------------------
  // What a share conserves
  // ---------------------------------------------------------------------

  lemma FractionIsAShare(held: Option<real>, position: real)
    ensures 0.0 <= HeldFraction(held, position) <= 1.0
    ensures HeldFraction(held, position) > 0.0 <==> held.Some? && held.value * position > 0.0
  {
    if held.Some? && position != 0.0 && held.value * position > 0.0 {
      QuotientSign(Abs(held.value), Abs(position));
    }
  }

  lemma QuotientSign(a: real, b: real)
    requires a > 0.0 && b > 0.0
    ensures a / b > 0.0
  {}

  /** On the position's side and not larger than it. */
  ghost predicate Covers(position: real, held: real) {
    held == 0.0 || (position > 0.0 && 0.0 < held <= position) || (position < 0.0 && position <= held < 0.0)
  }

  lemma DivideWithin(a: real, b: real)
    requires b > 0.0 && a >= 0.0
    ensures a <= b <==> a / b <= 1.0
    ensures b * (a / b) == a
  {
    if a <= b { assert a / b <= b / b; }
  }

  /** A share of the position is the holding itself exactly when the position covers the holding. */
  lemma ShareIsTheHolding(held: real, position: real)
    ensures position * HeldFraction(Some(held), position) == held <==> Covers(position, held)
  {
    if position != 0.0 && held * position > 0.0 {
      DivideWithin(Abs(held), Abs(position));
      assert Abs(held) > 0.0;
      if Abs(held) <= Abs(position) {
        SignedShare(held, position, Abs(held) / Abs(position));
      }
    }
  }

  lemma SignedShare(held: real, position: real, share: real)
    requires held * position > 0.0 && Abs(position) * share == Abs(held)
    ensures position * share == held
  {}
}
