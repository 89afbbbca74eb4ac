/** The summary row synthesized over the legs of a combo that the feed did not summarize itself. */
module ComboSynthesis {
  import opened Common
  import opened FillIngest

  // ---------------------------------------------------------------------
  // The derivation
  // ---------------------------------------------------------------------

  predicate IsWhole(x: real) { x.Floor as real == x }

  /** The nonzero leg sizes as integers; nothing at all when one of them is fractional. */
  function WholeSizes(legs: seq<Fill>): seq<nat> {
    if exists i | 0 <= i < |legs| :: !IsWhole(Abs(legs[i].quantity)) then [] else NonzeroSizes(legs)
  }

  function NonzeroSizes(legs: seq<Fill>): seq<nat> {
    if legs == [] then []
    else
      var size := Abs(legs[|legs| - 1].quantity);
      NonzeroSizes(legs[..|legs| - 1]) + if size == 0.0 then [] else [size.Floor]
  }

  function Gcd(a: nat, b: nat): nat
    decreases b
  {
    if b == 0 then a else Gcd(b, a % b)
  }

  function GcdAll(xs: seq<nat>): nat
    requires xs != []
  {
    if |xs| == 1 then xs[0] else Gcd(GcdAll(xs[..|xs| - 1]), xs[|xs| - 1])
  }

  function ComboQuantity(legs: seq<Fill>): (q: nat)
    ensures q > 0
  {
    var sizes := WholeSizes(legs);
    if sizes == [] || GcdAll(sizes) == 0 then 1 else GcdAll(sizes)
  }

  function Cash(leg: Fill): real { leg.quantity * leg.price }

  function NetCash(legs: seq<Fill>): real { Sum(legs, Cash) }

  function TotalCommission(legs: seq<Fill>): Option<real> {
    if exists i | 0 <= i < |legs| :: legs[i].commission.Some? then Some(Sum(legs, (l: Fill) => l.commission.GetOr(0.0))) else None
  }

  function EarliestLeg(legs: seq<Fill>): (t: int)
    requires legs != []
    ensures forall i :: 0 <= i < |legs| ==> t <= legs[i].executedAt
    ensures exists i :: 0 <= i < |legs| && t == legs[i].executedAt
  {
    var last := legs[|legs| - 1].executedAt;
    if |legs| == 1 then last
    else
      var t := EarliestLeg(legs[..|legs| - 1]);
      if t <= last then t else last
  }

  /** The one nonempty order reference all legs share, if there is one. */
  function SharedRef(legs: seq<Fill>): Option<string>
    requires legs != []
  {
    var ref := legs[0].orderRef;
    if ref.GetOr("") != "" && forall i | 0 <= i < |legs| :: legs[i].orderRef == ref then ref else None
  }

  function CountDots(s: string): nat {
    if s == [] then 0 else CountDots(s[..|s| - 1]) + if s[|s| - 1] == '.' then 1 else 0
  }

  /** The part of `s` before its (n+1)-th dot; all of it when there are not that many. */
  function BeforeDot(s: string, n: nat): string {
    if CountDots(s) <= n then s else BeforeDot(s[..|s| - 1], n)
  }

  /** The first two segments of an id with at least four. */
  function IdPrefix(id: string): Option<string> {
    if CountDots(id) >= 3 then Some(BeforeDot(id, 1)) else None
  }

  function Prefixes(legs: seq<Fill>): seq<string> {
    if legs == [] then []
    else
      var p := IdPrefix(legs[|legs| - 1].execId);
      Prefixes(legs[..|legs| - 1]) + if p.Some? then [p.value] else []
  }

  /** The reserved 01 slot under the prefix the legs share, else an id made of the combo key. */
  function ComboExecId(legs: seq<Fill>, key: string): string {
    var ps := Prefixes(legs);
    if ps != [] && forall i | 0 <= i < |ps| :: ps[i] == ps[0] then ps[0] + ".01.01" else key + ".combo"
  }

  function Synthesize(legs: seq<Fill>, key: string): Summary
    requires legs != []
  {
    SummaryFor(legs, key, NetCash(legs), ComboQuantity(legs) as real)
  }

  function SummaryFor(legs: seq<Fill>, key: string, cash: real, quantity: real): Summary
    requires legs != [] && quantity != 0.0
  {
    Summary(ComboExecId(legs, key), quantity, cash / quantity, if cash > 0.0 then "BUY" else "SELL",
            TotalCommission(legs), EarliestLeg(legs), SharedRef(legs), key)
  }

  // ---------------------------------------------------------------------
  // What it means
  // ---------------------------------------------------------------------

  ghost predicate Divides(d: nat, a: nat) {
    d > 0 && exists k: nat :: a == d * k
  }

  lemma NonnegativeFactor(d: nat, n: int)
    requires d > 0 && d * n >= 0
    ensures n >= 0
  {}

  lemma DividesMod(d: nat, a: nat, b: nat)
    requires b > 0 && Divides(d, b)
    ensures Divides(d, a) <==> Divides(d, a % b)
  {
    var k: nat :| b == d * k;
    var q, r := a / b, a % b;
    assert a == b * q + r;
    assert b * q == d * (k * q);
    if Divides(d, a) {
      var m: nat :| a == d * m;
      assert r == d * (m - k * q);
      NonnegativeFactor(d, m - k * q);
    }
    if Divides(d, r) {
      var m: nat :| r == d * m;
      assert a == d * (k * q + m);
    }
  }

  /** The common divisors of two numbers are the divisors of their gcd. */
  lemma {:induction false} GcdProperty(d: nat, a: nat, b: nat)
    requires d > 0
    ensures Divides(d, a) && Divides(d, b) <==> Divides(d, Gcd(a, b))
    decreases b
  {
    if b == 0 {
      assert 0 == d * 0;
    } else {
      GcdProperty(d, b, a % b);
      if Divides(d, b) { DividesMod(d, a, b); }
    }
  }

  lemma {:induction false} GcdAllProperty(d: nat, xs: seq<nat>)
    requires d > 0 && xs != []
    ensures (forall x :: x in xs ==> Divides(d, x)) <==> Divides(d, GcdAll(xs))
  {
    if |xs| > 1 {
      var front, last := xs[..|xs| - 1], xs[|xs| - 1];
      assert xs == front + [last];
      GcdAllProperty(d, front);
      GcdProperty(d, GcdAll(front), last);
    }
  }

  lemma DividesItself(a: nat)
    requires a > 0
    ensures Divides(a, a)
  {
    assert a == a * 1;
  }

  lemma DivisorIsSmaller(d: nat, a: nat)
    requires Divides(d, a) && a > 0
    ensures d <= a
  {
    var k: nat :| a == d * k;
    assert k != 0;
    assert d * k >= d * 1;
  }

  lemma {:induction false} NonzeroSizesProperty(legs: seq<Fill>)
    ensures forall x :: x in NonzeroSizes(legs) <==> exists l :: l in legs && l.quantity != 0.0 && Abs(l.quantity).Floor == x
  {
    if legs != [] {
      var front, last := legs[..|legs| - 1], legs[|legs| - 1];
      assert legs == front + [last];
      NonzeroSizesProperty(front);
      forall x ensures x in NonzeroSizes(legs) <==> exists l :: l in legs && l.quantity != 0.0 && Abs(l.quantity).Floor == x {
        if l :| l in legs && l.quantity != 0.0 && Abs(l.quantity).Floor == x {
          if l in front { assert x in NonzeroSizes(front); }
        }
        if x in NonzeroSizes(legs) {
          if x in NonzeroSizes(front) {
            var l :| l in front && l.quantity != 0.0 && Abs(l.quantity).Floor == x;
            assert l in legs;
          } else {
            assert last in legs;
          }
        }
      }
    }
  }

  /** A leg's nonzero size, when whole. */
  ghost predicate IsLegSize(legs: seq<Fill>, x: nat) {
    exists l :: l in legs && l.quantity != 0.0 && Abs(l.quantity) == x as real
  }

  ghost predicate AllWhole(legs: seq<Fill>) {
    forall l :: l in legs ==> IsWhole(Abs(l.quantity))
  }

  ghost predicate CommonDivisor(d: nat, legs: seq<Fill>) {
    d > 0 && forall x :: IsLegSize(legs, x) ==> Divides(d, x)
  }

  lemma WholeSizesProperty(legs: seq<Fill>)
    ensures AllWhole(legs) ==> forall x :: x in WholeSizes(legs) <==> IsLegSize(legs, x)
    ensures !AllWhole(legs) ==> WholeSizes(legs) == []
    ensures forall x :: x in WholeSizes(legs) ==> x > 0
  {
    NonzeroSizesProperty(legs);
    if !AllWhole(legs) {
      var l :| l in legs && !IsWhole(Abs(l.quantity));
      var i :| 0 <= i < |legs| && legs[i] == l;
    } else {
      forall x ensures x in WholeSizes(legs) <==> IsLegSize(legs, x) {
        if x in WholeSizes(legs) {
          var l :| l in legs && l.quantity != 0.0 && Abs(l.quantity).Floor == x;
          assert IsWhole(Abs(l.quantity));
        }
        if IsLegSize(legs, x) {
          var l :| l in legs && l.quantity != 0.0 && Abs(l.quantity) == x as real;
          assert Abs(l.quantity).Floor == x;
        }
      }
    }
  }

  /**
    The summary's quantity is the greatest common divisor of the nonzero leg
    sizes when all sizes are whole and one is nonzero, and 1 otherwise.
   */
  lemma ComboQuantityProperty(legs: seq<Fill>)
    ensures var q := ComboQuantity(legs);
      && q > 0
      && (!AllWhole(legs) || (forall l :: l in legs ==> l.quantity == 0.0) ==> q == 1)
      && (AllWhole(legs) && (exists l :: l in legs && l.quantity != 0.0) ==>
            CommonDivisor(q, legs) && forall d: nat :: CommonDivisor(d, legs) ==> Divides(d, q) && d <= q)
  {
    WholeSizesProperty(legs);
    var sizes, q := WholeSizes(legs), ComboQuantity(legs);
    if sizes != [] {
      var g := GcdAll(sizes);
      assert sizes[0] in sizes;
      var l :| l in legs && l.quantity != 0.0 && Abs(l.quantity) == sizes[0] as real;
      assert forall i :: 0 <= i < |sizes| ==> sizes[i] in sizes;
      GcdIsPositive(sizes);
      DividesItself(g);
      GcdAllProperty(g, sizes);
      forall d: nat | CommonDivisor(d, legs) ensures Divides(d, q) && d <= q {
        GcdAllProperty(d, sizes);
        DivisorIsSmaller(d, g);
      }
    } else if AllWhole(legs) {
      forall l | l in legs ensures l.quantity == 0.0 {
        if l.quantity != 0.0 {
          var x := Abs(l.quantity).Floor;
          assert IsWhole(Abs(l.quantity));
          assert IsLegSize(legs, x);
        }
      }
    }
  }

  lemma {:induction false} GcdIsPositive(xs: seq<nat>)
    requires xs != [] && forall i :: 0 <= i < |xs| ==> xs[i] > 0
    ensures GcdAll(xs) > 0
  {
    if |xs| > 1 {
      GcdIsPositive(xs[..|xs| - 1]);
      GcdOfPositive(GcdAll(xs[..|xs| - 1]), xs[|xs| - 1]);
    }
  }

  lemma {:induction false} GcdOfPositive(a: nat, b: nat)
    requires a > 0
    ensures Gcd(a, b) > 0
    decreases b
  {
    if b != 0 { GcdOfPositive(b, a % b); }
  }

  /** Quantity times price is `cash`, and the side is its sign. */
  ghost predicate IsWorth(s: Summary, cash: real) {
    s.quantity > 0.0 && s.quantity * s.price == cash && (s.side == "BUY" <==> cash > 0.0)
  }

  lemma SummaryForIsWorth(legs: seq<Fill>, key: string, cash: real, quantity: real)
    requires legs != [] && quantity > 0.0
    ensures IsWorth(SummaryFor(legs, key, cash, quantity), cash)
  {
    assert "SELL" != "BUY";
  }

  /** The summary row is worth the legs' net cash. */
  lemma SummaryKeepsNetCash(legs: seq<Fill>, key: string)
    requires legs != []
    ensures IsWorth(Synthesize(legs, key), NetCash(legs))
  {
    SummaryForIsWorth(legs, key, NetCash(legs), ComboQuantity(legs) as real);
  }

  // ---------------------------------------------------------------------
  // Leg order does not matter
  // ---------------------------------------------------------------------

  lemma {:induction false} PrefixesProperty(legs: seq<Fill>)
    ensures forall p :: p in Prefixes(legs) <==> exists l :: l in legs && IdPrefix(l.execId) == Some(p)
  {
    if legs != [] {
      var front, last := legs[..|legs| - 1], legs[|legs| - 1];
      assert legs == front + [last];
      PrefixesProperty(front);
      forall p ensures p in Prefixes(legs) <==> exists l :: l in legs && IdPrefix(l.execId) == Some(p) {
        if p in Prefixes(front) {
          var l :| l in front && IdPrefix(l.execId) == Some(p);
          assert l in legs;
        } else if p in Prefixes(legs) {
          assert last in legs;
        }
      }
    }
  }

  lemma ComboExecIdOfPermutation(legs: seq<Fill>, other: seq<Fill>, key: string)
    requires forall l :: l in legs <==> l in other
    ensures ComboExecId(legs, key) == ComboExecId(other, key)
  {
    PrefixesProperty(legs);
    PrefixesProperty(other);
    var ps, qs := Prefixes(legs), Prefixes(other);
    assert forall p :: p in ps <==> p in qs;
    if ps != [] { assert ps[0] in ps && ps[0] in qs; }
    if qs != [] { assert qs[0] in qs && qs[0] in ps; }
    if ps != [] {
      AllTheSame(ps);
      AllTheSame(qs);
    }
  }

  lemma AllTheSame(ps: seq<string>)
    requires ps != []
    ensures (forall i :: 0 <= i < |ps| ==> ps[i] == ps[0]) <==> (forall p :: p in ps ==> p == ps[0])
  {
    if forall p :: p in ps ==> p == ps[0] {
      forall i | 0 <= i < |ps| ensures ps[i] == ps[0] {
        assert ps[i] in ps;
      }
    }
  }

  lemma ComboQuantityOfPermutation(legs: seq<Fill>, other: seq<Fill>)
    requires forall l :: l in legs <==> l in other
    ensures ComboQuantity(legs) == ComboQuantity(other)
  {
    ComboQuantityProperty(legs);
    ComboQuantityProperty(other);
    assert forall x :: IsLegSize(legs, x) <==> IsLegSize(other, x);
    assert forall d: nat :: CommonDivisor(d, legs) <==> CommonDivisor(d, other);
    assert AllWhole(legs) <==> AllWhole(other);
  }

  /** Reordering the legs changes nothing, so synthesizing again writes the same row. */
  lemma SynthesisIgnoresLegOrder(legs: seq<Fill>, other: seq<Fill>, key: string)
    requires legs != [] && other != [] && multiset(legs) == multiset(other)
    ensures Synthesize(legs, key) == Synthesize(other, key)
  {
    SameElements(legs, other);
    ComboExecIdOfPermutation(legs, other, key);
    ComboQuantityOfPermutation(legs, other);
    SumOfPermutation(legs, other, Cash);
    SumOfPermutation(legs, other, (l: Fill) => l.commission.GetOr(0.0));
    assert TotalCommission(legs) == TotalCommission(other) by {
      if i :| 0 <= i < |legs| && legs[i].commission.Some? { assert legs[i] in other; }
      if i :| 0 <= i < |other| && other[i].commission.Some? { assert other[i] in legs; }
    }
    assert EarliestLeg(legs) == EarliestLeg(other) by {
      var i :| 0 <= i < |legs| && EarliestLeg(legs) == legs[i].executedAt;
      var j :| 0 <= j < |other| && EarliestLeg(other) == other[j].executedAt;
      assert legs[i] in other && other[j] in legs;
    }
    assert SharedRef(legs) == SharedRef(other) by {
      assert legs[0] in other && other[0] in legs;
      assert forall i :: 0 <= i < |legs| ==> legs[i] in other;
      assert forall i :: 0 <= i < |other| ==> other[i] in legs;
    }
  }
}
