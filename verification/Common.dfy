/** Definitions shared by the components: options, and the two ways the services split an execution id. */
module Common {

  datatype Option<+T> = None | Some(value: T) {
    function GetOr(default: T): T {
      match this
      case None => default
      case Some(v) => v
    }
  }

  /** An id that is there and not zero. */
  ghost predicate IsPresent(x: Option<int>) {
    x.Some? && x.value != 0
  }

  /** What a fill is to its order: the spread itself, one of its legs, or neither. */
  datatype Role = ComboSummary | Leg | Standalone

  const SECONDS_PER_DAY := 86400

  /** The calendar day of an instant. */
  function Day(t: int): (d: int)
    ensures 86400 * d <= t < 86400 * (d + 1)
  {
    t / SECONDS_PER_DAY
  }

  function Abs(x: real): real {
    if x < 0.0 then -x else x
  }

  /** `rfind('.')`: the position of the last dot, or -1. */
  function LastDot(s: string): (k: int)
    ensures -1 <= k < |s|
    ensures k >= 0 ==> s[k] == '.'
    ensures forall j :: k < j < |s| ==> s[j] != '.'
  {
    if s == [] then -1
    else if s[|s| - 1] == '.' then |s| - 1
    else LastDot(s[..|s| - 1])
  }

  /** Some element of a set, as iteration over a set yields them. */
  method Pick<T(==)>(s: set<T>) returns (x: T)
    requires s != {}
    ensures x in s
  {
    x :| x in s;
  }

  /** How many elements of `xs` satisfy `p`. */
  function Count<T>(xs: seq<T>, p: T -> bool): nat {
    if xs == [] then 0
    else Count(xs[..|xs| - 1], p) + if p(xs[|xs| - 1]) then 1 else 0
  }

  /** The elements satisfying `p`, in their order. */
  function Filter<T(!new)>(xs: seq<T>, p: T -> bool): (kept: seq<T>)
    ensures forall x :: x in kept <==> x in xs && p(x)
  {
    if xs == [] then []
    else Filter(xs[..|xs| - 1], p) + if p(xs[|xs| - 1]) then [xs[|xs| - 1]] else []
  }

  function Map<A, B>(xs: seq<A>, f: A -> B): (ys: seq<B>)
    ensures |ys| == |xs| && forall i :: 0 <= i < |xs| ==> ys[i] == f(xs[i])
  {
    if xs == [] then [] else Map(xs[..|xs| - 1], f) + [f(xs[|xs| - 1])]
  }

  /** The first position whose element satisfies `p`. */
  function First<T>(xs: seq<T>, p: T -> bool): (k: Option<nat>)
    ensures k.Some? ==> k.value < |xs| && p(xs[k.value]) && forall j :: 0 <= j < k.value ==> !p(xs[j])
    ensures k.None? ==> forall j :: 0 <= j < |xs| ==> !p(xs[j])
  {
    if xs == [] then None
    else
      var front := First(xs[..|xs| - 1], p);
      if front.Some? then front
      else if p(xs[|xs| - 1]) then Some(|xs| - 1)
      else None
  }

  ghost predicate Distinct<T(!new)>(xs: seq<T>) {
    forall i, j :: 0 <= i < j < |xs| ==> xs[i] != xs[j]
  }

  /** `order` lists the set `s`, each element once: one possible row order of a query without ORDER BY. */
  ghost predicate Lists<T(!new)>(order: seq<T>, s: set<T>) {
    && Distinct(order)
    && (forall x :: x in order <==> x in s)
  }

  lemma {:induction false} FilterKeepsDistinct<T(!new)>(xs: seq<T>, p: T -> bool)
    requires Distinct(xs)
    ensures Distinct(Filter(xs, p))
  {
    if xs != [] {
      var front, last := xs[..|xs| - 1], xs[|xs| - 1];
      FilterKeepsDistinct(front, p);
      assert xs == front + [last];
    }
  }

  lemma {:induction false} FilterNone<T(!new)>(xs: seq<T>, p: T -> bool)
    requires forall x :: x in xs ==> !p(x)
    ensures Filter(xs, p) == []
  {
    if xs != [] {
      assert xs[|xs| - 1] in xs;
      FilterNone(xs[..|xs| - 1], p);
    }
  }

  lemma {:induction false} FilterAppend<T(!new)>(xs: seq<T>, x: T, p: T -> bool)
    ensures Filter(xs + [x], p) == Filter(xs, p) + if p(x) then [x] else []
  {
    assert (xs + [x])[..|xs|] == xs;
  }

  lemma LastAndFront<T(!new)>(xs: seq<T>, p: T -> bool)
    requires xs != [] && forall x :: x in xs ==> p(x)
    ensures var front, last := xs[..|xs| - 1], xs[|xs| - 1]; xs == front + [last] && p(last) && forall x :: x in front ==> p(x)
  {
    assert xs[|xs| - 1] in xs;
  }

  lemma {:induction false} FilterAll<T(!new)>(xs: seq<T>, p: T -> bool)
    requires forall x :: x in xs ==> p(x)
    ensures Filter(xs, p) == xs
  {
    if xs != [] {
      var front, last := xs[..|xs| - 1], xs[|xs| - 1];
      LastAndFront(xs, p);
      FilterAll(front, p);
      FilterAppend(front, last, p);
    }
  }

  lemma {:induction false} FilterAgrees<T(!new)>(xs: seq<T>, p: T -> bool, q: T -> bool)
    requires forall x :: x in xs ==> p(x) == q(x)
    ensures Filter(xs, p) == Filter(xs, q)
  {
    if xs != [] {
      assert xs[|xs| - 1] in xs;
      FilterAgrees(xs[..|xs| - 1], p, q);
    }
  }

  lemma {:induction false} FilterOne<T(!new)>(x: T, p: T -> bool)
    ensures Filter([x], p) == if p(x) then [x] else []
  {
    FilterAppend([], x, p);
    assert [] + [x] == [x];
  }

  lemma Regroup<T>(a: seq<T>, b: seq<T>, c: seq<T>)
    ensures a + b + c == a + (b + c)
  {}

  lemma UnionRegroup<T>(a: set<T>, b: set<T>, c: set<T>)
    ensures a + b + c == a + (b + c)
  {}

  lemma {:induction false} FilterConcat<T(!new)>(xs: seq<T>, ys: seq<T>, p: T -> bool)
    ensures Filter(xs + ys, p) == Filter(xs, p) + Filter(ys, p)
  {
    if ys == [] {
      assert xs + ys == xs;
    } else {
      var front, last := ys[..|ys| - 1], ys[|ys| - 1];
      FilterConcat(xs, front, p);
      Regroup(xs, front, [last]);
      assert ys == front + [last];
      FilterAppend(xs + front, last, p);
      FilterAppend(front, last, p);
      Regroup(Filter(xs, p), Filter(front, p), if p(last) then [last] else []);
    }
  }

  lemma {:induction false} FilterStep<T(!new)>(xs: seq<T>, i: nat, p: T -> bool)
    requires i < |xs|
    ensures Filter(xs[..i + 1], p) == Filter(xs[..i], p) + if p(xs[i]) then [xs[i]] else []
  {
    assert xs[..i + 1][..i] == xs[..i];
  }

  lemma {:induction false} MapStep<A, B>(xs: seq<A>, i: nat, f: A -> B)
    requires i < |xs|
    ensures Map(xs[..i + 1], f) == Map(xs[..i], f) + [f(xs[i])]
  {
    assert xs[..i + 1][..i] == xs[..i];
  }

  lemma {:induction false} MapAppend<A, B>(xs: seq<A>, x: A, f: A -> B)
    ensures Map(xs + [x], f) == Map(xs, f) + [f(x)]
  {
    assert (xs + [x])[..|xs|] == xs;
  }

  /** Filtering twice is filtering by both. */
  lemma {:induction false} FilterTwice<T(!new)>(xs: seq<T>, wide: T -> bool, narrow: T -> bool, direct: T -> bool)
    requires forall x :: x in xs ==> (direct(x) <==> wide(x) && narrow(x))
    ensures Filter(Filter(xs, wide), narrow) == Filter(xs, direct)
  {
    if xs != [] {
      var front, last := xs[..|xs| - 1], xs[|xs| - 1];
      assert last in xs;
      FilterTwice(front, wide, narrow, direct);
      var kept := Filter(front, wide);
      if wide(last) {
        assert (kept + [last])[..|kept|] == kept;
        assert Filter(xs, wide) == kept + [last];
      } else {
        assert Filter(xs, wide) == kept;
      }
    }
  }

  lemma {:induction false} FilterOfMap<A(!new), B(!new)>(xs: seq<A>, f: A -> B, p: B -> bool, q: A -> bool)
    requires forall x :: x in xs ==> (p(f(x)) <==> q(x))
    ensures Filter(Map(xs, f), p) == Map(Filter(xs, q), f)
  {
    if xs != [] {
      var front, last := xs[..|xs| - 1], xs[|xs| - 1];
      assert xs == front + [last];
      FilterOfMap(front, f, p, q);
      MapAppend(front, last, f);
      FilterAppend(Map(front, f), f(last), p);
      FilterAppend(front, last, q);
      if q(last) {
        MapAppend(Filter(front, q), last, f);
      } else {
        assert Filter(front, q) + [] == Filter(front, q);
      }
    }
  }

  lemma {:induction false} CountFiltered<T(!new)>(xs: seq<T>, p: T -> bool)
    ensures |Filter(xs, p)| == Count(xs, p)
  {
    if xs != [] { CountFiltered(xs[..|xs| - 1], p); }
  }

  lemma SelectedGrows<T(!new)>(front: seq<T>, last: T, p: T -> bool)
    requires last !in front
    ensures |set x | x in front + [last] && p(x)| == |set x | x in front && p(x)| + if p(last) then 1 else 0
  {
    var was, now := set x | x in front && p(x), set x | x in front + [last] && p(x);
    assert now == if p(last) then was + {last} else was;
  }

  /** Counting along any listing of a set gives the size of the selected subset, so no listing order matters. */
  lemma {:induction false} CountIsCardinality<T(!new)>(order: seq<T>, p: T -> bool)
    requires Distinct(order)
    ensures Count(order, p) == |set x | x in order && p(x)|
  {
    if order == [] {
      assert (set x | x in order && p(x)) == {};
    } else {
      var front, last := order[..|order| - 1], order[|order| - 1];
      assert order == front + [last];
      CountIsCardinality(front, p);
      SelectedGrows(front, last, p);
    }
  }

  function Selected<T>(s: set<T>, p: T -> bool): set<T> {
    set x | x in s && p(x)
  }

  lemma CountOverSet<T(!new)>(order: seq<T>, s: set<T>, p: T -> bool)
    requires Lists(order, s)
    ensures Count(order, p) == |Selected(s, p)|
  {
    CountIsCardinality(order, p);
    assert (set x | x in order && p(x)) == Selected(s, p);
  }

  // ---------------------------------------------------------------------
  // Sums, which no order of the elements changes
  // ---------------------------------------------------------------------

  function Sum<T>(xs: seq<T>, f: T -> real): real {
    if xs == [] then 0.0 else Sum(xs[..|xs| - 1], f) + f(xs[|xs| - 1])
  }

  lemma {:induction false} SumLast<T>(xs: seq<T>, f: T -> real)
    requires xs != []
    ensures Sum(xs, f) == Sum(xs[..|xs| - 1], f) + f(xs[|xs| - 1])
  {}

  lemma {:induction false} SumAgrees<T(!new)>(xs: seq<T>, f: T -> real, g: T -> real)
    requires forall x :: x in xs ==> f(x) == g(x)
    ensures Sum(xs, f) == Sum(xs, g)
  {
    if xs != [] {
      assert xs[|xs| - 1] in xs;
      SumAgrees(xs[..|xs| - 1], f, g);
    }
  }

  function Then<A, B, C>(f: A -> B, g: B -> C): A -> C {
    (x: A) => g(f(x))
  }

  lemma {:induction false} SumOfMap<A, B>(xs: seq<A>, f: A -> B, g: B -> real)
    ensures Sum(Map(xs, f), g) == Sum(xs, Then(f, g))
  {
    if xs != [] {
      var front, ys := xs[..|xs| - 1], Map(xs, f);
      SumOfMap(front, f, g);
      assert ys[..|ys| - 1] == Map(front, f);
    }
  }

  /** Elements that add nothing may be left out. */
  lemma {:induction false} SumDropsZeros<T(!new)>(xs: seq<T>, p: T -> bool, f: T -> real)
    requires forall x :: x in xs && !p(x) ==> f(x) == 0.0
    ensures Sum(Filter(xs, p), f) == Sum(xs, f)
  {
    if xs != [] {
      var front, last := xs[..|xs| - 1], xs[|xs| - 1];
      assert last in xs;
      SumDropsZeros(front, p, f);
      var kept := Filter(front, p);
      assert (kept + [last])[..|kept|] == kept;
      assert p(last) ==> Filter(xs, p) == kept + [last];
      assert !p(last) ==> Filter(xs, p) == kept;
    }
  }

  /** Raising one element's value raises the sum by as much, if the element is listed. */
  lemma {:induction false} SumOfPoint<T(!new)>(xs: seq<T>, f: T -> real, g: T -> real, at: T, more: real)
    requires Distinct(xs) && forall x :: x in xs ==> g(x) == f(x) + if x == at then more else 0.0
    ensures Sum(xs, g) == Sum(xs, f) + if at in xs then more else 0.0
  {
    if xs != [] {
      var front, last := xs[..|xs| - 1], xs[|xs| - 1];
      assert xs == front + [last];
      assert last !in front && last in xs;
      SumOfPoint(front, f, g, at, more);
    }
  }

  lemma {:induction false} SumOfOneMore<T(!new)>(front: seq<T>, last: T, p: T -> bool, f: T -> real)
    ensures Sum(Filter(front + [last], p), f) == Sum(Filter(front, p), f) + if p(last) then f(last) else 0.0
  {
    FilterAppend(front, last, p);
    var kept := Filter(front, p);
    if p(last) {
      assert (kept + [last])[..|kept|] == kept;
    } else {
      assert kept + [] == kept;
    }
  }

  lemma {:induction false} SumOfParts<T(!new)>(xs: seq<T>, p: T -> bool, q: T -> bool, either: T -> bool, f: T -> real)
    requires forall x :: x in xs ==> (either(x) <==> p(x) || q(x)) && !(p(x) && q(x))
    ensures Sum(Filter(xs, either), f) == Sum(Filter(xs, p), f) + Sum(Filter(xs, q), f)
  {
    if xs != [] {
      var front, last := xs[..|xs| - 1], xs[|xs| - 1];
      assert xs == front + [last];
      assert last in xs && forall x :: x in front ==> x in xs;
      SumOfParts(front, p, q, either, f);
      SumOfOneMore(front, last, p, f);
      SumOfOneMore(front, last, q, f);
      SumOfOneMore(front, last, either, f);
    }
  }

  lemma {:induction false} SumOfConcat<T>(xs: seq<T>, ys: seq<T>, f: T -> real)
    ensures Sum(xs + ys, f) == Sum(xs, f) + Sum(ys, f)
  {
    if ys == [] {
      assert xs + ys == xs;
    } else {
      var front, last := ys[..|ys| - 1], ys[|ys| - 1];
      assert (xs + ys)[..|xs + ys| - 1] == xs + front;
      SumOfConcat(xs, front, f);
    }
  }

  lemma {:induction false} SumOfZeros<T(!new)>(xs: seq<T>, f: T -> real)
    requires forall x :: x in xs ==> f(x) == 0.0
    ensures Sum(xs, f) == 0.0
  {
    if xs != [] {
      assert xs[|xs| - 1] in xs;
      SumOfZeros(xs[..|xs| - 1], f);
    }
  }

  lemma Distribute(c: real, a: real, b: real)
    ensures c * (a + b) == c * a + c * b
  {}

  function Scaled<T>(f: T -> real, c: real): T -> real {
    (x: T) => c * f(x)
  }

  lemma {:induction false} SumScaled<T>(xs: seq<T>, f: T -> real, c: real)
    ensures Sum(xs, Scaled(f, c)) == c * Sum(xs, f)
  {
    if xs != [] {
      SumScaled(xs[..|xs| - 1], f, c);
      Distribute(c, Sum(xs[..|xs| - 1], f), f(xs[|xs| - 1]));
    }
  }

  lemma {:induction false} SumRemove<T>(xs: seq<T>, i: nat, f: T -> real)
    requires i < |xs|
    ensures Sum(xs, f) == Sum(xs[..i] + xs[i + 1..], f) + f(xs[i])
  {
    var front, last := xs[..|xs| - 1], xs[|xs| - 1];
    if i == |xs| - 1 {
      assert xs[..i] + xs[i + 1..] == front;
    } else {
      SumRemove(front, i, f);
      var rest := xs[..i] + xs[i + 1..];
      assert rest[..|rest| - 1] == front[..i] + front[i + 1..];
      assert rest[|rest| - 1] == last;
    }
  }

  lemma RemoveOne<T>(front: seq<T>, last: T, other: seq<T>, i: nat)
    requires i < |other| && other[i] == last && multiset(front + [last]) == multiset(other)
    ensures multiset(front) == multiset(other[..i] + other[i + 1..])
  {
    assert other == other[..i] + [last] + other[i + 1..];
    assert multiset(front + [last]) - multiset{last} == multiset(front);
    assert multiset(other) - multiset{last} == multiset(other[..i] + other[i + 1..]);
  }

  lemma {:induction false} SumOfPermutation<T>(xs: seq<T>, other: seq<T>, f: T -> real)
    requires multiset(xs) == multiset(other)
    ensures Sum(xs, f) == Sum(other, f)
  {
    if xs == [] {
      SameLength(xs, other);
    } else {
      var front, last := xs[..|xs| - 1], xs[|xs| - 1];
      assert xs == front + [last];
      assert last in multiset(other);
      var i :| 0 <= i < |other| && other[i] == last;
      SumRemove(other, i, f);
      RemoveOne(front, last, other, i);
      SumOfPermutation(front, other[..i] + other[i + 1..], f);
    }
  }

  lemma SameLength<T>(xs: seq<T>, other: seq<T>)
    requires multiset(xs) == multiset(other)
    ensures |xs| == |other|
  {
    assert |multiset(xs)| == |xs| && |multiset(other)| == |other|;
  }

  lemma SameElements<T>(xs: seq<T>, other: seq<T>)
    requires multiset(xs) == multiset(other)
    ensures forall x :: x in xs <==> x in other
  {
    forall x ensures x in xs <==> x in other {
      assert x in multiset(xs) <==> x in multiset(other);
    }
  }

  lemma {:induction false} DistinctCounts<T(!new)>(xs: seq<T>)
    requires Distinct(xs)
    ensures forall x :: multiset(xs)[x] == if x in xs then 1 else 0
  {
    if xs != [] {
      var front, last := xs[..|xs| - 1], xs[|xs| - 1];
      assert xs == front + [last];
      DistinctCounts(front);
      assert last !in front;
    }
  }

  /** Two listings of the same elements, each element once, are permutations of one another. */
  lemma SameListing<T(!new)>(xs: seq<T>, other: seq<T>)
    requires Distinct(xs) && Distinct(other) && forall x :: x in xs <==> x in other
    ensures multiset(xs) == multiset(other)
  {
    DistinctCounts(xs);
    DistinctCounts(other);
  }

  ghost function Listing<T(!new)>(s: set<T>): (xs: seq<T>)
    ensures forall x :: x in xs <==> x in s
    decreases |s|
  {
    if s == {} then [] else var x :| x in s; Listing(s - {x}) + [x]
  }
}
