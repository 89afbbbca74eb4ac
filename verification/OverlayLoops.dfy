/** The overlay's loops, each proved against the function it computes. */
module OverlayLoops {
  import opened Common
  import opened Calendar
  import opened Holdings
  import opened Overlay

  ghost predicate IndexesSnapshot(m: map<Pair, Position>, rows: seq<Position>) {
    forall key :: Lookup(m, key) == SnapshotOf(rows, key)
  }

  method IndexSnapshot(flexRows: seq<Position>) returns (byKey: map<Pair, Position>)
    ensures IndexesSnapshot(byKey, flexRows)
  {
    byKey := map[];
    for i := 0 to |flexRows|
      invariant IndexesSnapshot(byKey, flexRows[..i])
    {
      assert flexRows[..i + 1][..i] == flexRows[..i];
      byKey := byKey[SettledKey(flexRows[i]) := flexRows[i]];
    }
    assert flexRows[..|flexRows|] == flexRows;
  }

  /** Live rows first, then the settled rows neither seen nor net-closed. */
  method MergePositions(flexRows: seq<Position>, liveRows: seq<LivePosition>, lookups: Lookups, clock: Clock) returns (views: seq<View>)
    ensures views == Merge(flexRows, liveRows, lookups, clock)
  {
    var byKey := IndexSnapshot(flexRows);
    var liveAccounts := LiveAccounts(liveRows, lookups.asOf, clock);
    var view := (l: LivePosition) => ViewOf(l, flexRows, lookups, clock);
    var seen: set<Pair>;
    views, seen := [], {};
    for i := 0 to |liveRows|
      invariant views == Map(liveRows[..i], view) && seen == KeysOf(liveRows[..i])
    {
      MapStep(liveRows, i, view);
      assert liveRows[..i + 1] == liveRows[..i] + [liveRows[i]];
      var live := liveRows[i];
      seen := seen + {LiveKey(live)};
      var flex := Lookup(byKey, LiveKey(live));
      views := views + [LiveView(live, flex, Lookup(lookups.quotes, live.conId), Lookup(lookups.magnifiers, live.conId).GetOr(None), clock)];
    }
    assert liveRows[..|liveRows|] == liveRows;
    views := AddSettledOnly(flexRows, views, seen, liveAccounts);
  }

  lemma KeptStep(rows: seq<Position>, i: nat, keep: Position -> bool)
    requires i < |rows|
    ensures Map(Filter(rows[..i + 1], keep), SettledView) == Map(Filter(rows[..i], keep), SettledView) + if keep(rows[i]) then [SettledView(rows[i])] else []
  {
    FilterStep(rows, i, keep);
    MapAppend(Filter(rows[..i], keep), rows[i], SettledView);
  }

  method AddSettledOnly(flexRows: seq<Position>, liveViews: seq<View>, seen: set<Pair>, liveAccounts: set<int>) returns (views: seq<View>)
    ensures views == liveViews + Map(Filter(flexRows, (f: Position) => IsSettledOnly(f, seen, liveAccounts)), SettledView)
  {
    var keep := (f: Position) => IsSettledOnly(f, seen, liveAccounts);
    ghost var kept: seq<View> := [];
    views := liveViews;
    for i := 0 to |flexRows|
      invariant views == liveViews + kept
      invariant kept == Map(Filter(flexRows[..i], keep), SettledView)
    {
      KeptStep(flexRows, i, keep);
      var flex := flexRows[i];
      if SettledKey(flex) in seen || flex.account in liveAccounts { continue; }
      Regroup(liveViews, kept, [SettledView(flex)]);
      views, kept := views + [SettledView(flex)], kept + [SettledView(flex)];
    }
    assert flexRows[..|flexRows|] == flexRows;
  }

  /** The group's share of every settled row, then the views it holds some of, cut to size. */
  method ApportionToGroup(views: seq<View>, flexRows: seq<Position>, holdings: GroupHoldings) returns (cut: seq<View>, shares: map<Pair, real>)
    ensures shares == FlexShares(flexRows, holdings.settled) && cut == Apportion(views, shares, holdings)
  {
    shares := map[];
    for i := 0 to |flexRows|
      invariant shares == FlexShares(flexRows[..i], holdings.settled)
    {
      assert flexRows[..i + 1][..i] == flexRows[..i];
      shares := shares[SettledKey(flexRows[i]) := ShareOf(flexRows[i], holdings.settled)];
    }
    assert flexRows[..|flexRows|] == flexRows;
    cut := CutViews(views, shares, holdings);
  }

  method CutViews(views: seq<View>, shares: map<Pair, real>, holdings: GroupHoldings) returns (cut: seq<View>)
    ensures cut == Apportion(views, shares, holdings)
  {
    var keep, size := HoldsSome(shares, holdings), CutTo(shares, holdings);
    cut := [];
    for i := 0 to |views|
      invariant cut == Map(Filter(views[..i], keep), size)
    {
      FilterStep(views, i, keep);
      var share := PositionShare(views[i], shares, holdings);
      if share == 0.0 { continue; }
      MapAppend(Filter(views[..i], keep), views[i], size);
      cut := cut + [Cut(views[i], shares, holdings)];
    }
    assert views[..|views|] == views;
  }

  // ---------------------------------------------------------------------
  // The settled-only path
  // ---------------------------------------------------------------------

  datatype BatchPnl = BatchPnl(realized: Option<real>, settledUnrealized: Option<real>)

  /** Quantity and unrealized PnL of every valued, open settled row. */
  function SettledTable(rows: seq<Position>): map<Pair, (real, real)> {
    if rows == [] then map[]
    else
      var row := rows[|rows| - 1];
      if row.unrealized.None? then SettledTable(rows[..|rows| - 1])
      else SettledTable(rows[..|rows| - 1])[SettledKey(row) := (row.position, row.unrealized.value)]
  }

  function EntryPart(entry: Option<(real, real)>, held: Option<real>): Option<real> {
    if entry.Some? then Some(entry.value.1 * HeldFraction(held, entry.value.0)) else None
  }

  function TablePart(table: map<Pair, (real, real)>, held: map<Pair, real>): Pair -> Option<real> {
    (pair: Pair) => EntryPart(Lookup(table, pair), Lookup(held, pair))
  }

  /** The figure of one group; `order` lists its pairs in the order a set is iterated. */
  function SettledFigure(table: map<Pair, (real, real)>, held: map<Pair, real>, order: seq<Pair>): Option<real> {
    SumPresent(Map(order, TablePart(table, held)))
  }

  /** The iteration order of the group's pairs does not matter. */
  lemma FigureIgnoresOrder(table: map<Pair, (real, real)>, held: map<Pair, real>, a: seq<Pair>, b: seq<Pair>, pairs: set<Pair>)
    requires Lists(a, pairs) && Lists(b, pairs)
    ensures SettledFigure(table, held, a) == SettledFigure(table, held, b)
  {
    SameListing(a, b);
    SumPresentOfPermutation(a, b, TablePart(table, held));
  }

  lemma {:induction false} SumPresentOfPermutation<T(!new)>(a: seq<T>, b: seq<T>, f: T -> Option<real>)
    requires multiset(a) == multiset(b)
    ensures SumPresent(Map(a, f)) == SumPresent(Map(b, f))
  {
    SumOfPermutation(a, b, Then(f, OrZero));
    SumOfMap(a, f, OrZero);
    SumOfMap(b, f, OrZero);
    SameElements(a, b);
    AllAbsent(a, f);
    AllAbsent(b, f);
  }

  lemma AllAbsent<T(!new)>(xs: seq<T>, f: T -> Option<real>)
    ensures (forall y :: y in Map(xs, f) ==> y.None?) <==> (forall x :: x in xs ==> f(x).None?)
  {
    if forall y :: y in Map(xs, f) ==> y.None? {
      forall x | x in xs ensures f(x).None? {
        var i :| 0 <= i < |xs| && xs[i] == x;
        assert Map(xs, f)[i] in Map(xs, f);
      }
    }
  }

  method LoadSettledTable(db: Db, pairs: set<Pair>) returns (table: map<Pair, (real, real)>)
    ensures table == SettledTable(Snapshot(db, pairs))
  {
    var rows := Snapshot(db, pairs);
    table := map[];
    for i := 0 to |rows|
      invariant table == SettledTable(rows[..i])
    {
      assert rows[..i + 1][..i] == rows[..i];
      if rows[i].unrealized.Some? {
        table := table[SettledKey(rows[i]) := (rows[i].position, rows[i].unrealized.value)];
      }
    }
    assert rows[..|rows|] == rows;
  }

  /** Sum over the group's pairs in whatever order the set yields them. */
  method SumPairs(table: map<Pair, (real, real)>, held: map<Pair, real>, pairs: set<Pair>) returns (total: Option<real>, ghost order: seq<Pair>)
    ensures Lists(order, pairs) && total == SettledFigure(table, held, order)
  {
    var values: seq<Option<real>>, rest := [], pairs;
    order := [];
    while rest != {}
      invariant rest <= pairs && Lists(order, pairs - rest)
      invariant values == Map(order, TablePart(table, held))
      decreases |rest|
    {
      var pair := Pick(rest);
      MapAppend(order, pair, TablePart(table, held));
      rest, order, values := rest - {pair}, order + [pair], values + [TablePart(table, held)(pair)];
    }
    total := SumPresent(values);
  }

  /** The pairs of several ledgers together. */
  function SettledPairsOf(ledgers: map<int, Ledger>): set<Pair> {
    set g, p | g in ledgers && p in ledgers[g].SettledPairs() :: p
  }

  /** One group's figures from a table of settled rows. */
  function SettledPnl(table: map<Pair, (real, real)>, ledger: Ledger, order: seq<Pair>): BatchPnl {
    BatchPnl(ledger.Realized(), SettledFigure(table, HoldingsOf(ledger.executions, []).settled, order))
  }

  /** Realized and settled unrealized PnL of every group from its settled fills and the snapshot alone. */
  method SettledBatchPnls(db: Db, ledgers: map<int, Ledger>) returns (result: map<int, BatchPnl>)
    ensures result.Keys == ledgers.Keys
    ensures forall g, order :: g in ledgers && Lists(order, ledgers[g].SettledPairs()) ==>
      result[g] == SettledPnl(SettledTable(Snapshot(db, SettledPairsOf(ledgers))), ledgers[g], order)
  {
    var table := LoadSettledTable(db, SettledPairsOf(ledgers));
    result := map[];
    var rest: set<int> := ledgers.Keys;
    while rest != {}
      invariant rest <= ledgers.Keys && result.Keys == ledgers.Keys - rest
      invariant forall g, order :: g in result && Lists(order, ledgers[g].SettledPairs()) ==>
        result[g] == SettledPnl(table, ledgers[g], order)
      decreases |rest|
    {
      var g := Pick(rest);
      var row := GroupSettledPnl(table, ledgers[g]);
      result, rest := result[g := row], rest - {g};
    }
  }

  method GroupSettledPnl(table: map<Pair, (real, real)>, ledger: Ledger) returns (row: BatchPnl)
    ensures forall order :: Lists(order, ledger.SettledPairs()) ==>
      row == SettledPnl(table, ledger, order)
  {
    var holdings := ComputeHoldings(ledger.executions, []);
    var total, mine := SumPairs(table, holdings.settled, ledger.SettledPairs());
    row := BatchPnl(ledger.Realized(), total);
    forall order | Lists(order, ledger.SettledPairs()) ensures SettledFigure(table, holdings.settled, order) == total {
      FigureIgnoresOrder(table, holdings.settled, order, mine, ledger.SettledPairs());
    }
  }
}
