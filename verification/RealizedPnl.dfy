/** Which fills the realized PnL of a trade or group counts, and that it counts each of them once. */
module RealizedPnl {
  import opened Common
  import opened Calendar
  import opened Holdings
  import opened Overlay
  import opened OverlayLoops
  import opened OverlayProperties

  ghost predicate HasValuedSummary(execs: seq<LedgerFill>) {
    exists e :: e in execs && e.role == ComboSummary && e.realized.Some?
  }

  function NoLeg(e: LedgerFill): bool {
    e.role == ComboSummary || e.role == Standalone
  }

  function NoSummary(e: LedgerFill): bool {
    e.role == Leg || e.role == Standalone
  }

  /** A valued summary stands for its legs; without one the summaries stand for nothing. */
  ghost function Counts(execs: seq<LedgerFill>): LedgerFill -> bool {
    if HasValuedSummary(execs) then NoLeg else NoSummary
  }

  function Value(e: LedgerFill): real {
    match e.realized
    case None => 0.0
    case Some(x) => x
  }

  /** `total` is the sum over the fills; absent when none of them is valued. */
  ghost predicate IsTotalOf(total: Option<real>, fills: seq<LedgerFill>) {
    && (total.None? <==> forall e :: e in fills ==> e.realized.None?)
    && (total.Some? ==> total.value == Sum(fills, Value))
  }

  function IsSummary(e: LedgerFill): bool { e.role == ComboSummary }

  function IsStandalone(e: LedgerFill): bool { e.role == Standalone }

  lemma {:induction false} PresentTotal(fills: seq<LedgerFill>)
    ensures IsTotalOf(SumPresent(Map(fills, FillRealized)), fills)
    ensures OrZero(SumPresent(Map(fills, FillRealized))) == Sum(fills, Value)
  {
    AllAbsent(fills, FillRealized);
    SumOfMap(fills, FillRealized, OrZero);
    SumAgrees(fills, Then(FillRealized, OrZero), Value);
    if forall e :: e in fills ==> e.realized.None? { SumOfZeros(fills, Value); }
  }

  /** A sum over the fills the code selects is that over the fills the roles name. */
  lemma {:induction false} SelectedTotal(execs: seq<LedgerFill>, p: LedgerFill -> bool, q: LedgerFill -> bool)
    requires forall e :: e in execs ==> p(e) == q(e)
    ensures IsTotalOf(RealizedSum(execs, p), Filter(execs, q))
    ensures OrZero(RealizedSum(execs, p)) == Sum(Filter(execs, q), Value)
  {
    FilterAgrees(execs, p, q);
    PresentTotal(Filter(execs, q));
  }

  lemma {:induction false} SummaryIsValued(execs: seq<LedgerFill>)
    ensures RealizedSum(execs, IsSummaryFill).Some? <==> HasValuedSummary(execs)
  {
    SelectedTotal(execs, IsSummaryFill, IsSummary);
    if HasValuedSummary(execs) {
      var e :| e in execs && e.role == ComboSummary && e.realized.Some?;
      assert e in Filter(execs, IsSummary);
    }
  }

  lemma {:induction false} SummaryTotal(execs: seq<LedgerFill>)
    ensures OrZero(RealizedSum(execs, IsSummaryFill)) == Sum(Filter(execs, IsSummary), Value)
  {
    SelectedTotal(execs, IsSummaryFill, IsSummary);
  }

  lemma {:induction false} SummariesAndStandalone(execs: seq<LedgerFill>)
    ensures Sum(Filter(execs, NoLeg), Value) == Sum(Filter(execs, IsSummary), Value) + Sum(Filter(execs, IsStandalone), Value)
  {
    SumOfParts(execs, IsSummary, IsStandalone, NoLeg, Value);
  }

  lemma {:induction false} PlainTotal(execs: seq<LedgerFill>)
    ensures OrZero(RealizedSum(execs, IsPlainFill)) == Sum(Filter(execs, IsStandalone), Value)
  {
    SelectedTotal(execs, IsPlainFill, IsStandalone);
  }

  lemma {:induction false} RuleWithSummary(execs: seq<LedgerFill>, summaries: Option<real>, plain: real)
    requires summaries == RealizedSum(execs, IsSummaryFill) && summaries.Some? && plain == OrZero(RealizedSum(execs, IsPlainFill))
    ensures RealizedTotal(execs) == Some(OrZero(summaries) + plain)
  {}

  lemma {:induction false} WithSummary(execs: seq<LedgerFill>, summaries: Option<real>)
    requires summaries == RealizedSum(execs, IsSummaryFill) && summaries.Some?
    ensures RealizedTotal(execs) == Some(Sum(Filter(execs, NoLeg), Value))
  {
    SummaryTotal(execs);
    PlainTotal(execs);
    SummariesAndStandalone(execs);
    RuleWithSummary(execs, summaries, OrZero(RealizedSum(execs, IsPlainFill)));
  }

  lemma {:induction false} WithoutSummary(execs: seq<LedgerFill>)
    requires RealizedSum(execs, IsSummaryFill).None?
    ensures IsTotalOf(RealizedTotal(execs), Filter(execs, NoSummary))
  {
    SelectedTotal(execs, (e: LedgerFill) => !IsSummaryFill(e), NoSummary);
  }

  /**
    The realized total is the sum of exactly the fills that count, each once:
    with a valued summary the summaries and the standalone fills, else the legs
    and the standalone fills; it is absent exactly when none that counts has a value.
   */
  lemma {:induction false} RealizedIsWhatCounts(execs: seq<LedgerFill>)
    ensures IsTotalOf(RealizedTotal(execs), Filter(execs, Counts(execs)))
  {
    SummaryIsValued(execs);
    if HasValuedSummary(execs) {
      WithSummary(execs, RealizedSum(execs, IsSummaryFill));
      var e :| e in execs && e.role == ComboSummary && e.realized.Some?;
      assert e in Filter(execs, NoLeg);
    } else {
      WithoutSummary(execs);
    }
  }

  /** While a summary is valued, legs may be added, dropped or revalued without changing the total. */
  lemma {:induction false} LegsDoNotCount(execs: seq<LedgerFill>, other: seq<LedgerFill>)
    requires HasValuedSummary(execs) && Filter(execs, NoLeg) == Filter(other, NoLeg)
    ensures RealizedTotal(execs) == RealizedTotal(other)
  {
    var e :| e in execs && e.role == ComboSummary && e.realized.Some?;
    assert e in Filter(execs, NoLeg);
    assert e in other;
    RealizedIsWhatCounts(execs);
    RealizedIsWhatCounts(other);
  }

  /** While none is, summaries may come and go. */
  lemma {:induction false} UnvaluedSummariesDoNotCount(execs: seq<LedgerFill>, other: seq<LedgerFill>)
    requires !HasValuedSummary(execs) && !HasValuedSummary(other) && Filter(execs, NoSummary) == Filter(other, NoSummary)
    ensures RealizedTotal(execs) == RealizedTotal(other)
  {
    RealizedIsWhatCounts(execs);
    RealizedIsWhatCounts(other);
  }

  function IsLeg(e: LedgerFill): bool { e.role == Leg }

  /** A valued summary takes the place of its legs: the total is that of all other fills less the legs' and plus the summaries' own. */
  lemma {:induction false} SummariesReplaceLegs(execs: seq<LedgerFill>)
    requires HasValuedSummary(execs)
    ensures RealizedTotal(execs).Some?
    ensures RealizedTotal(execs).value
         == Sum(Filter(execs, NoSummary), Value) - Sum(Filter(execs, IsLeg), Value) + Sum(Filter(execs, IsSummary), Value)
  {
    RealizedIsWhatCounts(execs);
    SumOfParts(execs, IsLeg, IsStandalone, NoSummary, Value);
    SumOfParts(execs, IsSummary, IsStandalone, NoLeg, Value);
    var e :| e in execs && e.role == ComboSummary && e.realized.Some?;
    assert e in Filter(execs, NoLeg);
  }

  /** So both batch entry points answer, for every group, the sum of the fills that count. */
  lemma {:induction false} BatchRealizedIsWhatCounts(db: Db, ledgers: map<int, Ledger>, g: int, order: seq<Pair>, clock: Clock)
    requires g in ledgers
    ensures var execs := ledgers[g].executions;
      && IsTotalOf(QuickPnl(db, ledgers, g, order).realized, Filter(execs, Counts(execs)))
      && IsTotalOf(FullPnl(db, ledgers, g, clock).realized, Filter(execs, Counts(execs)))
  {
    RealizedIsWhatCounts(ledgers[g].executions);
  }
}
