/** The steps of an order in columns: what a report leaves on the row and in the log, and what a whole run shows of its reports. */
module OrderColumns {
  import opened Common
  import opened Orders

  // ---------------------------------------------------------------------
  // The status table and the broker's statuses
  // ---------------------------------------------------------------------

  /** Who may become `target`: the table read by column. */
  ghost predicate MayBecome(from: Status, target: Status) {
    match target
    case Queued => false
    case Submitting => from == Queued || from == ReconcileRequired
    case Submitted => from == Submitting || from == ReconcileRequired
    case PartiallyFilled => from == Submitting || from == Submitted || from == PartiallyFilled || from == ReconcileRequired
    case Filled => from == Submitted || from == PartiallyFilled || from == ReconcileRequired
    case Cancelled => from == Queued || from == Submitted || from == PartiallyFilled || from == ReconcileRequired
    case Rejected => from == Submitting || from == Submitted || from == ReconcileRequired
    case Failed => from != Filled && from != Cancelled && from != Rejected && from != Failed
    case ReconcileRequired => from == Submitting || from == Submitted || from == PartiallyFilled
  }

  lemma {:induction false} TableByColumn(from: Status, target: Status)
    ensures CanTransition(from, target) <==> MayBecome(from, target)
    ensures IsTerminal(from) <==> forall next :: !CanTransition(from, next)
  {
    match from {
      case Queued | Submitting | Submitted | PartiallyFilled | ReconcileRequired => assert CanTransition(from, Failed);
      case Filled | Cancelled | Rejected | Failed =>
    }
  }

  /** The broker's word for the statuses; a working order with a fill is partially filled, an unknown word means submitted. */
  ghost predicate Means(ibStatus: string, filled: real, s: Status) {
    match s
    case Filled => ibStatus == "filled"
    case Rejected => ibStatus == "rejected"
    case Cancelled => ibStatus == "cancelled" || ibStatus == "apicancelled" || ibStatus == "inactive"
    case PartiallyFilled => filled > 0.0 && (ibStatus == "submitted" || ibStatus == "presubmitted" || ibStatus == "pendingsubmit")
    case Queued => ibStatus == ""
    case Submitted =>
      && ibStatus != "" && ibStatus != "filled" && ibStatus != "rejected"
      && ibStatus != "cancelled" && ibStatus != "apicancelled" && ibStatus != "inactive"
      && (filled <= 0.0 || (ibStatus != "submitted" && ibStatus != "presubmitted" && ibStatus != "pendingsubmit"))
    case Submitting | Failed | ReconcileRequired => false
  }

  lemma {:induction false} WordsDiffer()
    ensures "filled"[0] == 'f' && "rejected"[0] == 'r' && "cancelled"[0] == 'c' && "apicancelled"[0] == 'a' && "inactive"[0] == 'i'
    ensures "submitted"[0] == 's' && "presubmitted"[0] == 'p' && "pendingsubmit"[0] == 'p'
  {}

  /** Every report means exactly one status, the one it is normalized to. */
  lemma {:induction false} StatusInColumns(ibStatus: string, filled: real, s: Status)
    ensures Means(ibStatus, filled, s) <==> s == NormalizeIbStatus(ibStatus, filled)
  {
    WordsDiffer();
  }

  // ---------------------------------------------------------------------
  // What a report leaves on the row
  // ---------------------------------------------------------------------

  ghost predicate IsFilledOf(r: Report, filled: real) {
    filled == if r.filled < 0.0 then 0.0 else r.filled
  }

  /** A reported id replaces the stored one unless it is missing or zero. */
  ghost predicate TakesId(after: Option<int>, reported: Option<int>, stored: Option<int>) {
    if reported.Some? && reported.value != 0 then after == reported else after == stored
  }

  ghost predicate TakesName(after: Option<string>, reported: Option<string>, stored: Option<string>) {
    if reported.Some? then after == reported else after == stored
  }

  /** The fields a report names, and the error as it was. */
  ghost predicate TakesFields(o: OrderState, r: Report, after: OrderState) {
    && IsFilledOf(r, after.filled) && after.avgFill == r.avgFill
    && TakesId(after.ibOrderId, r.orderId, o.ibOrderId) && TakesId(after.ibPermId, r.permId, o.ibPermId)
    && TakesId(after.contract.conId, r.contract.conId, o.contract.conId)
    && TakesName(after.contract.localSymbol, r.contract.localSymbol, o.contract.localSymbol)
    && TakesName(after.contract.tradingClass, r.contract.tradingClass, o.contract.tradingClass)
    && TakesName(after.contract.expiry, r.contract.expiry, o.contract.expiry)
    && after.lastError == o.lastError
  }

  ghost predicate ShowsReport(o: OrderState, r: Report, after: OrderState) {
    TakesFields(o, r, after) && Means(r.ibStatus, after.filled, after.status)
  }

  /** The same row but for status, stamps and log. */
  ghost predicate SameFields(a: OrderState, b: OrderState) {
    && a.filled == b.filled && a.avgFill == b.avgFill && a.ibOrderId == b.ibOrderId && a.ibPermId == b.ibPermId
    && a.contract == b.contract && a.terms == b.terms && a.lastError == b.lastError
  }

  /** The columns progress compares. */
  ghost predicate SameProgress(a: OrderState, b: OrderState) {
    && a.status == b.status && a.filled == b.filled && a.avgFill == b.avgFill
    && a.ibOrderId == b.ibOrderId && a.ibPermId == b.ibPermId && a.contract == b.contract
  }

  /** A terminal row that changed gets a completion time unless it has one. */
  ghost predicate StampsCompletion(o: OrderState, after: OrderState, changed: bool, now: int) {
    after.completedAt == if o.completedAt.None? && changed && IsTerminal(after.status) then Some(now) else o.completedAt
  }

  ghost predicate Shows(e: Event, o: OrderState, kind: string) {
    e.kind == kind && e.status == o.status && e.filled == o.filled && e.avgFill == o.avgFill && e.ibOrderId == o.ibOrderId
  }

  /** The log grew by events of the given kinds, each showing the row. */
  ghost predicate Logged(o: OrderState, after: OrderState, kinds: seq<string>) {
    && |after.events| == |o.events| + |kinds|
    && (forall i :: 0 <= i < |o.events| ==> after.events[i] == o.events[i])
    && (forall i :: 0 <= i < |kinds| ==> Shows(after.events[|o.events| + i], after, kinds[i]))
  }

  /** What progress logs: nothing when nothing changed, its own kind once, and the forced move before it when the table forbids the move. */
  ghost function ProgressKinds(o: OrderState, after: OrderState, kind: string): seq<string> {
    if SameProgress(o, after) then []
    else if o.status == after.status || MayBecome(o.status, after.status) then [kind]
    else ["forced_status_change", kind]
  }

  lemma {:induction false} FieldsWritten(o: OrderState, r: Report)
    ensures var w := WithProgress(o, r);
      && TakesFields(o, r, w)
      && (w.status, w.terms, w.submittedAt, w.completedAt, w.events) == (o.status, o.terms, o.submittedAt, o.completedAt, o.events)
  {}

  /** The events of a move: the forced one hides the kind. */
  ghost function MoveKinds(from: Status, next: Status, kind: string): seq<string> {
    if from == next then [] else if MayBecome(from, next) then [kind] else ["forced_status_change"]
  }

  lemma {:induction false} StatusFollowed(w: OrderState, next: Status, kind: string, now: int)
    ensures var (m, emitted) := FollowStatus(w, next, kind, now);
      && m.status == next && SameFields(w, m) && Logged(w, m, MoveKinds(w.status, next, kind))
      && (emitted <==> w.status != next && MayBecome(w.status, next))
      && m.submittedAt == (if w.submittedAt.None? && next == Submitted && w.status != Submitted then Some(now) else w.submittedAt)
      && m.completedAt == (if w.completedAt.None? && IsTerminal(next) && w.status != next then Some(now) else w.completedAt)
  {
    TableByColumn(w.status, next);
  }

  /** The last part of a step: nothing more when nothing changed, else the completion time and an event unless the move logged it. */
  ghost function Ended(moved: OrderState, changed: bool, emitted: bool, kind: string, now: int): OrderState {
    if !changed then moved
    else if emitted then Completed(moved, now)
    else Append(Completed(moved, now), kind)
  }

  lemma {:induction false} EndInColumns(w: OrderState, moved: OrderState, kinds: seq<string>, changed: bool, emitted: bool, kind: string, now: int)
    requires Logged(w, moved, kinds)
    ensures var after := Ended(moved, changed, emitted, kind, now);
      && after.status == moved.status && SameFields(moved, after) && after.submittedAt == moved.submittedAt
      && after.completedAt == (if moved.completedAt.None? && changed && IsTerminal(moved.status) then Some(now) else moved.completedAt)
      && Logged(w, after, if changed && !emitted then kinds + [kind] else kinds)
  {}

  lemma {:induction false} ProgressParts(o: OrderState, r: Report, kind: string, now: int, moved: OrderState, emitted: bool)
    requires (moved, emitted) == FollowStatus(WithProgress(o, r), NormalizeIbStatus(r.ibStatus, FilledOf(r)), kind, now)
    ensures ApplyProgress(o, r, kind, now) == (Ended(moved, Progress(moved) != Progress(o), emitted, kind, now), Progress(moved) != Progress(o))
  {}

  lemma {:induction false} ChangeInColumns(o: OrderState, moved: OrderState)
    ensures Progress(moved) != Progress(o) <==> !SameProgress(o, moved)
  {}

  lemma {:induction false} NextStatus(r: Report) returns (next: Status)
    ensures next == NormalizeIbStatus(r.ibStatus, FilledOf(r)) && Means(r.ibStatus, FilledOf(r), next)
  {
    next := NormalizeIbStatus(r.ibStatus, FilledOf(r));
    StatusInColumns(r.ibStatus, FilledOf(r), next);
  }

  /** A step that follows a status, in the terms of the row before it. */
  lemma {:induction false} FollowedInColumns(o: OrderState, r: Report, w: OrderState, moved: OrderState, next: Status, emitted: bool, kind: string, now: int)
    requires w == WithProgress(o, r) && (moved, emitted) == FollowStatus(w, next, kind, now) && Means(r.ibStatus, FilledOf(r), next)
    ensures var changed := !SameProgress(o, moved); var after := Ended(moved, changed, emitted, kind, now);
      && ShowsReport(o, r, after) && after.terms == o.terms && SameProgress(moved, after) && StampsCompletion(o, after, changed, now)
      && after.submittedAt == (if o.submittedAt.None? && after.status == Submitted && o.status != Submitted then Some(now) else o.submittedAt)
      && Logged(o, after, ProgressKinds(o, after, kind))
  {
    FieldsWritten(o, r);
    StatusFollowed(w, next, kind, now);
    EndInColumns(w, moved, MoveKinds(w.status, next, kind), !SameProgress(o, moved), emitted, kind, now);
  }

  /** A broker report applied to an order: every column of the row after it, and the events it logs. */
  lemma {:induction false} ProgressInColumns(o: OrderState, r: Report, kind: string, now: int)
    ensures var (after, changed) := ApplyProgress(o, r, kind, now);
      && ShowsReport(o, r, after) && after.terms == o.terms
      && (changed <==> !SameProgress(o, after)) && StampsCompletion(o, after, changed, now)
      && after.submittedAt == (if o.submittedAt.None? && after.status == Submitted && o.status != Submitted then Some(now) else o.submittedAt)
      && Logged(o, after, ProgressKinds(o, after, kind))
  {
    var next := NextStatus(r);
    var (moved, emitted) := FollowStatus(WithProgress(o, r), next, kind, now);
    ProgressParts(o, r, kind, now, moved, emitted);
    ChangeInColumns(o, moved);
    FollowedInColumns(o, r, WithProgress(o, r), moved, next, emitted, kind, now);
  }

  ghost predicate TakesTerm(after: string, reported: string, stored: string) {
    after == if reported == "" then stored else reported
  }

  /** The terms after a sync: reported codes where there are any, and the reported side, quantity and limit price. */
  ghost predicate TakesTerms(after: Terms, r: Terms, stored: Terms) {
    && TakesTerm(after.symbol, r.symbol, stored.symbol) && TakesTerm(after.secType, r.secType, stored.secType)
    && TakesTerm(after.exchange, r.exchange, stored.exchange) && TakesTerm(after.currency, r.currency, stored.currency)
    && TakesTerm(after.orderType, r.orderType, stored.orderType) && TakesTerm(after.tif, r.tif, stored.tif)
    && after.side == r.side && after.quantity == r.quantity && after.limitPrice == r.limitPrice
  }

  /** What a sync logs: one event of the move, or one of the update, and nothing when nothing changed. */
  ghost function SyncKinds(o: OrderState, after: OrderState): seq<string> {
    if o.status != after.status then ["broker_order_synced_status"]
    else if SameProgress(o, after) && after.terms == o.terms then []
    else ["broker_order_synced_update"]
  }

  lemma {:induction false} SyncFieldsWritten(o: OrderState, r: Report, now: int, next: Status)
    requires next == NormalizeIbStatus(r.ibStatus, FilledOf(r))
    ensures var w := SyncFields(o, r, now);
      && TakesFields(o, r, w) && TakesTerms(w.terms, r.terms, o.terms)
      && (w.status, w.completedAt, w.events) == (o.status, o.completedAt, o.events)
      && w.submittedAt == (if o.submittedAt.None? && next != Queued then Some(now) else o.submittedAt)
  {}

  lemma {:induction false} StatusSynced(w: OrderState, next: Status, now: int)
    requires next != Queued ==> w.submittedAt.Some?
    ensures var (m, emitted) := SyncStatus(w, next, now);
      && m.status == next && SameFields(w, m) && Logged(w, m, if w.status == next then [] else ["broker_order_synced_status"])
      && (emitted <==> w.status != next) && m.submittedAt == w.submittedAt
      && m.completedAt == (if w.completedAt.None? && IsTerminal(next) && w.status != next then Some(now) else w.completedAt)
  {}

  lemma {:induction false} SyncParts(o: OrderState, r: Report, now: int, moved: OrderState, emitted: bool)
    requires (moved, emitted) == SyncStatus(SyncFields(o, r, now), NormalizeIbStatus(r.ibStatus, FilledOf(r)), now)
    ensures SyncOnto(o, r, now) == (Ended(moved, SyncSnapshot(moved) != SyncSnapshot(o), emitted, "broker_order_synced_update", now),
                                    SyncSnapshot(moved) != SyncSnapshot(o))
  {}

  ghost predicate SameSync(o: OrderState, after: OrderState) {
    SameProgress(o, after) && after.terms == o.terms
  }

  lemma {:induction false} SyncChangeInColumns(o: OrderState, moved: OrderState)
    ensures SyncSnapshot(moved) != SyncSnapshot(o) <==> !SameSync(o, moved)
  {}

  lemma {:induction false} SyncedInColumns(o: OrderState, r: Report, w: OrderState, moved: OrderState, next: Status, emitted: bool, now: int)
    requires w == SyncFields(o, r, now) && (moved, emitted) == SyncStatus(w, next, now)
    requires next == NormalizeIbStatus(r.ibStatus, FilledOf(r)) && Means(r.ibStatus, FilledOf(r), next)
    ensures var changed := !SameSync(o, moved); var after := Ended(moved, changed, emitted, "broker_order_synced_update", now);
      && ShowsReport(o, r, after) && TakesTerms(after.terms, r.terms, o.terms) && SameSync(moved, after) && StampsCompletion(o, after, changed, now)
      && after.submittedAt == (if o.submittedAt.None? && after.status != Queued then Some(now) else o.submittedAt)
      && Logged(o, after, SyncKinds(o, after))
  {
    SyncFieldsWritten(o, r, now, next);
    StatusSynced(w, next, now);
    EndInColumns(w, moved, if w.status == next then [] else ["broker_order_synced_status"], !SameSync(o, moved), emitted, "broker_order_synced_update", now);
  }

  /** A broker sync onto a stored order, in the same terms. */
  lemma {:induction false} SyncInColumns(o: OrderState, r: Report, now: int)
    ensures var (after, changed) := SyncOnto(o, r, now);
      && ShowsReport(o, r, after) && TakesTerms(after.terms, r.terms, o.terms)
      && (changed <==> !SameSync(o, after)) && StampsCompletion(o, after, changed, now)
      && after.submittedAt == (if o.submittedAt.None? && after.status != Queued then Some(now) else o.submittedAt)
      && Logged(o, after, SyncKinds(o, after))
  {
    var next := NextStatus(r);
    var (moved, emitted) := SyncStatus(SyncFields(o, r, now), next, now);
    SyncParts(o, r, now, moved, emitted);
    SyncChangeInColumns(o, moved);
    SyncedInColumns(o, r, SyncFields(o, r, now), moved, next, emitted, now);
  }

  // ---------------------------------------------------------------------
  // The other steps
  // ---------------------------------------------------------------------

  /** The row an import creates: the numbers as reported, defaults for missing terms, one event. */
  ghost predicate IsImported(o: OrderState, r: Report, now: int) {
    && IsFilledOf(r, o.filled) && o.avgFill == r.avgFill && Means(r.ibStatus, o.filled, o.status)
    && o.ibOrderId == r.orderId && o.ibPermId == r.permId && o.contract == r.contract && o.lastError == None
    && o.submittedAt == (if o.status == Queued then None else Some(now))
    && o.completedAt == (if IsTerminal(o.status) then Some(now) else None)
    && TakesTerms(o.terms, r.terms, Terms("UNKNOWN", "FUT", "SMART", "USD", r.terms.side, r.terms.quantity, "MKT", r.terms.limitPrice, "DAY"))
    && |o.events| == 1 && Shows(o.events[0], o, "broker_order_synced_create")
  }

  lemma {:induction false} ImportInColumns(r: Report, now: int)
    ensures IsImported(CreateFromReport(r, now), r, now)
  {
    StatusInColumns(r.ibStatus, FilledOf(r), NormalizeIbStatus(r.ibStatus, FilledOf(r)));
  }

  /** Everything but status, stamps, contract, error and log is as it was. */
  ghost predicate KeepsFills(o: OrderState, after: OrderState) {
    && after.filled == o.filled && after.avgFill == o.avgFill && after.ibOrderId == o.ibOrderId && after.ibPermId == o.ibPermId
    && after.terms == o.terms && after.submittedAt == o.submittedAt
  }

  ghost predicate LoggedKinds(o: OrderState, after: OrderState, kinds: seq<string>) {
    && |after.events| == |o.events| + |kinds|
    && (forall i :: 0 <= i < |o.events| ==> after.events[i] == o.events[i])
    && (forall i :: 0 <= i < |kinds| ==> after.events[|o.events| + i].kind == kinds[i])
  }

  /** A queued order that is claimed and processed: it ends failed with the error, its fills untouched and each stage logged. */
  lemma {:induction false} ClaimInColumns(o: OrderState, f: Failure, now: int)
    requires o.status == Queued
    ensures var after := Apply(o, ClaimAndProcess(f, now));
      && after.status == Failed && KeepsFills(o, after) && after.lastError == Some(f.error)
      && after.contract == (if f.NotSubmitted? then f.contract else o.contract)
      && after.completedAt == (if o.completedAt.None? then Some(now) else o.completedAt)
      && LoggedKinds(o, after, if f.NotSubmitted? then ["order_submitting", "contract_qualified", "order_error"] else ["order_submitting", "order_error"])
  {}

  /** Startup without a broker report: a started order is put up for reconciliation or marked as still so; any other is left alone. */
  lemma {:induction false} StartupInColumns(o: OrderState, now: int)
    ensures var after := Apply(o, Startup(None, now)); var started := o.status in {Submitting, Submitted, PartiallyFilled};
      && (started ==>
            after == o.(status := ReconcileRequired, events := after.events) && Logged(o, after, ["order_reconcile_required"]))
      && (o.status == ReconcileRequired ==> after == o.(events := after.events) && Logged(o, after, ["order_reconcile_checked"]))
      && (!started && o.status != ReconcileRequired ==> after == o)
  {}

  lemma {:induction false} CancelInColumns(o: OrderState, now: int)
    ensures var after := Apply(o, ApiCancel(now));
      && (o.status == Queued ==>
            && after == o.(status := Cancelled, completedAt := if o.completedAt.None? then Some(now) else o.completedAt, events := after.events)
            && Logged(o, after, ["order_cancelled"]))
      && (o.status != Queued ==> after == o)
  {}

  // ---------------------------------------------------------------------
  // Whole runs
  // ---------------------------------------------------------------------

  /** The report a step applies to an order of a status: startup's to an unfinished order, a sync's to any. */
  ghost function ReportIn(status: Status, step: Step): Option<Report> {
    match step
    case Startup(found, _) => if IsTerminal(status) then None else found
    case BrokerSync(report, _) => Some(report)
    case ClaimAndProcess(_, _) | ApiCancel(_) => None
  }

  /** The last report a run applied, the one it was imported from included. */
  ghost function LastReport(origin: Origin, steps: seq<Step>): Option<Report> {
    if steps == [] then
      (match origin
       case FromApi(_) => None
       case FromBroker(report, _) => Some(report))
    else
      var front, last := steps[..|steps| - 1], steps[|steps| - 1];
      var r := ReportIn(StatusOf(origin, front), last);
      if r.Some? then r else LastReport(origin, front)
  }

  /** The filled quantity and average price are those of a report; with none, nothing is filled. */
  ghost predicate FillsAsReported(o: OrderState, r: Option<Report>) {
    match r
    case None => o.filled == 0.0 && o.avgFill == None
    case Some(r) => IsFilledOf(r, o.filled) && o.avgFill == r.avgFill
  }

  lemma {:induction false} StepShowsItsReport(o: OrderState, step: Step)
    ensures match ReportIn(o.status, step)
      case Some(r) => ShowsReport(o, r, Apply(o, step))
      case None => Apply(o, step).filled == o.filled && Apply(o, step).avgFill == o.avgFill && Apply(o, step).ibOrderId == o.ibOrderId
  {
    match step
    case Startup(found, at) =>
      if found.Some? && !IsTerminal(o.status) { ProgressInColumns(o, found.value, "order_reconciled", at); }
    case BrokerSync(report, at) => SyncInColumns(o, report, at);
    case ClaimAndProcess(_, _) =>
    case ApiCancel(_) =>
  }

  /** In every run the row shows the filled quantity and average price of the last report applied to it. */
  lemma {:induction false} FillsOfRun(origin: Origin, steps: seq<Step>)
    ensures FillsAsReported(Run(Created(origin), steps), LastReport(origin, steps))
  {
    if steps != [] {
      var front, last := steps[..|steps| - 1], steps[|steps| - 1];
      FillsOfRun(origin, front);
      StatusOfRun(origin, front);
      StepShowsItsReport(Run(Created(origin), front), last);
    }
  }

  /** And so does its newest event. */
  lemma {:induction false} NewestEventShowsTheLastReport(origin: Origin, steps: seq<Step>)
    ensures var events := Run(Created(origin), steps).events;
      events != [] &&
      match LastReport(origin, steps)
      case None => events[|events| - 1].filled == 0.0 && events[|events| - 1].avgFill == None
      case Some(r) => IsFilledOf(r, events[|events| - 1].filled) && events[|events| - 1].avgFill == r.avgFill
  {
    NewestEventMirrorsTheOrder(origin, steps);
    FillsOfRun(origin, steps);
  }

  /** The last nonzero broker id a run was told; an import takes a zero as it is. */
  ghost function LastOrderId(origin: Origin, steps: seq<Step>): Option<int> {
    if steps == [] then
      (match origin
       case FromApi(_) => None
       case FromBroker(report, _) => report.orderId)
    else
      var front, last := steps[..|steps| - 1], steps[|steps| - 1];
      var r := ReportIn(StatusOf(origin, front), last);
      if r.Some? && r.value.orderId.Some? && r.value.orderId.value != 0 then r.value.orderId else LastOrderId(origin, front)
  }

  /** In every run the row and its newest event carry that id. */
  lemma {:induction false} OrderIdOfRun(origin: Origin, steps: seq<Step>)
    ensures Run(Created(origin), steps).ibOrderId == LastOrderId(origin, steps)
  {
    if steps != [] {
      var front, last := steps[..|steps| - 1], steps[|steps| - 1];
      OrderIdOfRun(origin, front);
      StatusOfRun(origin, front);
      StepShowsItsReport(Run(Created(origin), front), last);
    }
  }
}
