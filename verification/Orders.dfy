/**
  The order lifecycle: the status table, and every step the API, the worker,
  startup reconciliation and the broker sync take on one order, as functions
  of the order row and its event log.
 */
module Orders {
  import opened Common

  datatype Status = Queued | Submitting | Submitted | PartiallyFilled | Filled | Cancelled | Rejected | Failed | ReconcileRequired

  predicate IsTerminal(s: Status) {
    s in {Filled, Cancelled, Rejected, Failed}
  }

  function AllowedFrom(s: Status): set<Status> {
    match s
    case Queued => {Submitting, Cancelled, Failed}
    case Submitting => {Submitted, PartiallyFilled, Rejected, Failed, ReconcileRequired}
    case Submitted => {PartiallyFilled, Filled, Cancelled, Rejected, Failed, ReconcileRequired}
    case PartiallyFilled => {PartiallyFilled, Filled, Cancelled, ReconcileRequired, Failed}
    case ReconcileRequired => {Submitting, Submitted, PartiallyFilled, Filled, Cancelled, Rejected, Failed}
    case Filled | Cancelled | Rejected | Failed => {}
  }

  predicate CanTransition(from: Status, target: Status) {
    target in AllowedFrom(from)
  }

  predicate IsReconcileEligible(s: Status) {
    s in {Submitting, Submitted, PartiallyFilled, ReconcileRequired}
  }

  const FORCED := "forced_status_change"
  const SYNCED := "broker_order_synced_status"

  datatype Event = Event(kind: string, status: Status, filled: real, avgFill: Option<real>, ibOrderId: Option<int>)

  datatype ContractIds = ContractIds(conId: Option<int>, localSymbol: Option<string>, tradingClass: Option<string>, expiry: Option<string>)

  datatype Terms = Terms(
    symbol: string, secType: string, exchange: string, currency: string, side: string, quantity: int,
    orderType: string, limitPrice: Option<real>, tif: string)

  /** An order row with its event log, oldest event first. */
  datatype OrderState = OrderState(
    status: Status, filled: real, avgFill: Option<real>, ibOrderId: Option<int>, ibPermId: Option<int>,
    contract: ContractIds, terms: Terms, submittedAt: Option<int>, completedAt: Option<int>, lastError: Option<string>,
    events: seq<Event>)

  /** What the broker reports of one of its orders; a number is absent when missing, a contract name when empty. */
  datatype Report = Report(
    ibStatus: string, filled: real, avgFill: Option<real>, orderId: Option<int>, permId: Option<int>,
    contract: ContractIds, terms: Terms)

  datatype Result<+T> = Ok(value: T) | InvalidTransition(from: Status, target: Status)

  // ---------------------------------------------------------------------
  // Events and transitions
  // ---------------------------------------------------------------------

  function EventOf(o: OrderState, kind: string): Event {
    Event(kind, o.status, o.filled, o.avgFill, o.ibOrderId)
  }

  function Append(o: OrderState, kind: string): OrderState {
    o.(events := o.events + [EventOf(o, kind)])
  }

  function Moved(o: OrderState, next: Status, now: int): OrderState {
    o.(status := next,
       submittedAt := if next == Submitted && o.submittedAt.None? then Some(now) else o.submittedAt,
       completedAt := if IsTerminal(next) && o.completedAt.None? then Some(now) else o.completedAt)
  }

  /** A move the table does not allow is an error, or a forced event when asked for. */
  function Transition(o: OrderState, next: Status, kind: string, force: bool, now: int): Result<OrderState> {
    if CanTransition(o.status, next) then Ok(Append(Moved(o, next, now), kind))
    else if force then Ok(Append(Moved(o, next, now), FORCED))
    else InvalidTransition(o.status, next)
  }

  function NormalizeIbStatus(ibStatus: string, filled: real): Status {
    if ibStatus == "filled" then Filled
    else if ibStatus == "rejected" then Rejected
    else if ibStatus == "cancelled" || ibStatus == "apicancelled" || ibStatus == "inactive" then Cancelled
    else if (ibStatus == "submitted" || ibStatus == "presubmitted" || ibStatus == "pendingsubmit") && filled > 0.0 then PartiallyFilled
    else if ibStatus != "" then Submitted
    else Queued
  }

  // ---------------------------------------------------------------------
  // The worker
  // ---------------------------------------------------------------------

  function OrKeep<T>(incoming: Option<T>, stored: Option<T>): Option<T> {
    if incoming.Some? then incoming else stored
  }

  function FilledOf(r: Report): real {
    if r.filled > 0.0 then r.filled else 0.0
  }

  /** An update counts a zero number as none. */
  function NonZero(x: Option<int>): Option<int> {
    if x == Some(0) then None else x
  }

  function WithContract(stored: ContractIds, r: ContractIds): ContractIds {
    ContractIds(OrKeep(NonZero(r.conId), stored.conId), OrKeep(r.localSymbol, stored.localSymbol),
                OrKeep(r.tradingClass, stored.tradingClass), OrKeep(r.expiry, stored.expiry))
  }

  /** The progress fields of a report written onto the order. */
  function WithProgress(o: OrderState, r: Report): OrderState {
    o.(contract := WithContract(o.contract, r.contract), ibOrderId := OrKeep(NonZero(r.orderId), o.ibOrderId),
       ibPermId := OrKeep(NonZero(r.permId), o.ibPermId), filled := FilledOf(r), avgFill := r.avgFill)
  }

  /** Follow the broker's status; the flag says whether the event counts as the progress event. */
  function FollowStatus(o: OrderState, next: Status, kind: string, now: int): (OrderState, bool) {
    if o.status == next then (o, false)
    else if CanTransition(o.status, next) then (Transition(o, next, kind, false, now).value, true)
    else (Transition(o, next, kind, true, now).value, false)
  }

  /** What progress compares before and after. */
  function Progress(o: OrderState): (Status, real, Option<real>, Option<int>, Option<int>, ContractIds) {
    (o.status, o.filled, o.avgFill, o.ibOrderId, o.ibPermId, o.contract)
  }

  function Completed(o: OrderState, now: int): OrderState {
    if IsTerminal(o.status) && o.completedAt.None? then o.(completedAt := Some(now)) else o
  }

  function ApplyProgress(o: OrderState, r: Report, kind: string, now: int): (OrderState, bool) {
    var (moved, emitted) := FollowStatus(WithProgress(o, r), NormalizeIbStatus(r.ibStatus, FilledOf(r)), kind, now);
    if Progress(moved) == Progress(o) then (moved, false)
    else
      var done := Completed(moved, now);
      (if emitted then done else Append(done, kind), true)
  }

  /** Compare-and-set from queued to submitting. */
  function Claim(o: OrderState): Option<OrderState> {
    if o.status == Queued then Some(Append(o.(status := Submitting), "order_submitting")) else None
  }

  /** How processing a claimed order goes wrong; it always does, as submission is switched off. */
  datatype Failure = MissingAccount(error: string) | NotQualified(error: string) | NotSubmitted(contract: ContractIds, error: string)

  function Process(o: OrderState, f: Failure, now: int): Result<OrderState> {
    match f
    case MissingAccount(error) => Transition(o.(lastError := Some(error)), Failed, "order_error", false, now)
    case NotQualified(error) => Transition(o.(lastError := Some(error)), Failed, "order_error", false, now)
    case NotSubmitted(contract, error) =>
      var qualified := Append(o.(contract := contract), "contract_qualified");
      Transition(qualified.(lastError := Some(error)), Failed, "order_error", false, now)
  }

  /** Startup reconciliation of one non-terminal order, given the open broker order of its ref if there is one. */
  function ReconcileOpen(o: OrderState, r: Option<Report>, now: int): Result<(OrderState, bool)> {
    if r.Some? then Ok(ApplyProgress(o, r.value, "order_reconciled", now))
    else if !IsReconcileEligible(o.status) then Ok((o, false))
    else if o.status != ReconcileRequired then
      match Transition(o, ReconcileRequired, "order_reconcile_required", false, now)
      case Ok(moved) => Ok((moved, true))
      case InvalidTransition(a, b) => InvalidTransition(a, b)
    else Ok((Append(o, "order_reconcile_checked"), true))
  }

  // ---------------------------------------------------------------------
  // The API and the broker sync
  // ---------------------------------------------------------------------

  const NO_CONTRACT := ContractIds(None, None, None, None)

  function CreateQueued(terms: Terms): OrderState {
    Append(OrderState(Queued, 0.0, None, None, None, NO_CONTRACT, terms, None, None, None, []), "order_created")
  }

  datatype CancelResult = Done(order: OrderState) | NotCancellable(status: Status)

  function Cancel(o: OrderState, now: int): CancelResult {
    if IsTerminal(o.status) then Done(o)
    else if o.status != Queued then NotCancellable(o.status)
    else Done(Transition(o, Cancelled, "order_cancelled", false, now).value)
  }

  function OrDefault(incoming: string, default: string): string {
    if incoming != "" then incoming else default
  }

  /** What an imported order takes where the report names nothing. */
  function WithDefaults(r: Terms): Terms {
    r.(symbol := OrDefault(r.symbol, "UNKNOWN"), secType := OrDefault(r.secType, "FUT"), exchange := OrDefault(r.exchange, "SMART"),
       currency := OrDefault(r.currency, "USD"), orderType := OrDefault(r.orderType, "MKT"), tif := OrDefault(r.tif, "DAY"))
  }

  /** An imported order stores the report's numbers as they are, a zero included. */
  function CreateFromReport(r: Report, now: int): OrderState {
    var status := NormalizeIbStatus(r.ibStatus, FilledOf(r));
    Append(OrderState(status, FilledOf(r), r.avgFill, r.orderId, r.permId, r.contract, WithDefaults(r.terms),
                      if status != Queued then Some(now) else None, if IsTerminal(status) then Some(now) else None, None, []),
           "broker_order_synced_create")
  }

  function WithTerms(stored: Terms, r: Terms): Terms {
    Terms(OrDefault(r.symbol, stored.symbol), OrDefault(r.secType, stored.secType),
          OrDefault(r.exchange, stored.exchange), OrDefault(r.currency, stored.currency), r.side, r.quantity,
          OrDefault(r.orderType, stored.orderType), r.limitPrice, OrDefault(r.tif, stored.tif))
  }

  /** The broker's status wins here even where the table disallows it, without a forced event. */
  function SyncStatus(o: OrderState, next: Status, now: int): (OrderState, bool) {
    if o.status == next then (o, false)
    else if CanTransition(o.status, next) then (Transition(o, next, SYNCED, false, now).value, true)
    else (Append(Completed(o.(status := next), now), SYNCED), true)
  }

  function SyncSnapshot(o: OrderState): (Terms, Status, real, Option<real>, Option<int>, Option<int>, ContractIds) {
    (o.terms, o.status, o.filled, o.avgFill, o.ibOrderId, o.ibPermId, o.contract)
  }

  function SyncFields(o: OrderState, r: Report, now: int): OrderState {
    var synced := WithProgress(o, r).(terms := WithTerms(o.terms, r.terms));
    if o.submittedAt.None? && NormalizeIbStatus(r.ibStatus, FilledOf(r)) != Queued then synced.(submittedAt := Some(now)) else synced
  }

  function SyncOnto(o: OrderState, r: Report, now: int): (OrderState, bool) {
    var (moved, emitted) := SyncStatus(SyncFields(o, r, now), NormalizeIbStatus(r.ibStatus, FilledOf(r)), now);
    if SyncSnapshot(moved) == SyncSnapshot(o) then (moved, false)
    else
      var done := Completed(moved, now);
      (if emitted then done else Append(done, "broker_order_synced_update"), true)
  }

  // ---------------------------------------------------------------------
  // The event log mirrors the order
  // ---------------------------------------------------------------------

  ghost predicate Mirrors(o: OrderState) {
    o.events != [] &&
    var e := o.events[|o.events| - 1];
    e.status == o.status && e.filled == o.filled && e.avgFill == o.avgFill && e.ibOrderId == o.ibOrderId
  }

  ghost predicate IsComplete(o: OrderState) {
    IsTerminal(o.status) ==> o.completedAt.Some?
  }

  /** The later event keeps the status, moves along the table, or is marked as forced; a synced one only if `synced`. */
  ghost predicate Follows(a: Event, b: Event, synced: bool) {
    a.status == b.status || CanTransition(a.status, b.status) || b.kind == FORCED || (synced && b.kind == SYNCED)
  }

  ghost predicate Chained(events: seq<Event>, synced: bool) {
    forall i :: 0 <= i < |events| - 1 ==> Follows(events[i], events[i + 1], synced)
  }

  ghost predicate Sound(o: OrderState, synced: bool) {
    Mirrors(o) && IsComplete(o) && Chained(o.events, synced)
  }

  /** Appending an event of the current state to a chain that ends in a status it may follow. */
  lemma ChainExtends(events: seq<Event>, e: Event, synced: bool)
    requires events != [] && Chained(events, synced) && Follows(events[|events| - 1], e, synced)
    ensures Chained(events + [e], synced)
  {}

  lemma TransitionIsSound(o: OrderState, from: Status, next: Status, kind: string, force: bool, now: int, synced: bool)
    requires o.events != [] && Chained(o.events, synced) && IsComplete(o)
    requires o.events[|o.events| - 1].status == o.status
    ensures var r := Transition(o, next, kind, force, now);
      && (r.Ok? ==> Sound(r.value, synced) && r.value.status == next)
      && (r.Ok? <==> CanTransition(o.status, next) || force)
  {
    var moved := Moved(o, next, now);
    ChainExtendsIf(o.events, EventOf(moved, kind), synced);
    ChainExtendsIf(o.events, EventOf(moved, FORCED), synced);
  }

  lemma ChainExtendsIf(events: seq<Event>, e: Event, synced: bool)
    requires events != [] && Chained(events, synced)
    ensures Follows(events[|events| - 1], e, synced) ==> Chained(events + [e], synced)
  {}

  /** Fields other than the status may have changed since the last event. */
  ghost predicate Pending(o: OrderState, synced: bool) {
    o.events != [] && Chained(o.events, synced) && o.events[|o.events| - 1].status == o.status
  }

  lemma AppendIsSound(o: OrderState, kind: string, synced: bool)
    requires Pending(o, synced) && IsComplete(o)
    ensures Sound(Append(o, kind), synced)
  {
    ChainExtends(o.events, EventOf(o, kind), synced);
  }

  lemma FollowIsSound(o: OrderState, next: Status, kind: string, now: int, synced: bool)
    requires Pending(o, synced) && IsComplete(o)
    ensures var (moved, emitted) := FollowStatus(o, next, kind, now);
      && moved.status == next && Pending(moved, synced) && IsComplete(moved)
      && (emitted ==> Sound(moved, synced))
      && (next == o.status ==> moved == o)
      && moved.filled == o.filled && moved.avgFill == o.avgFill && moved.ibOrderId == o.ibOrderId
  {
    if o.status != next {
      TransitionIsSound(o, o.status, next, kind, !CanTransition(o.status, next), now, synced);
    }
  }

  /** Applying a report keeps the log a mirror, whatever the broker reports. */
  lemma ProgressIsSound(o: OrderState, r: Report, kind: string, now: int, synced: bool)
    requires Sound(o, synced)
    ensures Sound(ApplyProgress(o, r, kind, now).0, synced)
  {
    var next := NormalizeIbStatus(r.ibStatus, FilledOf(r));
    FollowIsSound(WithProgress(o, r), next, kind, now, synced);
    var (moved, emitted) := FollowStatus(WithProgress(o, r), next, kind, now);
    if Progress(moved) != Progress(o) && !emitted {
      AppendIsSound(Completed(moved, now), kind, synced);
    }
  }

  lemma ClaimIsSound(o: OrderState, synced: bool)
    requires Sound(o, synced) && Claim(o).Some?
    ensures Sound(Claim(o).value, synced) && Claim(o).value.status == Submitting
  {
    ChainExtends(o.events, EventOf(o.(status := Submitting), "order_submitting"), synced);
  }

  /** Processing fails an order exactly when the table lets its status fail, which a claimed one always may. */
  lemma ProcessIsSound(o: OrderState, f: Failure, now: int, synced: bool)
    requires Sound(o, synced)
    ensures var r := Process(o, f, now);
      && (r.Ok? ==> Sound(r.value, synced) && r.value.status == Failed && r.value.lastError == Some(f.error))
      && (r.Ok? <==> CanTransition(o.status, Failed))
  {
    if f.NotSubmitted? {
      AppendIsSound(o.(contract := f.contract), "contract_qualified", synced);
      var qualified := Append(o.(contract := f.contract), "contract_qualified");
      TransitionIsSound(qualified.(lastError := Some(f.error)), o.status, Failed, "order_error", false, now, synced);
    } else {
      TransitionIsSound(o.(lastError := Some(f.error)), o.status, Failed, "order_error", false, now, synced);
    }
  }

  /** Every claimed order ends failed, with its completion time and the error. */
  lemma ClaimedOrdersFail(o: OrderState, f: Failure, now: int)
    requires Sound(o, true) && Claim(o).Some?
    ensures var r := Process(Claim(o).value, f, now);
      r.Ok? && r.value.status == Failed && r.value.completedAt.Some? && r.value.lastError == Some(f.error)
  {
    ClaimIsSound(o, true);
    ProcessIsSound(Claim(o).value, f, now, true);
  }

  /** Startup reconciliation never meets a transition error. */
  lemma ReconcileIsSound(o: OrderState, r: Option<Report>, now: int, synced: bool)
    requires Sound(o, synced)
    ensures ReconcileOpen(o, r, now).Ok? && Sound(ReconcileOpen(o, r, now).value.0, synced)
    ensures r.None? && IsReconcileEligible(o.status) ==> ReconcileOpen(o, r, now).value.0.status == ReconcileRequired
  {
    if r.Some? {
      ProgressIsSound(o, r.value, "order_reconciled", now, synced);
    } else if IsReconcileEligible(o.status) {
      if o.status != ReconcileRequired {
        TransitionIsSound(o, o.status, ReconcileRequired, "order_reconcile_required", false, now, synced);
      } else {
        AppendIsSound(o, "order_reconcile_checked", synced);
      }
    }
  }

  lemma CancelIsSound(o: OrderState, now: int, synced: bool)
    requires Sound(o, synced)
    ensures Cancel(o, now).Done? <==> IsTerminal(o.status) || o.status == Queued
    ensures Cancel(o, now).Done? ==> Sound(Cancel(o, now).order, synced) && IsTerminal(Cancel(o, now).order.status)
  {
    if o.status == Queued {
      TransitionIsSound(o, o.status, Cancelled, "order_cancelled", false, now, synced);
    }
  }

  lemma SyncStatusIsSound(o: OrderState, next: Status, now: int)
    requires Pending(o, true) && IsComplete(o)
    ensures var (moved, emitted) := SyncStatus(o, next, now);
      && moved.status == next && Pending(moved, true) && IsComplete(moved)
      && (emitted ==> Sound(moved, true))
      && (next == o.status ==> moved == o)
      && (moved.terms, moved.filled, moved.avgFill, moved.ibOrderId, moved.ibPermId, moved.contract)
         == (o.terms, o.filled, o.avgFill, o.ibOrderId, o.ibPermId, o.contract)
  {
    if o.status != next {
      if CanTransition(o.status, next) {
        TransitionIsSound(o, o.status, next, SYNCED, false, now, true);
      } else {
        var moved := Completed(o.(status := next), now);
        ChainExtends(o.events, EventOf(moved, SYNCED), true);
      }
    }
  }

  lemma {:induction false} SyncIsSound(o: OrderState, r: Report, now: int)
    requires Sound(o, true)
    ensures Sound(SyncOnto(o, r, now).0, true)
  {
    var next := NormalizeIbStatus(r.ibStatus, FilledOf(r));
    var fields := SyncFields(o, r, now);
    SyncStatusIsSound(fields, next, now);
    var (moved, emitted) := SyncStatus(fields, next, now);
    if SyncSnapshot(moved) != SyncSnapshot(o) && !emitted {
      AppendIsSound(Completed(moved, now), "broker_order_synced_update", true);
    }
  }

  // ---------------------------------------------------------------------
  // Runs
  // ---------------------------------------------------------------------

  datatype Step =
    | ClaimAndProcess(failure: Failure, at: int)
    | Startup(found: Option<Report>, at: int)
    | ApiCancel(at: int)
    | BrokerSync(report: Report, at: int)

  datatype Origin = FromApi(terms: Terms) | FromBroker(report: Report, at: int)

  function Created(origin: Origin): OrderState {
    match origin
    case FromApi(terms) => CreateQueued(terms)
    case FromBroker(report, at) => CreateFromReport(report, at)
  }

  lemma CreatedIsSound(origin: Origin, synced: bool)
    ensures Sound(Created(origin), synced)
  {
    match origin
    case FromApi(terms) =>
    case FromBroker(report, at) =>
  }

  /** The worker claims queued orders only, startup looks at non-terminal orders only, a refused cancel changes nothing. */
  function Apply(o: OrderState, step: Step): OrderState {
    match step
    case ClaimAndProcess(failure, at) =>
      if Claim(o).Some? && Process(Claim(o).value, failure, at).Ok? then Process(Claim(o).value, failure, at).value else o
    case Startup(found, at) =>
      if !IsTerminal(o.status) && ReconcileOpen(o, found, at).Ok? then ReconcileOpen(o, found, at).value.0 else o
    case ApiCancel(at) => if Cancel(o, at).Done? then Cancel(o, at).order else o
    case BrokerSync(report, at) => SyncOnto(o, report, at).0
  }

  function Run(o: OrderState, steps: seq<Step>): OrderState {
    if steps == [] then o else Apply(Run(o, steps[..|steps| - 1]), steps[|steps| - 1])
  }

  lemma StepIsSound(o: OrderState, step: Step, synced: bool)
    requires Sound(o, synced) && (step.BrokerSync? ==> synced)
    ensures Sound(Apply(o, step), synced)
  {
    match step
    case ClaimAndProcess(failure, at) =>
      if Claim(o).Some? {
        ClaimIsSound(o, synced);
        ProcessIsSound(Claim(o).value, failure, at, synced);
      }
    case Startup(found, at) => ReconcileIsSound(o, found, at, synced);
    case ApiCancel(at) => CancelIsSound(o, at, synced);
    case BrokerSync(report, at) => SyncIsSound(o, report, at);
  }

  lemma {:induction false} RunIsSound(origin: Origin, steps: seq<Step>, synced: bool)
    requires synced || forall s :: s in steps ==> !s.BrokerSync?
    ensures Sound(Run(Created(origin), steps), synced)
  {
    if steps == [] {
      CreatedIsSound(origin, synced);
    } else {
      var front, last := steps[..|steps| - 1], steps[|steps| - 1];
      assert steps == front + [last];
      RunIsSound(origin, front, synced);
      StepIsSound(Run(Created(origin), front), last, synced);
    }
  }

  /** In every run the newest event mirrors the order, and a terminal order has a completion time. */
  lemma NewestEventMirrorsTheOrder(origin: Origin, steps: seq<Step>)
    ensures var o := Run(Created(origin), steps); Mirrors(o) && IsComplete(o) && Chained(o.events, true)
  {
    RunIsSound(origin, steps, true);
  }

  // ---------------------------------------------------------------------
  // When the whole history follows the table
  // ---------------------------------------------------------------------

  /** The report keeps the order's status or moves it along the table. */
  predicate KeepsToTable(status: Status, r: Report) {
    var next := NormalizeIbStatus(r.ibStatus, FilledOf(r));
    next == status || CanTransition(status, next)
  }

  lemma {:induction false} ForcedMoveBreaksTheChain(o: OrderState, r: Report, now: int)
    requires Sound(o, false) && !KeepsToTable(o.status, r)
    ensures !Chained(SyncOnto(o, r, now).0.events, false)
  {
    var n, after := |o.events|, SyncOnto(o, r, now).0;
    assert FORCED[0] != SYNCED[0];
    assert after.events[n - 1] == o.events[n - 1] && after.events[n].kind == SYNCED;
    assert !Follows(after.events[n - 1], after.events[n], false);
  }

  lemma {:induction false} TableMoveKeepsTheChain(o: OrderState, r: Report, now: int)
    requires Sound(o, false) && KeepsToTable(o.status, r)
    ensures Chained(SyncOnto(o, r, now).0.events, false)
  {
    var next, fields := NormalizeIbStatus(r.ibStatus, FilledOf(r)), SyncFields(o, r, now);
    if next != o.status {
      TransitionIsSound(fields, o.status, next, SYNCED, false, now, false);
    } else if SyncSnapshot(fields) != SyncSnapshot(o) {
      AppendIsSound(Completed(fields, now), "broker_order_synced_update", false);
    }
  }

  /** A broker sync keeps the history on the table exactly when its report keeps the status or moves it along the table. */
  lemma SyncKeepsToTableExactly(o: OrderState, r: Report, now: int)
    requires Sound(o, false)
    ensures Chained(SyncOnto(o, r, now).0.events, false) <==> KeepsToTable(o.status, r)
  {
    if KeepsToTable(o.status, r) {
      TableMoveKeepsTheChain(o, r, now);
    } else {
      ForcedMoveBreaksTheChain(o, r, now);
    }
  }

  /** The status a step takes an order to, from the order's status alone. */
  function StatusAfter(status: Status, step: Step): Status {
    match step
    case ClaimAndProcess(_, _) => if status == Queued then Failed else status
    case Startup(found, _) =>
      if IsTerminal(status) then status
      else if found.Some? then NormalizeIbStatus(found.value.ibStatus, FilledOf(found.value))
      else if IsReconcileEligible(status) then ReconcileRequired
      else status
    case ApiCancel(_) => if status == Queued then Cancelled else status
    case BrokerSync(report, _) => NormalizeIbStatus(report.ibStatus, FilledOf(report))
  }

  function StatusOf(origin: Origin, steps: seq<Step>): Status {
    if steps == [] then
      (match origin
       case FromApi(_) => Queued
       case FromBroker(report, _) => NormalizeIbStatus(report.ibStatus, FilledOf(report)))
    else StatusAfter(StatusOf(origin, steps[..|steps| - 1]), steps[|steps| - 1])
  }

  lemma {:induction false} SyncMoves(o: OrderState, r: Report, now: int)
    ensures var after := SyncOnto(o, r, now).0;
      o.events <= after.events && after.status == NormalizeIbStatus(r.ibStatus, FilledOf(r))
  {}

  lemma {:induction false} ProgressMoves(o: OrderState, r: Report, kind: string, now: int)
    ensures var after := ApplyProgress(o, r, kind, now).0;
      o.events <= after.events && after.status == NormalizeIbStatus(r.ibStatus, FilledOf(r))
  {}

  lemma {:induction false} ProcessMoves(o: OrderState, f: Failure, now: int)
    requires o.status == Submitting
    ensures var r := Process(o, f, now); r.Ok? && o.events <= r.value.events && r.value.status == Failed
  {}

  /** The log only grows, and the next status is the one the step's inputs lead to. */
  lemma {:induction false} StepMoves(o: OrderState, step: Step)
    ensures o.events <= Apply(o, step).events
    ensures Apply(o, step).status == StatusAfter(o.status, step)
  {
    match step
    case ClaimAndProcess(failure, at) =>
      if Claim(o).Some? { ProcessMoves(Claim(o).value, failure, at); }
    case Startup(found, at) =>
      if found.Some? { ProgressMoves(o, found.value, "order_reconciled", at); }
    case ApiCancel(at) =>
    case BrokerSync(report, at) => SyncMoves(o, report, at);
  }

  /** The status of a run follows from its inputs alone, event logs and fields aside. */
  lemma {:induction false} StatusOfRun(origin: Origin, steps: seq<Step>)
    ensures Run(Created(origin), steps).status == StatusOf(origin, steps)
  {
    if steps != [] {
      var front := steps[..|steps| - 1];
      StatusOfRun(origin, front);
      StepMoves(Run(Created(origin), front), steps[|steps| - 1]);
    }
  }

  /** Every broker sync of the run keeps to the table, given the status the earlier steps lead to. */
  ghost predicate SyncsKeepToTable(origin: Origin, steps: seq<Step>) {
    forall n :: 0 <= n < |steps| ==> SyncKeepsToTable(StatusOf(origin, steps[..n]), steps[n])
  }

  predicate SyncKeepsToTable(status: Status, step: Step) {
    step.BrokerSync? ==> KeepsToTable(status, step.report)
  }

  lemma {:induction false} LastSyncKeepsToTable(origin: Origin, steps: seq<Step>)
    requires steps != []
    ensures var front, last := steps[..|steps| - 1], steps[|steps| - 1];
      SyncsKeepToTable(origin, steps) <==> SyncsKeepToTable(origin, front) && SyncKeepsToTable(StatusOf(origin, front), last)
  {
    var front := steps[..|steps| - 1];
    if SyncsKeepToTable(origin, steps) {
      forall n | 0 <= n < |front| ensures SyncKeepsToTable(StatusOf(origin, front[..n]), front[n]) {
        SameEarlierStep(origin, steps, n);
        assert SyncKeepsToTable(StatusOf(origin, steps[..n]), steps[n]);
      }
      assert SyncKeepsToTable(StatusOf(origin, steps[..|front|]), steps[|front|]);
    } else {
      var n :| 0 <= n < |steps| && !SyncKeepsToTable(StatusOf(origin, steps[..n]), steps[n]);
      if n < |front| {
        SameEarlierStep(origin, steps, n);
        assert !SyncKeepsToTable(StatusOf(origin, front[..n]), front[n]);
      }
    }
  }

  lemma {:induction false} SameEarlierStep(origin: Origin, steps: seq<Step>, n: nat)
    requires n < |steps| - 1
    ensures var front := steps[..|steps| - 1]; StatusOf(origin, front[..n]) == StatusOf(origin, steps[..n]) && front[n] == steps[n]
  {
    assert steps[..|steps| - 1][..n] == steps[..n];
  }

  lemma PrefixIsChained(events: seq<Event>, more: seq<Event>, synced: bool)
    requires events <= more && Chained(more, synced)
    ensures Chained(events, synced)
  {
    forall i | 0 <= i < |events| - 1 ensures Follows(events[i], events[i + 1], synced) {
      assert more[i] == events[i] && more[i + 1] == events[i + 1];
    }
  }

  lemma {:induction false} StepKeepsToTableExactly(o: OrderState, step: Step)
    requires Sound(o, true)
    ensures Chained(Apply(o, step).events, false) <==> Chained(o.events, false) && SyncKeepsToTable(o.status, step)
  {
    StepMoves(o, step);
    if Chained(Apply(o, step).events, false) { PrefixIsChained(o.events, Apply(o, step).events, false); }
    if Chained(o.events, false) {
      if step.BrokerSync? {
        SyncKeepsToTableExactly(o, step.report, step.at);
      } else {
        StepIsSound(o, step, false);
      }
    }
  }

  /**
    In every run each adjacent pair of events keeps the status, follows the
    table or ends in a forced event, if and only if every broker sync reports a
    status the order already has or may move to.
   */
  lemma {:induction false} HistoryFollowsTheTableExactly(origin: Origin, steps: seq<Step>)
    ensures Chained(Run(Created(origin), steps).events, false) <==> SyncsKeepToTable(origin, steps)
  {
    if steps == [] {
      CreatedIsSound(origin, false);
    } else {
      var front, last := steps[..|steps| - 1], steps[|steps| - 1];
      HistoryFollowsTheTableExactly(origin, front);
      LastSyncKeepsToTable(origin, steps);
      StatusOfRun(origin, front);
      RunIsSound(origin, front, true);
      StepKeepsToTableExactly(Run(Created(origin), front), last);
    }
  }

  /** Without broker syncs every adjacent pair of events keeps the status, follows the table, or ends in a forced event. */
  lemma WorkerHistoryFollowsTheTable(origin: Origin, steps: seq<Step>)
    requires forall s :: s in steps ==> !s.BrokerSync?
    ensures Chained(Run(Created(origin), steps).events, false)
  {
    HistoryFollowsTheTableExactly(origin, steps);
  }

  /** A broker sync off the table leaves no forced event: the pair is recognizable by its sync event only. */
  lemma {:induction false} SyncLeavesNoForcedEvent()
    ensures exists origin: Origin, steps :: !Chained(Run(Created(origin), steps).events, false)
  {
    var terms := Terms("CL", "FUT", "NYMEX", "USD", "BUY", 1, "MKT", None, "DAY");
    var report := Report("filled", 1.0, Some(70.0), Some(5), Some(9), NO_CONTRACT, terms);
    var origin, steps := FromApi(terms), [BrokerSync(report, 10)];
    assert steps[..0] == [];
    assert !SyncKeepsToTable(StatusOf(origin, steps[..0]), steps[0]);
    HistoryFollowsTheTableExactly(origin, steps);
  }
}
