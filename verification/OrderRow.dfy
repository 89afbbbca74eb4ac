/** Orders as objects whose fields the steps update in place, proved against the functions of Orders. */
module OrderRow {
  import opened Common
  import opened Orders
  import C = OrderColumns

  /** What startup makes of an order: a terminal one is not looked at. */
  function AtStartup(o: OrderState, found: Option<Report>, now: int): Result<(OrderState, bool)> {
    if IsTerminal(o.status) then Ok((o, false)) else ReconcileOpen(o, found, now)
  }

  /** Startup is that step of a run: the row it leaves is the step's, and it reports the order touched exactly when it logged something. */
  lemma {:induction false} StartupIsAStep(o: OrderState, found: Option<Report>, now: int)
    requires Sound(o, true)
    ensures var r := AtStartup(o, found, now);
      r.Ok? && r.value.0 == Apply(o, Startup(found, now)) && (r.value.1 <==> |r.value.0.events| > |o.events|)
  {
    ReconcileIsSound(o, found, now, true);
    if found.Some? { C.ProgressInColumns(o, found.value, "order_reconciled", now); }
  }

  /** Startup took the order to `after` without a transition error, its log still mirrors it, and `touched` says whether it was looked at. */
  ghost predicate Visited(before: OrderState, after: OrderState, found: Option<Report>, now: int, touched: bool) {
    AtStartup(before, found, now) == Ok((after, touched)) && Sound(after, true)
  }

  class Order {
    const id: int
    var status: Status
    var filled: real
    var avgFill: Option<real>
    var ibOrderId: Option<int>
    var ibPermId: Option<int>
    var contract: ContractIds
    var terms: Terms
    var submittedAt: Option<int>
    var completedAt: Option<int>
    var lastError: Option<string>
    var events: seq<Event>

    function State(): OrderState
      reads this
    {
      OrderState(status, filled, avgFill, ibOrderId, ibPermId, contract, terms, submittedAt, completedAt, lastError, events)
    }

    /** An order queued through the API. */
    constructor Queue(id: int, terms: Terms)
      ensures State() == CreateQueued(terms) && this.id == id
    {
      this.id := id;
      status, filled, avgFill, ibOrderId, ibPermId, contract := Queued, 0.0, None, None, None, NO_CONTRACT;
      this.terms := terms;
      submittedAt, completedAt, lastError := None, None, None;
      events := [Event("order_created", Queued, 0.0, None, None)];
    }

    /** An order the broker sync finds no local row for. */
    constructor Import(id: int, r: Report, now: int)
      ensures State() == CreateFromReport(r, now) && this.id == id
    {
      var normalized := NormalizeIbStatus(r.ibStatus, FilledOf(r));
      this.id := id;
      status, filled, avgFill, ibOrderId, ibPermId := normalized, FilledOf(r), r.avgFill, r.orderId, r.permId;
      contract, terms := r.contract, WithDefaults(r.terms);
      submittedAt := if normalized != Queued then Some(now) else None;
      completedAt := if IsTerminal(normalized) then Some(now) else None;
      lastError := None;
      events := [Event("broker_order_synced_create", normalized, FilledOf(r), r.avgFill, r.orderId)];
    }

    method AppendEvent(kind: string)
      modifies this`events
      ensures State() == Append(old(State()), kind)
    {
      events := events + [Event(kind, status, filled, avgFill, ibOrderId)];
    }

    method TransitionStatus(next: Status, kind: string, force: bool, now: int) returns (r: Result<()>)
      modifies this`status, this`submittedAt, this`completedAt, this`events
      ensures match Transition(old(State()), next, kind, force, now)
        case Ok(o) => r == Ok(()) && State() == o
        case InvalidTransition(a, b) => r == InvalidTransition(a, b) && State() == old(State())
    {
      var allowed := CanTransition(status, next);
      if !allowed && !force {
        return InvalidTransition(status, next);
      }
      status := next;
      if next == Submitted && submittedAt.None? {
        submittedAt := Some(now);
      }
      if IsTerminal(next) && completedAt.None? {
        completedAt := Some(now);
      }
      AppendEvent(if allowed then kind else FORCED);
      r := Ok(());
    }

    method WriteProgress(r: Report)
      modifies this`contract, this`ibOrderId, this`ibPermId, this`filled, this`avgFill
      ensures State() == WithProgress(old(State()), r)
    {
      contract := WithContract(contract, r.contract);
      if NonZero(r.orderId).Some? { ibOrderId := r.orderId; }
      if NonZero(r.permId).Some? { ibPermId := r.permId; }
      filled, avgFill := FilledOf(r), r.avgFill;
    }

    method FollowTradeStatus(next: Status, kind: string, now: int) returns (emitted: bool)
      modifies this`status, this`submittedAt, this`completedAt, this`events
      ensures (State(), emitted) == FollowStatus(old(State()), next, kind, now)
    {
      if status == next {
        return false;
      }
      emitted := CanTransition(status, next);
      var r := TransitionStatus(next, kind, !emitted, now);
    }

    method ApplyTradeProgress(r: Report, kind: string, now: int) returns (changed: bool)
      modifies this
      ensures (State(), changed) == ApplyProgress(old(State()), r, kind, now)
    {
      var prev := Progress(State());
      WriteProgress(r);
      var emitted := FollowTradeStatus(NormalizeIbStatus(r.ibStatus, FilledOf(r)), kind, now);
      if Progress(State()) == prev {
        return false;
      }
      if IsTerminal(status) && completedAt.None? {
        completedAt := Some(now);
      }
      if !emitted {
        AppendEvent(kind);
      }
      changed := true;
    }

    /** Compare-and-set from queued to submitting; false when another worker was first. */
    method ClaimForSubmission() returns (claimed: bool)
      modifies this`status, this`events
      ensures claimed <==> Claim(old(State())).Some?
      ensures State() == if claimed then Claim(old(State())).value else old(State())
    {
      claimed := status == Queued;
      if claimed {
        status := Submitting;
        AppendEvent("order_submitting");
      }
    }

    /** Process a claimed order: qualification is recorded when it succeeds, and the order then fails. */
    method ProcessOrder(f: Failure, now: int) returns (r: Result<()>)
      requires CanTransition(status, Failed)
      modifies this
      ensures r == Ok(()) && Process(old(State()), f, now) == Ok(State())
    {
      if f.NotSubmitted? {
        contract := f.contract;
        AppendEvent("contract_qualified");
      }
      lastError := Some(f.error);
      r := TransitionStatus(Failed, "order_error", false, now);
    }

    method CancelOrder(now: int) returns (refused: bool)
      modifies this`status, this`submittedAt, this`completedAt, this`events
      ensures refused <==> Cancel(old(State()), now).NotCancellable?
      ensures State() == if refused then old(State()) else Cancel(old(State()), now).order
    {
      if IsTerminal(status) {
        return false;
      }
      if status != Queued {
        return true;
      }
      var r := TransitionStatus(Cancelled, "order_cancelled", false, now);
      refused := false;
    }

    method ForceStatus(next: Status, now: int)
      modifies this`status, this`completedAt
      ensures State() == Completed(old(State()).(status := next), now)
    {
      status := next;
      if IsTerminal(next) && completedAt.None? {
        completedAt := Some(now);
      }
    }

    method FollowSyncedStatus(next: Status, now: int) returns (emitted: bool)
      modifies this`status, this`submittedAt, this`completedAt, this`events
      ensures (State(), emitted) == SyncStatus(old(State()), next, now)
    {
      if status == next {
        return false;
      }
      emitted := true;
      if CanTransition(status, next) {
        var r := TransitionStatus(next, SYNCED, false, now);
      } else {
        ForceStatus(next, now);
        AppendEvent(SYNCED);
      }
    }

    method WriteSyncedFields(r: Report, now: int)
      modifies this`contract, this`ibOrderId, this`ibPermId, this`filled, this`avgFill, this`terms, this`submittedAt
      ensures State() == SyncFields(old(State()), r, now)
    {
      WriteProgress(r);
      terms := WithTerms(terms, r.terms);
      if submittedAt.None? && NormalizeIbStatus(r.ibStatus, FilledOf(r)) != Queued {
        submittedAt := Some(now);
      }
    }

    method SyncTrade(r: Report, now: int) returns (changed: bool)
      modifies this
      ensures (State(), changed) == SyncOnto(old(State()), r, now)
    {
      var prev, normalized := SyncSnapshot(State()), NormalizeIbStatus(r.ibStatus, FilledOf(r));
      WriteSyncedFields(r, now);
      var emitted := FollowSyncedStatus(normalized, now);
      if SyncSnapshot(State()) == prev {
        return false;
      }
      if IsTerminal(normalized) && completedAt.None? {
        completedAt := Some(now);
      }
      if !emitted {
        AppendEvent("broker_order_synced_update");
      }
      changed := true;
    }

    method ReconcileAtStartup(found: Option<Report>, now: int) returns (touched: bool)
      requires Sound(State(), true) && !IsTerminal(status)
      modifies this
      ensures ReconcileOpen(old(State()), found, now) == Ok((State(), touched))
    {
      ReconcileIsSound(State(), found, now, true);
      if found.Some? {
        touched := ApplyTradeProgress(found.value, "order_reconciled", now);
        return;
      }
      touched := IsReconcileEligible(status);
      if touched {
        if status != ReconcileRequired {
          var r := TransitionStatus(ReconcileRequired, "order_reconcile_required", false, now);
        } else {
          AppendEvent("order_reconcile_checked");
        }
      }
    }

    /** Startup's visit of one row of the order table. */
    method VisitAtStartup(found: Option<Report>, now: int) returns (touched: bool)
      requires Sound(State(), true)
      modifies this
      ensures Visited(old(State()), State(), found, now, touched)
    {
      ReconcileIsSound(State(), found, now, true);
      touched := false;
      if !IsTerminal(status) {
        touched := ReconcileAtStartup(found, now);
      }
    }
  }

  ghost predicate AllDifferent(orders: seq<Order>) {
    forall i, j :: 0 <= i < j < |orders| ==> orders[i] != orders[j]
  }

  function ReportFor(reports: map<int, Report>, id: int): Option<Report> {
    if id in reports then Some(reports[id]) else None
  }

  /** The state an order is in and the broker report of its own ref. */
  type Row = (OrderState, Option<Report>)

  ghost predicate AreRows(rows: seq<Row>, orders: seq<Order>, reports: map<int, Report>)
    reads set o | o in orders
  {
    |rows| == |orders| && forall i :: 0 <= i < |orders| ==> rows[i] == (orders[i].State(), ReportFor(reports, orders[i].id))
  }

  /** What startup made of an order, and whether it was looked at. */
  type Visit = (OrderState, bool)

  function WasTouched(v: Visit): bool { v.1 }

  ghost predicate AllVisited(rows: seq<Row>, visits: seq<Visit>, now: int) {
    |visits| <= |rows| && forall i :: 0 <= i < |visits| ==> Visited(rows[i].0, visits[i].0, rows[i].1, now, visits[i].1)
  }

  lemma {:induction false} VisitOneMore(rows: seq<Row>, visits: seq<Visit>, now: int, v: Visit)
    requires AllVisited(rows, visits, now) && |visits| < |rows|
    requires Visited(rows[|visits|].0, v.0, rows[|visits|].1, now, v.1)
    ensures AllVisited(rows, visits + [v], now)
    ensures Count(visits + [v], WasTouched) == Count(visits, WasTouched) + if v.1 then 1 else 0
  {
    assert (visits + [v])[..|visits|] == visits;
  }

  /** Startup's visit of the next row; every other order keeps its state. */
  method VisitRow(orders: seq<Order>, i: nat, found: Option<Report>, now: int, ghost rows: seq<Row>, ghost visits: seq<Visit>)
    returns (changed: bool, ghost visit: Visit)
    requires AllDifferent(orders) && i < |orders| == |rows| && rows[i] == (orders[i].State(), found) && Sound(rows[i].0, true)
    requires |visits| == i && AllVisited(rows, visits, now)
    modifies orders[i]
    ensures AllVisited(rows, visits + [visit], now)
    ensures Count(visits + [visit], WasTouched) == Count(visits, WasTouched) + if changed then 1 else 0
    ensures orders[i].State() == visit.0
    ensures forall j :: 0 <= j < |orders| && j != i ==> orders[j].State() == old(orders[j].State())
  {
    changed := orders[i].VisitAtStartup(found, now);
    visit := (orders[i].State(), changed);
    VisitOneMore(rows, visits, now, visit);
  }

  /**
    Startup reconciliation of all orders, each judged by the broker report of
    its own ref: no order raises, and the number of orders touched is reported.
   */
  method ReconcileOpenOrders(orders: seq<Order>, reports: map<int, Report>, now: int, ghost rows: seq<Row>)
    returns (touched: nat, ghost visits: seq<Visit>)
    requires AllDifferent(orders) && AreRows(rows, orders, reports) && forall i :: 0 <= i < |rows| ==> Sound(rows[i].0, true)
    modifies set o | o in orders
    ensures |visits| == |orders| && AllVisited(rows, visits, now)
    ensures forall i :: 0 <= i < |orders| ==> orders[i].State() == visits[i].0
    ensures touched == Count(visits, WasTouched)
  {
    touched, visits := 0, [];
    for i := 0 to |orders|
      invariant |visits| == i && AllVisited(rows, visits, now) && touched == Count(visits, WasTouched)
      invariant forall j :: 0 <= j < |orders| ==> orders[j].State() == if j < i then visits[j].0 else rows[j].0
    {
      assert orders[i] in orders && orders[i].State() == rows[i].0;
      ghost var visit: Visit;
      var changed;
      changed, visit := VisitRow(orders, i, ReportFor(reports, orders[i].id), now, rows, visits);
      touched, visits := touched + if changed then 1 else 0, visits + [visit];
    }
  }
}
