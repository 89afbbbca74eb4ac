/**
  The job queue: claiming, completing, deferring, and failing or retrying, with
  the attempt accounting every run keeps and the bound it puts on a job's runs.
 */
module Jobs {
  import opened Common

  datatype Status = Queued | Running | Completed | Failed

  datatype Job = Job(
    jobType: string, status: Status, attempts: nat, maxAttempts: nat, availableAt: int, createdAt: int,
    startedAt: Option<int>, completedAt: Option<int>, archivedAt: Option<int>, lastError: Option<string>)

  /** How a handler ends: with a result, asking to be run again later, or with an error and its retry delay. */
  datatype Outcome = Done | Deferred(reason: string, retryAfter: int) | Raised(error: string, retryDelay: int)

  function NewJob(jobType: string, maxAttempts: nat, now: int): Job {
    Job(jobType, Queued, 0, maxAttempts, now, now, None, None, None, None)
  }

  predicate IsActive(j: Job, jobType: string) {
    j.jobType == jobType && j.archivedAt.None? && j.status in {Queued, Running}
  }

  predicate IsClaimable(j: Job, now: int) {
    j.status == Queued && j.availableAt <= now && j.archivedAt.None?
  }

  function Started(j: Job, now: int): Job {
    j.(status := Running, startedAt := Some(now))
  }

  function Complete(j: Job, now: int): Job {
    j.(status := Completed, completedAt := Some(now))
  }

  /** Requeued without spending an attempt. */
  function Defer(j: Job, reason: string, retryAfter: int, now: int): Job {
    j.(status := Queued, availableAt := now + retryAfter, lastError := Some(reason), startedAt := None)
  }

  function FailOrRetry(j: Job, error: string, retryDelay: int, now: int): Job {
    var counted := j.(attempts := j.attempts + 1, lastError := Some(error));
    if counted.attempts >= counted.maxAttempts then counted.(status := Failed, completedAt := Some(now))
    else counted.(status := Queued, availableAt := now + retryDelay)
  }

  function Finish(j: Job, outcome: Outcome, now: int): Job {
    match outcome
    case Done => Complete(j, now)
    case Deferred(reason, retryAfter) => Defer(j, reason, retryAfter, now)
    case Raised(error, retryDelay) => FailOrRetry(j, error, retryDelay, now)
  }

  /** The claimable job created first; of several created at once the first in the table. */
  function NextJob(jobs: seq<Job>, now: int): (k: Option<nat>)
    ensures k.Some? ==> k.value < |jobs| && IsClaimable(jobs[k.value], now)
    ensures k.Some? ==> forall i :: 0 <= i < |jobs| && IsClaimable(jobs[i], now) ==> jobs[k.value].createdAt <= jobs[i].createdAt
    ensures k.None? ==> forall i :: 0 <= i < |jobs| ==> !IsClaimable(jobs[i], now)
  {
    if jobs == [] then None
    else
      var n := |jobs| - 1;
      var front := NextJob(jobs[..n], now);
      if IsClaimable(jobs[n], now) && (front.None? || jobs[n].createdAt < jobs[front.value].createdAt) then Some(n) else front
  }

  // ---------------------------------------------------------------------
  // Runs of the queue
  // ---------------------------------------------------------------------

  datatype Step =
    | Enqueue(jobType: string, maxAttempts: nat, now: int)
    | EnqueueIfIdle(jobType: string, maxAttempts: nat, now: int)
    | ClaimNext(now: int)
    | Report(id: nat, outcome: Outcome, now: int)
    | Archive(id: nat, now: int)

  /** How often a job was claimed and deferred. */
  datatype Tally = Tally(claims: nat, deferrals: nat)

  /** The queue with a tally per job; the tallies only watch. */
  datatype State = State(jobs: seq<Job>, tallies: seq<Tally>)

  function Added(s: State, jobType: string, maxAttempts: nat, now: int): State {
    State(s.jobs + [NewJob(jobType, maxAttempts, now)], s.tallies + [Tally(0, 0)])
  }

  predicate IsIdle(jobs: seq<Job>, jobType: string) {
    forall i | 0 <= i < |jobs| :: !IsActive(jobs[i], jobType)
  }

  function Replace(s: State, id: nat, job: Job, tally: Tally): State
    requires id < |s.jobs| == |s.tallies|
  {
    State(s.jobs[id := job], s.tallies[id := tally])
  }

  /** A worker reports only on a job it is running. */
  function Apply(s: State, step: Step): State
    requires |s.jobs| == |s.tallies|
  {
    match step
    case Enqueue(jobType, maxAttempts, now) => Added(s, jobType, maxAttempts, now)
    case EnqueueIfIdle(jobType, maxAttempts, now) => if IsIdle(s.jobs, jobType) then Added(s, jobType, maxAttempts, now) else s
    case ClaimNext(now) =>
      (match NextJob(s.jobs, now)
       case None => s
       case Some(k) => Replace(s, k, Started(s.jobs[k], now), s.tallies[k].(claims := s.tallies[k].claims + 1)))
    case Report(id, outcome, now) =>
      if id < |s.jobs| && s.jobs[id].status == Running then
        Replace(s, id, Finish(s.jobs[id], outcome, now),
                s.tallies[id].(deferrals := s.tallies[id].deferrals + if outcome.Deferred? then 1 else 0))
      else s
    case Archive(id, now) =>
      if id < |s.jobs| && s.jobs[id].archivedAt.None? then Replace(s, id, s.jobs[id].(archivedAt := Some(now)), s.tallies[id]) else s
  }

  function Run(steps: seq<Step>): (s: State)
    ensures |s.jobs| == |s.tallies|
  {
    if steps == [] then State([], []) else Apply(Run(steps[..|steps| - 1]), steps[|steps| - 1])
  }

  /** Every claim was spent on an attempt, a deferral, or the run that is on or completed. */
  ghost predicate Accounted(j: Job, t: Tally) {
    && t.claims == j.attempts + t.deferrals + (if j.status == Running || j.status == Completed then 1 else 0)
    && j.attempts <= j.maxAttempts
    && (j.status == Failed <==> j.attempts == j.maxAttempts)
    && (j.status == Completed || j.status == Failed ==> j.completedAt.Some?)
  }

  ghost predicate AllAccounted(s: State) {
    |s.jobs| == |s.tallies| && forall i :: 0 <= i < |s.jobs| ==> Accounted(s.jobs[i], s.tallies[i])
  }

  /** Jobs are enqueued with at least one attempt. */
  ghost predicate AllowsAttempts(step: Step) {
    (step.Enqueue? || step.EnqueueIfIdle?) ==> step.maxAttempts >= 1
  }

  lemma FinishKeepsAccount(j: Job, t: Tally, outcome: Outcome, now: int)
    requires Accounted(j, t) && j.status == Running
    ensures Accounted(Finish(j, outcome, now), t.(deferrals := t.deferrals + if outcome.Deferred? then 1 else 0))
  {}

  lemma StepKeepsAccounts(s: State, step: Step)
    requires AllAccounted(s) && AllowsAttempts(step)
    ensures AllAccounted(Apply(s, step))
  {
    if step.Report? && step.id < |s.jobs| && s.jobs[step.id].status == Running {
      FinishKeepsAccount(s.jobs[step.id], s.tallies[step.id], step.outcome, step.now);
    }
  }

  /**
    In every run a job's claims equal its attempts, its deferrals and the run
    that is on or completed; attempts never pass the maximum, and a job is
    failed exactly when they reach it.
   */
  lemma {:induction false} ClaimsAreAccountedFor(steps: seq<Step>)
    requires forall step :: step in steps ==> AllowsAttempts(step)
    ensures AllAccounted(Run(steps))
  {
    if steps != [] {
      var front, last := steps[..|steps| - 1], steps[|steps| - 1];
      assert steps == front + [last];
      ClaimsAreAccountedFor(front);
      StepKeepsAccounts(Run(front), last);
    }
  }

  /** A job deferred at most `d` times is claimed at most that often plus its maximum of attempts. */
  lemma ClaimsAreBounded(steps: seq<Step>, id: nat, d: nat)
    requires forall step :: step in steps ==> AllowsAttempts(step)
    requires id < |Run(steps).jobs| && Run(steps).tallies[id].deferrals <= d
    ensures Run(steps).tallies[id].claims <= Run(steps).jobs[id].maxAttempts + d
  {
    ClaimsAreAccountedFor(steps);
    assert Accounted(Run(steps).jobs[id], Run(steps).tallies[id]);
  }

  /**
    In every run a job that was claimed its maximum of attempts and `d` times
    more, with at most `d` of the claims deferred, and is not running has ended.
   */
  lemma JobEnds(steps: seq<Step>, id: nat, d: nat)
    requires forall step :: step in steps ==> AllowsAttempts(step)
    requires id < |Run(steps).jobs| && Run(steps).tallies[id].deferrals <= d
    requires Run(steps).tallies[id].claims >= Run(steps).jobs[id].maxAttempts + d && Run(steps).jobs[id].status != Running
    ensures IsTerminal(Run(steps).jobs[id])
  {
    ClaimsAreAccountedFor(steps);
    assert Accounted(Run(steps).jobs[id], Run(steps).tallies[id]);
  }

  /** A finished job is never claimed, reported on or requeued again. */
  lemma TerminalJobsStay(s: State, step: Step, id: nat)
    requires |s.jobs| == |s.tallies| && id < |s.jobs| && (s.jobs[id].status == Completed || s.jobs[id].status == Failed)
    ensures id < |Apply(s, step).jobs| && Apply(s, step).jobs[id] == s.jobs[id].(archivedAt := Apply(s, step).jobs[id].archivedAt)
  {}

  /** Enqueueing only when idle never leaves two active jobs of a type that is only enqueued so. */
  ghost predicate AtMostOneActive(jobs: seq<Job>, jobType: string) {
    forall i, j :: 0 <= i < j < |jobs| && IsActive(jobs[i], jobType) ==> !IsActive(jobs[j], jobType)
  }

  lemma {:induction false} IdleEnqueueIsExclusive(steps: seq<Step>, jobType: string)
    requires forall step :: step in steps ==> !(step.Enqueue? && step.jobType == jobType)
    ensures AtMostOneActive(Run(steps).jobs, jobType)
  {
    if steps != [] {
      var front, last := steps[..|steps| - 1], steps[|steps| - 1];
      assert steps == front + [last];
      IdleEnqueueIsExclusive(front, jobType);
      StepKeepsExclusive(Run(front), last, jobType);
    }
  }

  lemma StepKeepsExclusive(s: State, step: Step, jobType: string)
    requires |s.jobs| == |s.tallies| && AtMostOneActive(s.jobs, jobType) && !(step.Enqueue? && step.jobType == jobType)
    ensures AtMostOneActive(Apply(s, step).jobs, jobType)
  {
    var after := Apply(s, step).jobs;
    forall i | 0 <= i < |s.jobs| && IsActive(after[i], jobType) ensures IsActive(s.jobs[i], jobType) {
      ActiveBefore(s, step, i, jobType);
    }
  }

  lemma ActiveBefore(s: State, step: Step, i: nat, jobType: string)
    requires |s.jobs| == |s.tallies| && i < |s.jobs| && IsActive(Apply(s, step).jobs[i], jobType)
    ensures IsActive(s.jobs[i], jobType)
  {}

  /** One handled job: when it was claimed, how its handler ended, and when that was recorded. */
  datatype Turn = Turn(claimedAt: int, outcome: Outcome, endedAt: int)

  /** Claim the next job and take it through a turn. */
  function WorkedOne(jobs: seq<Job>, turn: Turn): (after: seq<Job>)
    ensures |after| == |jobs|
  {
    match NextJob(jobs, turn.claimedAt)
    case None => jobs
    case Some(k) => jobs[k := Cycle(jobs[k], turn)]
  }

  /** The worker's loop: until nothing is claimable or the turns run out. */
  function Worked(jobs: seq<Job>, turns: seq<Turn>): seq<Job>
    decreases turns
  {
    if turns == [] || NextJob(jobs, turns[0].claimedAt).None? then jobs
    else Worked(WorkedOne(jobs, turns[0]), turns[1..])
  }

  lemma WorkedStep(jobs: seq<Job>, turns: seq<Turn>, i: nat)
    requires i < |turns|
    ensures Worked(jobs, turns[i..]) ==
      if NextJob(jobs, turns[i].claimedAt).None? then jobs else Worked(WorkedOne(jobs, turns[i]), turns[i + 1..])
  {
    assert turns[i..][1..] == turns[i + 1..];
  }

  /** A worker's claims and reports, one pair per handled job, as steps of the queue. */
  function WorkSteps(jobs: seq<Job>, turns: seq<Turn>): seq<Step>
    decreases turns
  {
    if turns == [] then []
    else
      match NextJob(jobs, turns[0].claimedAt)
      case None => []
      case Some(k) => TurnSteps(k, turns[0]) + WorkSteps(WorkedOne(jobs, turns[0]), turns[1..])
  }

  function TurnSteps(k: nat, turn: Turn): seq<Step> {
    [ClaimNext(turn.claimedAt)] + [Report(k, turn.outcome, turn.endedAt)]
  }

  lemma RunOneMore(steps: seq<Step>, step: Step)
    ensures Run(steps + [step]) == Apply(Run(steps), step)
  {
    assert (steps + [step])[..|steps|] == steps;
  }

  /** Claiming a job and reporting on it is one turn of the worker. */
  lemma TurnIsTwoSteps(s: State, k: nat, turn: Turn)
    requires |s.jobs| == |s.tallies| && NextJob(s.jobs, turn.claimedAt) == Some(k)
    ensures Apply(Apply(s, ClaimNext(turn.claimedAt)), Report(k, turn.outcome, turn.endedAt)).jobs == WorkedOne(s.jobs, turn)
  {}

  lemma TurnIsARun(steps: seq<Step>, k: nat, turn: Turn)
    requires NextJob(Run(steps).jobs, turn.claimedAt) == Some(k)
    ensures Run(steps + TurnSteps(k, turn)).jobs == WorkedOne(Run(steps).jobs, turn)
  {
    var claim, report := ClaimNext(turn.claimedAt), Report(k, turn.outcome, turn.endedAt);
    RunOneMore(steps, claim);
    RunOneMore(steps + [claim], report);
    Regroup(steps, [claim], [report]);
    TurnIsTwoSteps(Run(steps), k, turn);
  }

  /** The worker's loop is a run of the queue: nothing but claims and reports follow what happened before it. */
  lemma {:induction false} WorkerIsARun(steps: seq<Step>, jobs: seq<Job>, turns: seq<Turn>)
    requires Run(steps).jobs == jobs
    ensures Run(steps + WorkSteps(jobs, turns)).jobs == Worked(jobs, turns)
    ensures forall step :: step in WorkSteps(jobs, turns) ==> step.ClaimNext? || step.Report?
    decreases turns
  {
    if turns == [] || NextJob(jobs, turns[0].claimedAt).None? {
      assert steps + [] == steps;
    } else {
      var k := NextJob(jobs, turns[0].claimedAt).value;
      TurnIsARun(steps, k, turns[0]);
      WorkerIsARun(steps + TurnSteps(k, turns[0]), WorkedOne(jobs, turns[0]), turns[1..]);
      Regroup(steps, TurnSteps(k, turns[0]), WorkSteps(WorkedOne(jobs, turns[0]), turns[1..]));
    }
  }

  /** The rows a worker leaves behind are accounted for, claim by claim, whatever the queue went through before. */
  lemma WorkerIsAccountedFor(steps: seq<Step>, turns: seq<Turn>)
    requires forall step :: step in steps ==> AllowsAttempts(step)
    ensures var after := Run(steps + WorkSteps(Run(steps).jobs, turns));
      after.jobs == Worked(Run(steps).jobs, turns) && AllAccounted(after)
  {
    WorkerIsARun(steps, Run(steps).jobs, turns);
    ClaimsAreAccountedFor(steps + WorkSteps(Run(steps).jobs, turns));
  }

  // ---------------------------------------------------------------------
  // One job's cycles
  // ---------------------------------------------------------------------

  /** Claim a queued job and report how its handler ended; a job that is not queued is left alone. */
  function Cycle(j: Job, turn: Turn): Job {
    if j.status == Queued then Finish(Started(j, turn.claimedAt), turn.outcome, turn.endedAt) else j
  }

  function Cycles(j: Job, turns: seq<Turn>): Job
    decreases turns
  {
    if turns == [] then j else Cycles(Cycle(j, turns[0]), turns[1..])
  }

  function Deferrals(turns: seq<Turn>): nat {
    if turns == [] then 0 else (if turns[0].outcome.Deferred? then 1 else 0) + Deferrals(turns[1..])
  }

  /** What is left of the budgets: attempts and deferrals. */
  function Budget(j: Job, deferrals: nat): nat
    requires j.attempts <= j.maxAttempts
  {
    j.maxAttempts - j.attempts + deferrals
  }

  predicate IsTerminal(j: Job) {
    j.status == Completed || j.status == Failed
  }

  lemma {:induction false} TerminalStays(j: Job, turns: seq<Turn>)
    requires IsTerminal(j)
    ensures Cycles(j, turns) == j
    decreases turns
  {
    if turns != [] { TerminalStays(j, turns[1..]); }
  }

  /** Each cycle of a queued job finishes it or spends some of the budget. */
  lemma CycleSpendsBudget(j: Job, turn: Turn, d: nat)
    requires j.status == Queued && j.attempts < j.maxAttempts && (turn.outcome.Deferred? ==> d > 0)
    ensures var after := Cycle(j, turn);
      || IsTerminal(after)
      || (after.status == Queued && after.attempts < after.maxAttempts
          && Budget(after, if turn.outcome.Deferred? then d - 1 else d) < Budget(j, d))
  {}

  /** With at most `d` deferrals, as many cycles as the attempts and deferrals left end the job. */
  lemma {:induction false} CyclesEnd(j: Job, turns: seq<Turn>, d: nat)
    requires j.status == Queued && j.attempts < j.maxAttempts
    requires Deferrals(turns) <= d && |turns| >= Budget(j, d)
    ensures IsTerminal(Cycles(j, turns))
    decreases turns
  {
    var after := Cycle(j, turns[0]);
    CycleSpendsBudget(j, turns[0], d);
    if IsTerminal(after) {
      TerminalStays(after, turns[1..]);
    } else {
      CyclesEnd(after, turns[1..], if turns[0].outcome.Deferred? then d - 1 else d);
    }
  }

  /** The failures before the first success; all of them when there is none. */
  function FailuresFirst(turns: seq<Turn>): nat {
    if turns == [] || turns[0].outcome.Done? then 0 else (if turns[0].outcome.Raised? then 1 else 0) + FailuresFirst(turns[1..])
  }

  /** A job fails exactly when the attempts left are used up before its first success; waiting never costs one. */
  lemma {:induction false} FailsExactly(j: Job, turns: seq<Turn>)
    requires j.status == Queued && j.attempts < j.maxAttempts
    ensures Cycles(j, turns).status == Failed <==> FailuresFirst(turns) >= j.maxAttempts - j.attempts
    decreases turns
  {
    if turns != [] {
      var after := Cycle(j, turns[0]);
      if IsTerminal(after) {
        TerminalStays(after, turns[1..]);
      } else {
        FailsExactly(after, turns[1..]);
      }
    }
  }
}
