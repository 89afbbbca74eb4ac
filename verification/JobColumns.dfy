/** The queue's steps in columns, and that a waiting job is left alone until its time comes. */
module JobColumns {
  import opened Common
  import opened Jobs

  ghost predicate MayStart(j: Job, now: int) {
    j.status == Queued && j.archivedAt == None && now >= j.availableAt
  }

  /** The job started, and nothing else of it or any other changed; no job that may start was created before it. */
  ghost predicate IsStarted(before: seq<Job>, after: seq<Job>, k: nat, now: int) {
    && k < |before| && MayStart(before[k], now)
    && (forall i :: 0 <= i < |before| && MayStart(before[i], now) ==> before[k].createdAt <= before[i].createdAt)
    && after == before[k := before[k].(status := Running, startedAt := Some(now))]
  }

  /** A claim starts the oldest job that may start; it does nothing exactly when there is none. */
  lemma {:induction false} ClaimInColumns(s: State, now: int)
    requires |s.jobs| == |s.tallies|
    ensures var after := Apply(s, ClaimNext(now)).jobs;
      if exists i :: 0 <= i < |s.jobs| && MayStart(s.jobs[i], now) then exists k: nat :: IsStarted(s.jobs, after, k, now) else after == s.jobs
  {
    var k := NextJob(s.jobs, now);
    if k.Some? { assert IsStarted(s.jobs, Apply(s, ClaimNext(now)).jobs, k.value, now); }
  }

  /** What a handler's end leaves of the running job. */
  ghost predicate IsEnded(j: Job, outcome: Outcome, now: int, after: Job) {
    && (after.jobType, after.maxAttempts, after.createdAt, after.archivedAt) == (j.jobType, j.maxAttempts, j.createdAt, j.archivedAt)
    && match outcome
       case Done =>
         && after.status == Completed && after.completedAt == Some(now)
         && (after.attempts, after.availableAt, after.startedAt, after.lastError) == (j.attempts, j.availableAt, j.startedAt, j.lastError)
       case Deferred(reason, wait) =>
         && after.status == Queued && after.attempts == j.attempts && after.availableAt == now + wait
         && after.startedAt == None && after.lastError == Some(reason) && after.completedAt == j.completedAt
       case Raised(error, wait) =>
         && after.attempts == j.attempts + 1 && after.lastError == Some(error) && after.startedAt == j.startedAt
         && if after.attempts < j.maxAttempts
            then after.status == Queued && after.availableAt == now + wait && after.completedAt == j.completedAt
            else after.status == Failed && after.completedAt == Some(now) && after.availableAt == j.availableAt
  }

  lemma {:induction false} ReportInColumns(s: State, id: nat, outcome: Outcome, now: int)
    requires |s.jobs| == |s.tallies|
    ensures var after := Apply(s, Report(id, outcome, now)).jobs;
      if id < |s.jobs| && s.jobs[id].status == Running
      then |after| == |s.jobs| && IsEnded(s.jobs[id], outcome, now, after[id]) && forall i :: 0 <= i < |s.jobs| && i != id ==> after[i] == s.jobs[i]
      else after == s.jobs
  {}

  /** A new job waits from now on with no attempt spent; an idle enqueue adds one exactly when no unarchived job of the type is queued or running. */
  lemma {:induction false} EnqueueInColumns(s: State, jobType: string, maxAttempts: nat, now: int)
    requires |s.jobs| == |s.tallies|
    ensures var job := Job(jobType, Queued, 0, maxAttempts, now, now, None, None, None, None);
      && Apply(s, Enqueue(jobType, maxAttempts, now)).jobs == s.jobs + [job]
      && Apply(s, EnqueueIfIdle(jobType, maxAttempts, now)).jobs ==
           if exists i :: 0 <= i < |s.jobs| && s.jobs[i].jobType == jobType && s.jobs[i].archivedAt == None
                          && (s.jobs[i].status == Queued || s.jobs[i].status == Running)
           then s.jobs else s.jobs + [job]
  {
    if i :| 0 <= i < |s.jobs| && s.jobs[i].jobType == jobType && s.jobs[i].archivedAt == None
            && (s.jobs[i].status == Queued || s.jobs[i].status == Running) {
      assert IsActive(s.jobs[i], jobType);
    }
  }

  /** The job waits for a time; it may be archived meanwhile. */
  ghost predicate Waits(j: Job, waiting: Job) {
    waiting.status == Queued && j == waiting.(archivedAt := j.archivedAt)
  }

  /** The step claims nothing at or after the time. */
  ghost predicate IsBefore(step: Step, until: int) {
    step.ClaimNext? ==> step.now < until
  }

  lemma {:induction false} StepLeavesWaiting(s: State, step: Step, id: nat, waiting: Job)
    requires |s.jobs| == |s.tallies| && id < |s.jobs| && Waits(s.jobs[id], waiting) && IsBefore(step, waiting.availableAt)
    ensures id < |Apply(s, step).jobs| && Waits(Apply(s, step).jobs[id], waiting)
  {}

  /** Requeued with a delay, a job is not touched by anything a worker does before the delay is over. */
  lemma {:induction false} WaitingJobStays(steps: seq<Step>, more: seq<Step>, id: nat)
    requires id < |Run(steps).jobs| && Run(steps).jobs[id].status == Queued
    requires forall step :: step in more ==> IsBefore(step, Run(steps).jobs[id].availableAt)
    ensures id < |Run(steps + more).jobs| && Waits(Run(steps + more).jobs[id], Run(steps).jobs[id])
  {
    if more == [] {
      assert steps + more == steps;
    } else {
      var front, last := more[..|more| - 1], more[|more| - 1];
      assert more == front + [last];
      WaitingJobStays(steps, front, id);
      Regroup(steps, front, [last]);
      RunOneMore(steps + front, last);
      StepLeavesWaiting(Run(steps + front), last, id, Run(steps).jobs[id]);
    }
  }
}
