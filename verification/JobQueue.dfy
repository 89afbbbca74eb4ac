/** Job rows and the queue over them, updated in place and proved against the functions of Jobs. */
module JobQueue {
  import opened Common
  import J = Jobs

  class Job {
    const jobType: string
    const maxAttempts: nat
    const createdAt: int
    var status: J.Status
    var attempts: nat
    var availableAt: int
    var startedAt: Option<int>
    var completedAt: Option<int>
    var archivedAt: Option<int>
    var lastError: Option<string>

    function View(): J.Job
      reads this
    {
      J.Job(jobType, status, attempts, maxAttempts, availableAt, createdAt, startedAt, completedAt, archivedAt, lastError)
    }

    constructor (jobType: string, maxAttempts: nat, now: int)
      ensures View() == J.NewJob(jobType, maxAttempts, now)
    {
      this.jobType, this.maxAttempts, createdAt := jobType, maxAttempts, now;
      status, attempts, availableAt := J.Queued, 0, now;
      startedAt, completedAt, archivedAt, lastError := None, None, None, None;
    }

    method Complete(now: int)
      modifies this
      ensures View() == J.Complete(old(View()), now)
    {
      status := J.Completed;
      completedAt := Some(now);
    }

    /** Requeue to run later without spending an attempt. */
    method Defer(reason: string, retryAfter: int, now: int)
      modifies this
      ensures View() == J.Defer(old(View()), reason, retryAfter, now)
    {
      status := J.Queued;
      availableAt := now + retryAfter;
      lastError := Some(reason);
      startedAt := None;
    }

    method FailOrRetry(error: string, retryDelay: int, now: int)
      modifies this
      ensures View() == J.FailOrRetry(old(View()), error, retryDelay, now)
    {
      attempts := attempts + 1;
      lastError := Some(error);
      if attempts >= maxAttempts {
        status := J.Failed;
        completedAt := Some(now);
      } else {
        status := J.Queued;
        availableAt := now + retryDelay;
      }
    }

    /** What the worker does with a handler's outcome. */
    method Finish(outcome: J.Outcome, now: int)
      modifies this
      ensures View() == J.Finish(old(View()), outcome, now)
    {
      match outcome
      case Done => Complete(now);
      case Deferred(reason, retryAfter) => Defer(reason, retryAfter, now);
      case Raised(error, retryDelay) => FailOrRetry(error, retryDelay, now);
    }
  }

  class JobQueue {
    var jobs: seq<Job>

    ghost predicate Valid()
      reads this
    {
      forall i, j :: 0 <= i < j < |jobs| ==> jobs[i] != jobs[j]
    }

    function Rows(): (rows: seq<J.Job>)
      reads this, jobs
      ensures |rows| == |jobs| && forall i :: 0 <= i < |jobs| ==> rows[i] == jobs[i].View()
    {
      seq(|jobs|, i requires 0 <= i < |jobs| reads this, jobs => jobs[i].View())
    }

    constructor ()
      ensures Valid() && jobs == []
    {
      jobs := [];
    }

    method Enqueue(jobType: string, maxAttempts: nat, now: int) returns (job: Job)
      requires Valid()
      modifies this
      ensures Valid() && fresh(job) && jobs == old(jobs) + [job] && job.View() == J.NewJob(jobType, maxAttempts, now)
    {
      job := new Job(jobType, maxAttempts, now);
      jobs := jobs + [job];
    }

    /** Enqueue unless an unarchived job of the type is queued or running. */
    method EnqueueIfIdle(jobType: string, maxAttempts: nat, now: int) returns (job: Job?)
      requires Valid()
      modifies this
      ensures Valid() && (job != null <==> old(J.IsIdle(Rows(), jobType)))
      ensures job == null ==> jobs == old(jobs)
      ensures job != null ==> fresh(job) && jobs == old(jobs) + [job] && job.View() == J.NewJob(jobType, maxAttempts, now)
    {
      job := null;
      for i := 0 to |jobs|
        invariant forall j :: 0 <= j < i ==> !J.IsActive(jobs[j].View(), jobType)
      {
        if J.IsActive(jobs[i].View(), jobType) {
          assert J.IsActive(Rows()[i], jobType);
          return;
        }
      }
      job := Enqueue(jobType, maxAttempts, now);
    }

    /** Start the claimable job created first. */
    method ClaimNext(now: int) returns (k: Option<nat>)
      requires Valid()
      modifies jobs
      ensures k == J.NextJob(old(Rows()), now)
      ensures forall i :: 0 <= i < |jobs| ==>
        jobs[i].View() == if k == Some(i) then J.Started(old(Rows())[i], now) else old(Rows())[i]
    {
      k := None;
      ghost var rows := Rows();
      for i := 0 to |jobs|
        invariant k == J.NextJob(rows[..i], now)
        invariant forall j :: 0 <= j < |jobs| ==> jobs[j].View() == rows[j]
      {
        assert rows[..i + 1][..i] == rows[..i];
        if J.IsClaimable(jobs[i].View(), now) && (k.None? || jobs[i].createdAt < jobs[k.value].createdAt) {
          k := Some(i);
        }
      }
      assert rows[..|jobs|] == rows;
      if k.Some? {
        jobs[k.value].status := J.Running;
        jobs[k.value].startedAt := Some(now);
      }
    }

    /** Claim one job, run it and report its outcome. */
    method WorkOne(turn: J.Turn) returns (ran: bool)
      requires Valid()
      modifies jobs
      ensures Rows() == J.WorkedOne(old(Rows()), turn)
      ensures ran <==> J.NextJob(old(Rows()), turn.claimedAt).Some?
    {
      var k := ClaimNext(turn.claimedAt);
      ran := k.Some?;
      if ran {
        jobs[k.value].Finish(turn.outcome, turn.endedAt);
      }
      assert Rows() == J.WorkedOne(old(Rows()), turn);
    }

    /** The worker's loop over the turns still to come. */
    method Work(turns: seq<J.Turn>) returns (processed: nat)
      requires Valid()
      modifies jobs
      ensures Rows() == J.Worked(old(Rows()), turns) && processed <= |turns|
      ensures processed < |turns| ==> J.NextJob(Rows(), turns[processed].claimedAt).None?
    {
      processed := 0;
      ghost var done := J.Worked(Rows(), turns);
      assert turns[0..] == turns;
      while processed < |turns|
        invariant processed <= |turns| && J.Worked(Rows(), turns[processed..]) == done
        decreases |turns| - processed
      {
        J.WorkedStep(Rows(), turns, processed);
        var ran := WorkOne(turns[processed]);
        if !ran {
          return;
        }
        processed := processed + 1;
      }
    }
  }
}
