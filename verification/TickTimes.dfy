/** Left to its own schedule, a job is dispatched at strictly increasing times and duplicate
    detection never fires. */
module TickTimes {
  import opened Prelude
  import opened Numerals
  import opened Schedule
  import opened JobStore
  import opened Tick
  import opened TickGuards
  import opened TickSafety
  import opened TickProgress

  /** Each job's next run is later than everything dispatched for it so far. */
  predicate NextIsLater(d: Disk) {
    forall x <- d.enqueued ::
      x.job_id in d.jobs && (d.jobs[x.job_id].next_run_at.Some? ==> d.jobs[x.job_id].next_run_at.value > x.scheduled)
  }

  predicate TimesIncrease(xs: seq<Dispatch>) {
    forall i, k :: 0 <= i < k < |xs| && xs[i].job_id == xs[k].job_id ==> xs[i].scheduled < xs[k].scheduled
  }

  ghost predicate KnownFrom(d: Disk, id: string, e: string) {
    || (exists nanos :: e == SkipId(nanos))
    || (exists x :: x in d.enqueued && x.job_id == id && x.execution_id == e)
  }

  /** The history knows nothing but skips and dispatches. */
  ghost predicate HistoryIsExplained(d: Disk) {
    forall id, e :: ExecutionExists(d, id, e) ==> KnownFrom(d, id, e)
  }

  ghost predicate TimesInv(d: Disk) {
    && NextIsLater(d) && TimesIncrease(d.enqueued) && HistoryIsExplained(d)
    && (forall x <- d.enqueued :: GenuineDispatch(x))
  }

  /** Operations that leave a job to its schedule. */
  ghost predicate Unforced(d: Disk, op: Op) {
    match op
    case CreateOp(input, nanos, _) => NewJobId(input.orchestrator_id, nanos) !in d.jobs
    case UpdateOp(_, patch, _) => patch.schedule.None?
    case RunNowOp(_, _) => false
    case CompleteOp(id, e, _, _) => exists x :: x in d.enqueued && x.job_id == id && x.execution_id == e
    case _ => true
  }

  lemma SkipIsNoExecution(nanos: nat, id: string, t: int)
    ensures SkipId(nanos) != ExecutionId(id, t)
  {
    hide Decimal, DecimalInt, SanitizeId;
    assert SkipId(nanos)[0] == 's' && ExecutionId(id, t)[0] == 'e';
  }

  /** The duplicate branch is dead: the run a job is due for is never one the history knows. */
  lemma NextRunIsUnknown(d: Disk, id: string)
    requires TimesInv(d) && WellFormedId(id) && id in d.jobs && d.jobs[id].next_run_at.Some?
    ensures !ExecutionExists(d, id, ExecutionId(id, d.jobs[id].next_run_at.value))
  {
    hide ExecutionExists, WellFormedId, SkipId, ExecutionId;
    var t := d.jobs[id].next_run_at.value;
    if ExecutionExists(d, id, ExecutionId(id, t)) {
      assert KnownFrom(d, id, ExecutionId(id, t));
      if exists nanos :: ExecutionId(id, t) == SkipId(nanos) {
        var nanos :| ExecutionId(id, t) == SkipId(nanos);
        SkipIsNoExecution(nanos, id, t);
      } else {
        var x :| x in d.enqueued && x.job_id == id && x.execution_id == ExecutionId(id, t);
        ExecutionIdInjective(id, x.scheduled, id, t);
      }
    }
  }

  lemma RecordExplained(d: Disk, id: string, e: string, triggered_at: int, status: RunStatus)
    requires HistoryIsExplained(d) && KnownFrom(d, id, e)
    ensures HistoryIsExplained(PersistRecord(d, id, e, triggered_at, status))
  {
    hide HistoryName, SkipId;
    var d' := PersistRecord(d, id, e, triggered_at, status);
    forall other, f | ExecutionExists(d', other, f) ensures KnownFrom(d', other, f) {
      var name :| name in JobHistory(d', other) && JobHistory(d', other)[name].execution_id == f;
      if other == id && name == HistoryName(triggered_at, e) {
        assert f == e;
      } else {
        assert name in JobHistory(d, other) && JobHistory(d, other)[name].execution_id == f;
        assert ExecutionExists(d, other, f);
      }
    }
  }

  /** Changes that keep history and triggers keep the explanation. */
  lemma SameHistoryExplained(d: Disk, d': Disk)
    requires HistoryIsExplained(d) && d.runs == d'.runs && d.enqueued <= d'.enqueued
    ensures HistoryIsExplained(d')
  {
    hide ExecutionExists, SkipId;
    SameRuns(d, d');
    forall id, e | ExecutionExists(d', id, e) ensures KnownFrom(d', id, e) {
      assert ExecutionExists(d, id, e);
      assert KnownFrom(d, id, e);
    }
  }

  lemma SkipKeepsTimes(d: Disk, job: Job, nanos: nat, now: int)
    requires TimesInv(d) && job.job_id in d.jobs && d.jobs[job.job_id].next_run_at.Some?
    requires job.next_run_at.Some? ==> job.next_run_at.value >= d.jobs[job.job_id].next_run_at.value
    ensures TimesInv(PersistRecord(PersistJob(d, job), job.job_id, SkipId(nanos), now, SkippedMissed))
  {
    hide ExecutionExists, SkipId, HistoryName;
    SameHistoryExplained(d, PersistJob(d, job));
    assert KnownFrom(PersistJob(d, job), job.job_id, SkipId(nanos));
    RecordExplained(PersistJob(d, job), job.job_id, SkipId(nanos), now, SkippedMissed);
  }

  lemma DispatchKeepsTimes(d: Disk, job: Job, job1: Job, now: int)
    requires TimesInv(d) && job.job_id in d.jobs && d.jobs[job.job_id] == job && WellFormedId(job.job_id)
    requires IsDue(job, now) && job1.job_id == job.job_id && (job1.next_run_at.Some? ==> job1.next_run_at.value > now)
    ensures TimesInv(RecordDispatch(Enqueue(d, DispatchFor(job, now)), job1, DispatchFor(job, now)))
  {
    hide ExecutionExists, SkipId, HistoryName, ExecutionId, WellFormedId;
    var x := DispatchFor(job, now);
    var d1 := PersistJob(Enqueue(d, x), job1);
    SameHistoryExplained(d, d1);
    assert x in d1.enqueued;
    assert KnownFrom(d1, x.job_id, x.execution_id);
    RecordExplained(d1, x.job_id, x.execution_id, now, Dispatched);
    var d2 := PersistRecord(d1, x.job_id, x.execution_id, now, Dispatched);
    var d3 := RecordDispatch(Enqueue(d, x), job1, x);
    SameHistoryExplained(d2, d3);
    assert forall i :: 0 <= i < |d.enqueued| ==> d.enqueued[i] in d.enqueued;
  }

  lemma TickJobKeepsTimes(zones: Zones, d: Disk, job: Job, nanos: nat, now: int)
    requires TimesInv(d) && RecentInv(d) && job.job_id in d.jobs && d.jobs[job.job_id] == job && WellFormedId(job.job_id)
    requires TickJob(zones, d, job, nanos, now).Done?
    ensures TimesInv(TickJob(zones, d, job, nanos, now).d)
  {
    hide TimesInv, ExecutionExists, SkipId, ExecutionId, WellFormedId, RecentInv, NextRun, HistoryName;
    if IsDue(job, now) {
      NextRunIsLater(zones, job.schedule, now);
      if IsMissed(job, now) {
        var next := RecoveryNextRun(zones, job.schedule, now).value;
        SkipKeepsTimes(d, job.(next_run_at := next, state := if next.None? then Disabled else job.state,
                               updated_at := now, last_result := Some(ResultSkippedMissed)), nanos, now);
      } else if job.allow_overlap || !HasActive(d.active, job.job_id) {
        NextRunIsUnknown(d, job.job_id);
        CacheAgreesWithHistory(d, job.job_id, job.next_run_at.value);
        var x := DispatchFor(job, now);
        var next := NextAfterDispatch(zones, job, x.scheduled, now).value;
        DispatchKeepsTimes(d, job, DispatchedJob(job, next, now), now);
      }
    }
  }

  lemma {:induction false} TickJobsKeepTimes(zones: Zones, d0: Disk, listing: seq<Job>, n: nat, nanos: string -> nat, now: int)
    requires SafetyInv(d0, |d0.enqueued|) && IsListing(d0, listing) && n <= |listing| && TimesInv(d0)
    requires TickJobs(zones, d0, listing[..n], nanos, now).Done?
    ensures TimesInv(TickJobs(zones, d0, listing[..n], nanos, now).d)
  {
    hide TickJob, SafetyInv, TimesInv, RemembersAll, WellFormedId;
    if n > 0 {
      assert listing[..n][..n - 1] == listing[..n - 1];
      TickJobsKeepTimes(zones, d0, listing, n - 1, nanos, now);
      PassKeepsInv(zones, d0, listing, n - 1, nanos, now);
      ListingIsWellFormed(d0, listing);
      var d := TickJobs(zones, d0, listing[..n - 1], nanos, now).d;
      assert Untouched(d0, d, listing[n - 1].job_id);
      SafetyHasHistory(d, |d.enqueued|);
      TickJobKeepsTimes(zones, d, listing[n - 1], nanos(listing[n - 1].job_id), now);
    }
  }

  lemma StateOnlyKeepsTimes(d: Disk, d': Disk)
    requires TimesInv(d) && d'.jobs == d.jobs && d'.runs == d.runs && d'.enqueued == d.enqueued
    ensures TimesInv(d')
  {
    hide ExecutionExists;
    SameHistoryExplained(d, d');
  }

  lemma JobOnlyKeepsTimes(d: Disk, job: Job)
    requires TimesInv(d)
    requires job.job_id in d.jobs ==> job.next_run_at == d.jobs[job.job_id].next_run_at
    ensures TimesInv(PersistJob(d, job))
  {
    hide ExecutionExists;
    SameHistoryExplained(d, PersistJob(d, job));
  }

  lemma QuietHalt(zones: Zones, d: Disk, job: Job, nanos: nat, now: int)
    requires TickJob(zones, d, job, nanos, now).Halted? && TickJob(zones, d, job, nanos, now).orphan.None?
    ensures TickJob(zones, d, job, nanos, now).d == d
  {
    hide ExecutionId, NextRun, RecoveryNextRun, HistoryName, SkipId, ExecutionExists;
  }

  /** A tick that strands no trigger leaves what its turns before the failing one wrote. */
  lemma TickKeepsTimes(zones: Zones, d: Disk, listing: seq<Job>, stamp: string -> nat, now: int)
    requires SafetyInv(d, |d.enqueued|) && IsListing(d, listing) && TimesInv(d)
    requires !StrandsTrigger(zones, d, listing, stamp, now)
    ensures TimesInv(TickAll(zones, d, listing, stamp, now).d)
  {
    hide TickJob, TickJobs, SafetyInv, TimesInv, RetainFresh, StrandsTrigger;
    var d0 := d.(active := RetainFresh(d.active, now));
    StaleStateIsSafe(d, now);
    StateOnlyKeepsTimes(d, d0);
    StrandsTriggerIff(zones, d, listing, stamp, now);
    var n := |listing|;
    if TickJobs(zones, d0, listing, stamp, now).Halted? {
      n := HaltPoint(zones, d0, listing, stamp, now);
      QuietHalt(zones, TickJobs(zones, d0, listing[..n], stamp, now).d, listing[n], stamp(listing[n].job_id), now);
    } else {
      assert listing[..n] == listing;
    }
    TickJobsKeepTimes(zones, d0, listing, n, stamp, now);
    StateOnlyKeepsTimes(TickJobs(zones, d0, listing[..n], stamp, now).d, TickAll(zones, d, listing, stamp, now).d);
  }

  lemma CreateKeepsTimes(zones: Zones, d: Disk, input: NewJob, nanos: nat, now: int)
    requires TimesInv(d) && NewJobId(input.orchestrator_id, nanos) !in d.jobs
    ensures TimesInv(Create(zones, d, input, nanos, now))
  {
    hide TimesInv, NextRun, ScheduleErrorOf, NewJobId;
    if Create(zones, d, input, nanos, now) != d {
      JobOnlyKeepsTimes(d, Create(zones, d, input, nanos, now).jobs[NewJobId(input.orchestrator_id, nanos)]);
    }
  }

  lemma CompleteKeepsTimes(d: Disk, id: string, e: string, succeeded: bool, now: int)
    requires TimesInv(d) && JobsInv(d) && exists x :: x in d.enqueued && x.job_id == id && x.execution_id == e
    ensures TimesInv(Complete(d, id, e, succeeded, now))
  {
    hide ExecutionExists, RemoveActive, HistoryName, WellFormedId, GenuineDispatch;
    var d1 := d.(active := RemoveActive(d.active, id, e));
    StateOnlyKeepsTimes(d, d1);
    if id in d.jobs {
      var job := d.jobs[id].(last_result := Some(if succeeded then ResultSucceeded else ResultFailed), updated_at := now);
      JobOnlyKeepsTimes(d1, job);
      var d2 := PersistJob(d1, job);
      assert KnownFrom(d2, id, e) by {
        var x :| x in d.enqueued && x.job_id == id && x.execution_id == e;
        assert x in d2.enqueued;
      }
      RecordExplained(d2, id, e, now, if succeeded then Completed else RunFailed);
    }
  }

  lemma JobOpKeepsTimes(zones: Zones, d: Disk, op: Op, id: string)
    requires TimesInv(d) && JobsInv(d) && Unforced(d, op)
    requires op.UpdateOp? || op.PauseOp? || op.ResumeOp? || op.DeleteOp?
    requires op.job_id == id
    ensures TimesInv(Perform(zones, d, op))
  {
    hide TimesInv, NextRun, WellFormedId;
    var d' := Perform(zones, d, op);
    if d' != d { JobOnlyKeepsTimes(d, d'.jobs[id]); }
  }

  lemma PerformKeepsTimes(zones: Zones, d: Disk, op: Op)
    requires SafetyInv(d, |d.enqueued|) && TimesInv(d) && WellFormedOp(d, op) && Unforced(d, op)
    requires LeavesNoOrphan(zones, d, op)
    ensures TimesInv(Perform(zones, d, op))
  {
    hide TimesInv, Create, NextRun, TickJobs, IsListing, WellFormedId, HistoryInv, RecentInv, EnqueuedInv, NoDuplicates, NewJobId, StrandsTrigger;
    match op
    case CreateOp(input, nanos, now) => CreateKeepsTimes(zones, d, input, nanos, now);
    case TickOp(listing, stamp, now) => TickKeepsTimes(zones, d, listing, stamp, now);
    case CompleteOp(id, e, succeeded, now) => CompleteKeepsTimes(d, id, e, succeeded, now);
    case RunNowOp(_, _) =>
    case UpdateOp(id, patch, now) => JobOpKeepsTimes(zones, d, op, id);
    case PauseOp(id, now) => JobOpKeepsTimes(zones, d, op, id);
    case ResumeOp(id, now) => JobOpKeepsTimes(zones, d, op, id);
    case DeleteOp(id, now) => JobOpKeepsTimes(zones, d, op, id);
  }

  ghost predicate UnforcedRun(zones: Zones, ops: seq<Op>) {
    forall i :: 0 <= i < |ops| ==>
      var d := RunOps(zones, ops[..i]);
      WellFormedOp(d, ops[i]) && Unforced(d, ops[i]) && LeavesNoOrphan(zones, d, ops[i])
  }

  /** Over every run that leaves jobs to their schedules, each job's dispatched times strictly
      increase, and no job is ever due for a run its history already knows. */
  lemma {:induction false} DispatchTimesIncrease(zones: Zones, ops: seq<Op>)
    requires UnforcedRun(zones, ops)
    ensures var d := RunOps(zones, ops);
            && SafetyInv(d, |d.enqueued|) && TimesInv(d) && TimesIncrease(d.enqueued)
            && forall id <- d.jobs :: d.jobs[id].next_run_at.Some? ==>
                 !IsKnown(d, id, ExecutionId(id, d.jobs[id].next_run_at.value))
  {
    hide Perform, WellFormedOp, Unforced, HistoryInv, NextIsLater, HistoryIsExplained, EnqueuedInv, TickAll, IsKnown, ExecutionId,
      NoDuplicates, WellFormedId, GenuineDispatch, RecentInv, ExecutionExists, LeavesNoOrphan;
    var d := RunOps(zones, ops);
    if ops == [] {
      EmptyIsSafe();
      EmptyTimes();
    } else {
      var init := ops[..|ops| - 1];
      assert forall i :: 0 <= i < |init| ==> init[..i] == ops[..i] && init[i] == ops[i];
      DispatchTimesIncrease(zones, init);
      var before := RunOps(zones, init);
      var op := ops[|ops| - 1];
      PerformKeepsSafety(zones, before, op);
      PerformKeepsTimes(zones, before, op);
    }
    forall id | id in d.jobs && d.jobs[id].next_run_at.Some?
      ensures !IsKnown(d, id, ExecutionId(id, d.jobs[id].next_run_at.value))
    {
      NextRunIsUnknown(d, id);
      CacheAgreesWithHistory(d, id, d.jobs[id].next_run_at.value);
    }
  }

  lemma EmptyTimes()
    ensures TimesInv(EMPTY_DISK)
  {
  }
}
