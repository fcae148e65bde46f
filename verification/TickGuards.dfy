/** Which job makes a tick fail, and when it leaves a trigger behind (src/orchestration/scheduler.rs). */
module TickGuards {
  import opened Prelude
  import opened Schedule
  import opened JobStore
  import opened Tick

  lemma {:induction false} HaltPoint(zones: Zones, d: Disk, listing: seq<Job>, nanos: string -> nat, now: int) returns (p: nat)
    requires TickJobs(zones, d, listing, nanos, now).Halted?
    ensures p < |listing| && TickJobs(zones, d, listing[..p], nanos, now).Done?
    ensures TickJobs(zones, d, listing, nanos, now)
         == TickJob(zones, TickJobs(zones, d, listing[..p], nanos, now).d, listing[p], nanos(listing[p].job_id), now)
  {
    hide TickJob;
    var init := listing[..|listing| - 1];
    if TickJobs(zones, d, init, nanos, now).Halted? {
      p := HaltPoint(zones, d, init, nanos, now);
      assert init[..p] == listing[..p];
    } else {
      p := |listing| - 1;
    }
  }

  lemma {:induction false} HaltIsFinal(zones: Zones, d: Disk, listing: seq<Job>, p: nat, nanos: string -> nat, now: int)
    requires p < |listing| && TickJobs(zones, d, listing[..p], nanos, now).Done?
    requires TickJob(zones, TickJobs(zones, d, listing[..p], nanos, now).d, listing[p], nanos(listing[p].job_id), now).Halted?
    ensures TickJobs(zones, d, listing, nanos, now)
         == TickJob(zones, TickJobs(zones, d, listing[..p], nanos, now).d, listing[p], nanos(listing[p].job_id), now)
  {
    hide TickJob;
    var init := listing[..|listing| - 1];
    if p < |init| {
      assert init[..p] == listing[..p];
      HaltIsFinal(zones, d, init, p, nanos, now);
    }
  }

  lemma OrphanedJob(zones: Zones, d: Disk, job: Job, nanos: nat, now: int)
    requires TickJob(zones, d, job, nanos, now).Halted? && TickJob(zones, d, job, nanos, now).orphan.Some?
    ensures IsDue(job, now) && !IsMissed(job, now) && (job.allow_overlap || !HasActive(d.active, job.job_id))
    ensures var x := DispatchFor(job, now);
            && !IsKnown(d, x.job_id, x.execution_id)
            && NextAfterDispatch(zones, job, x.scheduled, now).Err?
            && TickJob(zones, d, job, nanos, now).orphan == Some(x)
            && TickJob(zones, d, job, nanos, now).d == Enqueue(d, x)
  {
    hide ExecutionId, NextRun, RecoveryNextRun;
  }

  /** What one turn does, by its guards. */
  lemma TurnOf(zones: Zones, d: Disk, job: Job, nanos: nat, now: int)
    ensures var o := TickJob(zones, d, job, nanos, now);
            && (o.Halted? <==> Halts(zones, d, job, now))
            && (o.Halted? ==> (o.orphan.Some? <==> Strands(zones, d, job, now)) && o.d.active == d.active)
            && o.d.enqueued == (if Dispatchable(d, job, now) then d.enqueued + [DispatchFor(job, now)] else d.enqueued)
            && (o.Done? ==> o.d.active == if Dispatchable(d, job, now)
                            then d.active + [Active(job.job_id, DispatchFor(job, now).execution_id, now)] else d.active)
  {
    hide ExecutionId, NextRun, RecoveryNextRun, HistoryName, SkipId, ExecutionExists;
  }

  /** A tick leaves a trigger behind if and only if it reaches a job whose turn enqueues one and
      then finds no next run. */
  lemma StrandsTriggerIff(zones: Zones, d: Disk, listing: seq<Job>, stamp: string -> nat, now: int)
    ensures var o := TickAll(zones, d, listing, stamp, now);
            StrandsTrigger(zones, d, listing, stamp, now) <==> o.Halted? && o.orphan.Some?
  {
    hide TickJob, TickJobs, Strands, Dispatchable, RetainFresh;
    var d0 := d.(active := RetainFresh(d.active, now));
    var o := TickJobs(zones, d0, listing, stamp, now);
    if o.Halted? && o.orphan.Some? {
      var p := HaltPoint(zones, d0, listing, stamp, now);
      TurnOf(zones, TickJobs(zones, d0, listing[..p], stamp, now).d, listing[p], stamp(listing[p].job_id), now);
      assert ReachedAt(zones, d, listing, p, stamp, now).Done?;
    }
    if StrandsTrigger(zones, d, listing, stamp, now) {
      var p :| 0 <= p < |listing| && ReachedAt(zones, d, listing, p, stamp, now).Done?
        && Strands(zones, ReachedAt(zones, d, listing, p, stamp, now).d, listing[p], now);
      TurnOf(zones, TickJobs(zones, d0, listing[..p], stamp, now).d, listing[p], stamp(listing[p].job_id), now);
      HaltIsFinal(zones, d0, listing, p, stamp, now);
    }
  }

  // ----- a condition on the jobs alone --------------------------------------------------

  /** The searches a tick may make for the jobs that are due find a next run, or none is needed. */
  ghost predicate SearchesSucceed(zones: Zones, listing: seq<Job>, now: int) {
    forall k :: 0 <= k < |listing| && IsDue(listing[k], now) ==>
      && RecoveryNextRun(zones, listing[k].schedule, now).Ok?
      && NextRun(zones, listing[k].schedule, now, listing[k].next_run_at).Ok?
  }

  /** Then no turn fails, whatever the store holds. */
  lemma {:induction false} SearchesKeepTicksWhole(zones: Zones, d: Disk, listing: seq<Job>, stamp: string -> nat, now: int)
    requires SearchesSucceed(zones, listing, now)
    ensures TickJobs(zones, d, listing, stamp, now).Done?
  {
    hide TickJob, NextRun, RecoveryNextRun, Dispatchable;
    if listing != [] {
      var init, job := listing[..|listing| - 1], listing[|listing| - 1];
      assert forall k :: 0 <= k < |init| ==> init[k] == listing[k];
      SearchesKeepTicksWhole(zones, d, init, stamp, now);
      var d1 := TickJobs(zones, d, init, stamp, now).d;
      TurnOf(zones, d1, job, stamp(job.job_id), now);
      assert Dispatchable(d1, job, now) ==> IsDue(job, now) by { DispatchableIsDue(d1, job, now); }
    }
  }

  lemma DispatchableIsDue(d: Disk, job: Job, now: int)
    ensures Dispatchable(d, job, now) ==> IsDue(job, now)
  {
  }

  /** Only cron schedules, and intervals of zero, make a search fail. */
  lemma PlainSchedulesSucceed(zones: Zones, listing: seq<Job>, now: int)
    requires forall k :: 0 <= k < |listing| && IsDue(listing[k], now) ==>
               listing[k].schedule.Once? || (listing[k].schedule.Interval? && listing[k].schedule.every_seconds > 0)
    ensures SearchesSucceed(zones, listing, now)
  {
  }

  lemma WholeTickLeavesNoOrphan(zones: Zones, d: Disk, listing: seq<Job>, stamp: string -> nat, now: int)
    requires SearchesSucceed(zones, listing, now)
    ensures TickAll(zones, d, listing, stamp, now).Done? && !StrandsTrigger(zones, d, listing, stamp, now)
  {
    hide TickJobs, StrandsTrigger, RetainFresh;
    SearchesKeepTicksWhole(zones, d.(active := RetainFresh(d.active, now)), listing, stamp, now);
    StrandsTriggerIff(zones, d, listing, stamp, now);
  }
}
