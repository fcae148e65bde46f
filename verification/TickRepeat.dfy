/** Where at-most-once dispatch ends: a tick that halts after enqueuing a trigger leaves it
    out of the history, and the next tick enqueues it again. */
module TickRepeat {
  import opened Prelude
  import opened Schedule
  import opened JobStore
  import opened Tick
  import opened TickGuards
  import opened TickSafety
  import opened TickProgress

  /** A job that a tick at `now` passes over: not due, or held back. */
  predicate Quiet(d: Disk, job: Job, now: int) {
    !IsDue(job, now) || HeldBack(d, d.active, job, now)
  }

  /** Passing over quiet jobs changes nothing but their own duplicate records. */
  lemma {:induction false} QuietPass(zones: Zones, d: Disk, listing: seq<Job>, nanos: string -> nat, now: int)
    requires HistoryInv(d) && RecentInv(d) && DistinctIds(listing) && ListingInv(listing)
    requires forall k :: 0 <= k < |listing| ==> Quiet(d, listing[k], now)
    ensures var o := TickJobs(zones, d, listing, nanos, now);
            && o.Done? && o.d == d.(runs := o.d.runs) && HistoryInv(o.d) && RemembersAll(d, o.d)
            && forall id :: (forall k :: 0 <= k < |listing| ==> listing[k].job_id != id) ==> JobHistory(o.d, id) == JobHistory(d, id)
  {
    hide HistoryInv, RecentInv, ExecutionExists, ExecutionId, Canonical, WellFormedId, JobHistory;
    if listing == [] {
      SameRuns(d, d);
    } else {
      var init := listing[..|listing| - 1];
      var job := listing[|listing| - 1];
      assert forall k :: 0 <= k < |init| ==> init[k] == listing[k];
      QuietPass(zones, d, init, nanos, now);
      var d1 := TickJobs(zones, d, init, nanos, now).d;
      QuietTurn(zones, d, d1, job, nanos(job.job_id), now);
      forall id | forall k :: 0 <= k < |listing| ==> listing[k].job_id != id
        ensures JobHistory(TickJobs(zones, d, listing, nanos, now).d, id) == JobHistory(d, id)
      {
        assert listing[|listing| - 1].job_id != id;
        assert forall k :: 0 <= k < |init| ==> init[k].job_id != id;
      }
    }
  }

  lemma QuietTurn(zones: Zones, d: Disk, d1: Disk, job: Job, nanos: nat, now: int)
    requires Quiet(d, job, now) && d1 == d.(runs := d1.runs) && HistoryInv(d1) && RemembersAll(d, d1)
    ensures var o := TickJob(zones, d1, job, nanos, now);
            && o.Done? && o.d == d.(runs := o.d.runs) && HistoryInv(o.d) && RemembersAll(d, o.d)
            && forall id :: id != job.job_id ==> JobHistory(o.d, id) == JobHistory(d1, id)
  {
    hide HistoryInv, ExecutionId, Canonical, NextRun, RecoveryNextRun, ExecutionExists;
    if IsDue(job, now) && (job.allow_overlap || !HasActive(d.active, job.job_id)) {
      var e := ExecutionId(job.job_id, job.next_run_at.value);
      ExecutionIdIsCanonical(job.job_id, job.next_run_at.value);
      assert ExecutionExists(d1, job.job_id, e);
      RecordKeepsHistory(d1, job.job_id, e, now, SkippedDuplicate);
    }
  }

  /** The next look at every job that was handled before the halt finds nothing to do. */
  lemma HandledIsQuiet(d: Disk, d': Disk, before: Job, after: Job, active: seq<Active>, now: int)
    requires Handled(d, active, before, after, now) && d'.runs == d.runs && d'.active == active
    ensures Quiet(d', after, now)
  {
    hide ExecutionId, ExecutionExists;
    SameRuns(d, d');
  }

  /** The converse of at-most-once dispatch: whenever a tick leaves a trigger behind, the same
      tick run again on what it left behind enqueues the same execution id a second time. */
  lemma HaltedTickRepeats(zones: Zones, d: Disk, listing: seq<Job>, stamp: string -> nat,
                          again: seq<Job>, stamp': string -> nat, now: int)
    requires SafetyInv(d, |d.enqueued|) && IsListing(d, listing)
    requires StrandsTrigger(zones, d, listing, stamp, now)
    requires |again| == |listing|
    requires var d1 := TickAll(zones, d, listing, stamp, now).d;
             forall k :: 0 <= k < |listing| ==>
               listing[k].job_id in d1.jobs && again[k] == d1.jobs[listing[k].job_id] && again[k].job_id == listing[k].job_id
    ensures var o1 := TickAll(zones, d, listing, stamp, now);
            var o2 := TickAll(zones, o1.d, again, stamp', now);
            && o1.Halted? && o1.orphan.Some? && o2.Halted? && o2.orphan == o1.orphan
            && d.enqueued <= o1.d.enqueued
            && |o1.d.enqueued| > 0 && o1.d.enqueued[|o1.d.enqueued| - 1] == o1.orphan.value
            && o2.d.enqueued == o1.d.enqueued + [o1.orphan.value]
            && !NoDuplicates(o2.d.enqueued)
  {
    hide TickJob, TickJobs, SafetyInv, PassInv, ExecutionExists, HasActive, ExecutionId, NextAfterDispatch, HeldBack, MovedOn, WellFormedId,
      RetainFresh, RecentInv, RemembersAll, IsKnown, StrandsTrigger;
    StrandsTriggerIff(zones, d, listing, stamp, now);
    ListingIsWellFormed(d, listing);
    var d0 := d.(active := RetainFresh(d.active, now));
    var p := HaltPoint(zones, d0, listing, stamp, now);
    PassAll(zones, d, listing, p, stamp, now);
    var dp := TickJobs(zones, d0, listing[..p], stamp, now).d;
    var job := listing[p];
    OrphanedJob(zones, dp, job, stamp(job.job_id), now);
    var x := DispatchFor(job, now);
    var o1 := TickAll(zones, d, listing, stamp, now);
    assert o1.d.jobs == dp.jobs && o1.d.runs == dp.runs && o1.d.active == d.active;
    var e0 := o1.d.(active := RetainFresh(o1.d.active, now));
    SecondPass(zones, d, d0, dp, e0, listing, again, p, stamp', now, x);
    var ep := TickJobs(zones, e0, again[..p], stamp', now).d;
    SecondTurn(zones, dp, ep, job, stamp(job.job_id), stamp'(job.job_id), now);
    HaltIsFinal(zones, e0, again, p, stamp', now);
    var o2 := TickAll(zones, o1.d, again, stamp', now);
    assert o2.d.enqueued == o1.d.enqueued + [x];
    assert o2.d.enqueued[|o1.d.enqueued| - 1].execution_id == o2.d.enqueued[|o1.d.enqueued|].execution_id;
    PassGrows(d0, dp, listing, p, now);
  }

  lemma PassGrows(d0: Disk, d: Disk, listing: seq<Job>, n: nat, now: int)
    requires PassInv(d0, d, listing, n, now)
    ensures d0.enqueued <= d.enqueued
  {
  }

  lemma SecondPass(zones: Zones, d: Disk, d0: Disk, dp: Disk, e0: Disk, listing: seq<Job>, again: seq<Job>, p: nat,
                   stamp: string -> nat, now: int, x: Dispatch)
    requires SafetyInv(d, |d.enqueued|) && SafetyInv(dp, |dp.enqueued|) && DistinctIds(listing) && ListingInv(listing)
    requires PassInv(d0, dp, listing, p, now) && RemembersAll(d0, dp) && d0.runs == d.runs && IsListing(d0, listing)
    requires p < |listing| == |again|
    requires e0.jobs == dp.jobs && e0.runs == dp.runs && e0.active == d0.active && e0.recent == d.recent
    requires forall k :: 0 <= k < |listing| ==>
               listing[k].job_id in dp.jobs && again[k] == dp.jobs[listing[k].job_id] && again[k].job_id == listing[k].job_id
    ensures again[p] == listing[p]
    ensures var o := TickJobs(zones, e0, again[..p], stamp, now);
            && o.Done? && o.d == e0.(runs := o.d.runs) && RecentInv(o.d)
            && JobHistory(o.d, listing[p].job_id) == JobHistory(dp, listing[p].job_id)
            && (HasActive(o.d.active, listing[p].job_id) <==> HasActive(dp.active, listing[p].job_id))
  {
    hide TickJobs, ExecutionExists, HasActive, ExecutionId, HeldBack, MovedOn, JobHistory, HistoryInv, RecentInv, Quiet, Handled,
      WellFormedId, JobsInv, EnqueuedInv, NoDuplicates;
    SafetyHasHistory(d, |d.enqueued|);
    SafetyHasHistory(dp, |dp.enqueued|);
    SameRuns(dp, e0);
    HistoryOfRuns(dp, e0);
    SameRuns(d, d0);
    RemembersTransfer(d, e0);
    var prefix := again[..p];
    forall k | 0 <= k < |prefix| ensures Quiet(e0, prefix[k], now) {
      HandledIsQuiet(dp, e0, listing[k], prefix[k], d0.active, now);
    }
    assert DistinctIds(prefix) && ListingInv(prefix);
    QuietPass(zones, e0, prefix, stamp, now);
    var o := TickJobs(zones, e0, prefix, stamp, now);
    RemembersKeepsRecent(e0, o.d);
    assert Untouched(d0, dp, listing[p].job_id);
    assert JobHistory(o.d, listing[p].job_id) == JobHistory(e0, listing[p].job_id);
    assert JobHistory(e0, listing[p].job_id) == JobHistory(dp, listing[p].job_id) by { HistoryOfRuns(dp, e0); }
  }

  lemma HistoryOfRuns(d: Disk, d': Disk)
    requires d.runs == d'.runs
    ensures HistoryInv(d) == HistoryInv(d') && forall id :: JobHistory(d, id) == JobHistory(d', id)
  {
  }

  /** The cache as it was saved is still covered by a history that has only grown. */
  lemma RemembersTransfer(d: Disk, e: Disk)
    requires RecentInv(d) && e.recent == d.recent && RemembersAll(d, e)
    ensures RecentInv(e)
  {
    hide ExecutionExists, WellFormedId, ExecutionId;
    RemembersKeepsRecent(d, e);
  }

  lemma SecondTurn(zones: Zones, dp: Disk, ep: Disk, job: Job, nanos: nat, nanos': nat, now: int)
    requires TickJob(zones, dp, job, nanos, now).Halted? && TickJob(zones, dp, job, nanos, now).orphan.Some?
    requires RecentInv(ep) && WellFormedId(job.job_id)
    requires JobHistory(ep, job.job_id) == JobHistory(dp, job.job_id)
    requires HasActive(ep.active, job.job_id) <==> HasActive(dp.active, job.job_id)
    ensures var o := TickJob(zones, ep, job, nanos', now);
            o.Halted? && o.orphan == Some(DispatchFor(job, now)) && o.d == Enqueue(ep, DispatchFor(job, now))
  {
    hide ExecutionId, NextRun, RecoveryNextRun, HasActive, RecentInv, WellFormedId, Enqueue;
    OrphanedJob(zones, dp, job, nanos, now);
    CacheAgreesWithHistory(ep, job.job_id, job.next_run_at.value);
  }
}
