/** What one tick does to each job: misfires collapse into one run, due jobs move on, and
    only overlap or duplicate detection holds a job back. */
module TickProgress {
  import opened Schedule
  import opened JobStore
  import opened Tick
  import opened TickSafety
  import opened TickStores

  /** A job that has been handled: its next run is after `now`, or it is disabled. */
  predicate MovedOn(job: Job, now: int) {
    (job.next_run_at.Some? && job.next_run_at.value > now) || (job.next_run_at.None? && job.state.Disabled?)
  }

  /** A due job that a tick leaves due. */
  predicate HeldBack(d: Disk, active: seq<Active>, job: Job, now: int) {
    && IsDue(job, now) && !IsMissed(job, now)
    && (|| (!job.allow_overlap && HasActive(active, job.job_id))
        || ExecutionExists(d, job.job_id, ExecutionId(job.job_id, job.next_run_at.value)))
  }

  /** The trigger for the job's due run has been enqueued at `now`. */
  predicate Triggered(d: Disk, job: Job, now: int)
    requires job.next_run_at.Some?
  {
    DispatchFor(job, now) in d.enqueued
  }

  /** The state of a job after its turn, given how it was listed. */
  predicate Handled(d: Disk, active: seq<Active>, before: Job, after: Job, now: int) {
    || (!IsDue(before, now) && after == before)
    || (IsDue(before, now) && after == before && HeldBack(d, active, before, now))
    || (IsDue(before, now) && MovedOn(after, now) && (IsMissed(before, now) || Triggered(d, before, now)))
  }

  /** The triggers a tick enqueues go, one each, to jobs that have moved on. */
  ghost predicate NewTriggers(d0: Disk, d: Disk, now: int) {
    && d0.enqueued <= d.enqueued
    && (forall i :: |d0.enqueued| <= i < |d.enqueued| ==>
          && d.enqueued[i].job_id in d.jobs && MovedOn(d.jobs[d.enqueued[i].job_id], now)
          && d.enqueued[i].triggered_at == now && d.enqueued[i].scheduled <= now)
    && (forall i, j :: |d0.enqueued| <= i < j < |d.enqueued| ==> d.enqueued[i].job_id != d.enqueued[j].job_id)
  }

  /** Jobs whose turn is still to come are untouched. */
  ghost predicate Untouched(d0: Disk, d: Disk, id: string) {
    && (id in d.jobs <==> id in d0.jobs) && (id in d.jobs ==> d.jobs[id] == d0.jobs[id])
    && JobHistory(d, id) == JobHistory(d0, id)
    && (HasActive(d.active, id) <==> HasActive(d0.active, id))
    && (forall i :: |d0.enqueued| <= i < |d.enqueued| ==> d.enqueued[i].job_id != id)
  }

  ghost predicate PassInv(d0: Disk, d: Disk, listing: seq<Job>, n: nat, now: int) {
    && n <= |listing|
    && NewTriggers(d0, d, now)
    && (forall k :: n <= k < |listing| ==> Untouched(d0, d, listing[k].job_id))
    && (forall k :: 0 <= k < n ==>
          listing[k].job_id in d.jobs && Handled(d, d0.active, listing[k], d.jobs[listing[k].job_id], now))
    && (forall k :: |d0.enqueued| <= k < |d.enqueued| ==> exists i :: 0 <= i < n && listing[i].job_id == d.enqueued[k].job_id)
  }

  /** What the step of one job may change. */
  ghost predicate OwnChangesOnly(d: Disk, d': Disk, id: string, now: int) {
    && d'.jobs.Keys == d.jobs.Keys + (if d'.jobs == d.jobs then {} else {id})
    && (forall other <- d.jobs :: other != id ==> d'.jobs[other] == d.jobs[other])
    && (forall other :: other != id ==> JobHistory(d', other) == JobHistory(d, other))
    && (d'.active == d.active || exists a: Active :: a.job_id == id && d'.active == d.active + [a])
    && (d'.enqueued == d.enqueued || exists x: Dispatch :: x.job_id == id && d'.enqueued == d.enqueued + [x])
  }

  lemma SkipChangesOwn(zones: Zones, d: Disk, job: Job, nanos: nat, now: int)
    ensures OwnChangesOnly(d, SkipMissedJob(zones, d, job, nanos, now).d, job.job_id, now)
  {
    hide SkipId, RecoveryNextRun, HistoryName;
  }

  lemma DispatchChangesOwn(zones: Zones, d: Disk, job: Job, now: int)
    requires job.next_run_at.Some?
    ensures OwnChangesOnly(d, DispatchJob(zones, d, job, now).d, job.job_id, now)
  {
    hide ExecutionId, NextAfterDispatch, HistoryName;
    var d' := DispatchJob(zones, d, job, now).d;
    var x := DispatchFor(job, now);
    assert d'.enqueued == d.enqueued + [x];
    assert d'.active == d.active || d'.active == d.active + [Active(x.job_id, x.execution_id, x.triggered_at)];
  }

  lemma RecordChangesOwn(d: Disk, id: string, e: string, now: int, status: RunStatus)
    ensures OwnChangesOnly(d, PersistRecord(d, id, e, now, status), id, now)
    ensures OwnChangesOnly(d, d, id, now)
  {
    hide HistoryName;
  }

  lemma TickJobChangesOwn(zones: Zones, d: Disk, job: Job, nanos: nat, now: int)
    ensures OwnChangesOnly(d, TickJob(zones, d, job, nanos, now).d, job.job_id, now)
  {
    hide ExecutionId, OwnChangesOnly, SkipMissedJob, DispatchJob, PersistRecord, IsKnown;
    SkipChangesOwn(zones, d, job, nanos, now);
    RecordChangesOwn(d, job.job_id, "", now, SkippedDuplicate);
    if job.next_run_at.Some? {
      RecordChangesOwn(d, job.job_id, DispatchFor(job, now).execution_id, now, SkippedDuplicate);
      DispatchChangesOwn(zones, d, job, now);
    }
  }

  lemma ChangesLeaveOthers(d0: Disk, d: Disk, d': Disk, id: string, other: string, now: int)
    requires OwnChangesOnly(d, d', id, now) && other != id && Untouched(d0, d, other)
    requires d0.enqueued <= d.enqueued
    ensures Untouched(d0, d', other)
  {
    assert HasActive(d'.active, other) == HasActive(d.active, other) by {
      if d'.active != d.active {
        var a: Active :| a.job_id == id && d'.active == d.active + [a];
        assert forall i :: 0 <= i < |d.active| ==> d'.active[i] == d.active[i];
      }
    }
    forall i | |d0.enqueued| <= i < |d'.enqueued| ensures d'.enqueued[i].job_id != other {
      if d'.enqueued != d.enqueued {
        var x: Dispatch :| x.job_id == id && d'.enqueued == d.enqueued + [x];
      }
    }
  }

  /** The job itself, after its own step. */
  lemma TickJobHandles(zones: Zones, d: Disk, job: Job, nanos: nat, now: int)
    requires RecentInv(d) && WellFormedId(job.job_id) && HistoryInv(d)
    requires job.job_id in d.jobs && d.jobs[job.job_id] == job
    requires TickJob(zones, d, job, nanos, now).Done?
    ensures var d' := TickJob(zones, d, job, nanos, now).d;
            && job.job_id in d'.jobs && Handled(d', d.active, job, d'.jobs[job.job_id], now)
            && (d'.enqueued != d.enqueued ==>
                  d'.enqueued == d.enqueued + [DispatchFor(job, now)] && IsDue(job, now) && MovedOn(d'.jobs[job.job_id], now))
  {
    hide ExecutionId, NextRun, SkipId, ExecutionExists, HistoryName, WellFormedId, RecentInv, HistoryInv, Canonical;
    if IsDue(job, now) {
      var due := job.next_run_at.value;
      NextRunIsLater(zones, job.schedule, now);
      ExecutionIdIsCanonical(job.job_id, due);
      CacheAgreesWithHistory(d, job.job_id, due);
      if !IsMissed(job, now) && IsKnown(d, job.job_id, ExecutionId(job.job_id, due)) {
        RecordKeepsHistory(d, job.job_id, ExecutionId(job.job_id, due), now, SkippedDuplicate);
      }
    }
  }

  lemma HeldBackStays(d: Disk, d': Disk, active: seq<Active>, active': seq<Active>, job: Job, now: int)
    requires HeldBack(d, active, job, now) && RemembersAll(d, d')
    requires HasActive(active, job.job_id) ==> HasActive(active', job.job_id)
    ensures HeldBack(d', active', job, now)
  {
    hide ExecutionExists, ExecutionId, HasActive, Canonical;
    ExecutionIdIsCanonical(job.job_id, job.next_run_at.value);
  }

  ghost predicate DistinctIds(listing: seq<Job>) {
    forall i, j :: 0 <= i < j < |listing| ==> listing[i].job_id != listing[j].job_id
  }

  /** One more turn keeps the invariant of the pass. */
  lemma TurnKeepsPass(zones: Zones, d0: Disk, d: Disk, listing: seq<Job>, n: nat, nanos: nat, now: int)
    requires PassInv(d0, d, listing, n, now) && n < |listing| && DistinctIds(listing)
    requires SafetyInv(d, |d.enqueued|) && WellFormedId(listing[n].job_id)
    requires listing[n].job_id in d0.jobs && d0.jobs[listing[n].job_id] == listing[n]
    requires TickJob(zones, d, listing[n], nanos, now).Done?
    ensures PassInv(d0, TickJob(zones, d, listing[n], nanos, now).d, listing, n + 1, now)
  {
    hide TickJob, HeldBack, WellFormedId, HistoryInv, RecentInv, JobsInv, EnqueuedInv, HasActive, JobHistory, ExecutionExists, ExecutionId, HistoryName;
    var job := listing[n];
    var id := job.job_id;
    var d' := TickJob(zones, d, job, nanos, now).d;
    SafetyHasHistory(d, |d.enqueued|);
    TickJobChangesOwn(zones, d, job, nanos, now);
    TickJobHandles(zones, d, job, nanos, now);
    TickJobRemembers(zones, d, job, nanos, now);
    forall k | n + 1 <= k < |listing| ensures Untouched(d0, d', listing[k].job_id) {
      ChangesLeaveOthers(d0, d, d', id, listing[k].job_id, now);
    }
    forall k | 0 <= k < n + 1
      ensures listing[k].job_id in d'.jobs && Handled(d', d0.active, listing[k], d'.jobs[listing[k].job_id], now)
    {
      var before := listing[k];
      if k < n {
        assert d'.jobs[before.job_id] == d.jobs[before.job_id];
        assert d.enqueued <= d'.enqueued;
        if HeldBack(d, d0.active, before, now) { HeldBackStays(d, d', d0.active, d0.active, before, now); }
      } else {
        if HeldBack(d', d.active, before, now) { HeldBackFrom(d', d.active, d0.active, before, now); }
      }
    }
    TriggersGrow(d0, d, d', listing, n, now);
  }

  lemma HeldBackFrom(d: Disk, active: seq<Active>, active': seq<Active>, job: Job, now: int)
    requires HeldBack(d, active, job, now) && (HasActive(active, job.job_id) ==> HasActive(active', job.job_id))
    ensures HeldBack(d, active', job, now)
  {
    hide ExecutionExists, ExecutionId, HasActive;
  }

  lemma TriggersGrow(d0: Disk, d: Disk, d': Disk, listing: seq<Job>, n: nat, now: int)
    requires PassInv(d0, d, listing, n, now) && n < |listing| && DistinctIds(listing)
    requires OwnChangesOnly(d, d', listing[n].job_id, now)
    requires d'.enqueued != d.enqueued ==>
               && IsDue(listing[n], now) && d'.enqueued == d.enqueued + [DispatchFor(listing[n], now)]
               && listing[n].job_id in d'.jobs && MovedOn(d'.jobs[listing[n].job_id], now)
    ensures NewTriggers(d0, d', now)
    ensures forall k :: |d0.enqueued| <= k < |d'.enqueued| ==> exists i :: 0 <= i < n + 1 && listing[i].job_id == d'.enqueued[k].job_id
  {
    hide HasActive, JobHistory, ExecutionExists, Handled, ExecutionId;
    var id := listing[n].job_id;
    assert Untouched(d0, d, id);
    forall k | |d0.enqueued| <= k < |d'.enqueued|
      ensures (exists i :: 0 <= i < n + 1 && listing[i].job_id == d'.enqueued[k].job_id)
      ensures d'.enqueued[k].job_id in d'.jobs && MovedOn(d'.jobs[d'.enqueued[k].job_id], now)
      ensures d'.enqueued[k].triggered_at == now && d'.enqueued[k].scheduled <= now
    {
      if k < |d.enqueued| {
        assert d'.enqueued[k] == d.enqueued[k];
        var i :| 0 <= i < n && listing[i].job_id == d.enqueued[k].job_id;
        assert listing[i].job_id != id;
      } else {
        assert listing[n].job_id == d'.enqueued[k].job_id;
      }
    }
  }

  lemma {:induction false} PassKeepsInv(zones: Zones, d0: Disk, listing: seq<Job>, n: nat, nanos: string -> nat, now: int)
    requires SafetyInv(d0, |d0.enqueued|) && IsListing(d0, listing) && n <= |listing|
    requires TickJobs(zones, d0, listing[..n], nanos, now).Done?
    ensures var d := TickJobs(zones, d0, listing[..n], nanos, now).d;
            PassInv(d0, d, listing, n, now) && SafetyInv(d, |d.enqueued|) && RemembersAll(d0, d)
  {
    hide TickJob, PassInv, SafetyInv, RemembersAll;
    ListingIsWellFormed(d0, listing);
    if n == 0 {
      PassStarts(d0, listing, now);
    } else {
      assert listing[..n][..n - 1] == listing[..n - 1];
      PassKeepsInv(zones, d0, listing, n - 1, nanos, now);
      var d := TickJobs(zones, d0, listing[..n - 1], nanos, now).d;
      TurnKeepsPass(zones, d0, d, listing, n - 1, nanos(listing[n - 1].job_id), now);
    }
    TickJobsKeepSafety(zones, d0, listing[..n], nanos, now);
  }

  lemma ListingIsWellFormed(d: Disk, listing: seq<Job>)
    requires SafetyInv(d, |d.enqueued|) && IsListing(d, listing)
    ensures DistinctIds(listing) && ListingInv(listing)
  {
  }

  lemma PassStarts(d0: Disk, listing: seq<Job>, now: int)
    ensures PassInv(d0, d0, listing, 0, now) && RemembersAll(d0, d0)
  {
  }

  lemma StaleStateIsSafe(d: Disk, now: int)
    requires SafetyInv(d, |d.enqueued|)
    ensures SafetyInv(d.(active := RetainFresh(d.active, now)), |d.enqueued|)
  {
    hide ExecutionExists, WellFormedId, GenuineDispatch, Canonical;
    var d0 := d.(active := RetainFresh(d.active, now));
    SameRuns(d, d0);
    StateSwapKeepsSafety(d, d0, |d.enqueued|);
    assert d.(recent := d0.recent, active := d0.active) == d0;
  }

  lemma PassAll(zones: Zones, d: Disk, listing: seq<Job>, n: nat, nanos: string -> nat, now: int)
    requires SafetyInv(d, |d.enqueued|) && IsListing(d, listing) && n <= |listing|
    requires TickJobs(zones, d.(active := RetainFresh(d.active, now)), listing[..n], nanos, now).Done?
    ensures var d0 := d.(active := RetainFresh(d.active, now));
            var d1 := TickJobs(zones, d0, listing[..n], nanos, now).d;
            && IsListing(d0, listing) && SafetyInv(d0, |d0.enqueued|)
            && PassInv(d0, d1, listing, n, now) && SafetyInv(d1, |d1.enqueued|) && RemembersAll(d0, d1)
  {
    hide SafetyInv, PassInv, RemembersAll, TickJobs;
    StaleStateIsSafe(d, now);
    PassKeepsInv(zones, d.(active := RetainFresh(d.active, now)), listing, n, nanos, now);
  }

  lemma SafeTickMakesProgress(zones: Zones, d: Disk, listing: seq<Job>, nanos: string -> nat, now: int)
    requires SafetyInv(d, |d.enqueued|) && IsListing(d, listing)
    requires TickAll(zones, d, listing, nanos, now).Done?
    ensures var d' := TickAll(zones, d, listing, nanos, now).d;
            && NewTriggers(d, d', now)
            && forall id <- d.jobs :: id in d'.jobs && Handled(d', RetainFresh(d.active, now), d.jobs[id], d'.jobs[id], now)
  {
    hide TickJobs, SafetyInv, RemembersAll, HeldBack, IsDue, MovedOn, DispatchFor, RetainFresh, Untouched;
    assert listing[..|listing|] == listing;
    PassAll(zones, d, listing, |listing|, nanos, now);
    var d0 := d.(active := RetainFresh(d.active, now));
    var d1 := TickJobs(zones, d0, listing, nanos, now).d;
    var d' := TickAll(zones, d, listing, nanos, now).d;
    SameRuns(d1, d');
    forall id | id in d.jobs
      ensures id in d'.jobs && Handled(d', d0.active, d.jobs[id], d'.jobs[id], now)
    {
      var k :| 0 <= k < |listing| && listing[k].job_id == id;
      if HeldBack(d1, d0.active, listing[k], now) {
        RemembersSame(d1, d');
        HeldBackStays(d1, d', d0.active, d0.active, listing[k], now);
      }
    }
  }

  lemma RemembersSame(d: Disk, d': Disk)
    requires d.runs == d'.runs
    ensures RemembersAll(d, d')
  {
    SameRuns(d, d');
  }

  /** What a tick that reaches its end guarantees, on every store a run can leave, stranded triggers
      included: each job is triggered at most once; every job it triggered or skipped has its next
      run after `now` or is disabled; and a job that is still due was held back by overlap or by
      duplicate detection. */
  lemma TickMakesProgress(zones: Zones, d: Disk, listing: seq<Job>, nanos: string -> nat, now: int)
    requires StoreInv(d) && IsListing(d, listing)
    requires TickAll(zones, d, listing, nanos, now).Done?
    ensures var d' := TickAll(zones, d, listing, nanos, now).d;
            && NewTriggers(d, d', now)
            && forall id <- d.jobs :: id in d'.jobs && Handled(d', RetainFresh(d.active, now), d.jobs[id], d'.jobs[id], now)
  {
    hide TickAll, SafetyInv, StoreInv, HasActive, DispatchFor, RetainFresh, MovedOn, IsDue, IsMissed, ExecutionId;
    var b := Blank(d);
    BlankIsSafe(d);
    TickIgnoresTriggers(zones, b, d.enqueued, listing, nanos, now);
    SafeTickMakesProgress(zones, b, listing, nanos, now);
    var b' := TickAll(zones, b, listing, nanos, now).d;
    SameRuns(b', Behind(b', d.enqueued));
  }

  /** So does every tick that reaches its end after any run. */
  lemma EveryTickMakesProgress(zones: Zones, ops: seq<Op>, listing: seq<Job>, nanos: string -> nat, now: int)
    requires WellFormedRun(zones, ops) && IsListing(RunOps(zones, ops), listing)
    requires TickAll(zones, RunOps(zones, ops), listing, nanos, now).Done?
    ensures var d := RunOps(zones, ops);
            var d' := TickAll(zones, d, listing, nanos, now).d;
            && NewTriggers(d, d', now)
            && forall id <- d.jobs :: id in d'.jobs && Handled(d', RetainFresh(d.active, now), d.jobs[id], d'.jobs[id], now)
  {
    hide RunOps, TickAll, StoreInv, Handled, NewTriggers, WellFormedRun, IsListing;
    EveryRunKeepsStore(zones, ops);
    TickMakesProgress(zones, RunOps(zones, ops), listing, nanos, now);
  }
}
