/** At-most-once dispatch over whole runs, although the cache of recent ids forgets. */
module TickSafety {
  import opened Prelude
  import opened Schedule
  import opened JobStore
  import opened Tick
  import opened TickGuards

  /** Jobs are stored under their own well-formed ids. */
  predicate JobsInv(d: Disk) {
    forall id <- d.jobs :: d.jobs[id].job_id == id && WellFormedId(id)
  }

  /** Every history file is named after the execution id it holds. */
  predicate HistoryInv(d: Disk) {
    forall id <- d.runs, name <- d.runs[id] :: name == HistoryName(d.runs[id][name].triggered_at, d.runs[id][name].execution_id)
  }

  /** The cache is a subset of the history. */
  ghost predicate RecentInv(d: Disk) {
    forall e <- d.recent ::
      exists id, t :: WellFormedId(id) && e == ExecutionId(id, t) && ExecutionExists(d, id, e)
  }

  predicate GenuineDispatch(x: Dispatch) {
    WellFormedId(x.job_id) && x.execution_id == ExecutionId(x.job_id, x.scheduled)
  }

  /** Every trigger enqueued so far is in its job's history, except perhaps the last. */
  ghost predicate EnqueuedInv(d: Disk, settled: nat) {
    && settled <= |d.enqueued|
    && (forall i :: 0 <= i < |d.enqueued| ==> GenuineDispatch(d.enqueued[i]))
    && (forall i :: 0 <= i < settled ==> ExecutionExists(d, d.enqueued[i].job_id, d.enqueued[i].execution_id))
  }

  ghost predicate NoDuplicates(xs: seq<Dispatch>) {
    forall i, j :: 0 <= i < j < |xs| ==> xs[i].execution_id != xs[j].execution_id
  }

  ghost predicate SafetyInv(d: Disk, settled: nat) {
    JobsInv(d) && HistoryInv(d) && RecentInv(d) && EnqueuedInv(d, settled) && NoDuplicates(d.enqueued)
  }

  /** `d'` knows every execution `d` knows whose id is one the scheduler could have made. */
  ghost predicate RemembersAll(d: Disk, d': Disk) {
    forall id, e :: Canonical(e) && ExecutionExists(d, id, e) ==> ExecutionExists(d', id, e)
  }

  lemma SameRuns(d: Disk, d': Disk)
    requires d.runs == d'.runs
    ensures forall id, e :: ExecutionExists(d', id, e) == ExecutionExists(d, id, e)
  {
    forall id, e ensures ExecutionExists(d', id, e) == ExecutionExists(d, id, e) {
      assert JobHistory(d', id) == JobHistory(d, id);
    }
  }

  /** Writing a record makes the history forget nothing if and only if it takes no other
      execution's only file. */
  lemma RecordRemembersIff(d: Disk, job_id: string, execution_id: string, triggered_at: int, status: RunStatus)
    ensures RemembersAll(d, PersistRecord(d, job_id, execution_id, triggered_at, status))
       <==> KeepsKnown(d, job_id, execution_id, triggered_at)
  {
    hide Canonical, HistoryName;
    var d' := PersistRecord(d, job_id, execution_id, triggered_at, status);
    var file := HistoryName(triggered_at, execution_id);
    if KeepsKnown(d, job_id, execution_id, triggered_at) {
      forall id, e | Canonical(e) && ExecutionExists(d, id, e) ensures ExecutionExists(d', id, e) {
        var name :| name in JobHistory(d, id) && JobHistory(d, id)[name].execution_id == e;
        if id == job_id && name == file {
          if e != execution_id {
            var other :| other in JobHistory(d, id) && other != file && JobHistory(d, id)[other].execution_id == e;
            assert other in JobHistory(d', id) && JobHistory(d', id)[other].execution_id == e;
          } else {
            assert file in JobHistory(d', id);
          }
        } else {
          assert name in JobHistory(d', id) && JobHistory(d', id)[name].execution_id == e;
        }
      }
    } else {
      var known := JobHistory(d, job_id)[file].execution_id;
      assert ExecutionExists(d, job_id, known);
      assert !ExecutionExists(d', job_id, known) by {
        assert forall name :: name in JobHistory(d', job_id) && name != file ==> name in JobHistory(d, job_id);
      }
    }
  }

  /** An id the scheduler could have made takes no other one's file. */
  lemma CanonicalKeeps(d: Disk, job_id: string, execution_id: string, now: int)
    requires HistoryInv(d) && Canonical(execution_id)
    ensures KeepsKnown(d, job_id, execution_id, now)
  {
    hide Canonical, HistoryName;
    var name := HistoryName(now, execution_id);
    if name in JobHistory(d, job_id) && Canonical(JobHistory(d, job_id)[name].execution_id) {
      HistoryNameInjective(JobHistory(d, job_id)[name].triggered_at, JobHistory(d, job_id)[name].execution_id, now, execution_id);
    }
  }

  lemma AnyRecordKeepsHistory(d: Disk, job_id: string, execution_id: string, triggered_at: int, status: RunStatus)
    requires HistoryInv(d) && KeepsKnown(d, job_id, execution_id, triggered_at)
    ensures var d' := PersistRecord(d, job_id, execution_id, triggered_at, status);
            HistoryInv(d') && RemembersAll(d, d') && ExecutionExists(d', job_id, execution_id)
  {
    hide Canonical, HistoryName, KeepsKnown, RemembersAll;
    RecordRemembersIff(d, job_id, execution_id, triggered_at, status);
    var d' := PersistRecord(d, job_id, execution_id, triggered_at, status);
    var file := HistoryName(triggered_at, execution_id);
    assert file in JobHistory(d', job_id) && JobHistory(d', job_id)[file].execution_id == execution_id;
  }

  lemma RecordKeepsHistory(d: Disk, job_id: string, execution_id: string, triggered_at: int, status: RunStatus)
    requires HistoryInv(d) && Canonical(execution_id)
    ensures var d' := PersistRecord(d, job_id, execution_id, triggered_at, status);
            HistoryInv(d') && RemembersAll(d, d') && ExecutionExists(d', job_id, execution_id)
  {
    hide Canonical, HistoryInv, RemembersAll, ExecutionExists, KeepsKnown;
    CanonicalKeeps(d, job_id, execution_id, triggered_at);
    AnyRecordKeepsHistory(d, job_id, execution_id, triggered_at, status);
  }

  lemma RemembersKeepsRecent(d: Disk, d': Disk)
    requires RecentInv(d) && RemembersAll(d, d') && d'.recent == d.recent
    ensures RecentInv(d')
  {
    hide ExecutionExists, WellFormedId, ExecutionId;
    forall e | e in d'.recent
      ensures exists id, t :: WellFormedId(id) && e == ExecutionId(id, t) && ExecutionExists(d', id, e)
    {
      var id, t :| WellFormedId(id) && e == ExecutionId(id, t) && ExecutionExists(d, id, e);
      ExecutionIdIsCanonical(id, t);
      assert ExecutionExists(d', id, e);
    }
  }

  /** The combined test of cache and history answers as the history alone does. */
  lemma CacheAgreesWithHistory(d: Disk, job_id: string, t: int)
    requires RecentInv(d) && WellFormedId(job_id)
    ensures IsKnown(d, job_id, ExecutionId(job_id, t)) <==> ExecutionExists(d, job_id, ExecutionId(job_id, t))
  {
    hide ExecutionExists, WellFormedId, ExecutionId;
    var e := ExecutionId(job_id, t);
    if e in d.recent {
      var id, s :| WellFormedId(id) && e == ExecutionId(id, s) && ExecutionExists(d, id, e);
      ExecutionIdInjective(id, s, job_id, t);
    }
  }

  /** Triggers that the history knows stay known. */
  lemma RemembersEnqueued(d: Disk, d': Disk, settled: nat)
    requires EnqueuedInv(d, settled) && RemembersAll(d, d') && d'.enqueued == d.enqueued
    ensures EnqueuedInv(d', settled)
  {
    hide Canonical, ExecutionExists, WellFormedId, ExecutionId;
    forall i | 0 <= i < settled ensures ExecutionExists(d', d'.enqueued[i].job_id, d'.enqueued[i].execution_id) {
      var x := d.enqueued[i];
      assert GenuineDispatch(x);
      ExecutionIdIsCanonical(x.job_id, x.scheduled);
    }
  }

  lemma AnyRecordKeepsSafety(d: Disk, settled: nat, job_id: string, execution_id: string, triggered_at: int, status: RunStatus)
    requires SafetyInv(d, settled) && KeepsKnown(d, job_id, execution_id, triggered_at)
    ensures SafetyInv(PersistRecord(d, job_id, execution_id, triggered_at, status), settled)
  {
    hide Canonical, HistoryInv, ExecutionExists, GenuineDispatch, EnqueuedInv, RecentInv, RemembersAll, KeepsKnown;
    var d' := PersistRecord(d, job_id, execution_id, triggered_at, status);
    AnyRecordKeepsHistory(d, job_id, execution_id, triggered_at, status);
    RemembersKeepsRecent(d, d');
    RemembersEnqueued(d, d', settled);
  }

  lemma RecordKeepsSafety(d: Disk, settled: nat, job_id: string, execution_id: string, triggered_at: int, status: RunStatus)
    requires SafetyInv(d, settled) && Canonical(execution_id)
    ensures SafetyInv(PersistRecord(d, job_id, execution_id, triggered_at, status), settled)
  {
    hide Canonical, SafetyInv, KeepsKnown;
    SafetyHasHistory(d, settled);
    CanonicalKeeps(d, job_id, execution_id, triggered_at);
    AnyRecordKeepsSafety(d, settled, job_id, execution_id, triggered_at, status);
  }

  lemma PersistKeepsSafety(d: Disk, settled: nat, job: Job)
    requires SafetyInv(d, settled) && WellFormedId(job.job_id)
    ensures SafetyInv(PersistJob(d, job), settled)
  {
    hide WellFormedId, GenuineDispatch;
    var d' := PersistJob(d, job);
    SameRuns(d, d');
    RemembersKeepsRecent(d, d');
  }

  lemma EnqueueKeepsSafety(d: Disk, x: Dispatch)
    requires SafetyInv(d, |d.enqueued|) && GenuineDispatch(x)
    requires !ExecutionExists(d, x.job_id, x.execution_id)
    ensures SafetyInv(Enqueue(d, x), |d.enqueued|)
  {
    hide WellFormedId, ExecutionId;
    var d' := Enqueue(d, x);
    SameRuns(d, d');
    RemembersKeepsRecent(d, d');
    forall i | 0 <= i < |d.enqueued| ensures d.enqueued[i].execution_id != x.execution_id {
      var y := d.enqueued[i];
      if y.execution_id == x.execution_id {
        ExecutionIdInjective(y.job_id, y.scheduled, x.job_id, x.scheduled);
      }
    }
  }

  /** Remembering a recorded dispatch, and listing it as active. */
  lemma RememberKeepsSafety(d: Disk, d': Disk, x: Dispatch)
    requires |d.enqueued| > 0 && x == d.enqueued[|d.enqueued| - 1] && SafetyInv(d, |d.enqueued| - 1)
    requires ExecutionExists(d, x.job_id, x.execution_id)
    requires d'.jobs == d.jobs && d'.runs == d.runs && d'.enqueued == d.enqueued && d'.recent == Trim(d.recent + [x.execution_id])
    ensures SafetyInv(d', |d'.enqueued|)
  {
    hide WellFormedId, ExecutionId, ExecutionExists;
    SameRuns(d, d');
    assert GenuineDispatch(x);
    forall e | e in d'.recent
      ensures exists id, t :: WellFormedId(id) && e == ExecutionId(id, t) && ExecutionExists(d', id, e)
    {
      if e == x.execution_id {
        assert WellFormedId(x.job_id) && e == ExecutionId(x.job_id, x.scheduled) && ExecutionExists(d', x.job_id, e);
      } else {
        assert e in d.recent;
        var id, t :| WellFormedId(id) && e == ExecutionId(id, t) && ExecutionExists(d, id, e);
        assert ExecutionExists(d', id, e);
      }
    }
  }

  lemma RecordDispatchKeepsSafety(d: Disk, job: Job, x: Dispatch)
    requires |d.enqueued| > 0 && x == d.enqueued[|d.enqueued| - 1] && SafetyInv(d, |d.enqueued| - 1)
    requires job.job_id == x.job_id
    ensures SafetyInv(RecordDispatch(d, job, x), |d.enqueued|)
  {
    assert GenuineDispatch(x);
    hide WellFormedId, ExecutionId, Canonical, ExecutionExists, SafetyInv, HistoryInv, RemembersAll, HistoryName;
    ExecutionIdIsCanonical(x.job_id, x.scheduled);
    var d0 := PersistJob(d, job);
    var d1 := PersistRecord(d0, x.job_id, x.execution_id, x.triggered_at, Dispatched);
    PersistKeepsSafety(d, |d.enqueued| - 1, job);
    SafetyHasHistory(d0, |d.enqueued| - 1);
    RecordKeepsSafety(d0, |d.enqueued| - 1, x.job_id, x.execution_id, x.triggered_at, Dispatched);
    RecordKeepsHistory(d0, x.job_id, x.execution_id, x.triggered_at, Dispatched);
    RememberKeepsSafety(d1, RecordDispatch(d, job, x), x);
  }

  /** How many enqueued triggers a job's step, or a tick, leaves in the history. */
  function Settled(o: Outcome): nat {
    if o.Halted? && o.orphan.Some? && |o.d.enqueued| > 0 then |o.d.enqueued| - 1 else |o.d.enqueued|
  }

  lemma TickJobKeepsSafety(zones: Zones, d: Disk, job: Job, nanos: nat, now: int)
    requires SafetyInv(d, |d.enqueued|) && WellFormedId(job.job_id)
    ensures var o := TickJob(zones, d, job, nanos, now); SafetyInv(o.d, Settled(o))
  {
    hide WellFormedId, ExecutionId, Canonical, SafetyInv, ExecutionExists, NextRun, SkipId, RecoveryNextRun;
    if IsDue(job, now) {
      if IsMissed(job, now) {
        match RecoveryNextRun(zones, job.schedule, now) {
          case Err(_) =>
          case Ok(next) =>
            var job1 := job.(next_run_at := next, state := if next.None? then Disabled else job.state,
                             updated_at := now, last_result := Some(ResultSkippedMissed));
            SkipIdIsCanonical(nanos);
            PersistKeepsSafety(d, |d.enqueued|, job1);
            RecordKeepsSafety(PersistJob(d, job1), |d.enqueued|, job.job_id, SkipId(nanos), now, SkippedMissed);
        }
      } else if job.allow_overlap || !HasActive(d.active, job.job_id) {
        var x := DispatchFor(job, now);
        ExecutionIdIsCanonical(job.job_id, x.scheduled);
        if IsKnown(d, x.job_id, x.execution_id) {
          RecordKeepsSafety(d, |d.enqueued|, x.job_id, x.execution_id, now, SkippedDuplicate);
        } else {
          EnqueueKeepsSafety(d, x);
          match NextAfterDispatch(zones, job, x.scheduled, now) {
            case Err(_) =>
            case Ok(next) => RecordDispatchKeepsSafety(Enqueue(d, x), DispatchedJob(job, next, now), x);
          }
        }
      }
    }
  }

  /** Which part of the scheduler state is on disk does not matter to safety, as long as the
      cache is one that was valid before. */
  lemma StateSwapKeepsSafety(d: Disk, d0: Disk, settled: nat)
    requires SafetyInv(d, settled) && RecentInv(d0) && RemembersAll(d0, d)
    ensures SafetyInv(d.(recent := d0.recent, active := d0.active), settled)
  {
    hide WellFormedId, ExecutionId, GenuineDispatch, Canonical, ExecutionExists, RecentInv;
    var d1 := d.(recent := d0.recent, active := d0.active);
    SameRuns(d, d1);
    RemembersKeepsRecent(d0, d1);
  }

  lemma TickJobRemembers(zones: Zones, d: Disk, job: Job, nanos: nat, now: int)
    requires HistoryInv(d)
    ensures RemembersAll(d, TickJob(zones, d, job, nanos, now).d)
  {
    hide ExecutionId, Canonical, HistoryInv, ExecutionExists, NextRun, SkipId, RecoveryNextRun;
    if IsDue(job, now) {
      ExecutionIdIsCanonical(job.job_id, job.next_run_at.value);
      SkipIdIsCanonical(nanos);
      var o := TickJob(zones, d, job, nanos, now);
      if o.d.runs == d.runs {
        SameRuns(d, o.d);
      } else if IsMissed(job, now) {
        var next := RecoveryNextRun(zones, job.schedule, now).value;
        var job1 := job.(next_run_at := next, state := if next.None? then Disabled else job.state,
                         updated_at := now, last_result := Some(ResultSkippedMissed));
        RecordRemembers(d, PersistJob(d, job1), job.job_id, SkipId(nanos), now, SkippedMissed);
      } else {
        var x := DispatchFor(job, now);
        if IsKnown(d, x.job_id, x.execution_id) {
          RecordRemembers(d, d, x.job_id, x.execution_id, now, SkippedDuplicate);
        } else {
          var next := NextAfterDispatch(zones, job, x.scheduled, now).value;
          var d1 := PersistJob(Enqueue(d, x), DispatchedJob(job, next, now));
          RecordRemembers(d, d1, x.job_id, x.execution_id, now, Dispatched);
          SameRuns(PersistRecord(d1, x.job_id, x.execution_id, now, Dispatched), o.d);
        }
      }
    } else {
      SameRuns(d, d);
    }
  }

  lemma RecordRemembers(d: Disk, d1: Disk, job_id: string, execution_id: string, triggered_at: int, status: RunStatus)
    requires HistoryInv(d) && d1.runs == d.runs && Canonical(execution_id)
    ensures RemembersAll(d, PersistRecord(d1, job_id, execution_id, triggered_at, status))
  {
    hide Canonical, HistoryName, ExecutionExists;
    SameRuns(d, d1);
    RecordKeepsHistory(d1, job_id, execution_id, triggered_at, status);
  }

  ghost predicate ListingInv(listing: seq<Job>) {
    forall i :: 0 <= i < |listing| ==> WellFormedId(listing[i].job_id)
  }

  lemma {:induction false} TickJobsKeepSafety(zones: Zones, d: Disk, listing: seq<Job>, nanos: string -> nat, now: int)
    requires SafetyInv(d, |d.enqueued|) && ListingInv(listing)
    ensures var o := TickJobs(zones, d, listing, nanos, now);
            SafetyInv(o.d, Settled(o)) && RemembersAll(d, o.d)
  {
    hide SafetyInv, ExecutionExists, TickJob, WellFormedId;
    if listing != [] {
      var init := listing[..|listing| - 1];
      TickJobsKeepSafety(zones, d, init, nanos, now);
      var o := TickJobs(zones, d, init, nanos, now);
      if o.Done? {
        var job := listing[|listing| - 1];
        TickJobKeepsSafety(zones, o.d, job, nanos(job.job_id), now);
        assert HistoryInv(o.d) by { SafetyHasHistory(o.d, Settled(o)); }
        TickJobRemembers(zones, o.d, job, nanos(job.job_id), now);
      }
    }
  }

  lemma SafetyHasHistory(d: Disk, settled: nat)
    requires SafetyInv(d, settled)
    ensures HistoryInv(d) && RecentInv(d)
  {
  }

  lemma TickKeepsSafety(zones: Zones, d: Disk, listing: seq<Job>, nanos: string -> nat, now: int)
    requires SafetyInv(d, |d.enqueued|) && IsListing(d, listing)
    ensures var o := TickAll(zones, d, listing, nanos, now); SafetyInv(o.d, Settled(o))
  {
    hide ExecutionExists, WellFormedId, GenuineDispatch, Canonical;
    var d0 := d.(active := RetainFresh(d.active, now));
    SameRuns(d, d0);
    StateSwapKeepsSafety(d, d0, |d.enqueued|);
    assert SafetyInv(d0, |d0.enqueued|);
    TickJobsKeepSafety(zones, d0, listing, nanos, now);
    var o := TickJobs(zones, d0, listing, nanos, now);
    match o {
      case Done(d1) => SameRuns(d1, d1.(last_tick_at := Some(now))); RemembersKeepsRecent(d1, d1.(last_tick_at := Some(now)));
      case Halted(d1, _, _) => StateSwapKeepsSafety(d1, d, Settled(o));
    }
  }

  lemma CreateKeepsSafety(zones: Zones, d: Disk, input: NewJob, nanos: nat, now: int)
    requires SafetyInv(d, |d.enqueued|)
    ensures SafetyInv(Create(zones, d, input, nanos, now), |d.enqueued|)
  {
    hide SafetyInv, WellFormedId, NextRun, ScheduleErrorOf, NewJobId;
    NewJobIdIsWellFormed(input.orchestrator_id, nanos);
    match NextRun(zones, input.schedule, now, None) {
      case Err(_) =>
      case Ok(next) =>
        PersistKeepsSafety(d, |d.enqueued|, Job(NewJobId(input.orchestrator_id, nanos), input.schedule, Enabled,
          input.misfire, next, None, None, input.allow_overlap, now, now));
    }
  }

  lemma StoredIdIsWellFormed(d: Disk, settled: nat, job_id: string)
    requires SafetyInv(d, settled) && job_id in d.jobs
    ensures d.jobs[job_id].job_id == job_id && WellFormedId(job_id)
  {
  }

  lemma JobChangeKeepsSafety(d: Disk, d': Disk)
    requires SafetyInv(d, |d.enqueued|)
    requires d' == d || exists job: Job :: job.job_id in d.jobs && d' == PersistJob(d, job)
    ensures SafetyInv(d', |d.enqueued|)
  {
    hide SafetyInv, WellFormedId;
    if d' != d {
      var job: Job :| job.job_id in d.jobs && d' == PersistJob(d, job);
      StoredIdIsWellFormed(d, |d.enqueued|, job.job_id);
      PersistKeepsSafety(d, |d.enqueued|, job);
    }
  }

  lemma CompleteKeepsSafety(d: Disk, job_id: string, execution_id: string, succeeded: bool, now: int)
    requires SafetyInv(d, |d.enqueued|) && (job_id in d.jobs ==> KeepsKnown(d, job_id, execution_id, now))
    ensures SafetyInv(Complete(d, job_id, execution_id, succeeded, now), |d.enqueued|)
  {
    hide SafetyInv, WellFormedId, Canonical, HistoryName;
    var d1 := d.(active := RemoveActive(d.active, job_id, execution_id));
    SafetyHasHistory(d, |d.enqueued|);
    SameRuns(d, d1);
    StateSwapKeepsSafety(d, d1, |d.enqueued|);
    assert d.(recent := d1.recent, active := d1.active) == d1;
    if job_id in d.jobs {
      StoredIdIsWellFormed(d, |d.enqueued|, job_id);
      var job := d.jobs[job_id].(last_result := Some(if succeeded then ResultSucceeded else ResultFailed), updated_at := now);
      PersistKeepsSafety(d1, |d.enqueued|, job);
      SameHistories(d, PersistJob(d1, job), job_id);
      AnyRecordKeepsSafety(PersistJob(d1, job), |d.enqueued|, job.job_id, execution_id, now, if succeeded then Completed else RunFailed);
    }
  }

  lemma SameHistories(d: Disk, d': Disk, id: string)
    requires d.runs == d'.runs
    ensures JobHistory(d, id) == JobHistory(d', id)
  {
  }

  /** A completion makes the history forget nothing if and only if it takes no other execution's
      only file: what a caller can check before the call. */
  lemma CompletionRemembersIff(d: Disk, job_id: string, execution_id: string, succeeded: bool, now: int)
    requires job_id in d.jobs && d.jobs[job_id].job_id == job_id
    ensures RemembersAll(d, Complete(d, job_id, execution_id, succeeded, now)) <==> KeepsKnown(d, job_id, execution_id, now)
  {
    hide Canonical, HistoryName, ExecutionExists, KeepsKnown;
    var job := d.jobs[job_id].(last_result := Some(if succeeded then ResultSucceeded else ResultFailed), updated_at := now);
    var d1 := PersistJob(d.(active := RemoveActive(d.active, job_id, execution_id)), job);
    SameRuns(d, d1);
    SameGuard(d, d1, job_id, execution_id, now);
    RecordRemembersIff(d1, job_id, execution_id, now, if succeeded then Completed else RunFailed);
  }

  lemma SameGuard(d: Disk, d': Disk, id: string, execution_id: string, now: int)
    requires d.runs == d'.runs
    ensures KeepsKnown(d, id, execution_id, now) == KeepsKnown(d', id, execution_id, now)
  {
    hide Canonical, HistoryName;
    SameHistories(d, d', id);
  }

  lemma PerformKeepsSafety(zones: Zones, d: Disk, op: Op)
    requires SafetyInv(d, |d.enqueued|) && WellFormedOp(d, op) && LeavesNoOrphan(zones, d, op)
    ensures SafetyInv(Perform(zones, d, op), |Perform(zones, d, op).enqueued|)
  {
    hide SafetyInv, WellFormedId, NextRun, ScheduleErrorOf, Create, Canonical, IsListing, TickJobs, KeepsKnown, StrandsTrigger;
    match op
    case CreateOp(input, nanos, now) => CreateKeepsSafety(zones, d, input, nanos, now); CreateEnqueuesNothing(zones, d, input, nanos, now);
    case TickOp(listing, stamp, now) =>
      StrandsTriggerIff(zones, d, listing, stamp, now);
      TickKeepsSafety(zones, d, listing, stamp, now);
    case CompleteOp(id, e, succeeded, now) => CompleteKeepsSafety(d, id, e, succeeded, now);
    case UpdateOp(id, patch, now) =>
      if id in d.jobs { StoredIdIsWellFormed(d, |d.enqueued|, id); }
      JobChangeKeepsSafety(d, Update(zones, d, id, patch, now));
    case _ =>
      if op.job_id in d.jobs { StoredIdIsWellFormed(d, |d.enqueued|, op.job_id); }
      JobChangeKeepsSafety(d, Perform(zones, d, op));
  }

  lemma CreateEnqueuesNothing(zones: Zones, d: Disk, input: NewJob, nanos: nat, now: int)
    ensures Create(zones, d, input, nanos, now).enqueued == d.enqueued
  {
  }

  ghost predicate WellFormedRun(zones: Zones, ops: seq<Op>) {
    forall i :: 0 <= i < |ops| ==> WellFormedOp(RunOps(zones, ops[..i]), ops[i])
  }

  ghost predicate OrphanFree(zones: Zones, ops: seq<Op>) {
    forall i :: 0 <= i < |ops| ==> LeavesNoOrphan(zones, RunOps(zones, ops[..i]), ops[i])
  }

  /** At-most-once dispatch: over every sequence of operations in which no tick halts right
      after enqueuing a trigger, no execution id is enqueued twice, and the bounded cache
      stays inside the history. */
  lemma {:induction false} AtMostOnceDispatch(zones: Zones, ops: seq<Op>)
    requires WellFormedRun(zones, ops) && OrphanFree(zones, ops)
    ensures NoDuplicates(RunOps(zones, ops).enqueued)
    ensures SafetyInv(RunOps(zones, ops), |RunOps(zones, ops).enqueued|)
  {
    hide Perform, WellFormedOp, LeavesNoOrphan, RecentInv, HistoryInv, JobsInv, EnqueuedInv;
    if ops == [] {
      EmptyIsSafe();
    } else {
      var init := ops[..|ops| - 1];
      var d := RunOps(zones, init);
      forall i | 0 <= i < |init| ensures WellFormedOp(RunOps(zones, init[..i]), init[i]) && LeavesNoOrphan(zones, RunOps(zones, init[..i]), init[i]) {
        assert init[..i] == ops[..i];
      }
      AtMostOnceDispatch(zones, init);
      assert ops[..|ops| - 1] == init;
      PerformKeepsSafety(zones, d, ops[|ops| - 1]);
    }
  }

  /** A condition on the jobs alone that a caller can check before each tick: the searches for the
      jobs that are due succeed. */
  lemma AtMostOnceWhenSearchesSucceed(zones: Zones, ops: seq<Op>)
    requires WellFormedRun(zones, ops)
    requires forall i :: 0 <= i < |ops| && ops[i].TickOp? ==> SearchesSucceed(zones, ops[i].listing, ops[i].now)
    ensures NoDuplicates(RunOps(zones, ops).enqueued)
  {
    hide WellFormedRun, NoDuplicates, SafetyInv, SearchesSucceed, StrandsTrigger;
    forall i | 0 <= i < |ops| ensures LeavesNoOrphan(zones, RunOps(zones, ops[..i]), ops[i]) {
      if ops[i].TickOp? { WholeTickLeavesNoOrphan(zones, RunOps(zones, ops[..i]), ops[i].listing, ops[i].stamp, ops[i].now); }
    }
    AtMostOnceDispatch(zones, ops);
  }

  lemma EmptyIsSafe()
    ensures SafetyInv(EMPTY_DISK, 0)
  {
  }
}
