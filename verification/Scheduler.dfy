/** The scheduler worker as the repository writes it: files as fields, one loop over the
    listed jobs, working copies of the cache and the active list saved only at the end. */
module Scheduler {
  import opened Prelude
  import opened Positions
  import opened Numerals
  import opened Cron
  import opened Schedule
  import opened JobStore
  import opened Tick
  import opened TickSafety
  import opened TickStores
  import opened TickMeaning

  class SchedulerWorker {
    const zones: Zones
    var jobs: map<string, Job>
    var runs: map<string, map<string, HistoryRecord>>
    var savedRecent: seq<string>
    var savedActive: seq<Active>
    var lastTickAt: Option<int>
    var enqueued: seq<Dispatch>

    constructor (zones: Zones)
      ensures Contents() == EMPTY_DISK && this.zones == zones
    {
      this.zones := zones;
      jobs, runs, savedRecent, savedActive, lastTickAt, enqueued := map[], map[], [], [], None, [];
    }

    ghost function Contents(): Disk
      reads this
    {
      Disk(jobs, runs, savedRecent, savedActive, lastTickAt, enqueued)
    }

    /** The disk as it would be if the working copies were saved now. */
    ghost function Working(recent: seq<string>, active: seq<Active>): Disk
      reads this
    {
      Disk(jobs, runs, recent, active, lastTickAt, enqueued)
    }

    method CreateJob(input: NewJob, nanos: nat, now: int) returns (r: Result<Job, Option<ScheduleError>>)
      modifies this`jobs
      ensures Contents() == Create(zones, old(Contents()), input, nanos, now)
      ensures r.Err? ==> Contents() == old(Contents())
      ensures r.Ok? <==> Accepted(zones, input.schedule) && !IsBlank(input.orchestrator_id) && NextRun(zones, input.schedule, now, None).Ok?
      ensures r.Ok? ==>
                && r.value == Job("job-" + SanitizeId(input.orchestrator_id) + "-" + Decimal(nanos), input.schedule, Enabled,
                                  input.misfire, NextRun(zones, input.schedule, now, None).value, None, None, input.allow_overlap, now, now)
                && jobs == old(jobs)[r.value.job_id := r.value]
    {
      hide ExpressionOf, NextRun, Decimal;
      var invalid := CheckSchedule(input.schedule);
      if invalid.Some? {
        return Err(invalid);
      }
      if IsBlank(input.orchestrator_id) {
        return Err(None);
      }
      var next := ComputeNextRunAt(zones, input.schedule, now, None);
      if next.Err? {
        return Err(Some(next.error));
      }
      var job := Job(NewJobId(input.orchestrator_id, nanos), input.schedule, Enabled, input.misfire, next.value,
                     None, None, input.allow_overlap, now, now);
      jobs := jobs[job.job_id := job];
      r := Ok(job);
    }

    method CheckSchedule(schedule: ScheduleConfig) returns (error: Option<ScheduleError>)
      ensures error == ScheduleErrorOf(zones, schedule)
      ensures error.None? <==> Accepted(zones, schedule)
    {
      var parsed := Err(FieldCount);
      if schedule.CronSchedule? {
        parsed := ParseCronExpression(schedule.expression);
      }
      error := ValidateSchedule(zones, schedule, parsed);
    }

    method UpdateJob(job_id: string, patch: JobPatch, now: int) returns (ok: bool)
      modifies this`jobs
      ensures Contents() == Update(zones, old(Contents()), job_id, patch, now)
      ensures !ok ==> Contents() == old(Contents())
      ensures ok <==> && job_id in old(jobs) && !old(jobs)[job_id].state.Deleted?
                      && (patch.schedule.Some? ==>
                            && Accepted(zones, patch.schedule.value)
                            && NextRun(zones, patch.schedule.value, now, old(jobs)[job_id].last_run_at).Ok?)
      ensures ok ==>
                var j := old(jobs)[job_id];
                var next := if patch.schedule.Some? then NextRun(zones, patch.schedule.value, now, j.last_run_at).value else j.next_run_at;
                jobs == old(jobs)[j.job_id := Job(j.job_id, patch.schedule.GetOr(j.schedule), j.state, patch.misfire.GetOr(j.misfire), next,
                                                  j.last_run_at, j.last_result, patch.allow_overlap.GetOr(j.allow_overlap), j.created_at, now)]
    {
      hide NextRun, ScheduleErrorOf, Accepted;
      if job_id !in jobs || jobs[job_id].state.Deleted? {
        return false;
      }
      var job := jobs[job_id];
      if patch.schedule.Some? {
        var invalid := CheckSchedule(patch.schedule.value);
        if invalid.Some? {
          return false;
        }
        var next := ComputeNextRunAt(zones, patch.schedule.value, now, job.last_run_at);
        if next.Err? {
          return false;
        }
        job := job.(schedule := patch.schedule.value, next_run_at := next.value);
      }
      if patch.misfire.Some? {
        job := job.(misfire := patch.misfire.value);
      }
      if patch.allow_overlap.Some? {
        job := job.(allow_overlap := patch.allow_overlap.value);
      }
      job := job.(updated_at := now);
      jobs := jobs[job.job_id := job];
      ok := true;
    }

    method TransitionState(job_id: string, to: JobState, now: int) returns (ok: bool)
      modifies this`jobs
      ensures Contents() == Transition(old(Contents()), job_id, to, now)
      ensures ok <==> job_id in old(jobs) && (old(jobs)[job_id].state, to) in {
                (Enabled, Paused), (Enabled, Disabled), (Enabled, Deleted), (Paused, Enabled), (Paused, Disabled), (Paused, Deleted),
                (Disabled, Enabled), (Disabled, Deleted)}
      ensures jobs == if ok then var j := old(jobs)[job_id]; old(jobs)[j.job_id := j.(state := to, updated_at := now)] else old(jobs)
    {
      ok := job_id in jobs && ValidTransition(jobs[job_id].state, to);
      if ok {
        var job := jobs[job_id].(state := to, updated_at := now);
        jobs := jobs[job.job_id := job];
      }
    }

    method RunJobNow(job_id: string, now: int) returns (ok: bool)
      modifies this`jobs
      ensures Contents() == RunNow(old(Contents()), job_id, now)
      ensures ok <==> job_id in old(jobs) && old(jobs)[job_id].state == Enabled
      ensures jobs == if ok then var j := old(jobs)[job_id]; old(jobs)[j.job_id := j.(next_run_at := Some(now), updated_at := now)] else old(jobs)
    {
      ok := job_id in jobs && jobs[job_id].state.Enabled?;
      if ok {
        var job := jobs[job_id].(next_run_at := Some(now), updated_at := now);
        jobs := jobs[job.job_id := job];
      }
    }

    method PersistRunRecord(job_id: string, execution_id: string, triggered_at: int, status: RunStatus)
      modifies this`runs
      ensures Contents() == PersistRecord(old(Contents()), job_id, execution_id, triggered_at, status)
    {
      var dir := if job_id in runs then runs[job_id] else map[];
      var record := HistoryRecord(execution_id, triggered_at, status);
      runs := runs[job_id := dir[HistoryName(triggered_at, execution_id) := record]];
    }

    /** `execution_exists`: reads every history file of the job. */
    method FindExecution(job_id: string, execution_id: string) returns (found: bool)
      ensures found <==> ExecutionExists(Contents(), job_id, execution_id)
    {
      var dir := if job_id in runs then runs[job_id] else map[];
      var names := dir.Keys;
      while names != {}
        invariant names <= dir.Keys
        invariant forall name <- dir :: name in names || dir[name].execution_id != execution_id
        decreases names
      {
        var name :| name in names;
        if dir[name].execution_id == execution_id {
          assert name in JobHistory(Contents(), job_id);
          return true;
        }
        names := names - {name};
      }
      found := false;
    }

    method RecoverStaleActiveExecutions(active: seq<Active>, now: int) returns (retained: seq<Active>)
      ensures retained == RetainFresh(active, now)
      ensures Selects(active, FreshOnes(active, now), retained)
    {
      FreshAreSelected(active, now);
      retained := [];
      for i := 0 to |active|
        invariant retained == RetainFresh(active[..i], now)
      {
        assert active[..i + 1][..i] == active[..i];
        if now - active[i].started_at <= STALE_SECONDS {
          retained := retained + [active[i]];
        }
      }
      assert active[..|active|] == active;
    }

    method ListAll() returns (listing: seq<Job>)
      requires forall id <- jobs :: jobs[id].job_id == id
      ensures IsListing(Contents(), listing)
    {
      listing := [];
      var ids := jobs.Keys;
      while ids != {}
        invariant ids <= jobs.Keys
        invariant forall i :: 0 <= i < |listing| ==> listing[i].job_id in jobs.Keys - ids && jobs[listing[i].job_id] == listing[i]
        invariant forall i, j :: 0 <= i < j < |listing| ==> listing[i].job_id != listing[j].job_id
        invariant forall id <- jobs :: id in ids || exists i :: 0 <= i < |listing| && listing[i].job_id == id
        decreases ids
      {
        var id :| id in ids;
        ghost var before := listing;
        listing := listing + [jobs[id]];
        ids := ids - {id};
        forall other | other in jobs ensures other in ids || exists i :: 0 <= i < |listing| && listing[i].job_id == other {
          if other == id {
            assert listing[|before|].job_id == id;
          } else if other !in ids {
            var i :| 0 <= i < |before| && before[i].job_id == other;
            assert listing[i].job_id == other;
          }
        }
      }
    }

    method SkipMissedRun(job0: Job, nanos: nat, now: int, ghost recent: seq<string>, ghost active: seq<Active>)
      returns (error: Option<ScheduleError>)
      modifies this`jobs, this`runs
      ensures match SkipMissedJob(zones, old(Working(recent, active)), job0, nanos, now)
              case Done(d) => error.None? && Working(recent, active) == d
              case Halted(d, e, _) => error == Some(e) && Working(recent, active) == d
    {
      hide NextRun;
      var job := job0;
      var next := ComputeRecoveryNextRunAt(zones, job.schedule, now);
      if next.Err? {
        return Some(next.error);
      }
      job := job.(next_run_at := next.value);
      if job.next_run_at.None? {
        job := job.(state := Disabled);
      }
      job := job.(updated_at := now, last_result := Some(ResultSkippedMissed));
      jobs := jobs[job.job_id := job];
      PersistRunRecord(job.job_id, SkipId(nanos), now, SkippedMissed);
      error := None;
    }

    method DispatchRun(job0: Job, now: int, recent0: seq<string>, active0: seq<Active>)
      returns (recent: seq<string>, active: seq<Active>, error: Option<ScheduleError>)
      requires job0.next_run_at.Some?
      modifies this`jobs, this`runs, this`enqueued
      ensures match DispatchJob(zones, old(Working(recent0, active0)), job0, now)
              case Done(d) => error.None? && Working(recent, active) == d
              case Halted(d, e, _) => error == Some(e) && Working(recent, active) == d
    {
      hide NextRun, RecoveryNextRun, ExecutionId, HistoryName;
      recent, active, error := recent0, active0, None;
      var job := job0;
      var due := job.next_run_at.value;
      var executionId := ExecutionId(job.job_id, due);
      enqueued := enqueued + [Dispatch(job.job_id, executionId, due, now)];
      job := job.(last_run_at := Some(now), last_result := Some(ResultDispatched));
      var next;
      if due < now && job.misfire.FireOnceOnRecovery? {
        next := ComputeRecoveryNextRunAt(zones, job.schedule, now);
      } else {
        next := ComputeNextRunAt(zones, job.schedule, now, Some(due));
      }
      if next.Err? {
        error := Some(next.error);
        return;
      }
      job := job.(next_run_at := next.value);
      if job.next_run_at.None? {
        job := job.(state := Disabled, last_result := Some(ResultCompleted));
      }
      job := job.(updated_at := now);
      jobs := jobs[job.job_id := job];
      PersistRunRecord(job.job_id, executionId, now, Dispatched);
      recent := recent + [executionId];
      if |recent| > RECENT_LIMIT {
        recent := recent[|recent| - RECENT_LIMIT..];
      }
      active := active + [Active(job.job_id, executionId, now)];
    }

    /** The loop body of `tick`. */
    method TickOneJob(job: Job, nanos: nat, now: int, recent0: seq<string>, active0: seq<Active>)
      returns (recent: seq<string>, active: seq<Active>, error: Option<ScheduleError>)
      modifies this`jobs, this`runs, this`enqueued
      ensures match TickJob(zones, old(Working(recent0, active0)), job, nanos, now)
              case Done(d) => error.None? && Working(recent, active) == d
              case Halted(d, e, _) => error == Some(e) && Working(recent, active) == d
    {
      hide SkipMissedJob, DispatchJob, ExecutionId, HistoryName;
      recent, active, error := recent0, active0, None;
      if !job.state.Enabled? || job.next_run_at.None? || job.next_run_at.value > now {
        return;
      }
      var due := job.next_run_at.value;
      if due < now && job.misfire.SkipMissed? {
        error := SkipMissedRun(job, nanos, now, recent, active);
        return;
      }
      if !job.allow_overlap && exists i :: 0 <= i < |active| && active[i].job_id == job.job_id {
        return;
      }
      var executionId := ExecutionId(job.job_id, due);
      var known := executionId in recent;
      if !known {
        known := FindExecution(job.job_id, executionId);
        assert ExecutionExists(Contents(), job.job_id, executionId) == ExecutionExists(Working(recent, active), job.job_id, executionId) by {
          SameRuns(Contents(), Working(recent, active));
        }
      }
      if known {
        PersistRunRecord(job.job_id, executionId, now, SkippedDuplicate);
        return;
      }
      recent, active, error := DispatchRun(job, now, recent, active);
    }

    method TickWorker(stamp: string -> nat, now: int) returns (r: Result<seq<Dispatch>, ScheduleError>, ghost listing: seq<Job>)
      requires forall id <- jobs :: jobs[id].job_id == id
      modifies this
      ensures IsListing(old(Contents()), listing)
      ensures match TickAll(zones, old(Contents()), listing, stamp, now)
              case Done(d) => Contents() == d && old(enqueued) <= d.enqueued && r == Ok(d.enqueued[|old(enqueued)|..])
              case Halted(d, e, _) => Contents() == d && r == Err(e)
      ensures r.Err? && StoreInv(old(Contents())) ==>
                exists p :: FailedAt(zones, old(Contents()), listing, stamp, now, p, r.error, Contents())
      ensures r.Ok? && StoreInv(old(Contents())) ==> Ticked(zones, old(Contents()), listing, stamp, now, Contents())
    {
      hide TickJob, StoreInv, Ticked, FailedAt;
      var base := |enqueued|;
      var recent := savedRecent;
      var active := RecoverStaleActiveExecutions(savedActive, now);
      ghost var d0 := old(Contents()).(active := active);
      var all := ListAll();
      listing := all;
      for i := 0 to |all|
        invariant TickJobs(zones, d0, all[..i], stamp, now) == Done(Working(recent, active))
        invariant old(enqueued) <= enqueued
        invariant savedRecent == old(savedRecent) && savedActive == old(savedActive) && lastTickAt == old(lastTickAt)
      {
        assert all[..i + 1][..i] == all[..i];
        ghost var before := Working(recent, active);
        var error;
        recent, active, error := TickOneJob(all[i], stamp(all[i].job_id), now, recent, active);
        assert before.enqueued <= enqueued by { TickJobAppends(zones, before, all[i], stamp(all[i].job_id), now); }
        if error.Some? {
          HaltedPrefix(zones, d0, all, i + 1, stamp, now);
          if StoreInv(old(Contents())) {
            ghost var p := FailedTickMeans(zones, old(Contents()), all, stamp, now);
          }
          return Err(error.value), all;
        }
      }
      assert all[..|all|] == all;
      lastTickAt := Some(now);
      savedRecent, savedActive := recent, active;
      r := Ok(enqueued[base..]);
      if StoreInv(old(Contents())) { TickMeans(zones, old(Contents()), all, stamp, now); }
    }

    method CompleteExecution(job_id: string, execution_id: string, succeeded: bool, now: int)
      modifies this
      ensures Contents() == Complete(old(Contents()), job_id, execution_id, succeeded, now)
      ensures Selects(old(savedActive), OtherOnes(old(savedActive), job_id, execution_id), savedActive)
      ensures savedRecent == old(savedRecent) && enqueued == old(enqueued) && lastTickAt == old(lastTickAt)
      ensures job_id !in old(jobs) ==> jobs == old(jobs) && runs == old(runs)
      ensures job_id in old(jobs) ==>
                var j := old(jobs)[job_id];
                var file := DecimalInt(now) + "-" + SanitizeId(execution_id) + ".json";
                var before := if j.job_id in old(runs) then old(runs)[j.job_id] else map[];
                && jobs == old(jobs)[j.job_id := j.(last_result := Some(if succeeded then ResultSucceeded else ResultFailed), updated_at := now)]
                && runs == old(runs)[j.job_id := before[file := HistoryRecord(execution_id, now, if succeeded then Completed else RunFailed)]]
    {
      OthersAreSelected(savedActive, job_id, execution_id);
      var retained: seq<Active> := [];
      for i := 0 to |savedActive|
        invariant retained == RemoveActive(savedActive[..i], job_id, execution_id)
        invariant Contents() == old(Contents())
      {
        assert savedActive[..i + 1][..i] == savedActive[..i];
        var a := savedActive[i];
        if !(a.job_id == job_id && a.execution_id == execution_id) {
          retained := retained + [a];
        }
      }
      assert savedActive[..|savedActive|] == savedActive;
      savedActive := retained;
      if job_id in jobs {
        var job := jobs[job_id].(last_result := Some(if succeeded then ResultSucceeded else ResultFailed), updated_at := now);
        jobs := jobs[job.job_id := job];
        PersistRunRecord(job.job_id, execution_id, now, if succeeded then Completed else RunFailed);
      }
    }
  }

  function OtherOnes(active: seq<Active>, job_id: string, execution_id: string): set<nat> {
    set i | 0 <= i < |active| && (active[i].job_id != job_id || active[i].execution_id != execution_id)
  }

  lemma {:induction false} OthersAreSelected(active: seq<Active>, job_id: string, execution_id: string)
    ensures Selects(active, OtherOnes(active, job_id, execution_id), RemoveActive(active, job_id, execution_id))
  {
    hide Selects;
    if active == [] {
      NoPositions(active);
      assert OtherOnes(active, job_id, execution_id) == {};
    } else {
      var init, last := active[..|active| - 1], active[|active| - 1];
      OthersAreSelected(init, job_id, execution_id);
      SelectsNext(init, last, OtherOnes(init, job_id, execution_id), RemoveActive(init, job_id, execution_id));
      assert active == init + [last];
      assert OtherOnes(active, job_id, execution_id)
          == if last.job_id == job_id && last.execution_id == execution_id then OtherOnes(init, job_id, execution_id)
             else OtherOnes(init, job_id, execution_id) + {|init|};
    }
  }

  lemma TickJobAppends(zones: Zones, d: Disk, job: Job, nanos: nat, now: int)
    ensures d.enqueued <= TickJob(zones, d, job, nanos, now).d.enqueued
  {
    hide NextRun, RecoveryNextRun, ExecutionId, ExecutionExists, HistoryName;
  }

  lemma {:induction false} HaltedPrefix(zones: Zones, d: Disk, listing: seq<Job>, n: nat, stamp: string -> nat, now: int)
    requires n <= |listing| && TickJobs(zones, d, listing[..n], stamp, now).Halted?
    ensures TickJobs(zones, d, listing, stamp, now) == TickJobs(zones, d, listing[..n], stamp, now)
  {
    hide TickJob;
    if n == |listing| {
      assert listing[..n] == listing;
    } else {
      var init := listing[..|listing| - 1];
      assert init[..n] == listing[..n];
      HaltedPrefix(zones, d, init, n, stamp, now);
    }
  }
}
