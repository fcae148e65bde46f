/** One scheduler tick and the completion of an execution, as functions of the disk
    (src/orchestration/scheduler.rs). */
module Tick {
  import opened Prelude
  import opened Cron
  import opened Schedule
  import opened JobStore

  const RECENT_LIMIT: nat := 2048
  const STALE_SECONDS: int := 86_400

  /** What became of one job, or of a whole tick. A tick halts when a next run cannot be
      computed; `orphan` is the trigger it had already enqueued for that job, if any. */
  datatype Outcome = Done(d: Disk) | Halted(d: Disk, error: ScheduleError, orphan: Option<Dispatch>)

  function Trim(ids: seq<string>): seq<string> {
    if |ids| > RECENT_LIMIT then ids[|ids| - RECENT_LIMIT..] else ids
  }

  predicate IsFresh(a: Active, now: int) { now - a.started_at <= STALE_SECONDS }

  function RetainFresh(active: seq<Active>, now: int): seq<Active> {
    if active == [] then []
    else
      var init := RetainFresh(active[..|active| - 1], now);
      var last := active[|active| - 1];
      if IsFresh(last, now) then init + [last] else init
  }

  predicate HasActive(active: seq<Active>, job_id: string) {
    exists i :: 0 <= i < |active| && active[i].job_id == job_id
  }

  predicate IsDue(job: Job, now: int) {
    job.state.Enabled? && job.next_run_at.Some? && job.next_run_at.value <= now
  }

  predicate IsMissed(job: Job, now: int)
    requires job.next_run_at.Some?
  {
    job.next_run_at.value < now && job.misfire.SkipMissed?
  }

  ghost function SkipMissedJob(zones: Zones, d: Disk, job: Job, nanos: nat, now: int): Outcome {
    match RecoveryNextRun(zones, job.schedule, now)
    case Err(e) => Halted(d, e, None)
    case Ok(next) =>
      var job1 := job.(next_run_at := next, state := if next.None? then Disabled else job.state,
                       updated_at := now, last_result := Some(ResultSkippedMissed));
      Done(PersistRecord(PersistJob(d, job1), job.job_id, SkipId(nanos), now, SkippedMissed))
  }

  function Enqueue(d: Disk, x: Dispatch): Disk { d.(enqueued := d.enqueued + [x]) }

  /** The next run after dispatching the run due at `due`. */
  ghost function NextAfterDispatch(zones: Zones, job: Job, due: int, now: int): Result<Option<int>, ScheduleError> {
    if due < now && job.misfire.FireOnceOnRecovery? then RecoveryNextRun(zones, job.schedule, now)
    else NextRun(zones, job.schedule, now, Some(due))
  }

  function DispatchedJob(job: Job, next: Option<int>, now: int): Job {
    job.(last_run_at := Some(now), next_run_at := next, updated_at := now,
         state := if next.None? then Disabled else job.state,
         last_result := Some(if next.None? then ResultCompleted else ResultDispatched))
  }

  function RecordDispatch(d: Disk, job: Job, x: Dispatch): Disk {
    var d1 := PersistRecord(PersistJob(d, job), x.job_id, x.execution_id, x.triggered_at, Dispatched);
    d1.(recent := Trim(d1.recent + [x.execution_id]),
        active := d1.active + [Active(x.job_id, x.execution_id, x.triggered_at)])
  }

  function DispatchFor(job: Job, now: int): Dispatch
    requires job.next_run_at.Some?
  {
    Dispatch(job.job_id, ExecutionId(job.job_id, job.next_run_at.value), job.next_run_at.value, now)
  }

  ghost function DispatchJob(zones: Zones, d: Disk, job: Job, now: int): Outcome
    requires job.next_run_at.Some?
  {
    var x := DispatchFor(job, now);
    match NextAfterDispatch(zones, job, x.scheduled, now)
    case Err(e) => Halted(Enqueue(d, x), e, Some(x))
    case Ok(next) => Done(RecordDispatch(Enqueue(d, x), DispatchedJob(job, next, now), x))
  }

  predicate IsKnown(d: Disk, job_id: string, execution_id: string) {
    execution_id in d.recent || ExecutionExists(d, job_id, execution_id)
  }

  /** The job's turn comes to enqueuing a trigger: it is due, not to be skipped, not held back
      by an active execution, and its run is not known yet. */
  predicate Dispatchable(d: Disk, job: Job, now: int) {
    && IsDue(job, now) && !IsMissed(job, now) && (job.allow_overlap || !HasActive(d.active, job.job_id))
    && !IsKnown(d, job.job_id, ExecutionId(job.job_id, job.next_run_at.value))
  }

  /** The job's turn enqueues a trigger and then finds no next run. */
  ghost predicate Strands(zones: Zones, d: Disk, job: Job, now: int) {
    Dispatchable(d, job, now) && NextAfterDispatch(zones, job, job.next_run_at.value, now).Err?
  }

  /** The job's turn makes the tick fail. */
  ghost predicate Halts(zones: Zones, d: Disk, job: Job, now: int) {
    Strands(zones, d, job, now) || (IsDue(job, now) && IsMissed(job, now) && RecoveryNextRun(zones, job.schedule, now).Err?)
  }

  ghost function TickJob(zones: Zones, d: Disk, job: Job, nanos: nat, now: int): Outcome {
    if !IsDue(job, now) then Done(d)
    else if IsMissed(job, now) then SkipMissedJob(zones, d, job, nanos, now)
    else if !job.allow_overlap && HasActive(d.active, job.job_id) then Done(d)
    else
      var x := DispatchFor(job, now);
      if IsKnown(d, x.job_id, x.execution_id)
      then Done(PersistRecord(d, x.job_id, x.execution_id, now, SkippedDuplicate))
      else DispatchJob(zones, d, job, now)
  }

  /** The jobs as `list_all` read them, in some order. */
  ghost predicate IsListing(d: Disk, listing: seq<Job>) {
    && (forall i, j :: 0 <= i < j < |listing| ==> listing[i].job_id != listing[j].job_id)
    && (forall i :: 0 <= i < |listing| ==> listing[i].job_id in d.jobs && d.jobs[listing[i].job_id] == listing[i])
    && (forall id <- d.jobs :: exists i :: 0 <= i < |listing| && listing[i].job_id == id)
  }

  ghost function TickJobs(zones: Zones, d: Disk, listing: seq<Job>, nanos: string -> nat, now: int): Outcome {
    if listing == [] then Done(d)
    else
      match TickJobs(zones, d, listing[..|listing| - 1], nanos, now)
      case Halted(d1, e, orphan) => Halted(d1, e, orphan)
      case Done(d1) =>
        var job := listing[|listing| - 1];
        TickJob(zones, d1, job, nanos(job.job_id), now)
  }

  /** The scheduler state is saved only by a tick that reaches its end. */
  ghost function TickAll(zones: Zones, d: Disk, listing: seq<Job>, nanos: string -> nat, now: int): Outcome {
    match TickJobs(zones, d.(active := RetainFresh(d.active, now)), listing, nanos, now)
    case Done(d1) => Done(d1.(last_tick_at := Some(now)))
    case Halted(d1, e, orphan) => Halted(d1.(recent := d.recent, active := d.active), e, orphan)
  }

  function RemoveActive(active: seq<Active>, job_id: string, execution_id: string): seq<Active> {
    if active == [] then []
    else
      var init := RemoveActive(active[..|active| - 1], job_id, execution_id);
      var last := active[|active| - 1];
      if last.job_id == job_id && last.execution_id == execution_id then init else init + [last]
  }

  function Complete(d: Disk, job_id: string, execution_id: string, succeeded: bool, now: int): Disk {
    var d1 := d.(active := RemoveActive(d.active, job_id, execution_id));
    if job_id !in d.jobs then d1
    else
      var job := d.jobs[job_id].(last_result := Some(if succeeded then ResultSucceeded else ResultFailed), updated_at := now);
      PersistRecord(PersistJob(d1, job), job.job_id, execution_id, now, if succeeded then Completed else RunFailed)
  }

  // ----- whole runs ---------------------------------------------------------------------

  datatype Op =
    | CreateOp(input: NewJob, nanos: nat, now: int)
    | UpdateOp(job_id: string, patch: JobPatch, now: int)
    | PauseOp(job_id: string, now: int)
    | ResumeOp(job_id: string, now: int)
    | DeleteOp(job_id: string, now: int)
    | RunNowOp(job_id: string, now: int)
    | TickOp(listing: seq<Job>, stamp: string -> nat, now: int)
    | CompleteOp(job_id: string, execution_id: string, succeeded: bool, now: int)

  ghost function Perform(zones: Zones, d: Disk, op: Op): Disk {
    match op
    case CreateOp(input, nanos, now) => Create(zones, d, input, nanos, now)
    case UpdateOp(id, patch, now) => Update(zones, d, id, patch, now)
    case PauseOp(id, now) => Transition(d, id, Paused, now)
    case ResumeOp(id, now) => Transition(d, id, Enabled, now)
    case DeleteOp(id, now) => Transition(d, id, Deleted, now)
    case RunNowOp(id, now) => RunNow(d, id, now)
    case TickOp(listing, stamp, now) => TickAll(zones, d, listing, stamp, now).d
    case CompleteOp(id, e, succeeded, now) => Complete(d, id, e, succeeded, now)
  }

  /** The history file that an outcome of `execution_id` goes to at `now` is new, or already that
      execution's, or no id the scheduler makes, or its execution has another file. */
  predicate KeepsKnown(d: Disk, job_id: string, execution_id: string, now: int) {
    var name := HistoryName(now, execution_id);
    name in JobHistory(d, job_id) && Canonical(JobHistory(d, job_id)[name].execution_id) ==>
      var known := JobHistory(d, job_id)[name].execution_id;
      known == execution_id
      || exists other :: other in JobHistory(d, job_id) && other != name && JobHistory(d, job_id)[other].execution_id == known
  }

  /** What the operations take for granted: ticks list the jobs on disk; completions overwrite no
      other execution's only history file. */
  ghost predicate WellFormedOp(d: Disk, op: Op) {
    match op
    case TickOp(listing, _, _) => IsListing(d, listing)
    case CompleteOp(id, e, _, now) => id in d.jobs ==> KeepsKnown(d, id, e, now)
    case _ => true
  }

  ghost function RunOps(zones: Zones, ops: seq<Op>): Disk {
    if ops == [] then EMPTY_DISK
    else Perform(zones, RunOps(zones, ops[..|ops| - 1]), ops[|ops| - 1])
  }

  /** The state in which a tick reaches the job at `p`. */
  ghost function ReachedAt(zones: Zones, d: Disk, listing: seq<Job>, p: nat, stamp: string -> nat, now: int): Outcome
    requires p <= |listing|
  {
    TickJobs(zones, d.(active := RetainFresh(d.active, now)), listing[..p], stamp, now)
  }

  /** A job of the listing is reached whose turn enqueues a trigger and then finds no next run. */
  ghost predicate StrandsTrigger(zones: Zones, d: Disk, listing: seq<Job>, stamp: string -> nat, now: int) {
    exists p :: 0 <= p < |listing| && ReachedAt(zones, d, listing, p, stamp, now).Done?
      && Strands(zones, ReachedAt(zones, d, listing, p, stamp, now).d, listing[p], now)
  }

  ghost predicate LeavesNoOrphan(zones: Zones, d: Disk, op: Op) {
    op.TickOp? ==> !StrandsTrigger(zones, d, op.listing, op.stamp, op.now)
  }
}
