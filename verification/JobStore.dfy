/** Scheduled jobs, their run history and the job operations (src/orchestration/scheduler.rs). */
module JobStore {
  import opened Prelude
  import opened Numerals
  import opened Text
  import opened Cron
  import opened Schedule

  datatype JobState = Enabled | Paused | Disabled | Deleted

  datatype MisfirePolicy = FireOnceOnRecovery | SkipMissed

  datatype JobResult = ResultSkippedMissed | ResultDispatched | ResultCompleted | ResultSucceeded | ResultFailed

  datatype Job = Job(
    job_id: string,
    schedule: ScheduleConfig,
    state: JobState,
    misfire: MisfirePolicy,
    next_run_at: Option<int>,
    last_run_at: Option<int>,
    last_result: Option<JobResult>,
    allow_overlap: bool,
    created_at: int,
    updated_at: int)

  datatype RunStatus = Dispatched | SkippedMissed | SkippedDuplicate | Completed | RunFailed

  datatype HistoryRecord = HistoryRecord(execution_id: string, triggered_at: int, status: RunStatus)

  datatype Active = Active(job_id: string, execution_id: string, started_at: int)

  /** A trigger put on the message queue. */
  datatype Dispatch = Dispatch(job_id: string, execution_id: string, scheduled: int, triggered_at: int)

  /** Everything below the runtime root: job files, run history by job and file name, the
      scheduler state, and the triggers enqueued so far. */
  datatype Disk = Disk(
    jobs: map<string, Job>,
    runs: map<string, map<string, HistoryRecord>>,
    recent: seq<string>,
    active: seq<Active>,
    last_tick_at: Option<int>,
    enqueued: seq<Dispatch>)

  const EMPTY_DISK := Disk(map[], map[], [], [], None, [])

  // ----- names --------------------------------------------------------------------------

  function SanitizeChar(c: char): char { if IsAsciiAlphanumeric(c) then c else '-' }

  function SanitizeId(raw: string): string { MapChars(raw, SanitizeChar) }

  /** A sanitised id keeps letters and digits and has a dash for everything else. */
  lemma SanitizedIdIs(raw: string, i: nat)
    requires i < |raw|
    ensures |SanitizeId(raw)| == |raw|
    ensures var c := raw[i]; SanitizeId(raw)[i] == if 'a' <= c <= 'z' || 'A' <= c <= 'Z' || '0' <= c <= '9' then c else '-'
  {
  }

  predicate Canonical(id: string) { forall i :: 0 <= i < |id| ==> id[i] == SanitizeChar(id[i]) }

  lemma SanitizeKeepsCanonical(id: string)
    requires Canonical(id)
    ensures SanitizeId(id) == id
  {
  }

  function NewJobId(orchestrator_id: string, nanos: nat): string {
    "job-" + SanitizeId(orchestrator_id) + "-" + Decimal(nanos)
  }

  /** What `create` makes of any orchestrator id: sanitised, and ending in a digit. */
  predicate WellFormedId(id: string) { Canonical(id) && id != "" && IsDigit(id[|id| - 1]) }

  lemma NewJobIdIsWellFormed(orchestrator_id: string, nanos: nat)
    ensures WellFormedId(NewJobId(orchestrator_id, nanos))
  {
    hide Render, Digits;
    var prefix := "job-" + SanitizeId(orchestrator_id) + "-";
    var digits := Decimal(nanos);
    var id := prefix + digits;
    forall i | 0 <= i < |id| ensures id[i] == SanitizeChar(id[i]) {
      if i < |prefix| { assert id[i] == prefix[i]; } else { assert id[i] == digits[i - |prefix|]; }
    }
    assert id[|id| - 1] == digits[|digits| - 1];
  }

  function ExecutionId(job_id: string, scheduled: int): string {
    "exec-" + SanitizeId(job_id) + "-" + DecimalInt(scheduled)
  }

  function SkipId(nanos: nat): string { "skip-" + Decimal(nanos) }

  function HistoryName(triggered_at: int, execution_id: string): string {
    DecimalInt(triggered_at) + "-" + SanitizeId(execution_id) + ".json"
  }

  lemma CanonicalConcat(a: string, b: string)
    ensures Canonical(a + b) <==> Canonical(a) && Canonical(b)
  {
    var s := a + b;
    assert forall i :: 0 <= i < |a| ==> s[i] == a[i];
    assert forall i :: 0 <= i < |b| ==> s[|a| + i] == b[i];
  }

  lemma CanonicalDecimal(n: int)
    ensures Canonical(DecimalInt(n))
  {
    hide Render, Digits;
    var m := if n < 0 then -n else n;
    assert AllDigits(Decimal(m));
    if n < 0 { CanonicalConcat("-", Decimal(m)); }
  }

  lemma ExecutionIdIsCanonical(job_id: string, scheduled: int)
    ensures Canonical(ExecutionId(job_id, scheduled))
  {
    hide DecimalInt;
    CanonicalDecimal(scheduled);
    CanonicalConcat("exec-", SanitizeId(job_id));
    CanonicalConcat("exec-" + SanitizeId(job_id), "-");
    CanonicalConcat("exec-" + SanitizeId(job_id) + "-", DecimalInt(scheduled));
  }

  lemma SkipIdIsCanonical(nanos: nat)
    ensures Canonical(SkipId(nanos))
  {
    hide Decimal;
    CanonicalDecimal(nanos);
    CanonicalConcat("skip-", Decimal(nanos));
  }

  lemma NoDashInDecimal(n: nat)
    ensures '-' !in Decimal(n)
  {
    hide Decimal;
    var s := Decimal(n);
    assert forall i :: 0 <= i < |s| ==> IsDigit(s[i]);
  }

  /** Where the last dash of an execution id falls tells the sign and the job id apart. */
  lemma LastDash(id: string, t: int)
    ensures LastIndexOf(id + "-" + DecimalInt(t), '-') == Some(if t < 0 then |id| + 1 else |id|)
  {
    hide Decimal, LastIndexOf;
    if t < 0 {
      NoDashInDecimal(-t);
      assert id + "-" + DecimalInt(t) == (id + "-") + ['-'] + Decimal(-t);
      LastIndexOfAt(id + "-", '-', Decimal(-t));
    } else {
      NoDashInDecimal(t);
      LastIndexOfAt(id, '-', Decimal(t));
    }
  }

  /** The last dash follows another one exactly when the time is negative. */
  lemma DashBeforeSign(id: string, t: int, text: string)
    requires id != "" && id[|id| - 1] != '-' && text == id + "-" + DecimalInt(t)
    ensures var p := LastIndexOf(text, '-');
            p.Some? && p.value > 0 && |id| == (if text[p.value - 1] == '-' then p.value - 1 else p.value)
  {
    hide DecimalInt, LastIndexOf;
    LastDash(id, t);
    assert text[|id| - 1] == id[|id| - 1] && text[|id|] == '-';
  }

  /** Two jobs never share an execution id, and one job never reuses one for another time. */
  lemma ExecutionIdInjective(a: string, s: int, b: string, t: int)
    requires WellFormedId(a) && WellFormedId(b)
    requires ExecutionId(a, s) == ExecutionId(b, t)
    ensures a == b && s == t
  {
    hide DecimalInt, LastIndexOf, SanitizeId;
    SanitizeKeepsCanonical(a);
    SanitizeKeepsCanonical(b);
    var x, y := a + "-" + DecimalInt(s), b + "-" + DecimalInt(t);
    assert x == ExecutionId(a, s)[5..] == ExecutionId(b, t)[5..] == y;
    DashBeforeSign(a, s, x);
    DashBeforeSign(b, t, y);
    assert a == x[..|a|] && b == y[..|b|];
    assert DecimalInt(s) == x[|a| + 1..] && DecimalInt(t) == y[|b| + 1..];
    DecimalIntInjective(s, t);
  }

  /** A history file name without its sign. */
  lemma HistoryNameTail(t: int, e: string)
    requires Canonical(e)
    ensures HistoryName(t, e) != "" && (HistoryName(t, e)[0] == '-' <==> t < 0)
    ensures HistoryName(t, e)[if t < 0 then 1 else 0..] == Decimal(if t < 0 then -t else t) + ['-'] + (e + ".json")
  {
    hide Decimal;
    SanitizeKeepsCanonical(e);
    DecimalIntSign(t);
    assert HistoryName(t, e)[0] == DecimalInt(t)[0];
  }

  /** History files of different canonical execution ids never overwrite each other. */
  lemma HistoryNameInjective(s: int, e: string, t: int, f: string)
    requires Canonical(e) && Canonical(f) && HistoryName(s, e) == HistoryName(t, f)
    ensures e == f
  {
    hide Decimal, HistoryName, Canonical;
    HistoryNameTail(s, e);
    HistoryNameTail(t, f);
    var m, n := if s < 0 then -s else s, if t < 0 then -t else t;
    NoDashInDecimal(m);
    NoDashInDecimal(n);
    SameSplitPoint(Decimal(m), e + ".json", Decimal(n), f + ".json", '-');
    assert e == (e + ".json")[..|e + ".json"| - 5];
    assert f == (f + ".json")[..|f + ".json"| - 5];
  }

  // ----- job operations -----------------------------------------------------------------

  datatype NewJob = NewJob(orchestrator_id: string, schedule: ScheduleConfig, misfire: MisfirePolicy, allow_overlap: bool)

  datatype JobPatch = JobPatch(schedule: Option<ScheduleConfig>, misfire: Option<MisfirePolicy>, allow_overlap: Option<bool>)

  predicate IsBlank(s: string) { forall i :: 0 <= i < |s| ==> IsWhitespace(s[i]) }

  predicate ValidTransition(from: JobState, to: JobState) {
    match from
    case Enabled => to.Paused? || to.Disabled? || to.Deleted?
    case Paused => to.Enabled? || to.Disabled? || to.Deleted?
    case Disabled => to.Enabled? || to.Deleted?
    case Deleted => false
  }

  function PersistJob(d: Disk, job: Job): Disk {
    d.(jobs := d.jobs[job.job_id := job])
  }

  function JobHistory(d: Disk, job_id: string): map<string, HistoryRecord> {
    if job_id in d.runs then d.runs[job_id] else map[]
  }

  function PersistRecord(d: Disk, job_id: string, execution_id: string, triggered_at: int, status: RunStatus): Disk {
    var record := HistoryRecord(execution_id, triggered_at, status);
    d.(runs := d.runs[job_id := JobHistory(d, job_id)[HistoryName(triggered_at, execution_id) := record]])
  }

  /** `execution_exists`: some history file of the job carries the id. */
  predicate ExecutionExists(d: Disk, job_id: string, execution_id: string) {
    exists name :: name in JobHistory(d, job_id) && JobHistory(d, job_id)[name].execution_id == execution_id
  }

  ghost function Create(zones: Zones, d: Disk, input: NewJob, nanos: nat, now: int): Disk {
    if ScheduleErrorOf(zones, input.schedule).Some? || IsBlank(input.orchestrator_id) then d
    else
      match NextRun(zones, input.schedule, now, None)
      case Err(_) => d
      case Ok(next) =>
        PersistJob(d, Job(NewJobId(input.orchestrator_id, nanos), input.schedule, Enabled, input.misfire, next,
                          None, None, input.allow_overlap, now, now))
  }

  ghost function Update(zones: Zones, d: Disk, job_id: string, patch: JobPatch, now: int): Disk {
    if job_id !in d.jobs || d.jobs[job_id].state.Deleted? then d
    else
      var job := d.jobs[job_id];
      var rescheduled: Result<Job, ScheduleError> :=
        match patch.schedule
        case None => Ok(job)
        case Some(schedule) =>
          (match ScheduleErrorOf(zones, schedule)
           case Some(e) => Err(e)
           case None =>
             match NextRun(zones, schedule, now, job.last_run_at)
             case Err(e) => Err(e)
             case Ok(next) => Ok(job.(schedule := schedule, next_run_at := next)));
      match rescheduled
      case Err(_) => d
      case Ok(job1) =>
        PersistJob(d, job1.(misfire := patch.misfire.GetOr(job1.misfire),
                            allow_overlap := patch.allow_overlap.GetOr(job1.allow_overlap), updated_at := now))
  }

  function Transition(d: Disk, job_id: string, to: JobState, now: int): Disk {
    if job_id !in d.jobs || !ValidTransition(d.jobs[job_id].state, to) then d
    else PersistJob(d, d.jobs[job_id].(state := to, updated_at := now))
  }

  function RunNow(d: Disk, job_id: string, now: int): Disk {
    if job_id !in d.jobs || !d.jobs[job_id].state.Enabled? then d
    else PersistJob(d, d.jobs[job_id].(next_run_at := Some(now), updated_at := now))
  }
}
