/** Runs of the scheduler from the empty store, in coordinated universal time, that show where
    its guarantees end. */
module TickWitness {
  import opened Prelude
  import opened Numerals
  import opened Cron
  import opened Schedule
  import opened Calendar
  import opened JobStore
  import opened Tick
  import opened TickGuards
  import opened TickSafety
  import opened TickOverlap

  function JobA(): string { NewJobId("main", 1) }
  function JobB(): string { NewJobId("main", 2) }

  const STAMP: string -> nat := _ => 0

  lemma Ids()
    ensures JobA() != JobB() && WellFormedId(JobA()) && WellFormedId(JobB())
  {
    NewJobIdIsWellFormed("main", 1);
    NewJobIdIsWellFormed("main", 2);
    assert Decimal(1) == "1" && Decimal(2) == "2";
    assert JobA()[|JobA()| - 1] == '1' && JobB()[|JobB()| - 1] == '2';
  }

  lemma MainIsNotBlank()
    ensures !IsBlank("main")
  {
    assert !Text.IsWhitespace("main"[0]);
  }

  // ----- one execution id dispatched twice ----------------------------------------------

  const YEARLY := NewJob("main", LeapSchedule(), FireOnceOnRecovery, false)

  /** The job once created, a minute before midnight on 29 February 2096. */
  function Yearly(): Job {
    Job(JobA(), LeapSchedule(), Enabled, FireOnceOnRecovery, Some(LEAP), None, None, false, LEAP - 60, LEAP - 60)
  }

  function WithYearly(): Disk { EMPTY_DISK.(jobs := map[JobA() := Yearly()]) }

  lemma YearlyCreated()
    ensures Create(Utc(), EMPTY_DISK, YEARLY, 1, LEAP - 60) == WithYearly()
    ensures SafetyInv(WithYearly(), 0)
  {
    hide NextRun, NewJobId, SafetyInv, ScheduleErrorOf, IsBlank;
    LeapIsNext();
    MainIsNotBlank();
    EmptyIsSafe();
    CreateKeepsSafety(Utc(), EMPTY_DISK, YEARLY, 1, LEAP - 60);
  }

  lemma OneJobListing(d: Disk, job: Job)
    requires d.jobs == map[job.job_id := job]
    ensures IsListing(d, [job])
  {
    assert [job][0].job_id == job.job_id;
  }

  lemma NoHistory(d: Disk, id: string, e: string)
    requires d.runs == map[]
    ensures !ExecutionExists(d, id, e)
  {
  }

  lemma YearlyStrands(d: Disk)
    requires d == WithYearly() || d == Enqueue(WithYearly(), DispatchFor(Yearly(), LEAP))
    ensures StrandsTrigger(Utc(), d, [Yearly()], STAMP, LEAP)
    ensures TickAll(Utc(), d, [Yearly()], STAMP, LEAP).d == Enqueue(d, DispatchFor(Yearly(), LEAP))
  {
    hide NextRun, NewJobId, ExecutionId;
    LeapIsLast(LEAP, LEAP);
    NoHistory(d, JobA(), ExecutionId(JobA(), LEAP));
    assert [Yearly()][..0] == [];
    assert ReachedAt(Utc(), d, [Yearly()], 0, STAMP, LEAP) == Done(d);
    assert Strands(Utc(), d, Yearly(), LEAP);
    OneTurn(Utc(), d, Yearly(), LEAP);
  }

  lemma OneTurn(zones: Zones, d: Disk, job: Job, now: int)
    requires d.active == [] && Strands(zones, d, job, now)
    ensures TickAll(zones, d, [job], STAMP, now).d == Enqueue(d, DispatchFor(job, now))
  {
    hide NextRun, RecoveryNextRun, ExecutionId, ExecutionExists;
    assert [job][..0] == [];
    assert d.(active := RetainFresh(d.active, now)) == d;
    assert TickJobs(zones, d, [job][..0], STAMP, now) == Done(d);
    assert TickJobs(zones, d, [job], STAMP, now) == TickJob(zones, d, job, STAMP(job.job_id), now);
  }

  /** At-most-once dispatch fails on a real calendar: a job for 29 February, created and ticked
      at midnight of 29 February 2096, ticked again. */
  lemma AtMostOnceCanFail()
    ensures exists ops :: WellFormedRun(Utc(), ops) && !NoDuplicates(RunOps(Utc(), ops).enqueued)
  {
    hide TickAll, SafetyInv, NewJobId, Create, Enqueue, IsListing, StrandsTrigger, ExecutionId;
    var create, tick := CreateOp(YEARLY, 1, LEAP - 60), TickOp([Yearly()], STAMP, LEAP);
    var ops := [create, tick, tick];
    var d1 := WithYearly();
    var x := DispatchFor(Yearly(), LEAP);
    YearlyCreated();
    YearlyStrands(d1);
    YearlyStrands(Enqueue(d1, x));
    assert ops[..0] == [] && ops[..1] == [create] && ops[..2] == [create, tick];
    assert [create][..0] == [] && [create, tick][..1] == [create];
    assert RunOps(Utc(), ops[..1]) == d1;
    assert RunOps(Utc(), ops[..2]) == Enqueue(d1, x);
    assert RunOps(Utc(), ops) == Enqueue(Enqueue(d1, x), x);
    EnqueuedTwice(d1, x);
    OneJobListing(d1, Yearly());
    OneJobListing(Enqueue(d1, x), Yearly());
    forall i | 0 <= i < |ops| ensures WellFormedOp(RunOps(Utc(), ops[..i]), ops[i]) {
      assert i == 0 || i == 1 || i == 2;
    }
    assert WellFormedRun(Utc(), ops);
  }

  lemma EnqueuedTwice(d: Disk, x: Dispatch)
    ensures Enqueue(d, x).jobs == d.jobs && !NoDuplicates(Enqueue(Enqueue(d, x), x).enqueued)
  {
    var e := Enqueue(Enqueue(d, x), x).enqueued;
    assert e[|e| - 2].execution_id == e[|e| - 1].execution_id;
  }

  // ----- a tick that forgets, and a completion that makes it forget more ---------------

  const EVERY_TWO_MINUTES := NewJob("main", Interval(120, None), FireOnceOnRecovery, false)
  const SKIPPING := NewJob("main", LeapSchedule(), SkipMissed, false)

  /** A minute past that midnight. */
  const PAST: int := LEAP + 60

  function FirstA(): Job {
    Job(JobA(), Interval(120, None), Enabled, FireOnceOnRecovery, Some(PAST), None, None, false, LEAP - 60, LEAP - 60)
  }

  function FirstB(): Job {
    Job(JobB(), LeapSchedule(), Enabled, SkipMissed, Some(LEAP), None, None, false, LEAP - 60, LEAP - 60)
  }

  function BothJobs(): Disk { EMPTY_DISK.(jobs := map[JobA() := FirstA(), JobB() := FirstB()]) }

  lemma BothCreated()
    ensures Create(Utc(), Create(Utc(), EMPTY_DISK, EVERY_TWO_MINUTES, 1, LEAP - 60), SKIPPING, 2, LEAP - 60) == BothJobs()
    ensures Create(Utc(), EMPTY_DISK, EVERY_TWO_MINUTES, 1, LEAP - 60).jobs == map[JobA() := FirstA()]
    ensures SafetyInv(BothJobs(), 0)
  {
    hide NewJobId, SafetyInv, LeapSchedule;
    LeapIsNext();
    MainIsNotBlank();
    EmptyIsSafe();
    Ids();
    CreateKeepsSafety(Utc(), EMPTY_DISK, EVERY_TWO_MINUTES, 1, LEAP - 60);
    CreateKeepsSafety(Utc(), Create(Utc(), EMPTY_DISK, EVERY_TWO_MINUTES, 1, LEAP - 60), SKIPPING, 2, LEAP - 60);
  }

  /** What a tick leaves that dispatches `a` and then fails at the skipped job. */
  function Forgotten(d: Disk, a: Job, next: int, now: int): Disk
    requires a.next_run_at.Some?
  {
    var x := DispatchFor(a, now);
    RecordDispatch(Enqueue(d, x), DispatchedJob(a, Some(next), now), x).(recent := d.recent, active := d.active)
  }

  lemma PairTick(d: Disk, a: Job, next: int, now: int)
    requires d.active == [] && Dispatchable(d, a, now) && LEAP < now < LEAP + 86_400 && now % 60 == 0
    requires NextAfterDispatch(Utc(), a, a.next_run_at.value, now) == Ok(Some(next))
    ensures TickAll(Utc(), d, [a, FirstB()], STAMP, now) == Halted(Forgotten(d, a, next, now), NoMatch, None)
  {
    hide NextRun, NextAfterDispatch, ExecutionId, ExecutionExists, NewJobId, HistoryName, LeapSchedule, IsKnown, Trim;
    var listing := [a, FirstB()];
    assert d.(active := RetainFresh(d.active, now)) == d;
    assert listing[..1] == [a] && [a][..0] == [];
    assert TickJobs(Utc(), d, [a][..0], STAMP, now) == Done(d);
    var x := DispatchFor(a, now);
    var d1 := RecordDispatch(Enqueue(d, x), DispatchedJob(a, Some(next), now), x);
    assert TickJobs(Utc(), d, [a], STAMP, now) == Done(d1);
    SkippingHalts(d1, STAMP(JobB()), now);
  }

  lemma SkippingHalts(d: Disk, nanos: nat, now: int)
    requires LEAP < now < LEAP + 86_400 && now % 60 == 0
    ensures TickJob(Utc(), d, FirstB(), nanos, now) == Halted(d, NoMatch, None)
  {
    hide NextRun, NewJobId;
    LeapIsLast(now, now);
  }

  function SecondA(): Job { DispatchedJob(FirstA(), Some(PAST + 120), PAST) }

  function AfterFirst(): Disk { Forgotten(BothJobs(), FirstA(), PAST + 120, PAST) }

  function FirstId(): string { ExecutionId(JobA(), PAST) }

  /** The first tick: job A is dispatched, job B makes the tick fail. */
  lemma FirstTick()
    ensures TickAll(Utc(), BothJobs(), [FirstA(), FirstB()], STAMP, PAST) == Halted(AfterFirst(), NoMatch, None)
    ensures var d := AfterFirst();
            && d.jobs == map[JobA() := SecondA(), JobB() := FirstB()] && d.active == [] && d.recent == []
            && JobHistory(d, JobA()) == map[HistoryName(PAST, FirstId()) := HistoryRecord(FirstId(), PAST, Dispatched)]
            && d.enqueued == [Dispatch(JobA(), FirstId(), PAST, PAST)]
  {
    hide ExecutionId, NewJobId, HistoryName, LeapSchedule;
    NoHistory(BothJobs(), JobA(), FirstId());
    Ids();
    PairTick(BothJobs(), FirstA(), PAST + 120, PAST);
  }

  lemma PairListing(d: Disk, a: Job)
    requires a.job_id == JobA() && d.jobs == map[JobA() := a, JobB() := FirstB()]
    ensures IsListing(d, [a, FirstB()])
  {
    hide NewJobId, LeapSchedule;
    Ids();
    assert [a, FirstB()][0].job_id == JobA() && [a, FirstB()][1].job_id == JobB();
  }

  // ----- overlap ------------------------------------------------------------------------

  function OverlapRun(): seq<Op> {
    [CreateOp(EVERY_TWO_MINUTES, 1, LEAP - 60), CreateOp(SKIPPING, 2, LEAP - 60),
     TickOp([FirstA(), FirstB()], STAMP, PAST), TickOp([SecondA(), FirstB()], STAMP, PAST + 120)]
  }

  lemma NextOp(zones: Zones, ops: seq<Op>, k: nat)
    requires k < |ops|
    ensures RunOps(zones, ops[..k + 1]) == Perform(zones, RunOps(zones, ops[..k]), ops[k])
  {
    assert ops[..k + 1][..k] == ops[..k];
  }

  lemma SecondIsUnknown()
    ensures Dispatchable(AfterFirst(), SecondA(), PAST + 120)
  {
    hide NewJobId, LeapSchedule, ExecutionId, HistoryName;
    FirstTick();
    Ids();
    if ExecutionId(JobA(), PAST + 120) == FirstId() { ExecutionIdInjective(JobA(), PAST + 120, JobA(), PAST); }
  }

  /** The states of the run. */
  lemma OverlapStates()
    ensures var ops := OverlapRun();
            && RunOps(Utc(), ops[..0]) == EMPTY_DISK
            && RunOps(Utc(), ops[..1]).jobs == map[JobA() := FirstA()]
            && RunOps(Utc(), ops[..2]) == BothJobs()
            && RunOps(Utc(), ops[..3]) == AfterFirst()
            && RunOps(Utc(), ops) == Forgotten(AfterFirst(), SecondA(), PAST + 240, PAST + 120)
            && TickAll(Utc(), AfterFirst(), [SecondA(), FirstB()], STAMP, PAST + 120).Halted?
            && TickAll(Utc(), AfterFirst(), [SecondA(), FirstB()], STAMP, PAST + 120).orphan.None?
  {
    hide NewJobId, LeapSchedule, ExecutionId, HistoryName, TickAll, Create, Forgotten, SafetyInv;
    var ops := OverlapRun();
    NextOp(Utc(), ops, 0);
    NextOp(Utc(), ops, 1);
    NextOp(Utc(), ops, 2);
    NextOp(Utc(), ops, 3);
    assert ops[..0] == [] && ops[..4] == ops;
    BothCreated();
    FirstTick();
    SecondIsUnknown();
    PairTick(AfterFirst(), SecondA(), PAST + 240, PAST + 120);
  }

  /** No overlap fails, although no job allows it and no trigger is left behind: job A is
      dispatched twice within two minutes, and nothing ends the first execution. */
  lemma OverlapCanFail()
    ensures var ops := OverlapRun();
            && WellFormedRun(Utc(), ops) && OrphanFree(Utc(), ops)
            && AlwaysNoOverlap(Utc(), ops, JobA()) && ListingsFit(Utc(), ops)
            && !Separated(Utc(), ops, JobA())
  {
    hide NewJobId, LeapSchedule, ExecutionId, HistoryName, TickAll, RunOps, IsListing, StrandsTrigger;
    var ops := OverlapRun();
    OverlapStates();
    FirstTick();
    Ids();
    PairListing(BothJobs(), FirstA());
    PairListing(AfterFirst(), SecondA());
    StrandsTriggerIff(Utc(), BothJobs(), [FirstA(), FirstB()], STAMP, PAST);
    StrandsTriggerIff(Utc(), AfterFirst(), [SecondA(), FirstB()], STAMP, PAST + 120);
    assert ops[..4] == ops;
    forall i | 0 <= i <= |ops| ensures NoOverlapJob(RunOps(Utc(), ops[..i]), JobA()) {
      assert i == 0 || i == 1 || i == 2 || i == 3 || i == 4;
    }
    forall i | 0 <= i < |ops|
      ensures WellFormedOp(RunOps(Utc(), ops[..i]), ops[i]) && LeavesNoOrphan(Utc(), RunOps(Utc(), ops[..i]), ops[i])
      ensures ops[i].TickOp? ==> IsListing(RunOps(Utc(), ops[..i]), ops[i].listing)
    {
      assert i == 0 || i == 1 || i == 2 || i == 3;
    }
    NothingEnds();
  }

  lemma NothingEnds()
    ensures !Separated(Utc(), OverlapRun(), JobA())
  {
    hide NewJobId, LeapSchedule, ExecutionId, HistoryName, TickAll, RunOps, DispatchedBy, JobHistory;
    var ops := OverlapRun();
    OverlapStates();
    FirstTick();
    var enqueued := RunOps(Utc(), ops).enqueued;
    assert enqueued[0].job_id == JobA() && enqueued[1].job_id == JobA() && EntryOf(enqueued[0]).started_at == PAST;
    forall e | 0 <= e < |ops| ensures !Ends(ops[e], EntryOf(enqueued[0])) {
      assert e == 0 || e == 1 || e == 2 || e == 3;
    }
    assert !EndedBetween(Utc(), ops, 0, 1);
  }

  // ----- a completion under another execution's file name -------------------------------

  /** Another id with the same file name: a dash replaced by an underscore. */
  function OtherId(): string { "exec_" + FirstId()[5..] }

  lemma OtherIdSanitises()
    ensures OtherId() != FirstId() && HistoryName(PAST, OtherId()) == HistoryName(PAST, FirstId())
  {
    hide NewJobId, DecimalInt;
    Ids();
    ExecutionIdIsCanonical(JobA(), PAST);
    SanitizeKeepsCanonical(FirstId());
    assert FirstId()[..5] == "exec-";
    assert OtherId()[4] == '_' && FirstId()[4] == '-';
    assert SanitizeId(OtherId()) == FirstId() by {
      forall i | 0 <= i < |FirstId()| ensures SanitizeId(OtherId())[i] == FirstId()[i] {
        if i >= 5 { assert OtherId()[i] == FirstId()[5..][i - 5] == FirstId()[i]; }
      }
    }
  }

  function CompletedA(): Job { SecondA().(last_result := Some(ResultSucceeded), updated_at := PAST) }

  function RushedA(): Job { CompletedA().(next_run_at := Some(PAST), updated_at := PAST) }

  function ForgettingRun(): seq<Op> {
    [CreateOp(EVERY_TWO_MINUTES, 1, LEAP - 60), CreateOp(SKIPPING, 2, LEAP - 60), TickOp([FirstA(), FirstB()], STAMP, PAST),
     CompleteOp(JobA(), OtherId(), true, PAST), RunNowOp(JobA(), PAST), TickOp([RushedA(), FirstB()], STAMP, PAST)]
  }

  function AfterCompletion(): Disk { Complete(AfterFirst(), JobA(), OtherId(), true, PAST) }

  function AfterRush(): Disk { RunNow(AfterCompletion(), JobA(), PAST) }

  /** The completion takes the only history file of the dispatch. */
  lemma CompletionForgets()
    ensures !KeepsKnown(AfterFirst(), JobA(), OtherId(), PAST)
    ensures var d := AfterRush();
            && d.jobs == map[JobA() := RushedA(), JobB() := FirstB()] && d.active == [] && d.recent == []
            && d.enqueued == AfterFirst().enqueued && Dispatchable(d, RushedA(), PAST)
  {
    hide NewJobId, LeapSchedule, ExecutionId, HistoryName, Canonical, AfterFirst;
    FirstTick();
    Ids();
    OtherIdSanitises();
    ExecutionIdIsCanonical(JobA(), PAST);
    var file := HistoryName(PAST, FirstId());
    assert JobHistory(AfterFirst(), JobA())[file].execution_id == FirstId();
    assert JobHistory(AfterRush(), JobA()) == map[file := HistoryRecord(OtherId(), PAST, Completed)];
    assert !ExecutionExists(AfterRush(), JobA(), FirstId());
  }

  lemma ForgettingStates()
    ensures var ops := ForgettingRun();
            && RunOps(Utc(), ops[..2]) == BothJobs() && RunOps(Utc(), ops[..3]) == AfterFirst()
            && RunOps(Utc(), ops[..5]) == AfterRush()
            && RunOps(Utc(), ops) == Forgotten(AfterRush(), RushedA(), PAST + 120, PAST)
            && TickAll(Utc(), AfterRush(), [RushedA(), FirstB()], STAMP, PAST).Halted?
            && TickAll(Utc(), AfterRush(), [RushedA(), FirstB()], STAMP, PAST).orphan.None?
  {
    hide NewJobId, LeapSchedule, ExecutionId, HistoryName, TickAll, Create, Forgotten, SafetyInv, RunOps, Complete, RunNow,
      Dispatchable, KeepsKnown;
    var ops := ForgettingRun();
    NextOp(Utc(), ops, 0);
    NextOp(Utc(), ops, 1);
    NextOp(Utc(), ops, 2);
    NextOp(Utc(), ops, 3);
    NextOp(Utc(), ops, 4);
    NextOp(Utc(), ops, 5);
    assert ops[..0] == [] && ops[..6] == ops && RunOps(Utc(), []) == EMPTY_DISK by { NoOps(Utc()); }
    BothCreated();
    FirstTick();
    CompletionForgets();
    PairTick(AfterRush(), RushedA(), PAST + 120, PAST);
  }

  /** At-most-once dispatch fails without a trigger left behind when a completion forgets a
      dispatch: two operations later the same execution id is dispatched again. */
  lemma ForgettingDispatchesTwice()
    ensures var ops := ForgettingRun();
            && OrphanFree(Utc(), ops) && ListingsFit(Utc(), ops)
            && !NoDuplicates(RunOps(Utc(), ops).enqueued)
  {
    hide NewJobId, LeapSchedule, ExecutionId, HistoryName, TickAll, Forgotten, StrandsTrigger, IsListing, RunOps, Dispatchable,
      KeepsKnown, AfterRush, AfterFirst, NoDuplicates;
    var ops := ForgettingRun();
    ForgettingStates();
    FirstTick();
    CompletionForgets();
    PairListing(BothJobs(), FirstA());
    PairListing(AfterRush(), RushedA());
    StrandsTriggerIff(Utc(), BothJobs(), [FirstA(), FirstB()], STAMP, PAST);
    StrandsTriggerIff(Utc(), AfterRush(), [RushedA(), FirstB()], STAMP, PAST);
    forall i | 0 <= i < |ops|
      ensures LeavesNoOrphan(Utc(), RunOps(Utc(), ops[..i]), ops[i])
      ensures ops[i].TickOp? ==> IsListing(RunOps(Utc(), ops[..i]), ops[i].listing)
    {
      assert i == 0 || i == 1 || i == 2 || i == 3 || i == 4 || i == 5;
    }
    SameIdTwice();
  }

  lemma NoOps(zones: Zones)
    ensures RunOps(zones, []) == EMPTY_DISK
  {
  }

  lemma SameIdTwice()
    ensures !NoDuplicates(Forgotten(AfterRush(), RushedA(), PAST + 120, PAST).enqueued)
  {
    hide NewJobId, LeapSchedule, ExecutionId, HistoryName, Dispatchable, KeepsKnown, AfterRush, AfterFirst;
    FirstTick();
    CompletionForgets();
    var e := Forgotten(AfterRush(), RushedA(), PAST + 120, PAST).enqueued;
    assert e == AfterFirst().enqueued + [DispatchFor(RushedA(), PAST)];
    assert e[0].execution_id == FirstId() && e[1].execution_id == FirstId();
  }
}
