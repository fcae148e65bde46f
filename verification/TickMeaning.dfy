/** A tick by the fields of its jobs: which of them it triggers, skips or leaves alone, and the whole
    store afterwards (src/orchestration/scheduler.rs). */
module TickMeaning {
  import opened Prelude
  import opened Positions
  import opened Numerals
  import opened Cron
  import opened Schedule
  import opened JobStore
  import opened Tick
  import opened TickGuards
  import opened TickSafety
  import opened TickStores
  import opened TickOverlap
  import opened TickProgress

  // ----- one job ------------------------------------------------------------------------

  /** An execution of the job, at most a day old, is not over. */
  predicate Held(active: seq<Active>, job_id: string, now: int) {
    exists i :: 0 <= i < |active| && active[i].job_id == job_id && now - active[i].started_at <= 86_400
  }

  predicate InHistory(history: map<string, HistoryRecord>, execution_id: string) {
    exists name <- history :: history[name].execution_id == execution_id
  }

  function RunId(job: Job): string {
    "exec-" + job.job_id + "-" + DecimalInt(job.next_run_at.GetOr(0))
  }

  /** The jobs a tick at `now` has a turn for, and those of them it skips. */
  predicate Waits(job: Job, now: int) {
    job.state.Enabled? && job.next_run_at.Some? && job.next_run_at.value <= now
  }

  predicate Skips(job: Job, now: int) {
    Waits(job, now) && job.next_run_at.value < now && job.misfire.SkipMissed?
  }

  /** The tick triggers the job. */
  ghost predicate Fires(d: Disk, job: Job, now: int) {
    && Waits(job, now) && !Skips(job, now) && (job.allow_overlap || !Held(d.active, job.job_id, now))
    && !InHistory(JobHistory(d, job.job_id), RunId(job))
  }

  /** The job and its history after a tick, from the job's own fields. */
  ghost predicate JobTicked(zones: Zones, d: Disk, job: Job, nanos: nat, now: int, after: Job, history: map<string, HistoryRecord>) {
    var before := JobHistory(d, job.job_id);
    var id := RunId(job);
    var file := DecimalInt(now) + "-" + id + ".json";
    if !Waits(job, now) then after == job && history == before
    else if Skips(job, now) then
      var next := RecoveryNextRun(zones, job.schedule, now);
      var skip := "skip-" + Decimal(nanos);
      && next.Ok?
      && after == Job(job.job_id, job.schedule, if next.value.None? then Disabled else Enabled, job.misfire, next.value,
                      job.last_run_at, Some(ResultSkippedMissed), job.allow_overlap, job.created_at, now)
      && history == before[DecimalInt(now) + "-" + skip + ".json" := HistoryRecord(skip, now, SkippedMissed)]
    else if !job.allow_overlap && Held(d.active, job.job_id, now) then after == job && history == before
    else if InHistory(before, id) then
      after == job && history == before[file := HistoryRecord(id, now, SkippedDuplicate)]
    else
      var due := job.next_run_at.value;
      var next := if due < now then RecoveryNextRun(zones, job.schedule, now) else NextRun(zones, job.schedule, now, Some(due));
      && next.Ok?
      && after == Job(job.job_id, job.schedule, if next.value.None? then Disabled else Enabled, job.misfire, next.value,
                      Some(now), Some(if next.value.None? then ResultCompleted else ResultDispatched),
                      job.allow_overlap, job.created_at, now)
      && history == before[file := HistoryRecord(id, now, Dispatched)]
  }

  // ----- the whole store ----------------------------------------------------------------

  function TriggerOf(job: Job, now: int): Dispatch {
    Dispatch(job.job_id, RunId(job), job.next_run_at.GetOr(0), now)
  }

  function Triggers(listing: seq<Job>, now: int): seq<Dispatch> {
    seq(|listing|, i requires 0 <= i < |listing| => TriggerOf(listing[i], now))
  }

  function Started(news: seq<Dispatch>, now: int): seq<Active> {
    seq(|news|, i requires 0 <= i < |news| => Active(news[i].job_id, news[i].execution_id, now))
  }

  function Ids(news: seq<Dispatch>): seq<string> {
    seq(|news|, i requires 0 <= i < |news| => news[i].execution_id)
  }

  /** The last 2048 ids, once there is a new one. */
  function Remembered(recent: seq<string>, ids: seq<string>): seq<string> {
    var all := recent + ids;
    if ids != [] && |all| > 2048 then all[|all| - 2048..] else all
  }

  ghost function Firing(d: Disk, listing: seq<Job>, now: int): set<nat> {
    set p | 0 <= p < |listing| && Fires(d, listing[p], now)
  }

  function FreshOnes(active: seq<Active>, now: int): set<nat> {
    set i | 0 <= i < |active| && now - active[i].started_at <= 86_400
  }

  /** The store after a tick that reaches its end: all of it, from the fields of the one before. */
  ghost predicate Ticked(zones: Zones, d: Disk, listing: seq<Job>, stamp: string -> nat, now: int, d': Disk) {
    && d'.jobs.Keys == d.jobs.Keys && d'.last_tick_at == Some(now)
    && (forall p :: 0 <= p < |listing| ==>
          && listing[p].job_id in d'.jobs
          && JobTicked(zones, d, listing[p], stamp(listing[p].job_id), now, d'.jobs[listing[p].job_id], JobHistory(d', listing[p].job_id)))
    && (forall id: string :: id !in d.jobs ==> JobHistory(d', id) == JobHistory(d, id))
    && exists news: seq<Dispatch>, kept: seq<Active> ::
         && Selects(Triggers(listing, now), Firing(d, listing, now), news) && Selects(d.active, FreshOnes(d.active, now), kept)
         && d'.enqueued == d.enqueued + news && d'.active == kept + Started(news, now)
         && d'.recent == Remembered(d.recent, Ids(news))
  }

  // ----- one turn -----------------------------------------------------------------------

  ghost predicate AllFresh(active: seq<Active>, now: int) {
    forall i :: 0 <= i < |active| ==> now - active[i].started_at <= 86_400
  }

  lemma HistoryKnows(d: Disk, job_id: string, execution_id: string)
    ensures ExecutionExists(d, job_id, execution_id) <==> InHistory(JobHistory(d, job_id), execution_id)
  {
  }

  lemma RunIdIs(job: Job)
    requires WellFormedId(job.job_id) && job.next_run_at.Some?
    ensures ExecutionId(job.job_id, job.next_run_at.value) == RunId(job)
    ensures SanitizeId(RunId(job)) == RunId(job)
  {
    hide DecimalInt;
    SanitizeKeepsCanonical(job.job_id);
    ExecutionIdIsCanonical(job.job_id, job.next_run_at.value);
    SanitizeKeepsCanonical(RunId(job));
  }

  lemma SkipIdIs(nanos: nat)
    ensures SkipId(nanos) == "skip-" + Decimal(nanos) && SanitizeId(SkipId(nanos)) == SkipId(nanos)
  {
    hide Decimal;
    SkipIdIsCanonical(nanos);
    SanitizeKeepsCanonical(SkipId(nanos));
  }

  /** What one turn adds to the triggers. */
  ghost function FiredBy(d: Disk, job: Job, now: int): seq<Dispatch> {
    if Fires(d, job, now) then [TriggerOf(job, now)] else []
  }

  /** What one turn makes of the store. */
  ghost predicate TurnDone(zones: Zones, d: Disk, job: Job, nanos: nat, now: int, d': Disk) {
    var fired := FiredBy(d, job, now);
    && d'.jobs.Keys == d.jobs.Keys && d'.last_tick_at == d.last_tick_at
    && job.job_id in d'.jobs && JobTicked(zones, d, job, nanos, now, d'.jobs[job.job_id], JobHistory(d', job.job_id))
    && d'.enqueued == d.enqueued + fired && d'.active == d.active + Started(fired, now)
    && d'.recent == if fired == [] then d.recent else Trim(d.recent + Ids(fired))
  }

  lemma NothingFired(d: Disk, now: int)
    ensures d.enqueued + [] == d.enqueued && d.active + Started([], now) == d.active
  {
  }

  lemma SkippingTurn(zones: Zones, d: Disk, job: Job, nanos: nat, now: int)
    requires job.job_id in d.jobs && d.jobs[job.job_id] == job && Skips(job, now)
    requires SkipMissedJob(zones, d, job, nanos, now).Done?
    ensures TurnDone(zones, d, job, nanos, now, SkipMissedJob(zones, d, job, nanos, now).d)
  {
    hide SkipId, SanitizeId, DecimalInt, Decimal, RecoveryNextRun, InHistory, Held;
    SkipIdIs(nanos);
    NothingFired(d, now);
  }

  lemma FiringTurn(zones: Zones, d: Disk, job: Job, nanos: nat, now: int)
    requires job.job_id in d.jobs && d.jobs[job.job_id] == job && WellFormedId(job.job_id) && Fires(d, job, now)
    requires DispatchJob(zones, d, job, now).Done?
    ensures TurnDone(zones, d, job, nanos, now, DispatchJob(zones, d, job, now).d)
  {
    hide WellFormedId, ExecutionId, SanitizeId, DecimalInt, RecoveryNextRun, NextRun, InHistory, Held, Trim;
    RunIdIs(job);
    var x := TriggerOf(job, now);
    assert DispatchFor(job, now) == x;
    assert Started([x], now) == [Active(x.job_id, x.execution_id, now)] && Ids([x]) == [x.execution_id];
  }

  lemma TurnMeans(zones: Zones, d: Disk, job: Job, nanos: nat, now: int)
    requires RecentInv(d) && WellFormedId(job.job_id) && job.job_id in d.jobs && d.jobs[job.job_id] == job
    requires AllFresh(d.active, now) && TickJob(zones, d, job, nanos, now).Done?
    ensures TurnDone(zones, d, job, nanos, now, TickJob(zones, d, job, nanos, now).d)
  {
    hide RecentInv, WellFormedId, ExecutionId, SkipMissedJob, DispatchJob, SanitizeId, DecimalInt, Decimal, NextRun, RecoveryNextRun,
      ExecutionExists, InHistory, Trim;
    if Waits(job, now) {
      RunIdIs(job);
      CacheAgreesWithHistory(d, job.job_id, job.next_run_at.value);
      HistoryKnows(d, job.job_id, RunId(job));
      assert HasActive(d.active, job.job_id) == Held(d.active, job.job_id, now);
    }
    if Skips(job, now) { SkippingTurn(zones, d, job, nanos, now); }
    if Fires(d, job, now) { FiringTurn(zones, d, job, nanos, now); } else { NothingFired(d, now); }
  }

  // ----- all turns ----------------------------------------------------------------------

  ghost function News(d: Disk, listing: seq<Job>, now: int): seq<Dispatch> {
    if listing == [] then [] else News(d, listing[..|listing| - 1], now) + FiredBy(d, listing[|listing| - 1], now)
  }

  ghost predicate PassDone(zones: Zones, d0: Disk, d: Disk, listing: seq<Job>, stamp: string -> nat, now: int) {
    && d.jobs.Keys == d0.jobs.Keys && d.last_tick_at == d0.last_tick_at
    && (forall p :: 0 <= p < |listing| ==>
          && listing[p].job_id in d.jobs
          && JobTicked(zones, d0, listing[p], stamp(listing[p].job_id), now, d.jobs[listing[p].job_id], JobHistory(d, listing[p].job_id)))
    && (forall id: string :: id !in d.jobs ==> JobHistory(d, id) == JobHistory(d0, id))
    && d.enqueued == d0.enqueued + News(d0, listing, now)
    && d.active == d0.active + Started(News(d0, listing, now), now)
    && d.recent == Remembered(d0.recent, Ids(News(d0, listing, now)))
  }

  lemma StartedFresh(d0: Disk, d: Disk, news: seq<Dispatch>, now: int)
    requires AllFresh(d0.active, now) && d.active == d0.active + Started(news, now)
    ensures AllFresh(d.active, now)
  {
  }

  lemma FreshHeld(active: seq<Active>, job_id: string, now: int)
    requires AllFresh(active, now)
    ensures Held(active, job_id, now) == HasActive(active, job_id)
  {
  }

  /** A turn sees its own job as the tick found it. */
  lemma SameTurn(zones: Zones, d0: Disk, d: Disk, job: Job, nanos: nat, now: int)
    requires AllFresh(d0.active, now) && AllFresh(d.active, now) && Untouched(d0, d, job.job_id)
    ensures Fires(d, job, now) == Fires(d0, job, now)
    ensures forall after, history :: JobTicked(zones, d, job, nanos, now, after, history) == JobTicked(zones, d0, job, nanos, now, after, history)
  {
    hide RunId, InHistory, JobHistory, Held, HasActive, RecoveryNextRun, NextRun, DecimalInt, Decimal;
    FreshHeld(d0.active, job.job_id, now);
    FreshHeld(d.active, job.job_id, now);
  }

  lemma RememberedNext(recent: seq<string>, ids: seq<string>, id: string)
    ensures Remembered(recent, ids + [id]) == Trim(Remembered(recent, ids) + [id])
  {
    assert recent + (ids + [id]) == (recent + ids) + [id];
  }

  /** One more trigger, or none. */
  lemma NewsNext(d0: Disk, d: Disk, d': Disk, news: seq<Dispatch>, fired: seq<Dispatch>, now: int)
    requires |fired| <= 1
    requires d.enqueued == d0.enqueued + news && d.active == d0.active + Started(news, now) && d.recent == Remembered(d0.recent, Ids(news))
    requires d'.enqueued == d.enqueued + fired && d'.active == d.active + Started(fired, now)
    requires d'.recent == if fired == [] then d.recent else Trim(d.recent + Ids(fired))
    ensures d'.enqueued == d0.enqueued + (news + fired) && d'.active == d0.active + Started(news + fired, now)
    ensures d'.recent == Remembered(d0.recent, Ids(news + fired))
  {
    hide Trim, Remembered;
    assert Started(news, now) + Started(fired, now) == Started(news + fired, now);
    if fired == [] {
      assert news + fired == news;
    } else {
      assert Ids(fired) == [fired[0].execution_id];
      assert Ids(news + fired) == Ids(news) + [fired[0].execution_id];
      RememberedNext(d0.recent, Ids(news), fired[0].execution_id);
    }
  }

  lemma TurnAfterPass(zones: Zones, d0: Disk, d: Disk, listing: seq<Job>, job: Job, stamp: string -> nat, now: int)
    requires PassDone(zones, d0, d, listing, stamp, now) && AllFresh(d0.active, now) && Untouched(d0, d, job.job_id)
    requires forall p :: 0 <= p < |listing| ==> listing[p].job_id != job.job_id
    requires RecentInv(d) && WellFormedId(job.job_id) && job.job_id in d0.jobs && d0.jobs[job.job_id] == job
    requires TickJob(zones, d, job, stamp(job.job_id), now).Done?
    ensures PassDone(zones, d0, TickJob(zones, d, job, stamp(job.job_id), now).d, listing + [job], stamp, now)
  {
    hide RecentInv, WellFormedId, TickJob, JobTicked, Fires, Trim, Remembered, JobHistory, Started, Ids, AllFresh;
    var nanos := stamp(job.job_id);
    var d' := TickJob(zones, d, job, nanos, now).d;
    var news := News(d0, listing, now);
    StartedFresh(d0, d, news, now);
    SameTurn(zones, d0, d, job, nanos, now);
    TurnMeans(zones, d, job, nanos, now);
    TickJobChangesOwn(zones, d, job, nanos, now);
    assert (listing + [job])[..|listing|] == listing;
    NewsNext(d0, d, d', news, FiredBy(d0, job, now), now);
  }

  lemma {:induction false} PassMeans(zones: Zones, d0: Disk, listing: seq<Job>, n: nat, stamp: string -> nat, now: int)
    requires SafetyInv(d0, |d0.enqueued|) && IsListing(d0, listing) && n <= |listing| && AllFresh(d0.active, now)
    requires TickJobs(zones, d0, listing[..n], stamp, now).Done?
    ensures PassDone(zones, d0, TickJobs(zones, d0, listing[..n], stamp, now).d, listing[..n], stamp, now)
  {
    hide TickJob, PassDone, SafetyInv, RemembersAll, AllFresh, Handled, NewTriggers, Untouched;
    ListingIsWellFormed(d0, listing);
    if n == 0 {
      PassOfNone(zones, d0, stamp, now);
    } else {
      assert listing[..n][..n - 1] == listing[..n - 1];
      assert listing[..n] == listing[..n - 1] + [listing[n - 1]];
      PassMeans(zones, d0, listing, n - 1, stamp, now);
      PassKeepsInv(zones, d0, listing, n - 1, stamp, now);
      var d := TickJobs(zones, d0, listing[..n - 1], stamp, now).d;
      SafetyHasHistory(d, |d.enqueued|);
      TurnAfterPass(zones, d0, d, listing[..n - 1], listing[n - 1], stamp, now);
    }
  }

  lemma PassOfNone(zones: Zones, d0: Disk, stamp: string -> nat, now: int)
    ensures PassDone(zones, d0, d0, [], stamp, now)
  {
    assert Started([], now) == [] && Ids([]) == [];
    assert d0.enqueued + [] == d0.enqueued && d0.active + [] == d0.active && d0.recent + [] == d0.recent;
  }

  // ----- the tick -----------------------------------------------------------------------

  lemma {:induction false} NewsAreSelected(d: Disk, listing: seq<Job>, now: int)
    ensures Selects(Triggers(listing, now), Firing(d, listing, now), News(d, listing, now))
  {
    hide Fires, Selects, TriggerOf;
    if listing == [] {
      NoPositions(Triggers(listing, now));
      assert Firing(d, listing, now) == {};
    } else {
      var init, last := listing[..|listing| - 1], listing[|listing| - 1];
      NewsAreSelected(d, init, now);
      SelectsNext(Triggers(init, now), TriggerOf(last, now), Firing(d, init, now), News(d, init, now));
      assert Triggers(listing, now) == Triggers(init, now) + [TriggerOf(last, now)];
      assert Firing(d, listing, now) == if Fires(d, last, now) then Firing(d, init, now) + {|init|} else Firing(d, init, now);
      assert News(d, init, now) + [] == News(d, init, now);
    }
  }

  lemma {:induction false} FreshAreSelected(active: seq<Active>, now: int)
    ensures Selects(active, FreshOnes(active, now), RetainFresh(active, now)) && AllFresh(RetainFresh(active, now), now)
  {
    hide Selects;
    if active == [] {
      NoPositions(active);
      assert FreshOnes(active, now) == {};
    } else {
      var init, last := active[..|active| - 1], active[|active| - 1];
      FreshAreSelected(init, now);
      SelectsNext(init, last, FreshOnes(init, now), RetainFresh(init, now));
      assert active == init + [last];
      assert FreshOnes(active, now) == if now - last.started_at <= 86_400 then FreshOnes(init, now) + {|init|} else FreshOnes(init, now);
    }
  }

  /** Dropping what is stale holds no other job back. */
  lemma SameHeld(d: Disk, job: Job, now: int)
    ensures var d0 := d.(active := RetainFresh(d.active, now));
            Fires(d0, job, now) == Fires(d, job, now) && Held(d0.active, job.job_id, now) == Held(d.active, job.job_id, now)
  {
    hide RunId, InHistory;
    var d0 := d.(active := RetainFresh(d.active, now));
    if Held(d.active, job.job_id, now) {
      var i :| 0 <= i < |d.active| && d.active[i].job_id == job.job_id && now - d.active[i].started_at <= 86_400;
      RetainFreshIs(d.active, now, d.active[i]);
      var j :| 0 <= j < |d0.active| && d0.active[j] == d.active[i];
    }
    if Held(d0.active, job.job_id, now) {
      var i :| 0 <= i < |d0.active| && d0.active[i].job_id == job.job_id && now - d0.active[i].started_at <= 86_400;
      RetainFreshIs(d.active, now, d0.active[i]);
      var j :| 0 <= j < |d.active| && d.active[j] == d0.active[i];
    }
  }

  lemma SafeTickMeans(zones: Zones, d: Disk, listing: seq<Job>, stamp: string -> nat, now: int)
    requires SafetyInv(d, |d.enqueued|) && IsListing(d, listing) && TickAll(zones, d, listing, stamp, now).Done?
    ensures Ticked(zones, d, listing, stamp, now, TickAll(zones, d, listing, stamp, now).d)
  {
    hide TickJobs, SafetyInv, Fires, Held, RetainFresh, Remembered, Selects, News, Started, Triggers, Ids, IsListing, AllFresh;
    var d0 := d.(active := RetainFresh(d.active, now));
    var d1 := TickJobs(zones, d0, listing, stamp, now).d;
    var d' := d1.(last_tick_at := Some(now));
    StaleStateIsSafe(d, now);
    FreshAreSelected(d.active, now);
    assert listing[..|listing|] == listing;
    assert IsListing(d0, listing) by { SameListing(d, d0, listing); }
    PassMeans(zones, d0, listing, |listing|, stamp, now);
    forall job: Job ensures Fires(d0, job, now) == Fires(d, job, now) && Held(d0.active, job.job_id, now) == Held(d.active, job.job_id, now) {
      SameHeld(d, job, now);
    }
    NewsAreSelected(d0, listing, now);
    assert Firing(d0, listing, now) == Firing(d, listing, now);
    assert forall id: string :: JobHistory(d', id) == JobHistory(d1, id) && JobHistory(d0, id) == JobHistory(d, id);
  }

  lemma SameListing(d: Disk, d0: Disk, listing: seq<Job>)
    requires IsListing(d, listing) && d.jobs == d0.jobs
    ensures IsListing(d0, listing)
  {
  }

  lemma TickedBehind(zones: Zones, d: Disk, listing: seq<Job>, stamp: string -> nat, now: int, d': Disk)
    requires Ticked(zones, Blank(d), listing, stamp, now, d')
    ensures Ticked(zones, d, listing, stamp, now, Behind(d', d.enqueued))
  {
    hide InHistory, Remembered, Selects, Triggers, Started, Ids, Held, RunId, RecoveryNextRun, NextRun, DecimalInt, Decimal;
    assert forall id: string :: JobHistory(Blank(d), id) == JobHistory(d, id) && JobHistory(Behind(d', d.enqueued), id) == JobHistory(d', id);
    assert forall job: Job :: Fires(Blank(d), job, now) == Fires(d, job, now);
    assert Firing(Blank(d), listing, now) == Firing(d, listing, now);
  }

  /** What a tick that reaches its end does, on every store a run can leave. */
  lemma TickMeans(zones: Zones, d: Disk, listing: seq<Job>, stamp: string -> nat, now: int)
    requires StoreInv(d) && IsListing(d, listing) && TickAll(zones, d, listing, stamp, now).Done?
    ensures Ticked(zones, d, listing, stamp, now, TickAll(zones, d, listing, stamp, now).d)
  {
    hide TickAll, StoreInv, SafetyInv, Ticked;
    BlankIsSafe(d);
    TickIgnoresTriggers(zones, Blank(d), d.enqueued, listing, stamp, now);
    assert IsListing(Blank(d), listing) by { SameListing(d, Blank(d), listing); }
    SafeTickMeans(zones, Blank(d), listing, stamp, now);
    TickedBehind(zones, d, listing, stamp, now, TickAll(zones, Blank(d), listing, stamp, now).d);
  }

  lemma EveryTickMeans(zones: Zones, ops: seq<Op>, listing: seq<Job>, stamp: string -> nat, now: int)
    requires WellFormedRun(zones, ops) && IsListing(RunOps(zones, ops), listing)
    requires TickAll(zones, RunOps(zones, ops), listing, stamp, now).Done?
    ensures Ticked(zones, RunOps(zones, ops), listing, stamp, now, TickAll(zones, RunOps(zones, ops), listing, stamp, now).d)
  {
    hide WellFormedRun, TickAll, Ticked, StoreInv;
    EveryRunKeepsStore(zones, ops);
    TickMeans(zones, RunOps(zones, ops), listing, stamp, now);
  }

  lemma JobTickedOnce(zones: Zones, d: Disk, job: Job, nanos: nat, now: int, a: Job, h: map<string, HistoryRecord>, b: Job, k: map<string, HistoryRecord>)
    requires JobTicked(zones, d, job, nanos, now, a, h) && JobTicked(zones, d, job, nanos, now, b, k)
    ensures a == b && h == k
  {
    hide JobHistory, RunId, Held, InHistory, RecoveryNextRun, NextRun, DecimalInt, Decimal;
  }

  lemma JobsTickedOnce(zones: Zones, d: Disk, listing: seq<Job>, stamp: string -> nat, now: int, a: Disk, b: Disk)
    requires IsListing(d, listing) && Ticked(zones, d, listing, stamp, now, a) && Ticked(zones, d, listing, stamp, now, b)
    ensures a.jobs == b.jobs && forall id: string :: JobHistory(a, id) == JobHistory(b, id)
  {
    hide Selects, Remembered, JobHistory, JobTicked, Firing;
    forall id | id in d.jobs ensures a.jobs[id] == b.jobs[id] && JobHistory(a, id) == JobHistory(b, id) {
      var p :| 0 <= p < |listing| && listing[p].job_id == id;
      JobTickedOnce(zones, d, listing[p], stamp(id), now, a.jobs[id], JobHistory(a, id), b.jobs[id], JobHistory(b, id));
    }
  }

  /** The description leaves nothing open. */
  lemma TickedIsUnique(zones: Zones, d: Disk, listing: seq<Job>, stamp: string -> nat, now: int, a: Disk, b: Disk)
    requires IsListing(d, listing) && Ticked(zones, d, listing, stamp, now, a) && Ticked(zones, d, listing, stamp, now, b)
    ensures a.(runs := map[]) == b.(runs := map[])
    ensures forall id: string :: JobHistory(a, id) == JobHistory(b, id)
  {
    hide IsListing, Selects, Triggers, Started, Ids, Remembered, JobHistory, JobTicked, Firing, FreshOnes;
    JobsTickedOnce(zones, d, listing, stamp, now, a, b);
    var v: seq<Dispatch>, v': seq<Active> :|
      && Selects(Triggers(listing, now), Firing(d, listing, now), v) && Selects(d.active, FreshOnes(d.active, now), v')
      && a.enqueued == d.enqueued + v && a.active == v' + Started(v, now) && a.recent == Remembered(d.recent, Ids(v));
    var w: seq<Dispatch>, w': seq<Active> :|
      && Selects(Triggers(listing, now), Firing(d, listing, now), w) && Selects(d.active, FreshOnes(d.active, now), w')
      && b.enqueued == d.enqueued + w && b.active == w' + Started(w, now) && b.recent == Remembered(d.recent, Ids(w));
    SelectsOnce(Triggers(listing, now), Firing(d, listing, now), v, w);
    SelectsOnce(d.active, FreshOnes(d.active, now), v', w');
  }

  // ----- a tick that fails --------------------------------------------------------------

  /** The search for the job's next run that a tick makes. */
  ghost function Search(zones: Zones, job: Job, now: int): Result<Option<int>, ScheduleError>
    requires job.next_run_at.Some?
  {
    if job.next_run_at.value < now then RecoveryNextRun(zones, job.schedule, now)
    else NextRun(zones, job.schedule, now, job.next_run_at)
  }

  /** The store after a tick that fails at the job at `p`: the turns before it stand, it and the later
      jobs are as they were, its trigger is out when it was to fire, and the state is not saved. */
  ghost predicate FailedAt(zones: Zones, d: Disk, listing: seq<Job>, stamp: string -> nat, now: int, p: nat, error: ScheduleError, d': Disk) {
    && p < |listing| && (Skips(listing[p], now) || Fires(d, listing[p], now)) && Search(zones, listing[p], now) == Err(error)
    && (forall k :: 0 <= k < p ==>
          && listing[k].job_id in d'.jobs
          && JobTicked(zones, d, listing[k], stamp(listing[k].job_id), now, d'.jobs[listing[k].job_id], JobHistory(d', listing[k].job_id)))
    && (forall k :: p <= k < |listing| ==>
          && listing[k].job_id in d'.jobs && d'.jobs[listing[k].job_id] == listing[k]
          && JobHistory(d', listing[k].job_id) == JobHistory(d, listing[k].job_id))
    && d'.recent == d.recent && d'.active == d.active && d'.last_tick_at == d.last_tick_at
    && exists news: seq<Dispatch> ::
         && Selects(Triggers(listing[..p], now), Firing(d, listing[..p], now), news)
         && d'.enqueued == d.enqueued + (news + FiredBy(d, listing[p], now))
  }

  /** A turn that fails changes nothing but the triggers. */
  lemma FailingTurn(zones: Zones, d: Disk, job: Job, nanos: nat, now: int)
    requires RecentInv(d) && WellFormedId(job.job_id) && AllFresh(d.active, now) && TickJob(zones, d, job, nanos, now).Halted?
    ensures Skips(job, now) || Fires(d, job, now)
    ensures Search(zones, job, now) == Err(TickJob(zones, d, job, nanos, now).error)
    ensures TickJob(zones, d, job, nanos, now).d == d.(enqueued := d.enqueued + FiredBy(d, job, now))
  {
    hide RecentInv, WellFormedId, ExecutionId, SkipId, SanitizeId, DecimalInt, Decimal, NextRun, RecoveryNextRun, ExecutionExists, InHistory, HistoryName;
    RunIdIs(job);
    CacheAgreesWithHistory(d, job.job_id, job.next_run_at.value);
    HistoryKnows(d, job.job_id, RunId(job));
    assert HasActive(d.active, job.job_id) == Held(d.active, job.job_id, now);
    NothingFired(d, now);
  }

  lemma StillListed(d0: Disk, d: Disk, listing: seq<Job>, p: nat, now: int)
    requires IsListing(d0, listing) && PassInv(d0, d, listing, p, now)
    ensures forall k :: p <= k < |listing| ==>
              && Untouched(d0, d, listing[k].job_id) && listing[k].job_id in d.jobs && d.jobs[listing[k].job_id] == listing[k]
              && JobHistory(d, listing[k].job_id) == JobHistory(d0, listing[k].job_id)
  {
    hide Handled, NewTriggers, HasActive, JobHistory;
  }

  lemma SafeFailureMeans(zones: Zones, d: Disk, listing: seq<Job>, stamp: string -> nat, now: int) returns (p: nat)
    requires SafetyInv(d, |d.enqueued|) && IsListing(d, listing) && TickAll(zones, d, listing, stamp, now).Halted?
    ensures var o := TickAll(zones, d, listing, stamp, now); FailedAt(zones, d, listing, stamp, now, p, o.error, o.d)
  {
    hide TickJobs, TickJob, SafetyInv, Fires, Held, RetainFresh, Selects, News, Started, Triggers, Ids, IsListing, AllFresh,
      PassInv, Untouched, RemembersAll, JobTicked, JobHistory, Search, Remembered, RecentInv, HistoryInv;
    var d0 := d.(active := RetainFresh(d.active, now));
    p := HaltPoint(zones, d0, listing, stamp, now);
    var job := listing[p];
    var d1 := TickJobs(zones, d0, listing[..p], stamp, now).d;
    StaleStateIsSafe(d, now);
    FreshAreSelected(d.active, now);
    SameListing(d, d0, listing);
    PassMeans(zones, d0, listing, p, stamp, now);
    PassKeepsInv(zones, d0, listing, p, stamp, now);
    ListingIsWellFormed(d0, listing);
    SafetyHasHistory(d1, |d1.enqueued|);
    StartedFresh(d0, d1, News(d0, listing[..p], now), now);
    FailingTurn(zones, d1, job, stamp(job.job_id), now);
    StillListed(d0, d1, listing, p, now);
    SameTurn(zones, d0, d1, job, stamp(job.job_id), now);
    SameFires(d, now);
    NewsAreSelected(d0, listing[..p], now);
    assert Firing(d0, listing[..p], now) == Firing(d, listing[..p], now);
    AsFailed(zones, d, d0, d1, listing, stamp, now, p, TickJob(zones, d1, job, stamp(job.job_id), now).error);
  }

  lemma AsFailed(zones: Zones, d: Disk, d0: Disk, d1: Disk, listing: seq<Job>, stamp: string -> nat, now: int, p: nat, error: ScheduleError)
    requires p < |listing| && d0 == d.(active := RetainFresh(d.active, now))
    requires Skips(listing[p], now) || Fires(d, listing[p], now)
    requires Search(zones, listing[p], now) == Err(error)
    requires PassDone(zones, d0, d1, listing[..p], stamp, now)
    requires forall job: Job :: Fires(d0, job, now) == Fires(d, job, now) && Held(d0.active, job.job_id, now) == Held(d.active, job.job_id, now)
    requires forall k :: p <= k < |listing| ==>
              && listing[k].job_id in d1.jobs && d1.jobs[listing[k].job_id] == listing[k]
              && JobHistory(d1, listing[k].job_id) == JobHistory(d0, listing[k].job_id)
    requires Selects(Triggers(listing[..p], now), Firing(d, listing[..p], now), News(d0, listing[..p], now))
    ensures FailedAt(zones, d, listing, stamp, now, p, error,
                     d1.(enqueued := d1.enqueued + FiredBy(d0, listing[p], now), recent := d.recent, active := d.active))
  {
    hide Fires, Held, RetainFresh, Selects, News, Started, Triggers, Ids, Search, Remembered, Skips, Firing;
    var d' := d1.(enqueued := d1.enqueued + FiredBy(d0, listing[p], now), recent := d.recent, active := d.active);
    assert forall id: string :: JobHistory(d', id) == JobHistory(d1, id) && JobHistory(d0, id) == JobHistory(d, id);
    forall k | 0 <= k < p
      ensures listing[k].job_id in d'.jobs
      ensures JobTicked(zones, d, listing[k], stamp(listing[k].job_id), now, d'.jobs[listing[k].job_id], JobHistory(d', listing[k].job_id))
    {
      assert listing[..p][k] == listing[k];
      SameTicked(zones, d0, d, listing[k], stamp(listing[k].job_id), now, d1.jobs[listing[k].job_id], JobHistory(d1, listing[k].job_id));
    }
    var news := News(d0, listing[..p], now);
    assert d'.enqueued == d.enqueued + (news + FiredBy(d, listing[p], now));
  }

  lemma SameTicked(zones: Zones, d0: Disk, d: Disk, job: Job, nanos: nat, now: int, after: Job, history: map<string, HistoryRecord>)
    requires JobHistory(d0, job.job_id) == JobHistory(d, job.job_id)
    requires Held(d0.active, job.job_id, now) == Held(d.active, job.job_id, now)
    ensures JobTicked(zones, d, job, nanos, now, after, history) == JobTicked(zones, d0, job, nanos, now, after, history)
  {
    hide JobHistory, Held, InHistory, RunId, RecoveryNextRun, NextRun, DecimalInt, Decimal;
  }

  lemma SameFires(d: Disk, now: int)
    ensures forall job: Job :: var d0 := d.(active := RetainFresh(d.active, now));
              Fires(d0, job, now) == Fires(d, job, now) && Held(d0.active, job.job_id, now) == Held(d.active, job.job_id, now)
  {
    hide Fires, Held, RetainFresh;
    forall job: Job
      ensures var d0 := d.(active := RetainFresh(d.active, now));
              Fires(d0, job, now) == Fires(d, job, now) && Held(d0.active, job.job_id, now) == Held(d.active, job.job_id, now)
    {
      SameHeld(d, job, now);
    }
  }

  /** What a tick that fails leaves, on every store a run can leave: it fails at a job whose search
      fails, and only there. */
  lemma FailedTickMeans(zones: Zones, d: Disk, listing: seq<Job>, stamp: string -> nat, now: int) returns (p: nat)
    requires StoreInv(d) && IsListing(d, listing) && TickAll(zones, d, listing, stamp, now).Halted?
    ensures var o := TickAll(zones, d, listing, stamp, now); FailedAt(zones, d, listing, stamp, now, p, o.error, o.d)
  {
    hide TickAll, StoreInv, SafetyInv, FailedAt;
    BlankIsSafe(d);
    TickIgnoresTriggers(zones, Blank(d), d.enqueued, listing, stamp, now);
    assert IsListing(Blank(d), listing) by { SameListing(d, Blank(d), listing); }
    p := SafeFailureMeans(zones, Blank(d), listing, stamp, now);
    var o := TickAll(zones, Blank(d), listing, stamp, now);
    FailedBehind(zones, d, listing, stamp, now, p, o.error, o.d);
  }

  lemma FailedBehind(zones: Zones, d: Disk, listing: seq<Job>, stamp: string -> nat, now: int, p: nat, error: ScheduleError, d': Disk)
    requires FailedAt(zones, Blank(d), listing, stamp, now, p, error, d')
    ensures FailedAt(zones, d, listing, stamp, now, p, error, Behind(d', d.enqueued))
  {
    hide Selects, Triggers, Search, JobTicked;
    assert forall id: string :: JobHistory(Blank(d), id) == JobHistory(d, id) && JobHistory(Behind(d', d.enqueued), id) == JobHistory(d', id);
    assert forall job: Job :: Fires(Blank(d), job, now) == Fires(d, job, now);
    assert Firing(Blank(d), listing[..p], now) == Firing(d, listing[..p], now);
    forall k | 0 <= k < p
      ensures JobTicked(zones, d, listing[k], stamp(listing[k].job_id), now, d'.jobs[listing[k].job_id], JobHistory(d', listing[k].job_id))
    {
      SameTicked(zones, Blank(d), d, listing[k], stamp(listing[k].job_id), now, d'.jobs[listing[k].job_id], JobHistory(d', listing[k].job_id));
    }
  }
}
