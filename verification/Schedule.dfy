/** Schedules and the next-run search (src/orchestration/scheduler.rs). */
module Schedule {
  import opened Prelude
  import opened Cron

  datatype ScheduleConfig =
    | Once(run_at: int)
    | Interval(every_seconds: nat, anchor_at: Option<int>)
    | CronSchedule(expression: string, timezone: string)

  datatype LocalTime = LocalTime(minute: nat, hour: nat, day: nat, month: nat, weekday: nat)

  /** The time-zone database: which names it knows, and the local fields of an instant. */
  datatype Zones = Zones(known: string -> bool, local: (int, string) -> Option<LocalTime>)

  const MAX_CRON_SEARCH_MINUTES: nat := 60 * 24 * 366 * 5
  const MAX_INTERVAL_SECONDS: nat := 31_536_000

  predicate MatchesLocal(e: CronExpression, t: LocalTime) {
    && e.minute.Matches(t.minute) && e.hour.Matches(t.hour) && e.month.Matches(t.month)
    && (if e.day_of_month.any || e.day_of_week.any
        then e.day_of_month.Matches(t.day) && e.day_of_week.Matches(t.weekday)
        else e.day_of_month.Matches(t.day) || e.day_of_week.Matches(t.weekday))
  }

  predicate CronMatches(zones: Zones, e: CronExpression, ts: int, timezone: string) {
    var local := zones.local(ts, timezone);
    local.Some? && MatchesLocal(e, local.value)
  }

  /** Division that truncates toward zero, as the source's integers do. */
  function TruncDiv(a: int, b: int): int
    requires b > 0
  {
    if a >= 0 then a / b else -((-a) / b)
  }

  function FirstCandidate(base: int): int { (TruncDiv(base, 60) + 1) * 60 }

  ghost function FirstMatch(zones: Zones, e: CronExpression, timezone: string, candidate: int, remaining: nat): Option<int>
    decreases remaining
  {
    if remaining == 0 then None
    else if CronMatches(zones, e, candidate, timezone) then Some(candidate)
    else FirstMatch(zones, e, timezone, candidate + 60, remaining - 1)
  }

  ghost function NextRun(zones: Zones, schedule: ScheduleConfig, now: int, last: Option<int>)
    : Result<Option<int>, ScheduleError>
  {
    match schedule
    case Once(run_at) => Ok(if last.Some? then None else Some(run_at))
    case Interval(every, anchor) =>
      if every == 0 then Err(ZeroInterval)
      else Ok(Some((if last.Some? then last.value else anchor.GetOr(now)) + every))
    case CronSchedule(expression, timezone) =>
      if !zones.known(timezone) then Err(InvalidTimezone)
      else
        match ExpressionOf(expression)
        case Err(e) => Err(e)
        case Ok(cron) =>
          match FirstMatch(zones, cron, timezone, FirstCandidate(last.GetOr(now)), MAX_CRON_SEARCH_MINUTES)
          case Some(t) => Ok(Some(t))
          case None => Err(NoMatch)
  }

  ghost function RecoveryNextRun(zones: Zones, schedule: ScheduleConfig, now: int): Result<Option<int>, ScheduleError> {
    if schedule.Once? then Ok(None) else NextRun(zones, schedule, now, Some(now))
  }

  method ComputeNextRunAt(zones: Zones, schedule: ScheduleConfig, now: int, last: Option<int>)
    returns (r: Result<Option<int>, ScheduleError>)
    ensures r == NextRun(zones, schedule, now, last)
  {
    hide ExpressionOf, CronMatches;
    match schedule {
      case Once(run_at) =>
        r := Ok(if last.Some? then None else Some(run_at));
      case Interval(every, anchor) =>
        if every == 0 {
          return Err(ZeroInterval);
        }
        var base := if last.Some? then last.value + every else anchor.GetOr(now) + every;
        r := Ok(Some(base));
      case CronSchedule(expression, timezone) =>
        if !zones.known(timezone) {
          return Err(InvalidTimezone);
        }
        var cron := ParseCronExpression(expression);
        if cron.Err? {
          return Err(cron.error);
        }
        var candidate := FirstCandidate(last.GetOr(now));
        for i := 0 to MAX_CRON_SEARCH_MINUTES
          invariant FirstMatch(zones, cron.value, timezone, FirstCandidate(last.GetOr(now)), MAX_CRON_SEARCH_MINUTES)
                 == FirstMatch(zones, cron.value, timezone, candidate, MAX_CRON_SEARCH_MINUTES - i)
        {
          if CronMatches(zones, cron.value, candidate, timezone) {
            return Ok(Some(candidate));
          }
          candidate := candidate + 60;
        }
        r := Err(NoMatch);
    }
  }

  method ComputeRecoveryNextRunAt(zones: Zones, schedule: ScheduleConfig, now: int)
    returns (r: Result<Option<int>, ScheduleError>)
    ensures r == RecoveryNextRun(zones, schedule, now)
  {
    if schedule.Once? {
      return Ok(None);
    }
    r := ComputeNextRunAt(zones, schedule, now, Some(now));
  }

  function ValidateSchedule(zones: Zones, schedule: ScheduleConfig, parsed: Result<CronExpression, ScheduleError>): Option<ScheduleError> {
    match schedule
    case Once(_) => None
    case Interval(every, _) =>
      if every == 0 then Some(ZeroInterval) else if every > MAX_INTERVAL_SECONDS then Some(IntervalTooLong) else None
    case CronSchedule(_, timezone) =>
      if parsed.Err? then Some(parsed.error) else if !zones.known(timezone) then Some(InvalidTimezone) else None
  }

  ghost function ScheduleErrorOf(zones: Zones, schedule: ScheduleConfig): Option<ScheduleError> {
    ValidateSchedule(zones, schedule, if schedule.CronSchedule? then ExpressionOf(schedule.expression) else Err(FieldCount))
  }

  /** The schedules that are accepted: intervals of one second to a year, expressions that parse in a
      zone that is known. */
  ghost predicate Accepted(zones: Zones, schedule: ScheduleConfig) {
    match schedule
    case Once(_) => true
    case Interval(every, _) => 1 <= every <= 31_536_000
    case CronSchedule(expression, timezone) => ExpressionOf(expression).Ok? && zones.known(timezone)
  }

  // ----- what the search finds ----------------------------------------------------------

  lemma {:induction false} FirstMatchIsLeast(zones: Zones, e: CronExpression, timezone: string, candidate: int, remaining: nat)
    ensures var r := FirstMatch(zones, e, timezone, candidate, remaining);
            && (r.Some? ==>
                  && CronMatches(zones, e, r.value, timezone)
                  && candidate <= r.value < candidate + 60 * remaining && (r.value - candidate) % 60 == 0
                  && forall t :: candidate <= t < r.value && (t - candidate) % 60 == 0 ==> !CronMatches(zones, e, t, timezone))
            && (r.None? ==>
                  forall t :: candidate <= t < candidate + 60 * remaining && (t - candidate) % 60 == 0 ==>
                    !CronMatches(zones, e, t, timezone))
    decreases remaining
  {
    hide CronMatches;
    if remaining > 0 && !CronMatches(zones, e, candidate, timezone) {
      FirstMatchIsLeast(zones, e, timezone, candidate + 60, remaining - 1);
      forall t | candidate <= t && (t - candidate) % 60 == 0 && CronMatches(zones, e, t, timezone)
        ensures t == candidate || (candidate + 60 <= t && (t - (candidate + 60)) % 60 == 0)
      {
      }
    }
  }

  /** The search starts at the least multiple of 60 after the base exactly when the base is
      not negative or is itself such a multiple. */
  lemma FirstCandidateIsLeastIff(base: int)
    ensures FirstCandidate(base) > base && FirstCandidate(base) % 60 == 0
    ensures (forall t :: base < t < FirstCandidate(base) ==> t % 60 != 0) <==> base >= 0 || base % 60 == 0
  {
    if base < 0 && base % 60 != 0 {
      var skipped := FirstCandidate(base) - 60;
      assert base < skipped < FirstCandidate(base) && skipped % 60 == 0;
    }
  }

  /** For a non-negative base the next run of a cron schedule is the least multiple of 60
      strictly after the base that matches; the search fails only if none of its candidates does. */
  lemma CronNextRunIsLeast(zones: Zones, expression: string, timezone: string, now: int, last: Option<int>)
    requires last.GetOr(now) >= 0
    requires zones.known(timezone) && ExpressionOf(expression).Ok?
    ensures var base := last.GetOr(now);
            var e := ExpressionOf(expression).value;
            match NextRun(zones, CronSchedule(expression, timezone), now, last)
            case Ok(Some(t)) =>
              && t > base && t % 60 == 0 && CronMatches(zones, e, t, timezone)
              && forall u :: base < u < t && u % 60 == 0 ==> !CronMatches(zones, e, u, timezone)
            case Ok(None) => false
            case Err(error) =>
              && error == NoMatch
              && forall u :: base < u <= base + 60 * MAX_CRON_SEARCH_MINUTES && u % 60 == 0 ==> !CronMatches(zones, e, u, timezone)
  {
    hide ExpressionOf, CronMatches;
    var base := last.GetOr(now);
    var e := ExpressionOf(expression).value;
    FirstCandidateIsLeastIff(base);
    FirstMatchIsLeast(zones, e, timezone, FirstCandidate(base), MAX_CRON_SEARCH_MINUTES);
    forall u | base < u && u % 60 == 0
      ensures FirstCandidate(base) <= u && (u - FirstCandidate(base)) % 60 == 0
    {
    }
  }

  /** A next run computed from `last == now` lies strictly after `now`, for every kind of schedule. */
  lemma NextRunIsLater(zones: Zones, schedule: ScheduleConfig, now: int)
    ensures var r := NextRun(zones, schedule, now, Some(now)); r.Ok? && r.value.Some? ==> r.value.value > now
  {
    hide ExpressionOf, CronMatches;
    if schedule.CronSchedule? && ExpressionOf(schedule.expression).Ok? {
      FirstCandidateIsLeastIff(now);
      FirstMatchIsLeast(zones, ExpressionOf(schedule.expression).value, schedule.timezone, FirstCandidate(now), MAX_CRON_SEARCH_MINUTES);
    }
  }
}
