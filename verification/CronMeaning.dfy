/** What a written cron expression means at a local time, from its fields as written, and what the
    next-run search finds by that meaning (src/orchestration/scheduler.rs). */
module CronMeaning {
  import opened Prelude
  import opened Numerals
  import opened Cron
  import opened CronText
  import opened Schedule

  // ----- what one segment covers --------------------------------------------------------

  predicate StandsFor(a: Atom, aliases: AliasKind, v: nat) {
    match a
    case Number(n) => n == v
    case Named(text) => NameValue(text, aliases) == Some(v)
  }

  /** The range goes from `lo` to `hi`, both within the bounds of the field. */
  predicate Reaches(r: Range, min: nat, max: nat, aliases: AliasKind, lo: nat, hi: nat) {
    && min <= lo <= max && min <= hi <= max
    && match r
       case All => lo == min && hi == max
       case One(a) => StandsFor(a, aliases, lo) && hi == lo
       case Between(a, b) => StandsFor(a, aliases, lo) && StandsFor(b, aliases, hi)
  }

  /** The numbers of a segment's meaning are those its range reaches. */
  lemma MeaningReaches(s: Segment, min: nat, max: nat, aliases: AliasKind, lo: nat, hi: nat)
    requires min <= max && s.step != Some(0)
    ensures Meaning(s, min, max, aliases) == Ok(Progression(lo, hi, s.step.GetOr(1)))
       <==> Reaches(s.range, min, max, aliases, lo, hi) && lo <= hi
  {
    hide NameValue;
  }

  /** A segment covers the numbers from its first to its last, a step apart. */
  lemma CoversIff(s: Segment, min: nat, max: nat, aliases: AliasKind, v: nat)
    requires min <= max
    ensures Covers(s, min, max, aliases, v) <==>
              && s.step != Some(0)
              && exists lo: nat, hi: nat :: Reaches(s.range, min, max, aliases, lo, hi) && lo <= v <= hi && (v - lo) % s.step.GetOr(1) == 0
  {
    hide Meaning, Reaches, InProgression;
    var m, step: nat := Meaning(s, min, max, aliases), s.step.GetOr(1);
    StepOf(s, min, max, aliases);
    if Covers(s, min, max, aliases, v) {
      var p := m.value;
      ProgressionBounds(p, v);
      MeaningReaches(s, min, max, aliases, p.start, p.end);
      ProgressionIff(p.start, p.end, step, v);
    }
    if s.step != Some(0) {
      forall lo: nat, hi: nat | Reaches(s.range, min, max, aliases, lo, hi) && lo <= v <= hi && (v - lo) % step == 0
        ensures Covers(s, min, max, aliases, v)
      {
        MeaningReaches(s, min, max, aliases, lo, hi);
        ProgressionIff(lo, hi, step, v);
      }
    }
  }

  lemma StepOf(s: Segment, min: nat, max: nat, aliases: AliasKind)
    ensures Meaning(s, min, max, aliases).Ok? ==>
              s.step != Some(0) && Meaning(s, min, max, aliases).value.step == s.step.GetOr(1)
  {
    hide RangeMeaning;
  }

  lemma ProgressionBounds(p: Progression, v: nat)
    requires InProgression(p, v)
    ensures p.start <= v <= p.end
  {
  }

  lemma ProgressionIff(lo: nat, hi: nat, step: nat, v: nat)
    requires step >= 1 && lo <= v
    ensures InProgression(Progression(lo, hi, step), v) <==> v <= hi && (v - lo) % step == 0
  {
    if InProgression(Progression(lo, hi, step), v) {
      var k: nat :| v == lo + k * step;
      RemainderIs(k * step, step, k, 0);
    }
    if v <= hi && (v - lo) % step == 0 {
      var k: nat := (v - lo) / step;
      assert v == lo + k * step;
    }
  }

  // ----- what an expression means -------------------------------------------------------

  const STAR: Field := [Segment(All, None)]

  /** The field holds `v`: it is the lone star, or a segment covers `v`; 7 stands for Sunday, 0. */
  ghost predicate Holds(field: Field, min: nat, max: nat, aliases: AliasKind, v: nat) {
    || field == STAR
    || exists i, w :: 0 <= i < |field| && Covers(field[i], min, max, aliases, w)
         && (if aliases == Weekday && w == 7 then v == 0 else v == w)
  }

  /** Minute, hour and month must hold. Of the two day fields both must hold when either is a lone
      star, that is, the other one decides; when both are restricted, one is enough. */
  ghost predicate Means(minute: Field, hour: Field, day: Field, month: Field, weekday: Field, t: LocalTime) {
    && Holds(minute, 0, 59, NoAlias, t.minute)
    && Holds(hour, 0, 23, NoAlias, t.hour)
    && Holds(month, 1, 12, Month, t.month)
    && (if day == STAR || weekday == STAR
        then Holds(day, 1, 31, NoAlias, t.day) && Holds(weekday, 0, 7, Weekday, t.weekday)
        else Holds(day, 1, 31, NoAlias, t.day) || Holds(weekday, 0, 7, Weekday, t.weekday))
  }

  lemma FieldMeans(field: Field, min: nat, max: nat, aliases: AliasKind, v: nat)
    requires min <= max && FieldOf(FieldText(field), min, max, aliases).Ok?
    ensures var f := FieldOf(FieldText(field), min, max, aliases).value;
            (f.any <==> field == STAR) && (f.Matches(v) <==> Holds(field, min, max, aliases, v))
  {
    hide FieldOf, FieldText, Covers;
    FieldReadsBack(field, min, max, aliases);
    if field != STAR {
      var values := FieldOf(FieldText(field), min, max, aliases).value.values;
      if v in values {
        var i, w :| 0 <= i < |field| && Covers(field[i], min, max, aliases, w) && v == Fold(aliases, w);
        assert Covers(field[i], min, max, aliases, w);
      }
      if Holds(field, min, max, aliases, v) {
        var i, w :| 0 <= i < |field| && Covers(field[i], min, max, aliases, w) && (if aliases == Weekday && w == 7 then v == 0 else v == w);
        assert v == Fold(aliases, w);
      }
    }
  }

  /** The field is the lone star, or every segment of it has a meaning. */
  predicate FieldParses(field: Field, min: nat, max: nat, aliases: AliasKind) {
    field == STAR || forall i :: 0 <= i < |field| ==> Meaning(field[i], min, max, aliases).Ok?
  }

  /** A written expression parses when every field does. */
  lemma ParsesIff(minute: Field, hour: Field, day: Field, month: Field, weekday: Field)
    ensures ExpressionOf(ExpressionText(minute, hour, day, month, weekday)).Ok? <==>
              && FieldParses(minute, 0, 59, NoAlias) && FieldParses(hour, 0, 23, NoAlias) && FieldParses(day, 1, 31, NoAlias)
              && FieldParses(month, 1, 12, Month) && FieldParses(weekday, 0, 7, Weekday)
  {
    hide FieldOf, FieldText, Meaning, Covers, ExpressionText, ExpressionOf;
    ExpressionReadsBack(minute, hour, day, month, weekday);
    FieldReadsBack(minute, 0, 59, NoAlias);
    FieldReadsBack(hour, 0, 23, NoAlias);
    FieldReadsBack(day, 1, 31, NoAlias);
    FieldReadsBack(month, 1, 12, Month);
    FieldReadsBack(weekday, 0, 7, Weekday);
  }

  /** A written expression that parses matches exactly what it means. */
  lemma ExpressionMeans(minute: Field, hour: Field, day: Field, month: Field, weekday: Field, t: LocalTime)
    requires ExpressionOf(ExpressionText(minute, hour, day, month, weekday)).Ok?
    ensures MatchesLocal(ExpressionOf(ExpressionText(minute, hour, day, month, weekday)).value, t)
       <==> Means(minute, hour, day, month, weekday, t)
  {
    hide FieldOf, FieldText, ExpressionText, ExpressionOf, Holds;
    ExpressionReadsBack(minute, hour, day, month, weekday);
    FieldMeans(minute, 0, 59, NoAlias, t.minute);
    FieldMeans(hour, 0, 23, NoAlias, t.hour);
    FieldMeans(day, 1, 31, NoAlias, t.day);
    FieldMeans(month, 1, 12, Month, t.month);
    FieldMeans(weekday, 0, 7, Weekday, t.weekday);
  }

  // ----- the search ---------------------------------------------------------------------

  /** The first minute looked at: the first one after the base; from a negative base inside a
      minute, the second. */
  function SearchStart(base: int): int {
    var next := base - base % 60 + 60;
    if base < 0 && base % 60 != 0 then next + 60 else next
  }

  lemma SearchStarts(base: int)
    ensures FirstCandidate(base) == SearchStart(base)
  {
  }

  /** The instant's local time exists and the written expression means it. */
  ghost predicate MeansAt(zones: Zones, timezone: string, minute: Field, hour: Field, day: Field, month: Field, weekday: Field, ts: int) {
    zones.local(ts, timezone).Some? && Means(minute, hour, day, month, weekday, zones.local(ts, timezone).value)
  }

  /** For every base, and every written expression that parses: the next run is the first whole
      minute, from the search start on and within 2,635,200 minutes, that the expression means; the
      search fails exactly when there is none. */
  lemma CronNextRunIsFirstMeant(zones: Zones, timezone: string, minute: Field, hour: Field, day: Field, month: Field, weekday: Field,
                                now: int, last: Option<int>)
    requires zones.known(timezone) && ExpressionOf(ExpressionText(minute, hour, day, month, weekday)).Ok?
    ensures var start := SearchStart(if last.Some? then last.value else now);
            match NextRun(zones, CronSchedule(ExpressionText(minute, hour, day, month, weekday), timezone), now, last)
            case Ok(Some(t)) =>
              && start <= t < start + 60 * 2_635_200 && t % 60 == 0 && MeansAt(zones, timezone, minute, hour, day, month, weekday, t)
              && forall u :: start <= u < t && u % 60 == 0 ==> !MeansAt(zones, timezone, minute, hour, day, month, weekday, u)
            case Ok(None) => false
            case Err(error) =>
              && error == NoMatch
              && forall u :: start <= u < start + 60 * 2_635_200 && u % 60 == 0 ==>
                   !MeansAt(zones, timezone, minute, hour, day, month, weekday, u)
  {
    hide ExpressionOf, ExpressionText, Means, MatchesLocal, SearchStart;
    var base := last.GetOr(now);
    var e := ExpressionOf(ExpressionText(minute, hour, day, month, weekday)).value;
    SearchStarts(base);
    StartIsWhole(base);
    FirstMatchIsLeast(zones, e, timezone, FirstCandidate(base), MAX_CRON_SEARCH_MINUTES);
    forall u ensures CronMatches(zones, e, u, timezone) <==> MeansAt(zones, timezone, minute, hour, day, month, weekday, u) {
      if zones.local(u, timezone).Some? {
        ExpressionMeans(minute, hour, day, month, weekday, zones.local(u, timezone).value);
      }
    }
    forall u | u % 60 == 0 ensures (u - FirstCandidate(base)) % 60 == 0 {
    }
  }

  lemma StartIsWhole(base: int)
    ensures SearchStart(base) % 60 == 0 && SearchStart(base) > base
  {
  }

  // ----- the other schedules ------------------------------------------------------------

  /** A one-time schedule runs at its time, once; an interval one interval after the last run, or
      after the anchor, or after now. */
  lemma PlainNextRunIs(zones: Zones, schedule: ScheduleConfig, now: int, last: Option<int>)
    ensures schedule.Once? ==> NextRun(zones, schedule, now, None) == Ok(Some(schedule.run_at))
    ensures schedule.Once? && last.Some? ==> NextRun(zones, schedule, now, last) == Ok(None)
    ensures schedule.Interval? && schedule.every_seconds == 0 ==> NextRun(zones, schedule, now, last) == Err(ZeroInterval)
    ensures schedule.Interval? && schedule.every_seconds > 0 && last.Some? ==>
              NextRun(zones, schedule, now, last) == Ok(Some(last.value + schedule.every_seconds))
    ensures schedule.Interval? && schedule.every_seconds > 0 && schedule.anchor_at.Some? ==>
              NextRun(zones, schedule, now, None) == Ok(Some(schedule.anchor_at.value + schedule.every_seconds))
    ensures schedule.Interval? && schedule.every_seconds > 0 && schedule.anchor_at.None? ==>
              NextRun(zones, schedule, now, None) == Ok(Some(now + schedule.every_seconds))
  {
  }

  /** After a recovery a one-time schedule has no next run; any other goes on from now. */
  lemma RecoveryNextRunIs(zones: Zones, schedule: ScheduleConfig, now: int)
    ensures schedule.Once? ==> RecoveryNextRun(zones, schedule, now) == Ok(None)
    ensures !schedule.Once? ==> RecoveryNextRun(zones, schedule, now) == NextRun(zones, schedule, now, Some(now))
  {
  }

  /** A cron schedule fails before any search for an unknown zone, then for a refused expression. */
  lemma CronErrorsAre(zones: Zones, expression: string, timezone: string, now: int, last: Option<int>)
    ensures !zones.known(timezone) ==> NextRun(zones, CronSchedule(expression, timezone), now, last) == Err(InvalidTimezone)
    ensures zones.known(timezone) && ExpressionOf(expression).Err? ==>
              NextRun(zones, CronSchedule(expression, timezone), now, last) == Err(ExpressionOf(expression).error)
  {
    hide ExpressionOf, FirstMatch;
  }
}
