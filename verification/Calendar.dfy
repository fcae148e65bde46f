/** Coordinated universal time on the Gregorian calendar, and a schedule whose next run lies
    beyond the search window of src/orchestration/scheduler.rs. */
module Calendar {
  import opened Prelude
  import opened Numerals
  import opened Cron
  import opened CronText
  import opened CronMeaning
  import opened Schedule

  /** Day of the year counted from 1 March, for a day counted from 1 January 1970. */
  function DayOfYear(days: int): nat {
    var inEra := (days + 719_468) % 146_097;
    var year := (inEra - inEra / 1460 + inEra / 36_524 - inEra / 146_096) / 365;
    var d := inEra - (365 * year + year / 4 - year / 100);
    if d >= 0 then d else 0
  }

  /** Month and day of the month. */
  function MonthDay(days: int): (nat, nat) {
    var d := DayOfYear(days);
    var m := (5 * d + 2) / 153;
    (if m < 10 then m + 3 else m - 9, d - (153 * m + 2) / 5 + 1)
  }

  function LocalUtc(ts: int): LocalTime {
    var days := ts / 86_400;
    LocalTime((ts / 60) % 60, (ts / 3600) % 24, MonthDay(days).1, MonthDay(days).0, (days + 4) % 7)
  }

  /** The one zone every installation knows. */
  function Utc(): Zones { Zones(tz => tz == "UTC", (ts: int, tz: string) => Some(LocalUtc(ts))) }

  /** Day 0, and every day whole cycles of 400 years away from it, is 1 January. */
  lemma CyclesStartAtNewYear(days: int)
    requires days % 146_097 == 0
    ensures MonthDay(days) == (1, 1)
  {
    var inEra := (days + 719_468) % 146_097;
    assert inEra == 135_080;
    assert DayOfYear(days) == 306;
  }

  // ----- 29 February --------------------------------------------------------------------

  /** Midnight of 29 February 2096. */
  const LEAP_DAY: int := 46_080
  const LEAP: int := 46_080 * 86_400

  const AT_ZERO: Field := [Segment(One(Number(0)), None)]
  const ON_29: Field := [Segment(One(Number(29)), None)]
  const IN_FEBRUARY: Field := [Segment(One(Number(2)), None)]
  const ANY_DAY: Field := [Segment(All, None)]

  /** Midnight on 29 February. */
  const LEAP_TEXT := "0 0 29 2 *"

  lemma LeapTextIs()
    ensures ExpressionText(AT_ZERO, AT_ZERO, ON_29, IN_FEBRUARY, ANY_DAY) == LEAP_TEXT
  {
    assert Digits(10, 29) == [2] + [9] && Digits(10, 0) == [0] && Digits(10, 2) == [2];
    assert Decimal(0) == "0" && Decimal(2) == "2" && Decimal(29) == "29";
  }

  function LeapSchedule(): ScheduleConfig { CronSchedule(LEAP_TEXT, "UTC") }

  lemma OneNumber(v: u32, min: nat, max: nat, aliases: AliasKind)
    requires min <= v <= max && !(aliases == Weekday && v == 7)
    ensures var r := FieldOf(FieldText([Segment(One(Number(v)), None)]), min, max, aliases);
            r.Ok? && forall w: nat :: r.value.Matches(w) <==> w == v
  {
    hide FieldOf, FieldText;
    var segments := [Segment(One(Number(v)), None)];
    FieldReadsBack(segments, min, max, aliases);
    assert Meaning(segments[0], min, max, aliases) == Ok(Progression(v, v, 1));
    assert forall i, w :: 0 <= i < |segments| && Covers(segments[i], min, max, aliases, w) ==> w == v;
    assert v == v + 0 * 1;
    assert Covers(segments[0], min, max, aliases, v) && v == Fold(aliases, v);
  }

  /** What the schedule matches. */
  lemma LeapParses()
    ensures var r := ExpressionOf(LEAP_TEXT);
            r.Ok? && forall t :: MatchesLocal(r.value, t) <==> t.minute == 0 && t.hour == 0 && t.day == 29 && t.month == 2
  {
    hide FieldOf, FieldText, ExpressionText;
    LeapTextIs();
    ExpressionReadsBack(AT_ZERO, AT_ZERO, ON_29, IN_FEBRUARY, ANY_DAY);
    OneNumber(0, 0, 59, NoAlias);
    OneNumber(0, 0, 23, NoAlias);
    OneNumber(29, 1, 31, NoAlias);
    OneNumber(2, 1, 12, Month);
    FieldReadsBack(ANY_DAY, 0, 7, Weekday);
  }

  /** 29 February is the 366th day from 1 March. */
  lemma LeapDayIsLast(days: int)
    ensures MonthDay(days) == (2, 29) ==> DayOfYear(days) == 365
  {
  }

  lemma LeapDayIsOne()
    ensures MonthDay(LEAP_DAY) == (2, 29)
  {
    assert (LEAP_DAY + 719_468) % 146_097 == 35_063;
    assert DayOfYear(LEAP_DAY) == 365;
  }

  /** 2100 is no leap year: the 1,830 days after 29 February 2096 hold no other one. */
  lemma NoLeapDay(days: int)
    requires LEAP_DAY < days <= LEAP_DAY + 1830
    ensures DayOfYear(days) < 365
  {
    var inEra := (days + 719_468) % 146_097;
    assert inEra == days + 719_468 - 5 * 146_097;
    assert 35_064 <= inEra <= 36_893;
    var year := (inEra - inEra / 1460 + inEra / 36_524 - inEra / 146_096) / 365;
    assert 96 <= year <= 101;
  }

  lemma LeapMinute(ts: int)
    requires LEAP <= ts
    ensures ts / 60 == LEAP / 60 <==> ts / 86_400 == LEAP_DAY && (ts / 3600) % 24 == 0 && (ts / 60) % 60 == 0
  {
    assert LEAP / 60 == LEAP_DAY * 1440;
  }

  lemma LeapMatches(e: CronExpression, ts: int)
    requires ExpressionOf(LEAP_TEXT) == Ok(e) && LEAP <= ts && ts / 86_400 <= LEAP_DAY + 1830
    ensures CronMatches(Utc(), e, ts, "UTC") <==> ts / 60 == LEAP / 60
  {
    hide ExpressionOf, MonthDay, DayOfYear;
    LeapParses();
    LeapDayIsOne();
    LeapMinute(ts);
    var days := ts / 86_400;
    assert days >= LEAP_DAY;
    if days > LEAP_DAY {
      NoLeapDay(days);
      LeapDayIsLast(days);
    }
  }

  /** Just before that midnight the search finds it. */
  lemma LeapIsNext()
    ensures NextRun(Utc(), LeapSchedule(), LEAP - 60, None) == Ok(Some(LEAP))
    ensures ScheduleErrorOf(Utc(), LeapSchedule()).None?
  {
    hide ExpressionOf, CronMatches;
    LeapParses();
    LeapMatches(ExpressionOf(LEAP_TEXT).value, LEAP);
    assert FirstCandidate(LEAP - 60) == LEAP;
  }

  /** From any minute of that day on, it finds nothing. */
  lemma LeapIsLast(base: int, now: int)
    requires LEAP <= base < LEAP + 86_400 && base % 60 == 0
    ensures NextRun(Utc(), LeapSchedule(), now, Some(base)) == Err(NoMatch)
  {
    hide ExpressionOf, CronMatches;
    LeapParses();
    var e := ExpressionOf(LEAP_TEXT).value;
    FirstMatchIsLeast(Utc(), e, "UTC", FirstCandidate(base), MAX_CRON_SEARCH_MINUTES);
    var r := FirstMatch(Utc(), e, "UTC", FirstCandidate(base), MAX_CRON_SEARCH_MINUTES);
    assert FirstCandidate(base) == base + 60;
    if r.Some? { LeapMatches(e, r.value); }
  }

  // ----- both day fields restricted -----------------------------------------------------

  const ON_13: Field := [Segment(One(Number(13)), None)]
  const ON_FRIDAY: Field := [Segment(One(Number(5)), None)]

  lemma FridayTextIs()
    ensures ExpressionText(AT_ZERO, AT_ZERO, ON_13, ANY_DAY, ON_FRIDAY) == "0 0 13 * 5"
  {
    assert Digits(10, 13) == [1] + [3] && Digits(10, 0) == [0] && Digits(10, 5) == [5];
    assert Decimal(0) == "0" && Decimal(13) == "13" && Decimal(5) == "5";
  }

  lemma OneNumberHolds(v: u32, min: nat, max: nat, aliases: AliasKind, w: nat)
    requires min <= v <= max && !(aliases == Weekday && v == 7)
    ensures var field := [Segment(One(Number(v)), None)];
            FieldParses(field, min, max, aliases) && (Holds(field, min, max, aliases, w) <==> w == v)
  {
    var field := [Segment(One(Number(v)), None)];
    assert Meaning(field[0], min, max, aliases) == Ok(Progression(v, v, 1));
    assert forall i, x :: 0 <= i < |field| && Covers(field[i], min, max, aliases, x) ==> x == v;
    assert v == v + 0 * 1;
    assert Covers(field[0], min, max, aliases, v);
  }

  lemma FridayMeans(t: LocalTime)
    ensures Means(AT_ZERO, AT_ZERO, ON_13, ANY_DAY, ON_FRIDAY, t) <==> t.minute == 0 && t.hour == 0 && (t.day == 13 || t.weekday == 5)
  {
    hide Holds, FieldParses;
    OneNumberHolds(0, 0, 59, NoAlias, t.minute);
    OneNumberHolds(0, 0, 23, NoAlias, t.hour);
    OneNumberHolds(13, 1, 31, NoAlias, t.day);
    OneNumberHolds(5, 0, 7, Weekday, t.weekday);
    assert Holds(ANY_DAY, 1, 12, Month, t.month) by { StarHolds(1, 12, Month, t.month); }
  }

  lemma StarHolds(min: nat, max: nat, aliases: AliasKind, v: nat)
    ensures Holds(STAR, min, max, aliases, v)
  {
  }

  /** "On the 13th, and on Fridays": from the start of 1970, a Thursday, the next run is Friday, 2
      January. */
  lemma FridayOrThirteenth()
    ensures NextRun(Utc(), CronSchedule("0 0 13 * 5", "UTC"), 0, None) == Ok(Some(86_400))
  {
    hide ExpressionOf, ExpressionText, Means, FieldParses, MonthDay, NextRun;
    FridayTextIs();
    ParsesIff(AT_ZERO, AT_ZERO, ON_13, ANY_DAY, ON_FRIDAY);
    OneNumberHolds(0, 0, 59, NoAlias, 0);
    OneNumberHolds(0, 0, 23, NoAlias, 0);
    OneNumberHolds(13, 1, 31, NoAlias, 0);
    OneNumberHolds(5, 0, 7, Weekday, 0);
    assert FieldParses(ANY_DAY, 1, 12, Month) by { StarParses(1, 12, Month); }
    CronNextRunIsFirstMeant(Utc(), "UTC", AT_ZERO, AT_ZERO, ON_13, ANY_DAY, ON_FRIDAY, 0, None);
    assert SearchStart(0) == 60;
    FridayMeans(LocalUtc(86_400));
    assert MeansAt(Utc(), "UTC", AT_ZERO, AT_ZERO, ON_13, ANY_DAY, ON_FRIDAY, 86_400);
    forall u | 60 <= u < 86_400 && u % 60 == 0 ensures !MeansAt(Utc(), "UTC", AT_ZERO, AT_ZERO, ON_13, ANY_DAY, ON_FRIDAY, u) {
      FridayMeans(LocalUtc(u));
      NotMidnight(u);
    }
  }

  lemma StarParses(min: nat, max: nat, aliases: AliasKind)
    ensures FieldParses(STAR, min, max, aliases)
  {
  }

  lemma NotMidnight(u: int)
    requires 60 <= u < 86_400 && u % 60 == 0
    ensures (u / 60) % 60 != 0 || (u / 3600) % 24 != 0
  {
  }
}
