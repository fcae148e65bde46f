/** Cron expressions (src/orchestration/scheduler.rs): parsing by loops over segments and
    values, proved equal to what the expression denotes. */
module Cron {
  import opened Prelude
  import opened Numerals
  import opened Text

  datatype AliasKind = NoAlias | Month | Weekday

  datatype ScheduleError =
    | InvalidStep | ZeroStep | InvalidValue | OutOfBounds | InvalidRange | InvalidField
    | FieldCount | InvalidTimezone | ZeroInterval | IntervalTooLong | NoMatch

  datatype CronField = CronField(any: bool, values: set<nat>) {
    predicate Matches(value: nat) { any || value in values }
  }

  datatype CronExpression = CronExpression(
    minute: CronField, hour: CronField, day_of_month: CronField, month: CronField, day_of_week: CronField)

  const MONTHS: seq<string> := ["jan", "feb", "mar", "apr", "may", "jun", "jul", "aug", "sep", "oct", "nov", "dec"]
  const WEEKDAYS: seq<string> := ["sun", "mon", "tue", "wed", "thu", "fri", "sat"]

  function NameIndex(names: seq<string>, name: string): Option<nat> {
    if names == [] then None
    else if names[0] == name then Some(0)
    else
      var rest := NameIndex(names[1..], name);
      if rest.Some? then Some(rest.value + 1) else None
  }

  function AliasValue(lower: string, aliases: AliasKind): Option<u32> {
    var named :=
      match aliases
      case NoAlias => None
      case Month => var i := NameIndex(MONTHS, lower); if i.Some? then Some(i.value + 1) else None
      case Weekday => NameIndex(WEEKDAYS, lower);
    if named.Some? && named.value <= U32_MAX then named else ParseU32(lower)
  }

  function ParseAtom(raw: string, min: nat, max: nat, aliases: AliasKind): (r: Result<nat, ScheduleError>)
    ensures r.Ok? ==> min <= r.value <= max
  {
    match AliasValue(ToAsciiLower(raw), aliases)
    case None => Err(InvalidValue)
    case Some(v) => if v < min || v > max then Err(OutOfBounds) else Ok(v)
  }

  /** The arithmetic progression a segment stands for. */
  datatype Progression = Progression(start: nat, end: nat, step: nat)

  function ParseStep(raw: string): (r: Result<(string, nat), ScheduleError>)
    ensures r.Ok? ==> 1 <= r.value.1 <= U32_MAX
  {
    match SplitOnce(raw, '/')
    case None => Ok((raw, 1))
    case Some((range, stepRaw)) =>
      match ParseU32(stepRaw)
      case None => Err(InvalidStep)
      case Some(step) => if step == 0 then Err(ZeroStep) else Ok((range, step))
  }

  function ParseRange(raw: string, min: nat, max: nat, aliases: AliasKind): (r: Result<(nat, nat), ScheduleError>)
    requires min <= max
    ensures r.Ok? ==> min <= r.value.0 <= max && min <= r.value.1 <= max
  {
    if raw == "*" then Ok((min, max))
    else
      match SplitOnce(raw, '-')
      case Some((startRaw, endRaw)) =>
        (match ParseAtom(startRaw, min, max, aliases)
         case Err(e) => Err(e)
         case Ok(start) =>
           match ParseAtom(endRaw, min, max, aliases)
           case Err(e) => Err(e)
           case Ok(end) => Ok((start, end)))
      case None =>
        match ParseAtom(raw, min, max, aliases)
        case Err(e) => Err(e)
        case Ok(v) => Ok((v, v))
  }

  function ParseSegment(raw: string, min: nat, max: nat, aliases: AliasKind): (r: Result<Progression, ScheduleError>)
    requires min <= max
    ensures r.Ok? ==> min <= r.value.start <= r.value.end <= max && 1 <= r.value.step <= U32_MAX
  {
    match ParseStep(raw)
    case Err(e) => Err(e)
    case Ok((range, step)) =>
      match ParseRange(range, min, max, aliases)
      case Err(e) => Err(e)
      case Ok((start, end)) => if start > end then Err(InvalidRange) else Ok(Progression(start, end, step))
  }

  // ----- what a field denotes -----------------------------------------------------------

  ghost predicate InProgression(p: Progression, v: nat) {
    p.start <= v <= p.end && exists k: nat :: v == p.start + k * p.step
  }

  /** Sunday may be written 7; it is stored as 0. */
  function Fold(aliases: AliasKind, v: nat): nat {
    if aliases == Weekday && v == 7 then 0 else v
  }

  ghost function SegmentValues(p: Progression, aliases: AliasKind): set<nat> {
    set v | p.start <= v <= p.end && InProgression(p, v) :: Fold(aliases, v)
  }

  /** The union of the segments' progressions, or the first segment's error. */
  ghost function Denote(segments: seq<string>, min: nat, max: nat, aliases: AliasKind): Result<set<nat>, ScheduleError>
    requires min <= max
  {
    if segments == [] then Ok({})
    else
      match Denote(segments[..|segments| - 1], min, max, aliases)
      case Err(e) => Err(e)
      case Ok(values) =>
        match ParseSegment(segments[|segments| - 1], min, max, aliases)
        case Err(e) => Err(e)
        case Ok(p) => Ok(values + SegmentValues(p, aliases))
  }

  ghost function FieldOf(raw: string, min: nat, max: nat, aliases: AliasKind): Result<CronField, ScheduleError>
    requires min <= max
  {
    if raw == "*" then Ok(CronField(true, {}))
    else
      match Denote(Split(raw, ','), min, max, aliases)
      case Err(e) => Err(e)
      case Ok(values) => Ok(CronField(false, values))
  }

  lemma {:induction false} LaterTerm(k: nat, j: nat, step: nat)
    requires k < j
    ensures k * step + step <= j * step
    decreases j
  {
    assert j * step == (j - 1) * step + step;
    if k < j - 1 {
      LaterTerm(k, j - 1, step);
    }
  }

  lemma NextInProgression(k: nat, j: nat, step: nat)
    requires k * step <= j * step < k * step + step
    ensures j == k
  {
    if j < k {
      LaterTerm(j, k, step);
    } else if j > k {
      LaterTerm(k, j, step);
    }
  }

  /** `parse_cron_segment`: walks the progression, inserting each value into the field. */
  method AddSegment(raw: string, min: nat, max: nat, aliases: AliasKind, values0: set<nat>)
    returns (error: Option<ScheduleError>, values: set<nat>)
    requires min <= max <= U32_MAX
    ensures match ParseSegment(raw, min, max, aliases)
            case Err(e) => error == Some(e)
            case Ok(p) => error == None && values == values0 + SegmentValues(p, aliases)
  {
    hide ParseSegment;
    values := values0;
    var parsed := ParseSegment(raw, min, max, aliases);
    if parsed.Err? {
      return Some(parsed.error), values;
    }
    error := None;
    var p := parsed.value;
    var value := p.start;
    ghost var k: nat := 0;
    while value <= p.end
      invariant value == p.start + k * p.step
      invariant forall v :: v in values <==> v in values0 || exists w: nat :: w < value && InProgression(p, w) && v == Fold(aliases, w)
      decreases p.end - value
    {
      values := values + {Fold(aliases, value)};
      assert InProgression(p, value);
      forall w | value < w < value + p.step ensures !InProgression(p, w) {
        if InProgression(p, w) {
          var j: nat :| w == p.start + j * p.step;
          NextInProgression(k, j, p.step);
        }
      }
      if value + p.step > U32_MAX {
        break;
      }
      assert p.start + (k + 1) * p.step == value + p.step;
      value, k := value + p.step, k + 1;
    }
    forall v ensures v in values <==> v in values0 + SegmentValues(p, aliases) {
      if v in SegmentValues(p, aliases) {
        var w: nat :| p.start <= w <= p.end && InProgression(p, w) && v == Fold(aliases, w);
      }
    }
  }

  lemma {:induction false} SegmentsAreNotEmpty(segments: seq<string>, min: nat, max: nat, aliases: AliasKind)
    requires min <= max && segments != []
    ensures var d := Denote(segments, min, max, aliases); d.Ok? ==> d.value != {}
  {
    var last := segments[|segments| - 1];
    var parsed := ParseSegment(last, min, max, aliases);
    if parsed.Ok? {
      assert parsed.value.start == parsed.value.start + 0 * parsed.value.step;
      assert InProgression(parsed.value, parsed.value.start);
      assert Fold(aliases, parsed.value.start) in SegmentValues(parsed.value, aliases);
    }
  }

  /** `parse_cron_field`. The source's check for an empty field never fires. */
  method ParseCronField(raw: string, min: nat, max: nat, aliases: AliasKind)
    returns (r: Result<CronField, ScheduleError>)
    requires min <= max <= U32_MAX
    ensures r == FieldOf(raw, min, max, aliases)
  {
    hide ParseSegment, SegmentValues, Split;
    if raw == "*" {
      return Ok(CronField(true, {}));
    }
    var segments := Split(raw, ',');
    var values: set<nat> := {};
    for i := 0 to |segments|
      invariant Denote(segments[..i], min, max, aliases) == Ok(values)
    {
      var error;
      assert segments[..i + 1][..i] == segments[..i];
      error, values := AddSegment(segments[i], min, max, aliases, values);
      if error.Some? {
        DenoteStopsAtError(segments, i + 1, min, max, aliases);
        return Err(error.value);
      }
    }
    assert segments[..|segments|] == segments;
    SegmentsAreNotEmpty(segments, min, max, aliases);
    if values == {} {
      return Err(InvalidField);
    }
    r := Ok(CronField(false, values));
  }

  lemma {:induction false} DenoteStopsAtError(segments: seq<string>, n: nat, min: nat, max: nat, aliases: AliasKind)
    requires min <= max && n <= |segments| && Denote(segments[..n], min, max, aliases).Err?
    ensures Denote(segments, min, max, aliases) == Denote(segments[..n], min, max, aliases)
  {
    if n == |segments| {
      assert segments[..n] == segments;
    } else {
      var init := segments[..|segments| - 1];
      assert init[..n] == segments[..n];
      DenoteStopsAtError(init, n, min, max, aliases);
    }
  }

  /** A parsed field holds exactly the folded values of its segments' progressions. */
  lemma {:induction false} FieldHoldsUnion(segments: seq<string>, min: nat, max: nat, aliases: AliasKind, v: nat)
    requires min <= max && Denote(segments, min, max, aliases).Ok?
    ensures v in Denote(segments, min, max, aliases).value <==>
              exists i, w :: 0 <= i < |segments| && ParseSegment(segments[i], min, max, aliases).Ok?
                && InProgression(ParseSegment(segments[i], min, max, aliases).value, w) && v == Fold(aliases, w)
  {
    hide ParseSegment;
    if segments != [] {
      var init := segments[..|segments| - 1];
      var last := segments[|segments| - 1];
      FieldHoldsUnion(init, min, max, aliases, v);
      var p := ParseSegment(last, min, max, aliases).value;
      if v in SegmentValues(p, aliases) {
        var w: nat :| p.start <= w <= p.end && InProgression(p, w) && v == Fold(aliases, w);
        assert segments[|segments| - 1] == last;
      } else if v in Denote(init, min, max, aliases).value {
        var i, w :| 0 <= i < |init| && ParseSegment(init[i], min, max, aliases).Ok?
          && InProgression(ParseSegment(init[i], min, max, aliases).value, w) && v == Fold(aliases, w);
        assert segments[i] == init[i];
      } else {
        forall i, w | 0 <= i < |segments| && ParseSegment(segments[i], min, max, aliases).Ok?
          && InProgression(ParseSegment(segments[i], min, max, aliases).value, w)
          ensures v != Fold(aliases, w)
        {
          if i < |init| { assert segments[i] == init[i]; }
        }
      }
    }
  }

  /** Values stay inside the field's bounds, and weekday 7 is never stored. */
  lemma FieldStaysInBounds(raw: string, min: nat, max: nat, aliases: AliasKind, v: nat)
    requires min <= max && FieldOf(raw, min, max, aliases).Ok? && v in FieldOf(raw, min, max, aliases).value.values
    requires aliases == Weekday ==> min == 0 && max == 7
    ensures min <= v <= max && (aliases == Weekday ==> v < 7)
  {
    hide ParseSegment, Split;
    FieldHoldsUnion(Split(raw, ','), min, max, aliases, v);
  }

  // ----- expressions --------------------------------------------------------------------

  function WordLength(s: string): (n: nat)
    ensures n <= |s| && (s != "" && !IsWhitespace(s[0]) ==> n > 0)
  {
    if s == "" || IsWhitespace(s[0]) then 0 else 1 + WordLength(s[1..])
  }

  function SplitWhitespace(s: string): seq<string>
    decreases |s|
  {
    if s == "" then []
    else if IsWhitespace(s[0]) then SplitWhitespace(s[1..])
    else [s[..WordLength(s)]] + SplitWhitespace(s[WordLength(s)..])
  }

  type FieldResult = Result<CronField, ScheduleError>

  /** All five fields, or the first error in their order. */
  function Assemble(minute: FieldResult, hour: FieldResult, day: FieldResult, month: FieldResult, weekday: FieldResult)
    : Result<CronExpression, ScheduleError>
  {
    if minute.Err? then Err(minute.error)
    else if hour.Err? then Err(hour.error)
    else if day.Err? then Err(day.error)
    else if month.Err? then Err(month.error)
    else if weekday.Err? then Err(weekday.error)
    else Ok(CronExpression(minute.value, hour.value, day.value, month.value, weekday.value))
  }

  ghost function ExpressionOf(raw: string): Result<CronExpression, ScheduleError> {
    var fields := SplitWhitespace(raw);
    if |fields| != 5 then Err(FieldCount)
    else
      Assemble(FieldOf(fields[0], 0, 59, NoAlias), FieldOf(fields[1], 0, 23, NoAlias), FieldOf(fields[2], 1, 31, NoAlias),
               FieldOf(fields[3], 1, 12, Month), FieldOf(fields[4], 0, 7, Weekday))
  }

  method ParseCronExpression(raw: string) returns (r: Result<CronExpression, ScheduleError>)
    ensures r == ExpressionOf(raw)
  {
    hide FieldOf, SplitWhitespace;
    var fields := SplitWhitespace(raw);
    if |fields| != 5 {
      return Err(FieldCount);
    }
    var minute := ParseCronField(fields[0], 0, 59, NoAlias);
    if minute.Err? { return Err(minute.error); }
    var hour := ParseCronField(fields[1], 0, 23, NoAlias);
    if hour.Err? { return Err(hour.error); }
    var day := ParseCronField(fields[2], 1, 31, NoAlias);
    if day.Err? { return Err(day.error); }
    var month := ParseCronField(fields[3], 1, 12, Month);
    if month.Err? { return Err(month.error); }
    var weekday := ParseCronField(fields[4], 0, 7, Weekday);
    if weekday.Err? { return Err(weekday.error); }
    r := Ok(CronExpression(minute.value, hour.value, day.value, month.value, weekday.value));
  }
}
