/** Written cron fields read back: what a field in cron's own notation means, independently of
    the parser, and that the parser (src/orchestration/scheduler.rs) finds exactly that. */
module CronText {
  import opened Prelude
  import opened Numerals
  import opened Text
  import opened Cron

  predicate IsLetter(c: char) { 'a' <= c <= 'z' || 'A' <= c <= 'Z' }

  type Word = s: string | s != "" && forall i :: 0 <= i < |s| ==> IsLetter(s[i]) witness "x"

  /** A number or a name. */
  datatype Atom = Number(value: u32) | Named(text: Word)

  datatype Range = All | One(atom: Atom) | Between(lo: Atom, hi: Atom)

  datatype Segment = Segment(range: Range, step: Option<u32>)

  function AtomText(a: Atom): string {
    match a
    case Number(v) => Decimal(v)
    case Named(text) => text
  }

  function RangeText(r: Range): string {
    match r
    case All => "*"
    case One(a) => AtomText(a)
    case Between(lo, hi) => AtomText(lo) + ['-'] + AtomText(hi)
  }

  function SegmentText(s: Segment): string {
    match s.step
    case None => RangeText(s.range)
    case Some(n) => RangeText(s.range) + ['/'] + Decimal(n)
  }

  /** Segments separated by commas. */
  function FieldText(segments: seq<Segment>): string
    requires segments != []
  {
    if |segments| == 1 then SegmentText(segments[0])
    else FieldText(segments[..|segments| - 1]) + [','] + SegmentText(segments[|segments| - 1])
  }

  // ----- what it means ------------------------------------------------------------------

  /** The number a name stands for: months count from 1, weekdays from Sunday, 0. */
  function NameValue(text: Word, aliases: AliasKind): Option<nat> {
    match aliases
    case NoAlias => None
    case Month => (match NameIndex(MONTHS, ToAsciiLower(text)) case None => None case Some(i) => Some(i + 1))
    case Weekday => NameIndex(WEEKDAYS, ToAsciiLower(text))
  }

  function AtomMeaning(a: Atom, min: nat, max: nat, aliases: AliasKind): Result<nat, ScheduleError> {
    match a
    case Number(v) => if min <= v <= max then Ok(v) else Err(OutOfBounds)
    case Named(text) =>
      match NameValue(text, aliases)
      case None => Err(InvalidValue)
      case Some(v) => if min <= v <= max then Ok(v) else Err(OutOfBounds)
  }

  function RangeMeaning(r: Range, min: nat, max: nat, aliases: AliasKind): Result<(nat, nat), ScheduleError> {
    match r
    case All => Ok((min, max))
    case One(a) => (match AtomMeaning(a, min, max, aliases) case Err(e) => Err(e) case Ok(v) => Ok((v, v)))
    case Between(a, b) =>
      match AtomMeaning(a, min, max, aliases)
      case Err(e) => Err(e)
      case Ok(lo) => match AtomMeaning(b, min, max, aliases) case Err(e) => Err(e) case Ok(hi) => Ok((lo, hi))
  }

  /** The numbers a segment covers, or why it is refused. A step after a single value changes
      nothing. */
  function Meaning(s: Segment, min: nat, max: nat, aliases: AliasKind): Result<Progression, ScheduleError> {
    if s.step == Some(0) then Err(ZeroStep)
    else
      match RangeMeaning(s.range, min, max, aliases)
      case Err(e) => Err(e)
      case Ok((lo, hi)) => if lo <= hi then Ok(Progression(lo, hi, s.step.GetOr(1))) else Err(InvalidRange)
  }

  // ----- reading numbers ----------------------------------------------------------------

  lemma NoSign(n: nat, c: char)
    requires !IsDigit(c)
    ensures c !in Decimal(n)
  {
    hide Decimal;
    var s := Decimal(n);
    assert forall i :: 0 <= i < |s| ==> IsDigit(s[i]);
  }

  lemma {:induction false} DigitsAreNoName(s: string, names: seq<string>)
    requires s != "" && IsDigit(s[0]) && forall i :: 0 <= i < |names| ==> names[i] != "" && !IsDigit(names[i][0])
    ensures NameIndex(names, s) == None
  {
    if names != [] { DigitsAreNoName(s, names[1..]); }
  }

  lemma NumberReadsBack(v: u32, min: nat, max: nat, aliases: AliasKind)
    ensures ParseAtom(Decimal(v), min, max, aliases) == AtomMeaning(Number(v), min, max, aliases)
  {
    hide Decimal, ParseU32, NameIndex;
    var s := Decimal(v);
    assert ToAsciiLower(s) == s by {
      forall i | 0 <= i < |s| ensures ToAsciiLower(s)[i] == s[i] { assert IsDigit(s[i]); }
    }
    ParseU32OfDecimal(v);
    assert IsDigit(s[0]);
    DigitsAreNoName(s, MONTHS);
    DigitsAreNoName(s, WEEKDAYS);
  }

  lemma {:induction false} NameIndexInRange(names: seq<string>, name: string)
    ensures var r := NameIndex(names, name); r.Some? ==> r.value < |names|
  {
    if names != [] { NameIndexInRange(names[1..], name); }
  }

  lemma WordReadsBack(text: Word, min: nat, max: nat, aliases: AliasKind)
    ensures ParseAtom(text, min, max, aliases) == AtomMeaning(Named(text), min, max, aliases)
  {
    hide NameIndex, DecimalValue;
    var lower := ToAsciiLower(text);
    assert IsLetter(text[0]) && !IsDigit(lower[0]) && lower[0] != '+';
    NameIndexInRange(MONTHS, lower);
    NameIndexInRange(WEEKDAYS, lower);
  }

  lemma AtomReadsBack(a: Atom, min: nat, max: nat, aliases: AliasKind)
    ensures ParseAtom(AtomText(a), min, max, aliases) == AtomMeaning(a, min, max, aliases)
  {
    hide ParseAtom, AtomMeaning, Decimal;
    match a
    case Number(v) => NumberReadsBack(v, min, max, aliases);
    case Named(text) => WordReadsBack(text, min, max, aliases);
  }

  lemma {:induction false} NameIndexIs(names: seq<string>, name: string)
    ensures match NameIndex(names, name)
            case Some(i) => i < |names| && names[i] == name
            case None => name !in names
  {
    if names != [] { NameIndexIs(names[1..], name); }
  }

  lemma MonthIndex(name: string)
    ensures NameIndex(MONTHS, name) ==
              if name == "jan" then Some(0) else if name == "feb" then Some(1) else if name == "mar" then Some(2)
              else if name == "apr" then Some(3) else if name == "may" then Some(4) else if name == "jun" then Some(5)
              else if name == "jul" then Some(6) else if name == "aug" then Some(7) else if name == "sep" then Some(8)
              else if name == "oct" then Some(9) else if name == "nov" then Some(10) else if name == "dec" then Some(11)
              else None
  {
    hide NameIndex;
    NameIndexIs(MONTHS, name);
  }

  lemma WeekdayIndex(name: string)
    ensures NameIndex(WEEKDAYS, name) ==
              if name == "sun" then Some(0) else if name == "mon" then Some(1) else if name == "tue" then Some(2)
              else if name == "wed" then Some(3) else if name == "thu" then Some(4) else if name == "fri" then Some(5)
              else if name == "sat" then Some(6) else None
  {
    hide NameIndex;
    NameIndexIs(WEEKDAYS, name);
  }

  /** The names there are, in any case, and no others. */
  lemma NamesMean(text: Word)
    ensures NameValue(text, Month) ==
              var name := ToAsciiLower(text);
              if name == "jan" then Some(1) else if name == "feb" then Some(2) else if name == "mar" then Some(3)
              else if name == "apr" then Some(4) else if name == "may" then Some(5) else if name == "jun" then Some(6)
              else if name == "jul" then Some(7) else if name == "aug" then Some(8) else if name == "sep" then Some(9)
              else if name == "oct" then Some(10) else if name == "nov" then Some(11) else if name == "dec" then Some(12)
              else None
    ensures NameValue(text, Weekday) ==
              var name := ToAsciiLower(text);
              if name == "sun" then Some(0) else if name == "mon" then Some(1) else if name == "tue" then Some(2)
              else if name == "wed" then Some(3) else if name == "thu" then Some(4) else if name == "fri" then Some(5)
              else if name == "sat" then Some(6) else None
    ensures NameValue(text, NoAlias) == None
  {
    hide ToAsciiLower, NameIndex;
    MonthIndex(ToAsciiLower(text));
    WeekdayIndex(ToAsciiLower(text));
  }

  lemma SplitOnceAt(a: string, c: char, b: string)
    requires c !in a
    ensures SplitOnce(a + [c] + b, c) == Some((a, b))
  {
    IndexOfAt(a, c, b);
    var s := a + [c] + b;
    assert s[..|a|] == a && s[|a| + 1..] == b;
  }

  lemma NoSplit(s: string, c: char)
    requires c !in s
    ensures SplitOnce(s, c) == None
  {
  }

  predicate IsPlain(c: char) { IsDigit(c) || IsLetter(c) }

  lemma NotInAtom(a: Atom, c: char)
    requires !IsPlain(c)
    ensures c !in AtomText(a) && AtomText(a) != "" && IsPlain(AtomText(a)[0])
  {
    hide Decimal;
    match a
    case Number(v) => NoSign(v, c); assert IsDigit(Decimal(v)[0]);
    case Named(text) => assert forall i :: 0 <= i < |text| ==> IsLetter(text[i]);
  }

  lemma NotInRange(r: Range, c: char)
    requires !IsPlain(c) && c != '*' && c != '-'
    ensures c !in RangeText(r)
  {
    hide AtomText;
    match r
    case All =>
    case One(a) => NotInAtom(a, c);
    case Between(lo, hi) =>
      NotInAtom(lo, c);
      NotInAtom(hi, c);
  }

  lemma RangeReadsBack(r: Range, min: nat, max: nat, aliases: AliasKind)
    requires min <= max
    ensures ParseRange(RangeText(r), min, max, aliases) == RangeMeaning(r, min, max, aliases)
  {
    hide AtomText, SplitOnce, ParseAtom, AtomMeaning;
    match r
    case All =>
    case One(a) =>
      NotInAtom(a, '*');
      NotInAtom(a, '-');
      NoSplit(AtomText(a), '-');
      AtomReadsBack(a, min, max, aliases);
    case Between(lo, hi) =>
      NotInAtom(lo, '-');
      SplitOnceAt(AtomText(lo), '-', AtomText(hi));
      AtomReadsBack(lo, min, max, aliases);
      AtomReadsBack(hi, min, max, aliases);
      assert IsPlain(RangeText(r)[0]);
  }

  lemma StepReadsBack(s: Segment)
    ensures ParseStep(SegmentText(s))
         == if s.step == Some(0) then Err(ZeroStep) else Ok((RangeText(s.range), s.step.GetOr(1)))
  {
    hide Decimal, SplitOnce, RangeText, ParseU32;
    NotInRange(s.range, '/');
    match s.step
    case None => NoSplit(SegmentText(s), '/');
    case Some(n) =>
      SplitOnceAt(RangeText(s.range), '/', Decimal(n));
      ParseU32OfDecimal(n);
  }

  /** A written segment is read as what it means, or refused with that error. */
  lemma SegmentReadsBack(s: Segment, min: nat, max: nat, aliases: AliasKind)
    requires min <= max
    ensures ParseSegment(SegmentText(s), min, max, aliases) == Meaning(s, min, max, aliases)
  {
    hide ParseStep, ParseRange, SegmentText, RangeText, RangeMeaning;
    StepReadsBack(s);
    RangeReadsBack(s.range, min, max, aliases);
  }

  // ----- reading fields -----------------------------------------------------------------

  lemma NoComma(s: Segment)
    ensures ',' !in SegmentText(s)
  {
    hide Decimal, RangeText;
    NotInRange(s.range, ',');
    match s.step
    case None =>
    case Some(n) => NoSign(n, ',');
  }

  function Texts(segments: seq<Segment>): (texts: seq<string>)
    ensures |texts| == |segments|
  {
    seq(|segments|, i requires 0 <= i < |segments| => SegmentText(segments[i]))
  }

  lemma {:induction false} SegmentsReadBack(segments: seq<Segment>)
    requires segments != []
    ensures Split(FieldText(segments), ',') == Texts(segments)
  {
    hide Split, SegmentText;
    var last := segments[|segments| - 1];
    NoComma(last);
    SplitWhole(SegmentText(last), ',');
    if |segments| > 1 {
      var init := segments[..|segments| - 1];
      SegmentsReadBack(init);
      SplitConcat(FieldText(init), ',', SegmentText(last));
      assert Texts(segments) == Texts(init) + [SegmentText(last)];
    }
  }

  lemma PlainStart(s: Segment)
    requires !s.range.All?
    ensures SegmentText(s) != "" && IsPlain(SegmentText(s)[0])
  {
    hide AtomText, Decimal;
    match s.range
    case One(a) => NotInAtom(a, '*');
    case Between(lo, _) => NotInAtom(lo, '*');
  }

  /** Only the single star is written as the wildcard. */
  lemma StarIsWildcard(segments: seq<Segment>)
    requires segments != []
    ensures FieldText(segments) == "*" <==> segments == [Segment(All, None)]
  {
    hide Split, Decimal;
    SegmentsReadBack(segments);
    SplitWhole("*", ',');
    var first := segments[0];
    if !first.range.All? { PlainStart(first); }
    if FieldText(segments) == "*" {
      assert Texts(segments)[0] == "*";
    }
  }

  lemma {:induction false} DenoteReadsBack(segments: seq<Segment>, min: nat, max: nat, aliases: AliasKind)
    requires min <= max
    ensures var d := Denote(Texts(segments), min, max, aliases);
            && (d.Ok? <==> forall i :: 0 <= i < |segments| ==> Meaning(segments[i], min, max, aliases).Ok?)
            && (d.Err? ==> exists i :: 0 <= i < |segments| && Meaning(segments[i], min, max, aliases) == Err(d.error)
                             && forall j :: 0 <= j < i ==> Meaning(segments[j], min, max, aliases).Ok?)
  {
    hide ParseSegment, SegmentText, Meaning, SegmentValues;
    if segments != [] {
      var init, last := segments[..|segments| - 1], segments[|segments| - 1];
      DenoteReadsBack(init, min, max, aliases);
      SegmentReadsBack(last, min, max, aliases);
      assert Texts(segments)[..|segments| - 1] == Texts(init);
      assert forall i :: 0 <= i < |init| ==> init[i] == segments[i];
      if Denote(Texts(init), min, max, aliases).Err? {
        var e := Denote(Texts(init), min, max, aliases).error;
        var i :| 0 <= i < |init| && Meaning(init[i], min, max, aliases) == Err(e)
                 && forall j :: 0 <= j < i ==> Meaning(init[j], min, max, aliases).Ok?;
        assert Meaning(segments[i], min, max, aliases) == Err(e);
      }
    }
  }

  /** Segment `s` of a field covers the number `v`. */
  ghost predicate Covers(s: Segment, min: nat, max: nat, aliases: AliasKind, v: nat) {
    Meaning(s, min, max, aliases).Ok? && InProgression(Meaning(s, min, max, aliases).value, v)
  }

  /** A written field is read as the union of what its segments cover, weekday 7 as 0; the star
      alone is the wildcard; the first refused segment refuses the field, with its error. */
  lemma FieldReadsBack(segments: seq<Segment>, min: nat, max: nat, aliases: AliasKind)
    requires segments != [] && min <= max
    ensures var r := FieldOf(FieldText(segments), min, max, aliases);
            && (segments == [Segment(All, None)] ==> r == Ok(CronField(true, {})))
            && (segments != [Segment(All, None)] ==>
                  && (r.Ok? <==> forall i :: 0 <= i < |segments| ==> Meaning(segments[i], min, max, aliases).Ok?)
                  && (r.Err? ==> exists i :: 0 <= i < |segments| && Meaning(segments[i], min, max, aliases) == Err(r.error)
                                   && forall j :: 0 <= j < i ==> Meaning(segments[j], min, max, aliases).Ok?)
                  && (r.Ok? ==> !r.value.any && forall v :: v in r.value.values <==>
                        exists i, w :: 0 <= i < |segments| && Covers(segments[i], min, max, aliases, w) && v == Fold(aliases, w)))
  {
    hide ParseSegment, SegmentText, Meaning, SegmentValues, Split, InProgression;
    StarIsWildcard(segments);
    SegmentsReadBack(segments);
    DenoteReadsBack(segments, min, max, aliases);
    var texts := Texts(segments);
    if Denote(texts, min, max, aliases).Ok? && segments != [Segment(All, None)] {
      forall i | 0 <= i < |segments| ensures ParseSegment(texts[i], min, max, aliases) == Meaning(segments[i], min, max, aliases) {
        assert texts[i] == SegmentText(segments[i]);
        SegmentReadsBack(segments[i], min, max, aliases);
      }
      forall v ensures v in Denote(texts, min, max, aliases).value <==>
                         exists i, w :: 0 <= i < |segments| && Covers(segments[i], min, max, aliases, w) && v == Fold(aliases, w)
      {
        FieldHoldsUnion(texts, min, max, aliases, v);
        if v in Denote(texts, min, max, aliases).value {
          var i, w :| 0 <= i < |texts| && ParseSegment(texts[i], min, max, aliases).Ok?
            && InProgression(ParseSegment(texts[i], min, max, aliases).value, w) && v == Fold(aliases, w);
          assert Covers(segments[i], min, max, aliases, w);
        }
      }
    }
  }

  // ----- reading expressions ------------------------------------------------------------

  lemma {:induction false} NotInField(segments: seq<Segment>, c: char)
    requires segments != [] && !IsPlain(c) && c !in {'*', '-', '/', ','}
    ensures c !in FieldText(segments)
  {
    hide Decimal, RangeText;
    var last := segments[|segments| - 1];
    NotInRange(last.range, c);
    if last.step.Some? { NoSign(last.step.value, c); }
    if |segments| > 1 { NotInField(segments[..|segments| - 1], c); }
  }

  lemma {:induction false} WordEnds(word: string, rest: string)
    requires forall i :: 0 <= i < |word| ==> !IsWhitespace(word[i])
    requires rest == "" || IsWhitespace(rest[0])
    ensures WordLength(word + rest) == |word|
  {
    hide IsWhitespace;
    if word == "" {
      assert word + rest == rest;
    } else {
      assert (word + rest)[1..] == word[1..] + rest;
      WordEnds(word[1..], rest);
    }
  }

  lemma FieldIsWord(segments: seq<Segment>)
    requires segments != []
    ensures FieldText(segments) != "" && forall i :: 0 <= i < |FieldText(segments)| ==> !IsWhitespace(FieldText(segments)[i])
  {
    hide Split, SegmentText;
    var text := FieldText(segments);
    SegmentsReadBack(segments);
    NoComma(segments[0]);
    TextIsNotEmpty(segments[0]);
    SplitWhole("", ',');
    assert Split(text, ',')[0] == SegmentText(segments[0]);
    forall i | 0 <= i < |text| ensures !IsWhitespace(text[i]) {
      if IsWhitespace(text[i]) { NotInField(segments, text[i]); }
    }
  }

  lemma TextIsNotEmpty(s: Segment)
    ensures SegmentText(s) != ""
  {
    hide Decimal;
    if !s.range.All? { PlainStart(s); }
  }

  lemma FirstWord(segments: seq<Segment>, rest: string)
    requires segments != []
    ensures SplitWhitespace(FieldText(segments) + " " + rest) == [FieldText(segments)] + SplitWhitespace(rest)
    ensures SplitWhitespace(FieldText(segments)) == [FieldText(segments)]
  {
    hide FieldText, WordLength;
    var word := FieldText(segments);
    FieldIsWord(segments);
    WordEnds(word, " " + rest);
    WordEnds(word, "");
    var s := word + " " + rest;
    assert s == word + (" " + rest) && word + "" == word;
    assert s[..|word|] == word && s[|word|..] == " " + rest;
    assert (" " + rest)[1..] == rest;
    assert word[..|word|] == word && word[|word|..] == "";
    assert s[0] == word[0];
  }

  type Field = s: seq<Segment> | s != [] witness [Segment(All, None)]

  function ExpressionText(minute: Field, hour: Field, day: Field, month: Field, weekday: Field): string {
    FieldText(minute) + " " + (FieldText(hour) + " " + (FieldText(day) + " " + (FieldText(month) + " " + FieldText(weekday))))
  }

  /** A written expression is read field by field, each with its own bounds and names; it is
      refused with the first refused field's error. */
  lemma ExpressionReadsBack(minute: Field, hour: Field, day: Field, month: Field, weekday: Field)
    ensures ExpressionOf(ExpressionText(minute, hour, day, month, weekday))
         == Assemble(FieldOf(FieldText(minute), 0, 59, NoAlias),
                     FieldOf(FieldText(hour), 0, 23, NoAlias),
                     FieldOf(FieldText(day), 1, 31, NoAlias),
                     FieldOf(FieldText(month), 1, 12, Month),
                     FieldOf(FieldText(weekday), 0, 7, Weekday))
  {
    hide FieldText, FieldOf, SplitWhitespace;
    var t4 := FieldText(weekday);
    var t3 := FieldText(month) + " " + t4;
    var t2 := FieldText(day) + " " + t3;
    var t1 := FieldText(hour) + " " + t2;
    FirstWord(weekday, "");
    FirstWord(month, t4);
    FirstWord(day, t3);
    FirstWord(hour, t2);
    FirstWord(minute, t1);
  }
}
