/** The file names the queue gives to requeued, recovered and outgoing messages, and what can
    be read back from them (src/queue/lifecycle.rs, src/queue/paths.rs, src/runtime/recovery.rs). */
module QueueNames {
  import opened Prelude
  import opened Numerals
  import opened Text

  /** `Path::extension`: what follows the last dot, unless that dot begins the name. */
  function Extension(name: string): (r: Option<string>)
    ensures r.Some? ==> '.' !in r.value
  {
    match LastIndexOf(name, '.')
    case None => None
    case Some(i) => if i == 0 then None else Some(name[i + 1..])
  }

  function FileStem(name: string): string {
    match LastIndexOf(name, '.')
    case None => name
    case Some(i) => if i == 0 then name else name[..i]
  }

  function StripPrefix(s: string, prefix: string): Option<string> {
    if prefix <= s then Some(s[|prefix|..]) else None
  }

  // ----- requeue names ------------------------------------------------------------------

  const REQUEUE_PREFIX := "requeue_a"

  /** `hash` stands for the short SHA-256 of its argument. */
  function RequeueName(hash: string -> string, original: string, attempt: nat, counter: nat): string {
    var digest := hash(original + ":" + Decimal(attempt));
    REQUEUE_PREFIX + (Decimal(attempt) + "_" + (digest + "_" + Decimal(counter)))
      + "." + Extension(original).GetOr("json")
  }

  function RequeueAttempt(name: string): u32 {
    match StripPrefix(FileStem(name), REQUEUE_PREFIX)
    case None => 0
    case Some(rest) =>
      match SplitOnce(rest, '_')
      case None => 0
      case Some((attempt, _)) => ParseU32(attempt).GetOr(0)
  }

  function NextAttempt(name: string): u32 { SaturatingSucc(RequeueAttempt(name)) }

  lemma FileStemAt(stem: string, ext: string)
    requires '.' !in ext && stem != ""
    ensures FileStem(stem + "." + ext) == stem && Extension(stem + "." + ext) == Some(ext)
  {
    LastIndexOfAt(stem, '.', ext);
    var name := stem + ['.'] + ext;
    assert name == stem + "." + ext;
    assert name[..|stem|] == stem && name[|stem| + 1..] == ext;
  }

  lemma StripPrefixOf(prefix: string, rest: string)
    ensures StripPrefix(prefix + rest, prefix) == Some(rest)
  {
  }

  /** The requeue name decodes to the attempt it encodes. */
  lemma RequeueNameDecodes(hash: string -> string, original: string, attempt: u32, counter: nat)
    ensures RequeueAttempt(RequeueName(hash, original, attempt, counter)) == attempt
  {
    hide Decimal;
    var ext := Extension(original).GetOr("json");
    var digits := Decimal(attempt);
    var tail := hash(original + ":" + digits) + "_" + Decimal(counter);
    var rest := digits + ['_'] + tail;
    var stem := REQUEUE_PREFIX + rest;
    assert RequeueName(hash, original, attempt, counter) == stem + "." + ext;
    FileStemAt(stem, ext);
    StripPrefixOf(REQUEUE_PREFIX, rest);
    NoUnderscore(attempt);
    IndexOfAt(digits, '_', tail);
    assert (digits + ['_'] + tail)[..|digits|] == digits;
    ParseU32OfDecimal(attempt);
  }

  lemma NoUnderscore(n: nat)
    ensures '_' !in Decimal(n) && '.' !in Decimal(n)
  {
    hide Decimal;
    assert forall i :: 0 <= i < |Decimal(n)| ==> IsDigit(Decimal(n)[i]);
  }

  function AfterLast(s: string, c: char): string {
    match LastIndexOf(s, c)
    case None => s
    case Some(i) => s[i + 1..]
  }

  /** The counter a requeue or dead-letter name was made with. */
  function CounterOf(name: string): nat { DecimalValue(AfterLast(FileStem(name), '_')) }

  /** The counter can be read back, so names made with different counters differ. */
  lemma RequeueNameCounts(hash: string -> string, original: string, attempt: nat, counter: nat)
    ensures CounterOf(RequeueName(hash, original, attempt, counter)) == counter
    ensures REQUEUE_PREFIX <= RequeueName(hash, original, attempt, counter)
  {
    hide Decimal, FileStem, LastIndexOf;
    RequeueStem(hash, original, attempt, counter);
    DecimalRoundTrip(counter);
  }

  lemma RequeueStem(hash: string -> string, original: string, attempt: nat, counter: nat)
    ensures AfterLast(FileStem(RequeueName(hash, original, attempt, counter)), '_') == Decimal(counter)
    ensures REQUEUE_PREFIX <= RequeueName(hash, original, attempt, counter)
  {
    hide Decimal;
    var digest := hash(original + ":" + Decimal(attempt));
    var front := REQUEUE_PREFIX + Decimal(attempt) + "_" + digest;
    var ext := Extension(original).GetOr("json");
    var name := RequeueName(hash, original, attempt, counter);
    assert name == (front + ['_'] + Decimal(counter)) + "." + ext;
    FileStemAt(front + ['_'] + Decimal(counter), ext);
    NoUnderscore(counter);
    LastIndexOfAt(front, '_', Decimal(counter));
    assert (front + ['_'] + Decimal(counter))[|front| + 1..] == Decimal(counter);
  }

  // ----- dead-letter names --------------------------------------------------------------

  function DeadLetterName(hash: string -> string, message_id: string, counter: nat): string {
    "failed_" + hash(message_id) + "_" + Decimal(counter) + ".json"
  }

  lemma DeadLetterNameCounts(hash: string -> string, message_id: string, counter: nat)
    ensures CounterOf(DeadLetterName(hash, message_id, counter)) == counter
  {
    hide Decimal, FileStem, LastIndexOf;
    DeadLetterStem(hash, message_id, counter);
    DecimalRoundTrip(counter);
  }

  lemma DeadLetterStem(hash: string -> string, message_id: string, counter: nat)
    ensures AfterLast(FileStem(DeadLetterName(hash, message_id, counter)), '_') == Decimal(counter)
  {
    hide Decimal;
    var front := "failed_" + hash(message_id);
    assert DeadLetterName(hash, message_id, counter) == (front + ['_'] + Decimal(counter)) + "." + "json";
    FileStemAt(front + ['_'] + Decimal(counter), "json");
    NoUnderscore(counter);
    LastIndexOfAt(front, '_', Decimal(counter));
    assert (front + ['_'] + Decimal(counter))[|front| + 1..] == Decimal(counter);
  }

  // ----- recovered names ----------------------------------------------------------------

  function RecoveredName(hash: string -> string, index: nat, name: string): string {
    "recovered_" + (Decimal(index) + "_" + (hash(name) + "." + Extension(name).GetOr("json")))
  }

  lemma RecoveredNamesDiffer(hash: string -> string, i: nat, a: string, j: nat, b: string)
    requires RecoveredName(hash, i, a) == RecoveredName(hash, j, b)
    ensures i == j
  {
    hide Decimal;
    var x := Decimal(i) + ['_'] + (hash(a) + "." + Extension(a).GetOr("json"));
    var y := Decimal(j) + ['_'] + (hash(b) + "." + Extension(b).GetOr("json"));
    assert RecoveredName(hash, i, a) == "recovered_" + x;
    assert RecoveredName(hash, j, b) == "recovered_" + y;
    assert x == ("recovered_" + x)[10..] == ("recovered_" + y)[10..] == y;
    NoUnderscore(i);
    NoUnderscore(j);
    SameSplitPoint(Decimal(i), hash(a) + "." + Extension(a).GetOr("json"), Decimal(j), hash(b) + "." + Extension(b).GetOr("json"), '_');
    DecimalRoundTrip(i);
    DecimalRoundTrip(j);
  }

  // ----- outgoing names -----------------------------------------------------------------

  function SanitizeComponentChar(c: char): char {
    if IsAsciiAlphanumeric(c) || c == '-' || c == '_' || c == '.' then c else '_'
  }

  function SanitizeComponent(raw: string): string { MapChars(raw, SanitizeComponentChar) }

  function OutgoingStem(channel: string, message_id: string, timestamp: int): string {
    if channel == "heartbeat" then SanitizeComponent(message_id)
    else SanitizeComponent(channel) + "_" + SanitizeComponent(message_id) + "_" + DecimalInt(timestamp)
  }

  function OutgoingName(channel: string, message_id: string, timestamp: int, index: nat): string {
    if index == 0 then OutgoingStem(channel, message_id, timestamp) + ".json"
    else OutgoingStem(channel, message_id, timestamp) + "_" + Decimal(index) + ".json"
  }

  lemma OutgoingNamesDiffer(channel: string, message_id: string, timestamp: int, i: nat, j: nat)
    requires OutgoingName(channel, message_id, timestamp, i) == OutgoingName(channel, message_id, timestamp, j)
    ensures i == j
  {
    hide Decimal, OutgoingStem;
    var stem := OutgoingStem(channel, message_id, timestamp);
    var x, y := OutgoingName(channel, message_id, timestamp, i), OutgoingName(channel, message_id, timestamp, j);
    assert |x| == |stem| + 5 <==> i == 0;
    assert |y| == |stem| + 5 <==> j == 0;
    if i != 0 && j != 0 {
      assert Decimal(i) == x[|stem| + 1..|x| - 5];
      assert Decimal(j) == y[|stem| + 1..|y| - 5];
      DecimalRoundTrip(i);
      DecimalRoundTrip(j);
    }
  }

  // ----- failure budget -----------------------------------------------------------------

  datatype Disposition = Requeued(attempt: u32) | DeadLettered(attempt: u32)

  function Max1(limit: u32): u32 { if limit >= 1 then limit else 1 }

  /** What `requeue_or_dead_letter_failure` decides for a processing file of this name. */
  function Dispose(name: string, limit: u32): Disposition {
    var attempt := NextAttempt(name);
    if attempt >= Max1(limit) then DeadLettered(attempt) else Requeued(attempt)
  }

  /** A message fails in handling again and again: the dispositions, until it is dead-lettered
      or `fuel` failures have passed. Counters of the names are arbitrary. */
  function Failures(hash: string -> string, name: string, limit: u32, counters: nat -> nat, k: nat, fuel: nat): seq<Disposition>
    decreases fuel
  {
    if fuel == 0 then []
    else
      match Dispose(name, limit)
      case DeadLettered(a) => [DeadLettered(a)]
      case Requeued(a) =>
        [Requeued(a)] + Failures(hash, RequeueName(hash, name, a, counters(k)), limit, counters, k + 1, fuel - 1)
  }

  function Countdown(from: nat, m: u32): (r: seq<Disposition>)
    requires 1 <= m && from < m
    decreases m - from
  {
    if from + 1 == m then [DeadLettered(m)] else [Requeued(from + 1)] + Countdown(from + 1, m)
  }

  /** The exact failure budget: from a name that decodes to attempt `a` below the budget m,
      a message that keeps failing is requeued with attempts a + 1 .. m - 1 and dead-lettered
      with attempt m. */
  lemma {:induction false} FailureBudget(hash: string -> string, name: string, limit: u32, counters: nat -> nat, k: nat, fuel: nat)
    requires RequeueAttempt(name) < Max1(limit) && fuel >= Max1(limit) - RequeueAttempt(name)
    ensures Failures(hash, name, limit, counters, k, fuel) == Countdown(RequeueAttempt(name), Max1(limit))
    decreases fuel
  {
    hide RequeueAttempt, RequeueName;
    var a := RequeueAttempt(name);
    var m := Max1(limit);
    assert NextAttempt(name) == a + 1;
    if a + 1 < m {
      var renamed := RequeueName(hash, name, a + 1, counters(k));
      RequeueNameDecodes(hash, name, a + 1, counters(k));
      FailureBudget(hash, renamed, limit, counters, k + 1, fuel - 1);
    }
  }

  /** For a fresh name: exactly m failures, the first m - 1 requeued in order, the last fatal. */
  lemma {:induction false} CountdownIs(from: nat, m: u32, i: nat)
    requires 1 <= m && from < m && i < m - from
    ensures |Countdown(from, m)| == m - from
    ensures Countdown(from, m)[i] == if from + i + 1 < m then Requeued(from + i + 1) else DeadLettered(m)
    decreases m - from
  {
    if from + 1 < m {
      CountdownIs(from + 1, m, if i == 0 then 0 else i - 1);
    }
  }

  /** What is decided, from the attempt in the name and the limit: one attempt more, and dead-lettered
      when that reaches the limit. */
  lemma DisposedByLimit(name: string, limit: u32)
    ensures var d := Dispose(name, limit);
            && (RequeueAttempt(name) < U32_MAX ==> d.attempt == RequeueAttempt(name) + 1)
            && (RequeueAttempt(name) == U32_MAX ==> d.attempt == U32_MAX)
            && (d.DeadLettered? <==> d.attempt >= limit)
  {
    hide RequeueAttempt;
  }

  /** Only requeue names carry attempts. */
  lemma FreshNamesHaveNone(name: string)
    requires !(REQUEUE_PREFIX <= name)
    ensures RequeueAttempt(name) == 0
  {
    hide LastIndexOf;
    assert FileStem(name) <= name;
  }

  /** A message that keeps failing from a fresh name on, under a limit of `limit` attempts: requeued
      with attempts 1 up to limit - 1 and dead-lettered with attempt `limit`; a limit of zero counts
      as one. */
  lemma FreshMessageIsTriedLimitTimes(hash: string -> string, name: string, limit: u32, counters: nat -> nat, k: nat, fuel: nat)
    requires !(REQUEUE_PREFIX <= name) && fuel >= limit && fuel >= 1
    ensures var ds := Failures(hash, name, limit, counters, k, fuel);
            && (limit >= 1 ==>
                  && |ds| == limit && ds[limit - 1] == DeadLettered(limit)
                  && forall i :: 0 <= i < limit - 1 ==> ds[i] == Requeued(i + 1))
            && (limit == 0 ==> ds == [DeadLettered(1)])
  {
    hide RequeueAttempt, Failures, Countdown;
    FreshNamesHaveNone(name);
    FailureBudget(hash, name, limit, counters, k, fuel);
    var ds := Failures(hash, name, limit, counters, k, fuel);
    CountdownIs(0, Max1(limit), 0);
    forall i | 0 <= i < |ds| ensures ds[i] == if i + 1 < Max1(limit) then Requeued(i + 1) else DeadLettered(Max1(limit)) {
      CountdownIs(0, Max1(limit), i);
    }
  }

  // ----- the names, spelled out ---------------------------------------------------------

  /** Requeued and recovered files keep their extension, or get `json`. */
  lemma RenamedFilesSpelledOut(hash: string -> string, stem: string, ext: string, attempt: nat, number: nat)
    requires stem != "" && '.' !in ext
    ensures RequeueName(hash, stem + "." + ext, attempt, number)
         == "requeue_a" + Decimal(attempt) + "_" + hash(stem + "." + ext + ":" + Decimal(attempt)) + "_" + Decimal(number) + "." + ext
    ensures RecoveredName(hash, number, stem + "." + ext) == "recovered_" + Decimal(number) + "_" + hash(stem + "." + ext) + "." + ext
  {
    hide Decimal, Extension;
    FileStemAt(stem, ext);
  }

  lemma BareFilesSpelledOut(hash: string -> string, name: string, attempt: nat, number: nat)
    requires '.' !in name
    ensures RequeueName(hash, name, attempt, number)
         == "requeue_a" + Decimal(attempt) + "_" + hash(name + ":" + Decimal(attempt)) + "_" + Decimal(number) + ".json"
    ensures RecoveredName(hash, number, name) == "recovered_" + Decimal(number) + "_" + hash(name) + ".json"
  {
    hide Decimal, LastIndexOf;
  }

  /** Dead letters are named by the message id; replies by channel, message and time, heartbeats by
      the message alone; a number follows when that name is taken. */
  lemma WrittenFilesSpelledOut(hash: string -> string, channel: string, id: string, time: int, number: nat)
    ensures DeadLetterName(hash, id, number) == "failed_" + hash(id) + "_" + Decimal(number) + ".json"
    ensures channel != "heartbeat" ==>
              OutgoingName(channel, id, time, 0) == SanitizeComponent(channel) + "_" + SanitizeComponent(id) + "_" + DecimalInt(time) + ".json"
    ensures channel != "heartbeat" && number > 0 ==>
              OutgoingName(channel, id, time, number)
                == SanitizeComponent(channel) + "_" + SanitizeComponent(id) + "_" + DecimalInt(time) + "_" + Decimal(number) + ".json"
    ensures channel == "heartbeat" ==> OutgoingName(channel, id, time, 0) == SanitizeComponent(id) + ".json"
    ensures channel == "heartbeat" && number > 0 ==>
              OutgoingName(channel, id, time, number) == SanitizeComponent(id) + "_" + Decimal(number) + ".json"
  {
    hide Decimal, DecimalInt, SanitizeComponent;
  }

  /** A sanitised name keeps letters, digits, `-`, `_` and `.`, and has `_` for everything else. */
  lemma SanitizedCharacters(raw: string, i: nat)
    requires i < |raw|
    ensures |SanitizeComponent(raw)| == |raw|
    ensures var c := raw[i];
            SanitizeComponent(raw)[i] ==
              if 'a' <= c <= 'z' || 'A' <= c <= 'Z' || '0' <= c <= '9' || c in {'-', '_', '.'} then c else '_'
  {
  }
}
