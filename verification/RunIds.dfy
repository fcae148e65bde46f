/** Compact run ids (src/orchestration/transitions.rs): base-36 encoders as loops, decoding,
    and allocation against a store of existing runs. */
module RunIds {
  import opened Prelude
  import opened Numerals
  import opened Text

  const SUFFIX_WIDTH: nat := 4
  const SUFFIX_SPACE: nat := 36 * 36 * 36 * 36
  const MAX_GENERATION_ATTEMPTS: nat := 16

  function Base36(n: nat): string { Render(Digits(36, n)) }

  /** The last `width` base-36 digits of `n`. */
  function FixedDigits(n: nat, width: nat): (ds: seq<nat>)
    ensures |ds| == width && forall i :: 0 <= i < |ds| ==> ds[i] < 36
  {
    if width == 0 then [] else FixedDigits(n / 36, width - 1) + [n % 36]
  }

  function Base36Fixed(n: nat, width: nat): string { Render(FixedDigits(n, width)) }

  function DecodeBase36(s: string): nat { Value(36, Unrender(s)) }

  function Pow36(k: nat): nat { if k == 0 then 1 else 36 * Pow36(k - 1) }

  function Reversed(s: string): (r: string)
    ensures |r| == |s| && forall i :: 0 <= i < |s| ==> r[i] == s[|s| - 1 - i]
  {
    seq(|s|, i requires 0 <= i < |s| => s[|s| - 1 - i])
  }

  /** Pushes the digits of `value` from the last to the first, then reverses them. */
  method EncodeU64(value0: u64) returns (s: string)
    ensures s == Base36(value0) && DecodeBase36(s) == value0
  {
    Base36Decodes(value0);
    if value0 == 0 {
      return "0";
    }
    var value: nat := value0;
    var chars := "";
    while value > 0
      invariant value > 0 ==> Base36(value0) == Base36(value) + Reversed(chars)
      invariant value == 0 ==> Base36(value0) == Reversed(chars)
    {
      var idx := value % 36;
      ghost var before := chars;
      chars := chars + [DigitChar(idx)];
      assert Reversed(chars) == [DigitChar(idx)] + Reversed(before);
      PeelDigit(value);
      value := value / 36;
    }
    s := Reversed(chars);
  }

  lemma PeelDigit(n: nat)
    requires n > 0
    ensures Base36(n) == (if n / 36 == 0 then "" else Base36(n / 36)) + [DigitChar(n % 36)]
  {
    DivMod(36, n);
  }

  /** Fills a buffer of `width` zeros from the right. */
  method EncodeFixedU32(value0: u32, width: nat) returns (s: string)
    ensures s == Base36Fixed(value0, width)
  {
    var chars := new char[width](_ => '0');
    var value: nat := value0;
    var idx := width;
    ghost var ds := FixedDigits(value0, width);
    while idx > 0
      invariant 0 <= idx <= width
      invariant ds == FixedDigits(value, idx) + ds[idx..]
      invariant forall j :: idx <= j < width ==> chars[j] == DigitChar(ds[j])
    {
      idx := idx - 1;
      assert FixedDigits(value, idx + 1) == FixedDigits(value / 36, idx) + [value % 36];
      assert ds[idx] == value % 36;
      assert ds[idx..] == [ds[idx]] + ds[idx + 1..];
      chars[idx] := DigitChar(value % 36);
      value := value / 36;
    }
    s := chars[..];
  }

  // ----- decoding -----------------------------------------------------------------------

  lemma Base36Decodes(n: nat)
    ensures DecodeBase36(Base36(n)) == n
  {
    DigitsDenote(36, n);
    RenderRoundTrip(Digits(36, n));
  }

  lemma RemainderSplits(n: nat, p: nat)
    requires p > 0
    ensures n / 36 % p * 36 + n % 36 == n % (36 * p)
  {
    var q := n / 36;
    var k, m := q / p, q % p;
    assert q == p * k + m;
    assert n == 36 * p * k + (36 * m + n % 36) by {
      assert 36 * q == 36 * (p * k) + 36 * m;
      assert 36 * (p * k) == 36 * p * k;
    }
    RemainderIs(n, 36 * p, k, 36 * m + n % 36);
  }

  lemma {:induction false} PowerIsPositive(k: nat)
    ensures Pow36(k) > 0
  {
    if k > 0 { PowerIsPositive(k - 1); }
  }

  lemma {:induction false} FixedDigitsDenote(n: nat, width: nat)
    ensures Pow36(width) > 0 && Value(36, FixedDigits(n, width)) == n % Pow36(width)
  {
    PowerIsPositive(width);
    if width > 0 {
      DivMod(36, n);
      FixedDigitsDenote(n / 36, width - 1);
      RemainderSplits(n, Pow36(width - 1));
      var ds := FixedDigits(n, width);
      assert ds[..|ds| - 1] == FixedDigits(n / 36, width - 1);
    }
  }

  /** The encoding keeps the value modulo 36 to the width; a value below that is kept whole. */
  lemma Base36FixedDecodes(n: nat, width: nat)
    ensures Pow36(width) > 0 && DecodeBase36(Base36Fixed(n, width)) == n % Pow36(width)
    ensures n < Pow36(width) ==> DecodeBase36(Base36Fixed(n, width)) == n
  {
    hide Pow36, Value;
    FixedDigitsDenote(n, width);
    RenderRoundTrip(FixedDigits(n, width));
    if n < Pow36(width) { RemainderIs(n, Pow36(width), 0, n); }
  }

  // ----- run ids ------------------------------------------------------------------------

  function RunId(timestamp: nat, suffix: nat): string {
    "run-" + (Base36(timestamp) + "-" + Base36Fixed(suffix, SUFFIX_WIDTH))
  }

  /** The alphabet. */
  lemma DigitsAre(d: nat)
    requires d < 36
    ensures DigitChar(d) == "0123456789abcdefghijklmnopqrstuvwxyz"[d] && CharDigit(DigitChar(d)) == d
  {
  }

  predicate IsBase36(s: string) { forall c <- s :: '0' <= c <= '9' || 'a' <= c <= 'z' }

  /** `run-`, the time in base 36 without leading zeros, a dash, and four base-36 characters. */
  ghost predicate IsRunId(id: string, time: int, suffix: int) {
    exists a: string, b: string ::
      && id == "run-" + a + "-" + b && IsBase36(a) && IsBase36(b)
      && DecodeBase36(a) == time && (time > 0 ==> a[0] != '0') && |b| == 4 && DecodeBase36(b) == suffix
  }

  lemma {:induction false} NoLeadingZero(n: nat)
    requires n > 0
    ensures Digits(36, n)[0] > 0
  {
    if n >= 36 { NoLeadingZero(n / 36); }
  }

  lemma RenderedIsBase36(ds: seq<nat>)
    requires forall i :: 0 <= i < |ds| ==> ds[i] < 36
    ensures IsBase36(Render(ds)) && (ds != [] && ds[0] > 0 ==> Render(ds)[0] != '0')
  {
  }

  lemma RunIdIs(time: nat, suffix: nat)
    requires suffix < SUFFIX_SPACE
    ensures IsRunId(RunId(time, suffix), time, suffix)
  {
    hide Render, Digits, FixedDigits, Pow36, DecodeBase36;
    var a, b := Base36(time), Base36Fixed(suffix, SUFFIX_WIDTH);
    assert RunId(time, suffix) == "run-" + a + "-" + b;
    RenderedIsBase36(Digits(36, time));
    RenderedIsBase36(FixedDigits(suffix, SUFFIX_WIDTH));
    if time > 0 { NoLeadingZero(time); }
    Base36Decodes(time);
    Base36FixedDecodes(suffix, SUFFIX_WIDTH);
    SuffixSpaceIs();
  }

  lemma SuffixSpaceIs()
    ensures Pow36(4) == SUFFIX_SPACE == 1_679_616
  {
    assert Pow36(1) == 36 && Pow36(2) == 36 * 36 && Pow36(3) == 36 * 36 * 36;
  }

  datatype IdError = NegativeTimestamp | NoRandomness | ExhaustedAttempts

  /** `generate_compact_run_id`; `sample` is what the random source yields, if it works. */
  method GenerateRunId(now: int, sample: Option<u32>) returns (r: Result<string, IdError>)
    requires now <= U64_MAX
    ensures match r
            case Ok(id) => now >= 0 && sample.Some? && id == RunId(now, sample.value % SUFFIX_SPACE)
            case Err(e) => e == if now < 0 then NegativeTimestamp else NoRandomness
    ensures r.Ok? <==> now >= 0 && sample.Some?
    ensures r.Ok? ==> IsRunId(r.value, now, sample.value % 1_679_616)
  {
    hide IsRunId;
    if now < 0 {
      return Err(NegativeTimestamp);
    }
    if sample.None? {
      return Err(NoRandomness);
    }
    var ts := EncodeU64(now);
    var suffix := EncodeFixedU32(sample.value % SUFFIX_SPACE, SUFFIX_WIDTH);
    r := Ok("run-" + (ts + "-" + suffix));
    RunIdIs(now, sample.value % SUFFIX_SPACE);
  }

  lemma NoDash(s: string, ds: seq<nat>)
    requires (forall i :: 0 <= i < |ds| ==> ds[i] < 36) && s == Render(ds)
    ensures '-' !in s
  {
  }

  /** Equal run ids come from equal timestamps and equal suffixes. */
  lemma RunIdInjective(t1: nat, s1: nat, t2: nat, s2: nat)
    requires s1 < SUFFIX_SPACE && s2 < SUFFIX_SPACE && RunId(t1, s1) == RunId(t2, s2)
    ensures t1 == t2 && s1 == s2
  {
    hide Render, Digits, FixedDigits;
    var a, b := Base36(t1), Base36Fixed(s1, SUFFIX_WIDTH);
    var c, d := Base36(t2), Base36Fixed(s2, SUFFIX_WIDTH);
    assert a + ['-'] + b == RunId(t1, s1)[4..] == RunId(t2, s2)[4..] == c + ['-'] + d;
    NoDash(a, Digits(36, t1));
    NoDash(c, Digits(36, t2));
    SameSplitPoint(a, b, c, d, '-');
    Base36Decodes(t1);
    Base36Decodes(t2);
    SuffixSpaceIs();
    Base36FixedDecodes(s1, SUFFIX_WIDTH);
    Base36FixedDecodes(s2, SUFFIX_WIDTH);
  }

  /** `allocate_compact_run_id_with_retry`: `generate(k)` is the k-th result of the stateful
      generator. Returns the first generated id that names no stored run; a generator error
      ends the search; so do sixteen collisions. */
  method AllocateRunId(existing: set<string>, generate: nat -> Result<string, IdError>)
    returns (r: Result<string, IdError>, ghost used: nat)
    ensures r.Ok? ==> r.value !in existing && exists k :: 0 <= k < MAX_GENERATION_ATTEMPTS && generate(k) == r
    ensures used < MAX_GENERATION_ATTEMPTS || r == Err(ExhaustedAttempts)
    ensures used <= MAX_GENERATION_ATTEMPTS
    ensures forall k :: 0 <= k < used ==> generate(k).Ok? && generate(k).value in existing
    ensures (used < 16 && r == generate(used)) || (used == 16 && r == Err(ExhaustedAttempts))
    ensures used < MAX_GENERATION_ATTEMPTS ==> r == generate(used) && (r.Ok? ==> r.value !in existing)
  {
    for k := 0 to MAX_GENERATION_ATTEMPTS
      invariant forall j :: 0 <= j < k ==> generate(j).Ok? && generate(j).value in existing
    {
      var id := generate(k);
      if id.Err? || id.value !in existing {
        return id, k;
      }
    }
    r, used := Err(ExhaustedAttempts), MAX_GENERATION_ATTEMPTS;
  }
}
