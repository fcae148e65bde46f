/** Positional numerals: what `to_string`, the base-36 encoders and `parse::<u32>` compute. */
module Numerals {
  import opened Prelude

  type Base = b: nat | b == 10 || b == 36 witness 10

  lemma DivMod(b: Base, n: nat)
    ensures n == n / b * b + n % b && n % b < b && n / b <= n
    ensures n >= b ==> 0 < n / b < n
  {
    if b == 10 {
      assert n == n / 10 * 10 + n % 10;
    } else {
      assert n == n / 36 * 36 + n % 36;
    }
  }

  lemma MultipleIsFar(b: nat, i: nat, j: nat)
    requires i < j
    ensures b * i + b <= b * j
  {
    assert b * (j - i) == b * j - b * i;
    assert b * (j - i) >= b by { assert j - i >= 1; }
  }

  lemma RemainderIs(n: nat, b: nat, k: nat, m: nat)
    requires m < b && n == b * k + m
    ensures n % b == m
  {
    var q := n / b;
    assert n == b * q + n % b;
    if q < k { MultipleIsFar(b, q, k); } else if k < q { MultipleIsFar(b, k, q); }
  }

  /** Digits of `n` in base `b`, most significant first. */
  function Digits(b: Base, n: nat): (ds: seq<nat>)
    ensures |ds| >= 1 && (forall i :: 0 <= i < |ds| ==> ds[i] < b)
    decreases n
  {
    DivMod(b, n);
    if n < b then [n] else Digits(b, n / b) + [n % b]
  }

  function Value(b: Base, ds: seq<nat>): nat {
    if ds == [] then 0 else Value(b, ds[..|ds| - 1]) * b + ds[|ds| - 1]
  }

  lemma {:induction false} DigitsDenote(b: Base, n: nat)
    ensures Value(b, Digits(b, n)) == n
    decreases n
  {
    if n < b {
      assert Digits(b, n)[..0] == [];
    } else {
      DivMod(b, n);
      DigitsDenote(b, n / b);
      var ds := Digits(b, n);
      assert ds[..|ds| - 1] == Digits(b, n / b);
    }
  }

  function DigitChar(d: nat): char
    requires d < 36
  {
    if d < 10 then '0' + d as char else 'a' + (d - 10) as char
  }

  function CharDigit(c: char): nat {
    if '0' <= c <= '9' then (c - '0') as nat
    else if 'a' <= c <= 'z' then (c - 'a') as nat + 10
    else 0
  }

  function Render(ds: seq<nat>): (s: string)
    requires forall i :: 0 <= i < |ds| ==> ds[i] < 36
    ensures |s| == |ds| && forall i :: 0 <= i < |s| ==> s[i] == DigitChar(ds[i])
  {
    seq(|ds|, i requires 0 <= i < |ds| => DigitChar(ds[i]))
  }

  function Unrender(s: string): (ds: seq<nat>)
    ensures |ds| == |s| && forall i :: 0 <= i < |ds| ==> ds[i] == CharDigit(s[i])
  {
    seq(|s|, i requires 0 <= i < |s| => CharDigit(s[i]))
  }

  lemma RenderRoundTrip(ds: seq<nat>)
    requires forall i :: 0 <= i < |ds| ==> ds[i] < 36
    ensures Unrender(Render(ds)) == ds
  {
  }

  // ----- decimal ------------------------------------------------------------------------

  predicate IsDigit(c: char) { '0' <= c <= '9' }

  predicate AllDigits(s: string) { forall i :: 0 <= i < |s| ==> IsDigit(s[i]) }

  function Decimal(n: nat): (s: string)
    ensures |s| >= 1 && AllDigits(s)
  {
    Render(Digits(10, n))
  }

  function DecimalInt(n: int): string {
    if n < 0 then "-" + Decimal(-n) else Decimal(n)
  }

  function DecimalValue(s: string): nat { Value(10, Unrender(s)) }

  lemma DecimalRoundTrip(n: nat)
    ensures DecimalValue(Decimal(n)) == n
  {
    DigitsDenote(10, n);
    RenderRoundTrip(Digits(10, n));
  }

  lemma DecimalIntSign(n: int)
    ensures DecimalInt(n) != "" && (DecimalInt(n)[0] == '-' <==> n < 0)
  {
    hide Render, Digits;
    assert n >= 0 ==> IsDigit(Decimal(n)[0]);
  }

  lemma DecimalIntInjective(a: int, b: int)
    requires DecimalInt(a) == DecimalInt(b)
    ensures a == b
  {
    hide Decimal, DecimalValue;
    DecimalIntSign(a);
    DecimalIntSign(b);
    if a < 0 {
      assert Decimal(-a) == DecimalInt(a)[1..] == DecimalInt(b)[1..] == Decimal(-b);
      DecimalRoundTrip(-a);
      DecimalRoundTrip(-b);
    } else {
      DecimalRoundTrip(a);
      DecimalRoundTrip(b);
    }
  }

  /** `str::parse::<u32>`: an optional plus sign, then digits, within 32 bits. */
  function ParseU32(s: string): Option<u32> {
    var digits := if |s| > 0 && s[0] == '+' then s[1..] else s;
    if digits == "" || !AllDigits(digits) || DecimalValue(digits) > U32_MAX then None
    else Some(DecimalValue(digits))
  }

  lemma ParseU32OfDecimal(n: u32)
    ensures ParseU32(Decimal(n)) == Some(n)
  {
    DecimalRoundTrip(n);
    assert IsDigit(Decimal(n)[0]);
  }
}
