/** The string operations the source takes from the standard library. */
module Text {
  import opened Prelude

  /** Position of the first `c` in `s`, or `|s|`. */
  function IndexOf(s: string, c: char): (i: nat)
    ensures i <= |s| && (i < |s| ==> s[i] == c) && c !in s[..i]
  {
    if s == "" || s[0] == c then 0
    else
      var i := 1 + IndexOf(s[1..], c);
      assert s[..i] == [s[0]] + s[1..][..i - 1];
      i
  }

  lemma IndexOfAt(a: string, c: char, b: string)
    requires c !in a
    ensures IndexOf(a + [c] + b, c) == |a|
  {
    var s := a + [c] + b;
    var i := IndexOf(s, c);
    assert s[|a|] == c;
    assert forall j :: 0 <= j < |a| ==> s[j] == a[j];
    assert forall j :: 0 <= j < i ==> s[..i][j] == s[j];
  }

  /** `split_once`. */
  function SplitOnce(s: string, c: char): Option<(string, string)> {
    var i := IndexOf(s, c);
    if i < |s| then Some((s[..i], s[i + 1..])) else None
  }

  /** `split`: always at least one piece. */
  function Split(s: string, c: char): (pieces: seq<string>)
    ensures |pieces| >= 1
    decreases |s|
  {
    var i := IndexOf(s, c);
    if i < |s| then [s[..i]] + Split(s[i + 1..], c) else [s]
  }

  lemma SplitStep(x: string, c: char, y: string)
    requires c !in x
    ensures Split(x + [c] + y, c) == [x] + Split(y, c)
  {
    var s := x + [c] + y;
    IndexOfAt(x, c, y);
    assert s[..|x|] == x && s[|x| + 1..] == y;
  }

  /** Splitting at a separator between two strings splits each of them. */
  lemma {:induction false} SplitConcat(a: string, c: char, b: string)
    ensures Split(a + [c] + b, c) == Split(a, c) + Split(b, c)
    decreases |a|
  {
    hide Split;
    var i := IndexOf(a, c);
    if i < |a| {
      var x, rest := a[..i], a[i + 1..];
      assert a == x + [c] + rest;
      SplitStep(x, c, rest);
      assert a + [c] + b == x + [c] + (rest + [c] + b);
      SplitStep(x, c, rest + [c] + b);
      SplitConcat(rest, c, b);
    } else {
      assert a[..i] == a;
      SplitWhole(a, c);
      SplitStep(a, c, b);
    }
  }

  lemma {:induction false} PiecesHaveNoSeparator(s: string, c: char, k: nat)
    requires k < |Split(s, c)|
    ensures c !in Split(s, c)[k]
    decreases |s|
  {
    var i := IndexOf(s, c);
    if i < |s| {
      if k > 0 { PiecesHaveNoSeparator(s[i + 1..], c, k - 1); }
    } else {
      assert s[..i] == s;
    }
  }

  lemma SplitWhole(s: string, c: char)
    requires c !in s
    ensures Split(s, c) == [s]
  {
  }

  /** Position of the last `c` in `s`, if any. */
  function LastIndexOf(s: string, c: char): (r: Option<nat>)
    ensures r.Some? ==> r.value < |s| && s[r.value] == c && c !in s[r.value + 1..]
    ensures r.None? ==> c !in s
  {
    if s == "" then None
    else if s[|s| - 1] == c then Some(|s| - 1)
    else
      var r := LastIndexOf(s[..|s| - 1], c);
      assert r.Some? ==> s[r.value + 1..] == s[..|s| - 1][r.value + 1..] + [s[|s| - 1]];
      r
  }

  lemma {:induction false} LastIndexOfAt(a: string, c: char, b: string)
    requires c !in b
    ensures LastIndexOf(a + [c] + b, c) == Some(|a|)
  {
    var s := a + [c] + b;
    if b == "" {
      assert s[|s| - 1] == c;
    } else {
      var init := b[..|b| - 1];
      assert s[..|s| - 1] == a + [c] + init && s[|s| - 1] == b[|b| - 1];
      LastIndexOfAt(a, c, init);
    }
  }

  lemma {:induction false} LastIsLatest(s: string, c: char, k: nat)
    requires k < |s| && s[k] == c
    ensures LastIndexOf(s, c).Some? && LastIndexOf(s, c).value >= k
  {
    if s[|s| - 1] != c { LastIsLatest(s[..|s| - 1], c, k); }
  }

  lemma SameSplitPoint(a: string, b: string, c: string, d: string, sep: char)
    requires a + [sep] + b == c + [sep] + d && sep !in a && sep !in c
    ensures a == c && b == d
  {
    IndexOfAt(a, sep, b);
    IndexOfAt(c, sep, d);
    assert a == (a + [sep] + b)[..|a|];
    assert b == (a + [sep] + b)[|a| + 1..];
    assert d == (c + [sep] + d)[|c| + 1..];
  }

  /** `char::is_whitespace`. */
  predicate IsWhitespace(c: char) {
    || '\t' <= c <= '\r' || c == ' ' || c == '\U{85}' || c == '\U{A0}' || c == '\U{1680}'
    || '\U{2000}' <= c <= '\U{200A}' || c == '\U{2028}' || c == '\U{2029}' || c == '\U{202F}'
    || c == '\U{205F}' || c == '\U{3000}'
  }

  function AsciiLower(c: char): char {
    if 'A' <= c <= 'Z' then 'a' + (c - 'A') else c
  }

  function ToAsciiLower(s: string): string {
    seq(|s|, i requires 0 <= i < |s| => AsciiLower(s[i]))
  }

  predicate IsAsciiAlphanumeric(c: char) {
    '0' <= c <= '9' || 'a' <= c <= 'z' || 'A' <= c <= 'Z'
  }

  function MapChars(s: string, f: char -> char): (r: string)
    ensures |r| == |s| && forall i :: 0 <= i < |s| ==> r[i] == f(s[i])
  {
    seq(|s|, i requires 0 <= i < |s| => f(s[i]))
  }
}
