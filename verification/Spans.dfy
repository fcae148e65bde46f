/** Splitting text into bounded spans at sentence ends (src/memory/repository.rs). Positions are
    character positions; `Offset` gives the byte offset the source works with. */
module Spans {
  import opened Prelude
  import opened Text

  /** One past the highest position, and the lowest. */
  datatype Range = Range(lo: nat, hi: nat)

  datatype Span = Span(number: nat, startByte: nat, endByte: nat, text: string)

  function Utf8Len(c: char): nat {
    var n := c as int;
    if n < 0x80 then 1 else if n < 0x800 then 2 else if n < 0x1_0000 then 3 else 4
  }

  function Offset(content: string, i: nat): nat
    requires i <= |content|
  {
    if i == 0 then 0 else Offset(content, i - 1) + Utf8Len(content[i - 1])
  }

  predicate IsTerminator(c: char) { c in {'.', '!', '?', '\n'} }

  // ----- sentences ----------------------------------------------------------------------

  /** Ranges that lie end to end from the start of the text. */
  ghost predicate EndToEnd(ranges: seq<Range>, end: nat) {
    && (ranges == [] ==> end == 0)
    && (ranges != [] ==> ranges[0].lo == 0 && ranges[|ranges| - 1].hi == end)
    && (forall i :: 0 <= i < |ranges| ==> ranges[i].lo <= ranges[i].hi)
    && (forall i, j :: 0 <= i && j == i + 1 && j < |ranges| ==> ranges[i].hi == ranges[j].lo)
  }

  /** A sentence: not empty, closed by the one terminator it holds. */
  predicate Closed(content: string, r: Range) {
    && r.lo < r.hi <= |content| && IsTerminator(content[r.hi - 1])
    && forall k :: r.lo <= k < r.hi - 1 ==> !IsTerminator(content[k])
  }

  /** What follows the last terminator. */
  predicate Open(content: string, r: Range) {
    r.lo <= r.hi == |content| && forall k :: r.lo <= k < r.hi ==> !IsTerminator(content[k])
  }

  ghost predicate Sentences(content: string, ranges: seq<Range>) {
    && ranges != [] && EndToEnd(ranges, |content|)
    && (forall i :: 0 <= i < |ranges| - 1 ==> Closed(content, ranges[i]))
    && var last := ranges[|ranges| - 1];
       Closed(content, last) || (Open(content, last) && (last.lo == last.hi ==> content == ""))
  }

  lemma EndToEndMore(ranges: seq<Range>, start: nat, end: nat)
    requires EndToEnd(ranges, start) && start <= end
    ensures EndToEnd(ranges + [Range(start, end)], end)
  {
  }

  lemma EndToEndLess(ranges: seq<Range>, end: nat)
    requires EndToEnd(ranges, end) && ranges != []
    ensures ranges[|ranges| - 1].hi == end && ranges[|ranges| - 1].lo <= end
    ensures EndToEnd(ranges[..|ranges| - 1], ranges[|ranges| - 1].lo)
  {
  }

  /** `sentence_ranges`. */
  method SentenceRanges(content: string) returns (ranges: seq<Range>)
    ensures Sentences(content, ranges)
    ensures forall i :: 0 <= i < |ranges| - 1 ==> Closed(content, ranges[i]) && content[ranges[i].hi - 1] in {'.', '!', '?', '\n'}
    ensures forall i, k :: 0 <= i < |ranges| && ranges[i].lo <= k < ranges[i].hi - 1 && k < |content| ==> content[k] !in {'.', '!', '?', '\n'}
  {
    hide EndToEnd;
    ranges := [];
    var start := 0;
    assert EndToEnd([], 0) by { EndToEndEmpty(); }
    for i := 0 to |content|
      invariant start <= i && EndToEnd(ranges, start) && (ranges == [] ==> start == 0)
      invariant forall k :: start <= k < i ==> !IsTerminator(content[k])
      invariant forall k :: 0 <= k < |ranges| ==> Closed(content, ranges[k])
    {
      if IsTerminator(content[i]) {
        var end := i + 1;
        if end > start {
          EndToEndMore(ranges, start, end);
          ranges := ranges + [Range(start, end)];
        }
        start := end;
      }
    }
    EndToEndMore(ranges, start, |content|);
    if start < |content| {
      ranges := ranges + [Range(start, |content|)];
    }
    if ranges == [] {
      ranges := ranges + [Range(0, |content|)];
    }
  }

  lemma EndToEndEmpty()
    ensures EndToEnd([], 0)
  {
  }

  lemma {:induction false} SentencesAgree(content: string, a: seq<Range>, b: seq<Range>, k: nat)
    requires Sentences(content, a) && Sentences(content, b) && k <= |a| <= |b|
    ensures a[..k] == b[..k]
  {
    if k > 0 {
      SentencesAgree(content, a, b, k - 1);
      assert a[..k] == a[..k - 1] + [a[k - 1]] && b[..k] == b[..k - 1] + [b[k - 1]];
      assert k > 1 ==> a[k - 2] == a[..k - 1][k - 2] && b[k - 2] == b[..k - 1][k - 2];
      SentenceEnds(content, a, b, k - 1);
    }
  }

  lemma SentenceEnds(content: string, a: seq<Range>, b: seq<Range>, i: nat)
    requires Sentences(content, a) && Sentences(content, b) && i < |a| <= |b| && (i > 0 ==> a[i - 1] == b[i - 1])
    ensures a[i] == b[i]
  {
    var x, y := a[i], b[i];
    assert x.lo == y.lo;
    assert Closed(content, x) || Open(content, x);
    assert Closed(content, y) || Open(content, y);
  }

  /** Only the last sentence reaches the end of the text. */
  lemma EarlierSentencesEndBefore(content: string, ranges: seq<Range>, i: nat)
    requires Sentences(content, ranges) && i + 1 < |ranges|
    ensures ranges[i].hi < |content|
  {
    assert ranges[i].hi == ranges[i + 1].lo && Closed(content, ranges[i]);
    assert Closed(content, ranges[i + 1]) || Open(content, ranges[i + 1]);
  }

  lemma NoMoreSentences(content: string, a: seq<Range>, b: seq<Range>)
    requires Sentences(content, a) && Sentences(content, b) && a <= b
    ensures a == b
  {
    var n := |a|;
    assert b[n - 1] == a[n - 1] && b[n - 1].hi == |content|;
    if n < |b| { EarlierSentencesEndBefore(content, b, n - 1); }
  }

  /** The sentences of a text are determined by the description. */
  lemma SentencesAreUnique(content: string, a: seq<Range>, b: seq<Range>)
    requires Sentences(content, a) && Sentences(content, b)
    ensures a == b
  {
    assert a[..|a|] == a && b[..|b|] == b;
    if |a| <= |b| {
      SentencesAgree(content, a, b, |a|);
      NoMoreSentences(content, a, b);
    } else {
      SentencesAgree(content, b, a, |b|);
      NoMoreSentences(content, b, a);
    }
  }

  // ----- trimming and cutting -----------------------------------------------------------

  function TrimStart(s: string, lo: nat, hi: nat): (r: nat)
    requires lo <= hi <= |s|
    ensures lo <= r <= hi && (r < hi ==> !IsWhitespace(s[r]))
    ensures forall k :: lo <= k < r ==> IsWhitespace(s[k])
    decreases hi - lo
  {
    if lo < hi && IsWhitespace(s[lo]) then TrimStart(s, lo + 1, hi) else lo
  }

  function TrimEnd(s: string, lo: nat, hi: nat): (r: nat)
    requires lo <= hi <= |s|
    ensures lo <= r <= hi && (lo < r ==> !IsWhitespace(s[r - 1]))
    ensures forall k :: r <= k < hi ==> IsWhitespace(s[k])
    decreases hi
  {
    if lo < hi && IsWhitespace(s[hi - 1]) then TrimEnd(s, lo, hi - 1) else hi
  }

  function Trim(s: string): string {
    var lo := TrimStart(s, 0, |s|);
    s[lo..TrimEnd(s, lo, |s|)]
  }

  /** Pieces of `size` characters, the last one possibly shorter. */
  function Cut(lo: nat, hi: nat, size: nat): seq<Range>
    requires lo < hi && size >= 1
    decreases hi - lo
  {
    if hi - lo <= size then [Range(lo, hi)] else [Range(lo, lo + size)] + Cut(lo + size, hi, size)
  }

  function Size(maxChars: nat): nat { if maxChars == 0 then 1 else maxChars }

  function SentenceSpans(content: string, maxChars: nat, r: Range): seq<Range>
    requires r.lo <= r.hi <= |content|
  {
    var lo := TrimStart(content, r.lo, r.hi);
    var hi := TrimEnd(content, lo, r.hi);
    if lo < hi then Cut(lo, hi, Size(maxChars)) else []
  }

  predicate Inside(content: string, ranges: seq<Range>) {
    forall i :: 0 <= i < |ranges| ==> ranges[i].lo <= ranges[i].hi <= |content|
  }

  function AllSpans(content: string, maxChars: nat, ranges: seq<Range>): seq<Range>
    requires Inside(content, ranges)
  {
    if ranges == [] then []
    else
      AllSpans(content, maxChars, ranges[..|ranges| - 1])
      + SentenceSpans(content, maxChars, ranges[|ranges| - 1])
  }

  // ----- what the spans are -------------------------------------------------------------

  predicate Ordered(spans: seq<Range>) {
    && (forall i :: 0 <= i < |spans| ==> spans[i].lo < spans[i].hi)
    && (forall i, j :: 0 <= i < j < |spans| ==> spans[i].hi <= spans[j].lo)
  }

  predicate Within(spans: seq<Range>, lo: nat, hi: nat) {
    forall i :: 0 <= i < |spans| ==> lo <= spans[i].lo && spans[i].hi <= hi
  }

  predicate Bounded(spans: seq<Range>, size: nat) {
    forall i :: 0 <= i < |spans| ==> spans[i].hi - spans[i].lo <= size
  }

  predicate Holds(spans: seq<Range>, i: nat, p: nat) { i < |spans| && spans[i].lo <= p < spans[i].hi }

  predicate Covered(spans: seq<Range>, p: nat) { exists i :: 0 <= i < |spans| && Holds(spans, i, p) }

  lemma {:induction false} CutCovers(lo: nat, hi: nat, size: nat)
    requires lo < hi && size >= 1
    ensures var spans := Cut(lo, hi, size);
            && Ordered(spans) && Within(spans, lo, hi) && Bounded(spans, size)
            && forall p :: lo <= p < hi ==> Covered(spans, p)
    decreases hi - lo
  {
    hide Covered;
    var spans := Cut(lo, hi, size);
    if hi - lo <= size {
      assert forall p :: lo <= p < hi ==> Covered(spans, p) by {
        forall p | lo <= p < hi ensures Covered(spans, p) { CoveredBy(spans, 0, p); }
      }
    } else {
      CutCovers(lo + size, hi, size);
      var rest := Cut(lo + size, hi, size);
      forall p | lo <= p < hi ensures Covered(spans, p) {
        if p < lo + size { CoveredBy(spans, 0, p); } else { CoveredLater([Range(lo, lo + size)], rest, p); }
      }
    }
  }

  lemma CoveredBy(spans: seq<Range>, i: nat, p: nat)
    requires Holds(spans, i, p)
    ensures Covered(spans, p)
  {
  }

  lemma CoveredLater(first: seq<Range>, rest: seq<Range>, p: nat)
    requires Covered(rest, p) || Covered(first, p)
    ensures Covered(first + rest, p)
  {
    if Covered(first, p) {
      var i :| 0 <= i < |first| && Holds(first, i, p);
      assert Holds(first + rest, i, p);
    } else {
      var i :| 0 <= i < |rest| && Holds(rest, i, p);
      assert Holds(first + rest, |first| + i, p);
    }
  }

  lemma SentenceSpansCover(content: string, maxChars: nat, r: Range)
    requires r.lo <= r.hi <= |content|
    ensures var spans := SentenceSpans(content, maxChars, r);
            && Ordered(spans) && Within(spans, r.lo, r.hi) && Bounded(spans, Size(maxChars))
            && forall p :: r.lo <= p < r.hi && !IsWhitespace(content[p]) ==> Covered(spans, p)
  {
    hide Covered, Ordered, Bounded;
    var lo := TrimStart(content, r.lo, r.hi);
    var hi := TrimEnd(content, lo, r.hi);
    if lo < hi {
      CutCovers(lo, hi, Size(maxChars));
    } else {
      NoSpans(Size(maxChars));
    }
  }

  lemma NoSpans(size: nat)
    ensures Ordered([]) && Bounded([], size) && Within([], 0, 0)
  {
  }

  lemma ConcatOrdered(a: seq<Range>, b: seq<Range>, lo: nat, mid: nat, hi: nat, size: nat)
    requires Ordered(a) && Within(a, lo, mid) && Bounded(a, size)
    requires Ordered(b) && Within(b, mid, hi) && Bounded(b, size) && lo <= mid <= hi
    ensures Ordered(a + b) && Within(a + b, lo, hi) && Bounded(a + b, size)
  {
  }

  /** Spans are ordered and disjoint, none is longer than the bound, and every character that is
      not white space is in some span. */
  lemma {:induction false} SpansCover(content: string, maxChars: nat, ranges: seq<Range>, end: nat)
    requires Inside(content, ranges) && EndToEnd(ranges, end) && end <= |content|
    ensures var spans := AllSpans(content, maxChars, ranges);
            && Ordered(spans) && Within(spans, 0, end) && Bounded(spans, Size(maxChars))
            && (forall p :: 0 <= p < end && !IsWhitespace(content[p]) ==> Covered(spans, p))
  {
    hide Covered, SentenceSpans, IsWhitespace, EndToEnd, Ordered, Within, Bounded;
    if ranges == [] {
      NoSpans(Size(maxChars));
      assert end == 0 by { EndToEndAny(ranges, end); }
    } else {
      var init, last := ranges[..|ranges| - 1], ranges[|ranges| - 1];
      EndToEndLess(ranges, end);
      SpansCover(content, maxChars, init, last.lo);
      SentenceSpansCover(content, maxChars, last);
      var before := AllSpans(content, maxChars, init);
      var here := SentenceSpans(content, maxChars, last);
      ConcatOrdered(before, here, 0, last.lo, end, Size(maxChars));
      forall p | 0 <= p < end && !IsWhitespace(content[p]) ensures Covered(before + here, p) { CoveredLater(before, here, p); }
    }
  }

  lemma EndToEndAny(ranges: seq<Range>, end: nat)
    requires EndToEnd(ranges, end) && ranges == []
    ensures end == 0
  {
  }

  predicate In(r: Range, outer: Range) { outer.lo <= r.lo && r.hi <= outer.hi }

  /** Every span lies in one sentence. */
  lemma {:induction false} SpanInSentence(content: string, maxChars: nat, ranges: seq<Range>, i: nat)
    requires Inside(content, ranges) && i < |AllSpans(content, maxChars, ranges)|
    ensures exists k :: 0 <= k < |ranges| && In(AllSpans(content, maxChars, ranges)[i], ranges[k])
  {
    hide SentenceSpans, IsWhitespace;
    var init, last := ranges[..|ranges| - 1], ranges[|ranges| - 1];
    var before := AllSpans(content, maxChars, init);
    if i < |before| {
      SpanInSentence(content, maxChars, init, i);
      var k :| 0 <= k < |init| && In(before[i], init[k]);
      assert ranges[k] == init[k];
    } else {
      SentenceSpansCover(content, maxChars, last);
      assert In(SentenceSpans(content, maxChars, last)[i - |before|], last);
    }
  }

  /** A character is in at most one span. */
  lemma InOneSpan(spans: seq<Range>, i: nat, j: nat, p: nat)
    requires Ordered(spans) && Holds(spans, i, p) && Holds(spans, j, p)
    ensures i == j
  {
  }

  /** A sentence that fits is one span, trimmed; a longer one is cut into pieces of exactly the
      bound, but for the last. */
  lemma {:induction false} CutIsTight(lo: nat, hi: nat, size: nat)
    requires lo < hi && size >= 1
    ensures var spans := Cut(lo, hi, size);
            && spans != [] && spans[0].lo == lo && spans[|spans| - 1].hi == hi
            && (forall i :: 0 <= i < |spans| - 1 ==> spans[i].hi - spans[i].lo == size)
            && (forall i, j :: 0 <= i && j == i + 1 && j < |spans| ==> spans[i].hi == spans[j].lo)
            && (hi - lo <= size <==> |spans| == 1)
    decreases hi - lo
  {
    if hi - lo > size { CutIsTight(lo + size, hi, size); }
  }

  // ----- the source's loops -------------------------------------------------------------

  function SpansOf(content: string, ranges: seq<Range>): (spans: seq<Span>)
    requires Inside(content, ranges)
    ensures |spans| == |ranges|
  {
    seq(|ranges|, i requires 0 <= i < |ranges| =>
      Span(i + 1, Offset(content, ranges[i].lo), Offset(content, ranges[i].hi),
           Trim(content[ranges[i].lo..ranges[i].hi])))
  }

  lemma {:induction false} OffsetsGrow(content: string, a: nat, b: nat)
    requires a < b <= |content|
    ensures Offset(content, a) + (b - a) <= Offset(content, b)
    decreases b
  {
    if a < b - 1 { OffsetsGrow(content, a, b - 1); }
  }

  lemma TrimmedAlready(content: string, lo: nat, hi: nat)
    requires lo < hi <= |content| && !IsWhitespace(content[lo]) && !IsWhitespace(content[hi - 1])
    ensures Trim(content[lo..hi]) == content[lo..hi]
  {
    hide IsWhitespace;
    var s := content[lo..hi];
    assert s[0] == content[lo] && s[|s| - 1] == content[hi - 1];
    assert s[0..|s|] == s;
  }

  lemma {:induction false} BlankHasNoSpans(content: string, maxChars: nat, ranges: seq<Range>)
    requires Inside(content, ranges) && forall k :: 0 <= k < |content| ==> IsWhitespace(content[k])
    ensures AllSpans(content, maxChars, ranges) == []
  {
    hide IsWhitespace;
    if ranges != [] { BlankHasNoSpans(content, maxChars, ranges[..|ranges| - 1]); }
  }

  lemma {:induction false} StartsAreInside(content: string, ranges: seq<Range>, end: nat)
    requires EndToEnd(ranges, end) && end <= |content|
    ensures Inside(content, ranges)
  {
    if ranges != [] { StartsAreInside(content, ranges[..|ranges| - 1], ranges[|ranges| - 1].lo); }
  }

  /** One sentence: trimmed at both ends, then kept whole or cut. */
  method SplitSentence(content: string, maxChars: nat, r: Range, ghost before: seq<Range>, spans: seq<Span>)
    returns (out: seq<Span>)
    requires r.lo <= r.hi <= |content| && Inside(content, before) && spans == SpansOf(content, before)
    ensures Inside(content, before + SentenceSpans(content, maxChars, r))
    ensures out == SpansOf(content, before + SentenceSpans(content, maxChars, r))
  {
    hide IsWhitespace, Trim, Offset;
    out := spans;
    var start, end := r.lo, r.hi;
    while start < end && IsWhitespace(content[start])
      invariant r.lo <= start <= end
      invariant TrimStart(content, r.lo, r.hi) == TrimStart(content, start, r.hi)
    {
      start := start + 1;
    }
    while end > start && IsWhitespace(content[end - 1])
      invariant start <= end <= r.hi
      invariant TrimEnd(content, start, r.hi) == TrimEnd(content, start, end)
    {
      end := end - 1;
    }
    if start >= end {
      assert before + [] == before;
      return;
    }
    if end - start <= maxChars {
      TrimmedAlready(content, start, end);
      SpansOfMore(content, before, Range(start, end));
      out := out + [Span(|out| + 1, Offset(content, start), Offset(content, end), content[start..end])];
    } else {
      out := CutSentence(content, maxChars, start, end, before, spans);
    }
  }

  lemma CutStep(lo: nat, hi: nat, size: nat)
    requires lo < hi && size >= 1
    ensures var mid := lo + Min(size, hi - lo); Cut(lo, hi, size) == [Range(lo, mid)] + CutOrNone(mid, hi, size)
  {
  }

  function CutOrNone(lo: nat, hi: nat, size: nat): seq<Range>
    requires lo <= hi && size >= 1
  {
    if lo < hi then Cut(lo, hi, size) else []
  }

  /** The long-sentence fallback. */
  method CutSentence(content: string, maxChars: nat, start: nat, end: nat, ghost before: seq<Range>, spans: seq<Span>)
    returns (out: seq<Span>)
    requires start < end <= |content| && Inside(content, before) && spans == SpansOf(content, before)
    ensures Inside(content, before + Cut(start, end, Size(maxChars)))
    ensures out == SpansOf(content, before + Cut(start, end, Size(maxChars)))
  {
    hide IsWhitespace, Trim, Offset, SpansOf, Inside, Cut;
    out := spans;
    var cursor := start;
    ghost var done: seq<Range> := before;
    ghost var size := Size(maxChars);
    while cursor < end
      invariant start <= cursor <= end && Inside(content, done)
      invariant before + Cut(start, end, size) == done + CutOrNone(cursor, end, size)
      invariant out == SpansOf(content, done) && |out| == |done|
    {
      var takeEnd := TakeUpTo(cursor, end, maxChars);
      CutStep(cursor, end, size);
      SpansOfMore(content, done, Range(cursor, takeEnd));
      out := out + [Span(|out| + 1, Offset(content, cursor), Offset(content, takeEnd), Trim(content[cursor..takeEnd]))];
      ghost var more := done + [Range(cursor, takeEnd)];
      assert done + CutOrNone(cursor, end, size) == more + CutOrNone(takeEnd, end, size);
      done := more;
      cursor := takeEnd;
    }
    assert done + [] == done;
  }

  /** Counts characters from `cursor` until the bound is reached or the sentence ends. */
  method TakeUpTo(cursor: nat, end: nat, maxChars: nat) returns (takeEnd: nat)
    requires cursor < end
    ensures takeEnd == cursor + Min(Size(maxChars), end - cursor)
  {
    takeEnd := cursor;
    var count := 0;
    while takeEnd < end
      invariant cursor <= takeEnd <= end && takeEnd == cursor + count
      invariant count == 0 || count < maxChars
    {
      takeEnd := takeEnd + 1;
      count := count + 1;
      if count >= maxChars {
        break;
      }
    }
  }

  lemma SpansOfMore(content: string, ranges: seq<Range>, r: Range)
    requires Inside(content, ranges) && r.lo <= r.hi <= |content|
    ensures Inside(content, ranges + [r])
    ensures SpansOf(content, ranges + [r])
         == SpansOf(content, ranges) + [Span(|ranges| + 1, Offset(content, r.lo), Offset(content, r.hi), Trim(content[r.lo..r.hi]))]
  {
    hide Trim, Offset;
    var more := SpansOf(content, ranges + [r]);
    forall i | 0 <= i < |ranges| ensures more[i] == SpansOf(content, ranges)[i] {
      assert (ranges + [r])[i] == ranges[i];
    }
  }

  /** `split_content_into_spans`. The ghost results are the sentences and the character ranges of
      the spans. */
  method SplitContentIntoSpans(content: string, maxChars: nat)
    returns (spans: seq<Span>, ghost sentences: seq<Range>, ghost ranges: seq<Range>)
    ensures Sentences(content, sentences) && Inside(content, sentences)
    ensures ranges == AllSpans(content, maxChars, sentences) && Inside(content, ranges)
    ensures spans == SpansOf(content, ranges)
    ensures InByteOrder(spans)
    ensures PiecesOfAll(content, maxChars, sentences, ranges) && Labelled(content, ranges, spans)
  {
    hide IsWhitespace, Trim, Offset, SentenceSpans, Closed, Open, SpansOf, InByteOrder, PiecesOfAll, Labelled;
    var found := SentenceRanges(content);
    sentences := found;
    StartsAreInside(content, found, |content|);
    if TrimStart(content, 0, |content|) == |content| {
      BlankHasNoSpans(content, maxChars, found);
      spans, ranges := [], [];
      NoSpansOf(content);
      SplitIsSound(content, maxChars, found, ranges, spans);
      AllPieces(content, maxChars, found);
      SpansAreLabelled(content, ranges);
      return;
    }
    NoSpansOf(content);
    spans, ranges := [], [];
    for i := 0 to |found|
      invariant ranges == AllSpans(content, maxChars, found[..i]) && Inside(content, ranges)
      invariant spans == SpansOf(content, ranges)
    {
      assert found[..i + 1][..i] == found[..i];
      spans := SplitSentence(content, maxChars, found[i], ranges, spans);
      ranges := ranges + SentenceSpans(content, maxChars, found[i]);
    }
    assert found[..|found|] == found;
    SplitIsSound(content, maxChars, found, ranges, spans);
    AllPieces(content, maxChars, found);
    SpansAreLabelled(content, ranges);
  }

  lemma NoSpansOf(content: string)
    ensures SpansOf(content, []) == []
  {
  }

  /** Numbered from one, byte ranges not empty, in order and disjoint. */
  predicate InByteOrder(spans: seq<Span>) {
    && (forall i :: 0 <= i < |spans| ==> spans[i].number == i + 1 && spans[i].startByte < spans[i].endByte)
    && (forall i, j :: 0 <= i < j < |spans| ==> spans[i].endByte <= spans[j].startByte)
  }

  /** The spans a split yields: numbered from one, byte ranges in order and disjoint, every
      character that is not white space in exactly one of them, none over the bound, none
      across a sentence end. */
  lemma SplitIsSound(content: string, maxChars: nat, sentences: seq<Range>, ranges: seq<Range>, spans: seq<Span>)
    requires Sentences(content, sentences) && Inside(content, sentences)
    requires ranges == AllSpans(content, maxChars, sentences) && Inside(content, ranges) && spans == SpansOf(content, ranges)
    ensures InByteOrder(spans)
    ensures Bounded(ranges, Size(maxChars))
    ensures forall p :: 0 <= p < |content| && !IsWhitespace(content[p]) ==>
              Covered(ranges, p) && forall i, j :: Holds(ranges, i, p) && Holds(ranges, j, p) ==> i == j
    ensures forall i :: 0 <= i < |ranges| ==> exists k :: 0 <= k < |sentences| && In(ranges[i], sentences[k])
  {
    hide IsWhitespace, Trim, Offset, SentenceSpans, AllSpans, Closed, Open, Covered, Within, Bounded;
    SpansCover(content, maxChars, sentences, |content|);
    forall i | 0 <= i < |ranges| ensures exists k :: 0 <= k < |sentences| && In(ranges[i], sentences[k]) {
      SpanInSentence(content, maxChars, sentences, i);
    }
    forall i | 0 <= i < |spans| ensures spans[i].number == i + 1 && spans[i].startByte < spans[i].endByte {
      OffsetsGrow(content, ranges[i].lo, ranges[i].hi);
    }
    forall i, j | 0 <= i < j < |spans| ensures spans[i].endByte <= spans[j].startByte {
      if ranges[i].hi < ranges[j].lo { OffsetsGrow(content, ranges[i].hi, ranges[j].lo); }
    }
    forall p, i, j | Holds(ranges, i, p) && Holds(ranges, j, p) ensures i == j { InOneSpan(ranges, i, j, p); }
  }

  // ----- the spans by the text alone ----------------------------------------------------

  /** All of `s[lo..hi]` is white space. */
  predicate Blank(s: string, lo: nat, hi: nat)
    requires lo <= hi <= |s|
  {
    forall k :: lo <= k < hi ==> IsWhitespace(s[k])
  }

  /** The pieces of one sentence: from its first character that is not white space to its last, end to
      end, each of `maxChars` characters but for the last; a bound of zero counts as one. */
  ghost predicate PiecesOf(content: string, maxChars: nat, r: Range, pieces: seq<Range>)
    requires r.lo <= r.hi <= |content|
  {
    if Blank(content, r.lo, r.hi) then pieces == []
    else
      && pieces != [] && r.lo <= pieces[0].lo < pieces[|pieces| - 1].hi <= r.hi
      && Blank(content, r.lo, pieces[0].lo) && !IsWhitespace(content[pieces[0].lo])
      && Blank(content, pieces[|pieces| - 1].hi, r.hi) && !IsWhitespace(content[pieces[|pieces| - 1].hi - 1])
      && (forall i :: 0 <= i < |pieces| ==> 1 <= pieces[i].hi - pieces[i].lo && (maxChars > 0 ==> pieces[i].hi - pieces[i].lo <= maxChars))
      && (maxChars == 0 ==> forall i :: 0 <= i < |pieces| ==> pieces[i].hi - pieces[i].lo == 1)
      && (maxChars > 0 ==> forall i :: 0 <= i < |pieces| - 1 ==> pieces[i].hi - pieces[i].lo == maxChars)
      && (forall i, j :: 0 <= i && j == i + 1 && j < |pieces| ==> pieces[i].hi == pieces[j].lo)
  }

  /** The pieces of all sentences, one sentence after the other. */
  ghost predicate PiecesOfAll(content: string, maxChars: nat, sentences: seq<Range>, ranges: seq<Range>)
    requires Inside(content, sentences)
  {
    exists groups: seq<seq<Range>> ::
      && |groups| == |sentences| && ranges == Flat(groups)
      && forall k :: 0 <= k < |groups| ==> PiecesOf(content, maxChars, sentences[k], groups[k])
  }

  function Flat(groups: seq<seq<Range>>): seq<Range> {
    if groups == [] then [] else Flat(groups[..|groups| - 1]) + groups[|groups| - 1]
  }

  lemma SentencePieces(content: string, maxChars: nat, r: Range)
    requires r.lo <= r.hi <= |content|
    ensures PiecesOf(content, maxChars, r, SentenceSpans(content, maxChars, r))
  {
    hide IsWhitespace, Covered;
    var lo := TrimStart(content, r.lo, r.hi);
    var hi := TrimEnd(content, lo, r.hi);
    if lo < hi {
      CutIsTight(lo, hi, Size(maxChars));
      CutCovers(lo, hi, Size(maxChars));
      assert !IsWhitespace(content[lo]);
    }
  }

  lemma {:induction false} AllPieces(content: string, maxChars: nat, sentences: seq<Range>)
    requires Inside(content, sentences)
    ensures PiecesOfAll(content, maxChars, sentences, AllSpans(content, maxChars, sentences))
  {
    hide PiecesOf, SentenceSpans, IsWhitespace;
    if sentences == [] {
      assert Flat([]) == [];
    } else {
      var init, last := sentences[..|sentences| - 1], sentences[|sentences| - 1];
      AllPieces(content, maxChars, init);
      SentencePieces(content, maxChars, last);
      OneMoreSentence(content, maxChars, init, last, AllSpans(content, maxChars, init), SentenceSpans(content, maxChars, last));
      assert sentences == init + [last];
    }
  }

  lemma OneMoreSentence(content: string, maxChars: nat, init: seq<Range>, last: Range, ranges: seq<Range>, pieces: seq<Range>)
    requires Inside(content, init + [last]) && Inside(content, init) && last.lo <= last.hi <= |content|
    requires PiecesOfAll(content, maxChars, init, ranges) && PiecesOf(content, maxChars, last, pieces)
    ensures PiecesOfAll(content, maxChars, init + [last], ranges + pieces)
  {
    hide PiecesOf, IsWhitespace;
    var groups: seq<seq<Range>> :| |groups| == |init| && ranges == Flat(groups)
      && forall k :: 0 <= k < |groups| ==> PiecesOf(content, maxChars, init[k], groups[k]);
    assert (groups + [pieces])[..|groups|] == groups;
    assert Flat(groups + [pieces]) == ranges + pieces;
  }

  /** The UTF-8 length of the first `i` characters: one byte below U+0080, two below U+0800, three below
      U+10000, else four. */
  ghost predicate ByteOffset(content: string, i: nat, offset: nat)
    requires i <= |content|
  {
    offset == WideCount(content, i, 0x80) + WideCount(content, i, 0x800) + WideCount(content, i, 0x1_0000) + i
  }

  /** Those of the first `i` characters that are not below the bound, and how many they are. */
  function Wide(content: string, i: nat, bound: nat): set<nat>
    requires i <= |content|
  {
    set k | 0 <= k < i && content[k] as int >= bound
  }

  function WideCount(content: string, i: nat, bound: nat): nat
    requires i <= |content|
  {
    |Wide(content, i, bound)|
  }

  lemma WideCountNext(content: string, i: nat, bound: nat)
    requires i < |content|
    ensures WideCount(content, i + 1, bound) == WideCount(content, i, bound) + (if content[i] as int >= bound then 1 else 0)
  {
    var before := Wide(content, i, bound);
    assert Wide(content, i + 1, bound) == if content[i] as int >= bound then before + {i} else before;
  }

  lemma {:induction false} OffsetIs(content: string, i: nat)
    requires i <= |content|
    ensures ByteOffset(content, i, Offset(content, i))
  {
    hide WideCount;
    if i > 0 {
      OffsetIs(content, i - 1);
      WideCountNext(content, i - 1, 0x80);
      WideCountNext(content, i - 1, 0x800);
      WideCountNext(content, i - 1, 0x1_0000);
    } else {
      NoneWide(content);
    }
  }

  lemma NoneWide(content: string)
    ensures forall bound: nat :: WideCount(content, 0, bound) == 0
  {
    forall bound: nat ensures WideCount(content, 0, bound) == 0 {
      assert Wide(content, 0, bound) == {};
    }
  }

  /** Each span has its number, the byte offsets of its range, and the range's text without the white
      space at its ends. */
  ghost predicate Labelled(content: string, ranges: seq<Range>, spans: seq<Span>)
    requires Inside(content, ranges)
  {
    && |spans| == |ranges|
    && forall i :: 0 <= i < |spans| ==>
         && spans[i].number == i + 1
         && ByteOffset(content, ranges[i].lo, spans[i].startByte) && ByteOffset(content, ranges[i].hi, spans[i].endByte)
         && TrimmedTo(content, ranges[i], spans[i].text)
  }

  ghost predicate TrimmedTo(content: string, r: Range, text: string)
    requires r.lo <= r.hi <= |content|
  {
    exists a: nat, b: nat ::
      && r.lo <= a <= b <= r.hi && text == content[a..b] && Blank(content, r.lo, a) && Blank(content, b, r.hi)
      && (text != "" ==> !IsWhitespace(text[0]) && !IsWhitespace(text[|text| - 1]))
  }

  lemma SliceOfSlice(s: string, lo: nat, hi: nat, a: nat, b: nat)
    requires lo <= hi <= |s| && a <= b <= hi - lo
    ensures s[lo..hi][a..b] == s[lo + a..lo + b]
  {
    var inner, outer := s[lo..hi][a..b], s[lo + a..lo + b];
    assert forall k :: 0 <= k < b - a ==> inner[k] == s[lo + a + k] && outer[k] == s[lo + a + k];
  }

  lemma TrimIs(content: string, r: Range)
    requires r.lo <= r.hi <= |content|
    ensures TrimmedTo(content, r, Trim(content[r.lo..r.hi]))
  {
    hide IsWhitespace;
    var s := content[r.lo..r.hi];
    var lo := TrimStart(s, 0, |s|);
    var hi := TrimEnd(s, lo, |s|);
    SliceOfSlice(content, r.lo, r.hi, lo, hi);
    assert forall k :: r.lo <= k < r.hi ==> content[k] == s[k - r.lo];
    assert Blank(content, r.lo, r.lo + lo) && Blank(content, r.lo + hi, r.hi);
  }

  lemma SpansAreLabelled(content: string, ranges: seq<Range>)
    requires Inside(content, ranges)
    ensures Labelled(content, ranges, SpansOf(content, ranges))
  {
    hide IsWhitespace, Trim, Offset, ByteOffset, TrimmedTo;
    forall i | 0 <= i < |ranges|
      ensures ByteOffset(content, ranges[i].lo, Offset(content, ranges[i].lo)) && ByteOffset(content, ranges[i].hi, Offset(content, ranges[i].hi))
      ensures TrimmedTo(content, ranges[i], Trim(content[ranges[i].lo..ranges[i].hi]))
    {
      OffsetIs(content, ranges[i].lo);
      OffsetIs(content, ranges[i].hi);
      TrimIs(content, ranges[i]);
    }
  }
}
