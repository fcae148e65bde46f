/** Rendering and truncating the sections of a memory bulletin (src/memory/bulletin.rs).
    Text is its UTF-8 bytes, one per `char`. */
module BulletinSections {
  import opened Prelude

  datatype SectionName =
    | KnowledgeSummary
    | ActiveGoals
    | OpenTodos
    | RecentDecisions
    | PreferenceProfile
    | ConflictsAndUncertainties

  datatype Section = Section(name: SectionName, lines: seq<string>)

  const ALL: seq<SectionName> :=
    [KnowledgeSummary, ActiveGoals, OpenTodos, RecentDecisions, PreferenceProfile, ConflictsAndUncertainties]
  const TRIM_ORDER: seq<SectionName> :=
    [KnowledgeSummary, PreferenceProfile, ConflictsAndUncertainties, RecentDecisions, OpenTodos, ActiveGoals]
  const DROP_ORDER: seq<SectionName> :=
    [ConflictsAndUncertainties, PreferenceProfile, KnowledgeSummary, RecentDecisions, OpenTodos, ActiveGoals]

  function Key(name: SectionName): string {
    match name
    case KnowledgeSummary => "knowledge_summary"
    case ActiveGoals => "active_goals"
    case OpenTodos => "open_todos"
    case RecentDecisions => "recent_decisions"
    case PreferenceProfile => "preference_profile"
    case ConflictsAndUncertainties => "conflicts_and_uncertainties"
  }

  /** Place in the trim order: the higher, the longer the lines are kept. */
  function Rank(name: SectionName): (r: nat)
    ensures r < 6 && TRIM_ORDER[r] == name
  {
    match name
    case KnowledgeSummary => 0
    case PreferenceProfile => 1
    case ConflictsAndUncertainties => 2
    case RecentDecisions => 3
    case OpenTodos => 4
    case ActiveGoals => 5
  }

  /** Place in the drop order. */
  function DropRank(name: SectionName): (r: nat)
    ensures r < 6 && DROP_ORDER[r] == name
  {
    match name
    case ConflictsAndUncertainties => 0
    case PreferenceProfile => 1
    case KnowledgeSummary => 2
    case RecentDecisions => 3
    case OpenTodos => 4
    case ActiveGoals => 5
  }

  predicate DistinctNames(sections: seq<Section>) {
    forall i, j :: 0 <= i < j < |sections| ==> sections[i].name != sections[j].name
  }

  // ----- rendering ----------------------------------------------------------------------

  function RenderLines(lines: seq<string>): string {
    if lines == [] then "" else RenderLines(lines[..|lines| - 1]) + lines[|lines| - 1] + "\n"
  }

  function Heading(name: SectionName): string { Key(name) + ":\n" }

  function RenderSection(s: Section): string {
    Heading(s.name) + (if s.lines == [] then "-\n" else RenderLines(s.lines))
  }

  function Render(sections: seq<Section>): string {
    if sections == [] then "" else Render(sections[..|sections| - 1]) + RenderSection(sections[|sections| - 1])
  }

  predicate Fits(sections: seq<Section>, max: nat) { |Render(sections)| <= max }

  lemma AppendAssociates(a: string, b: string, c: string)
    ensures (a + b) + c == a + (b + c)
  {
  }

  lemma RenderNext(sections: seq<Section>, s: Section)
    ensures Render(sections + [s]) == Render(sections) + RenderSection(s)
  {
    assert (sections + [s])[..|sections|] == sections;
  }

  /** The text of a list of lines is the texts of its parts, in order. */
  lemma {:induction false} LinesTextConcat(a: seq<string>, b: seq<string>)
    ensures RenderLines(a + b) == RenderLines(a) + RenderLines(b)
  {
    if b == [] {
      assert a + b == a && RenderLines(b) == "";
    } else {
      var init, last := b[..|b| - 1], b[|b| - 1];
      LinesTextConcat(a, init);
      LinesNext(a + init, last);
      LinesNext(init, last);
      assert a + b == (a + init) + [last] && b == init + [last];
      AppendAssociates(RenderLines(a), RenderLines(init), last + "\n");
    }
  }

  lemma LinesNext(lines: seq<string>, line: string)
    ensures RenderLines(lines + [line]) == RenderLines(lines) + (line + "\n")
  {
    assert (lines + [line])[..|lines|] == lines;
    AppendAssociates(RenderLines(lines), line, "\n");
  }

  lemma OneLine(line: string)
    ensures RenderLines([line]) == line + "\n"
  {
    assert [line][..0] == [];
    assert RenderLines([]) == "";
  }

  lemma OneLineText(text: string)
    ensures RenderSection(Section(ActiveGoals, [text])) == "active_goals:\n" + text + "\n"
  {
    OneLine(text);
  }

  /** `render_sections`: one buffer, appended to. */
  method RenderSections(sections: seq<Section>) returns (out: string)
    ensures out == Render(sections)
  {
    hide Key, Heading;
    out := "";
    for i := 0 to |sections|
      invariant out == Render(sections[..i])
    {
      assert sections[..i + 1][..i] == sections[..i];
      out := AppendSection(out, sections[i]);
    }
    assert sections[..|sections|] == sections;
  }

  method AppendSection(before: string, s: Section) returns (out: string)
    ensures out == before + RenderSection(s)
  {
    hide Key, Heading;
    out := before + Heading(s.name);
    ghost var start := out;
    if s.lines == [] {
      out := out + "-\n";
      AppendAssociates(before, Heading(s.name), "-\n");
    } else {
      for j := 0 to |s.lines|
        invariant out == start + RenderLines(s.lines[..j])
      {
        assert s.lines[..j + 1][..j] == s.lines[..j];
        AppendAssociates(start, RenderLines(s.lines[..j]), s.lines[j]);
        AppendAssociates(start, RenderLines(s.lines[..j]) + s.lines[j], "\n");
        out := out + s.lines[j];
        out := out + "\n";
      }
      assert s.lines[..|s.lines|] == s.lines;
      AppendAssociates(before, Heading(s.name), RenderLines(s.lines));
    }
  }

  // ----- what truncation keeps ----------------------------------------------------------

  /** Position of the first section called `name`. */
  function Find(sections: seq<Section>, name: SectionName): (r: Option<nat>)
    ensures r.Some? ==> r.value < |sections| && sections[r.value].name == name
                        && forall i :: 0 <= i < r.value ==> sections[i].name != name
    ensures r.None? ==> forall i :: 0 <= i < |sections| ==> sections[i].name != name
  {
    if sections == [] then None
    else if sections[0].name == name then Some(0)
    else
      match Find(sections[1..], name)
      case None => None
      case Some(i) => assert forall k :: 0 < k < |sections| ==> sections[k] == sections[1..][k - 1]; Some(i + 1)
  }

  function LinesOf(sections: seq<Section>, name: SectionName): seq<string> {
    match Find(sections, name)
    case None => []
    case Some(i) => sections[i].lines
  }

  /** How many lines the sections of rank `rank` and above hold. */
  function Upto(sections: seq<Section>, rank: nat): nat
    requires rank <= 6
    decreases 6 - rank
  {
    if rank == 6 then 0 else |LinesOf(sections, TRIM_ORDER[rank])| + Upto(sections, rank + 1)
  }

  function Total(sections: seq<Section>): nat { Upto(sections, 0) }

  /** How many of `len` lines a section keeps when `n` lines are to be kept in all and `above`
      lines rank higher. */
  function Share(n: nat, above: nat, len: nat): (k: nat)
    ensures k <= len
  {
    if n <= above then 0 else Min(n - above, len)
  }

  /** The best `n` lines: whole sections from the highest rank down, then a prefix of one. */
  function Kept(sections: seq<Section>, n: nat): (r: seq<Section>)
    ensures |r| == |sections|
    ensures forall i :: 0 <= i < |r| ==> r[i].name == sections[i].name
    ensures DistinctNames(sections) ==> DistinctNames(r)
  {
    seq(|sections|, i requires 0 <= i < |sections| =>
      Section(sections[i].name, sections[i].lines[..Share(n, Upto(sections, Rank(sections[i].name) + 1), |sections[i].lines|)]))
  }

  /** The sections left once the first `d` of the drop order are gone. */
  function Without(sections: seq<Section>, d: nat): seq<Section>
    requires d <= 6
  {
    if sections == [] then []
    else (if DropRank(sections[0].name) < d then [] else [sections[0]]) + Without(sections[1..], d)
  }

  /** The outcome: the first state that fits, in the order "fewer and fewer lines, then fewer
      and fewer sections". */
  ghost predicate Truncated(sections: seq<Section>, max: nat, r: seq<Section>, n: nat, d: nat) {
    && n <= Total(sections) && d <= 6
    && r == Without(Kept(sections, n), d)
    && Fits(r, max)
    && (forall m :: n < m <= Total(sections) ==> !Fits(Kept(sections, m), max))
    && (d > 0 ==> n == 0)
    && (forall e :: 0 <= e < d ==> !Fits(Without(Kept(sections, n), e), max))
  }

  lemma FindsItself(sections: seq<Section>, i: nat)
    requires DistinctNames(sections) && i < |sections|
    ensures Find(sections, sections[i].name) == Some(i)
  {
  }

  lemma {:induction false} UptoFalls(sections: seq<Section>, low: nat, high: nat)
    requires low <= high <= 6
    ensures Upto(sections, high) <= Upto(sections, low)
    decreases high - low
  {
    if low < high { UptoFalls(sections, low + 1, high); }
  }

  /** Keeping every line changes nothing. */
  lemma KeptAll(sections: seq<Section>)
    requires DistinctNames(sections)
    ensures Kept(sections, Total(sections)) == sections
  {
    hide Upto;
    forall i | 0 <= i < |sections| ensures Kept(sections, Total(sections))[i] == sections[i] {
      FindsItself(sections, i);
      UptoStep(sections, Rank(sections[i].name));
      UptoFalls(sections, 0, Rank(sections[i].name));
    }
  }

  lemma NothingKept(sections: seq<Section>)
    ensures forall i :: 0 <= i < |sections| ==> Kept(sections, 0)[i].lines == []
  {
    hide Upto, Rank;
    forall i | 0 <= i < |sections| ensures Kept(sections, 0)[i].lines == [] {
      assert Share(0, Upto(sections, Rank(sections[i].name) + 1), |sections[i].lines|) == 0;
    }
  }

  lemma UptoStep(sections: seq<Section>, rank: nat)
    requires rank < 6
    ensures Upto(sections, rank) == |LinesOf(sections, TRIM_ORDER[rank])| + Upto(sections, rank + 1)
  {
  }

  lemma KeptLines(sections: seq<Section>, n: nat, rank: nat)
    requires DistinctNames(sections) && rank < 6
    ensures var name := TRIM_ORDER[rank];
            && Find(Kept(sections, n), name) == Find(sections, name)
            && LinesOf(Kept(sections, n), name)
               == LinesOf(sections, name)[..Share(n, Upto(sections, rank + 1), |LinesOf(sections, name)|)]
  {
    hide Upto, Share;
    var name := TRIM_ORDER[rank];
    assert Rank(name) == rank;
    var kept := Kept(sections, n);
    match Find(sections, name)
    case Some(i) => assert kept[i].name == name; FindsItself(kept, i);
    case None =>
  }

  /** Popping a line of the lowest non-empty section leaves the best lines but one. */
  lemma PopKeepsBest(sections: seq<Section>, n: nat, rank: nat, i: nat)
    requires DistinctNames(sections) && rank < 6 && n <= Upto(sections, rank)
    requires Find(sections, TRIM_ORDER[rank]) == Some(i)
    requires Kept(sections, n)[i].lines != []
    ensures n > 0
    ensures var lines := Kept(sections, n)[i].lines;
            Kept(sections, n)[i := Section(TRIM_ORDER[rank], lines[..|lines| - 1])] == Kept(sections, n - 1)
  {
    hide Upto, Find;
    UptoStep(sections, rank);
    assert Rank(TRIM_ORDER[rank]) == rank;
    var lines := Kept(sections, n)[i].lines;
    assert n > Upto(sections, rank + 1) && |lines| == n - Upto(sections, rank + 1);
    assert sections[i].lines[..|lines|][..|lines| - 1] == sections[i].lines[..|lines| - 1];
    var popped := Kept(sections, n)[i := Section(TRIM_ORDER[rank], lines[..|lines| - 1])];
    forall j | 0 <= j < |sections| ensures popped[j] == Kept(sections, n - 1)[j] {
      if j != i {
        var other := Rank(sections[j].name);
        UptoStep(sections, other);
        FindsItself(sections, j);
        if other > rank { UptoFalls(sections, rank + 1, other); }
        else {
          assert other != rank;
          UptoFalls(sections, other + 1, rank);
        }
      }
    }
  }

  // ----- dropping whole sections --------------------------------------------------------

  lemma {:induction false} WithoutIsSubset(sections: seq<Section>, d: nat)
    requires d <= 6
    ensures forall s <- Without(sections, d) :: s in sections && DropRank(s.name) >= d
  {
    if sections != [] { WithoutIsSubset(sections[1..], d); }
  }

  lemma {:induction false} WithoutIsDistinct(sections: seq<Section>, d: nat)
    requires d <= 6 && DistinctNames(sections)
    ensures DistinctNames(Without(sections, d))
  {
    if sections != [] {
      var rest := Without(sections[1..], d);
      WithoutIsDistinct(sections[1..], d);
      WithoutIsSubset(sections[1..], d);
      assert forall i :: 0 <= i < |rest| ==> rest[i] in rest && rest[i] in sections[1..];
    }
  }

  lemma TruncatedIsDistinct(sections: seq<Section>, max: nat, r: seq<Section>, n: nat, d: nat)
    requires DistinctNames(sections) && Truncated(sections, max, r, n, d)
    ensures DistinctNames(r)
  {
    WithoutIsDistinct(Kept(sections, n), d);
  }

  lemma MemberLines(sections: seq<Section>, s: Section)
    requires DistinctNames(sections) && s in sections
    ensures LinesOf(sections, s.name) == s.lines
  {
    var i :| 0 <= i < |sections| && sections[i] == s;
    FindsItself(sections, i);
  }

  lemma {:induction false} WithoutNothing(sections: seq<Section>)
    ensures Without(sections, 0) == sections
  {
    if sections != [] { WithoutNothing(sections[1..]); }
  }

  lemma {:induction false} WithoutAll(sections: seq<Section>)
    ensures Without(sections, 6) == []
  {
    if sections != [] { WithoutAll(sections[1..]); }
  }

  lemma NamedByDropRank(name: SectionName, d: nat)
    requires d < 6
    ensures DROP_ORDER[d] == name <==> DropRank(name) == d
  {
    assert DropRank(DROP_ORDER[d]) == d;
  }

  function Removed(sections: seq<Section>, name: SectionName): seq<Section> {
    match Find(sections, name)
    case Some(i) => sections[..i] + sections[i + 1..]
    case None => sections
  }

  lemma FindInCons(head: Section, rest: seq<Section>, name: SectionName)
    ensures Find([head] + rest, name)
         == if head.name == name then Some(0)
            else match Find(rest, name) { case Some(i) => Some(i + 1) case None => None }
  {
    assert ([head] + rest)[1..] == rest;
  }

  lemma RemovedFromCons(head: Section, rest: seq<Section>, name: SectionName)
    ensures Removed([head] + rest, name) == if head.name == name then rest else [head] + Removed(rest, name)
    ensures LinesOf([head] + rest, name) == if head.name == name then head.lines else LinesOf(rest, name)
  {
    hide Find;
    FindInCons(head, rest, name);
    var all := [head] + rest;
    if head.name == name {
      assert all[..0] + all[1..] == rest;
    } else if Find(rest, name).Some? {
      var i := Find(rest, name).value;
      assert all[..i + 1] + all[i + 2..] == [head] + (rest[..i] + rest[i + 1..]);
    }
  }

  /** Removing the next name of the drop order, where it is found. */
  lemma {:induction false} WithoutNext(sections: seq<Section>, d: nat)
    requires DistinctNames(sections) && d < 6
    ensures Without(sections, d + 1) == Removed(Without(sections, d), DROP_ORDER[d])
  {
    hide Removed, Find, DropRank, Without;
    if sections == [] {
      WithoutAny(d);
      WithoutAny(d + 1);
      NothingToRemove(DROP_ORDER[d]);
    } else {
      var head, rest := sections[0], sections[1..];
      WithoutNext(rest, d);
      assert sections == [head] + rest;
      WithoutCons(head, rest, d);
      WithoutCons(head, rest, d + 1);
      NamedByDropRank(head.name, d);
      RemovedFromCons(head, Without(rest, d), DROP_ORDER[d]);
      if DropRank(head.name) == d {
        forall s <- rest ensures DropRank(s.name) != d { NamedByDropRank(s.name, d); }
        AbsentStays(rest, d);
      }
    }
  }

  lemma WithoutCons(head: Section, rest: seq<Section>, d: nat)
    requires d <= 6
    ensures Without([head] + rest, d) == if DropRank(head.name) < d then Without(rest, d) else [head] + Without(rest, d)
  {
    assert ([head] + rest)[1..] == rest;
  }

  lemma WithoutAny(d: nat)
    requires d <= 6
    ensures Without([], d) == []
  {
  }

  lemma NothingToRemove(name: SectionName)
    ensures Removed([], name) == []
  {
  }

  /** With distinct names, nothing else is called like the first section. */
  lemma {:induction false} AbsentStays(rest: seq<Section>, d: nat)
    requires d < 6 && forall s <- rest :: DropRank(s.name) != d
    ensures Without(rest, d + 1) == Without(rest, d)
  {
    if rest != [] { AbsentStays(rest[1..], d); }
  }

  // ----- the truncation -----------------------------------------------------------------

  /** One round of the popping loop: the first section of the trim order that has a line loses
      its last one. */
  method PopLowest(current: seq<Section>, ghost sections: seq<Section>, ghost n: nat) returns (r: seq<Section>, removed: bool)
    requires DistinctNames(sections) && n <= Total(sections) && current == Kept(sections, n)
    ensures removed ==> n > 0 && r == Kept(sections, n - 1)
    ensures !removed ==> n == 0 && r == current
  {
    hide Kept, Share, Upto, Find;
    r, removed := current, false;
    for rank := 0 to 6
      invariant n <= Upto(sections, rank)
    {
      KeptLines(sections, n, rank);
      var found := Find(current, TRIM_ORDER[rank]);
      if found.Some? {
        var i := found.value;
        var lines := current[i].lines;
        if lines != [] {
          PopKeepsBest(sections, n, rank, i);
          return current[i := Section(TRIM_ORDER[rank], lines[..|lines| - 1])], true;
        }
      }
      assert n <= Upto(sections, rank + 1) by { NothingAtRank(sections, n, rank); }
    }
    UptoEnd(sections);
  }

  /** `truncate_sections`: pop while the text is too long and a line is left, then drop whole
      sections. The ghost results say which state it stopped at. */
  method TruncateSections(sections: seq<Section>, max: nat) returns (r: seq<Section>, ghost n: nat, ghost d: nat)
    requires DistinctNames(sections)
    ensures |Render(r)| <= max
    ensures Truncated(sections, max, r, n, d)
  {
    hide Kept, Total, Find, Render, Without, DistinctNames;
    r, n, d := sections, Total(sections), 0;
    KeptAll(sections);
    WithoutNothing(sections);
    var out := RenderSections(r);
    if |out| <= max {
      return;
    }
    while true
      invariant n <= Total(sections) && r == Kept(sections, n)
      invariant forall m :: n < m <= Total(sections) ==> !Fits(Kept(sections, m), max)
      decreases n
    {
      out := RenderSections(r);
      if |out| <= max {
        WithoutNothing(r);
        return;
      }
      var removed;
      r, removed := PopLowest(r, sections, n);
      if !removed {
        break;
      }
      n := n - 1;
    }
    out := RenderSections(r);
    if |out| <= max {
      WithoutNothing(r);
      return;
    }
    ghost var empty := r;
    WithoutNothing(empty);
    for i := 0 to 6
      invariant d == i && r == Without(empty, d)
      invariant forall e :: 0 <= e < d ==> !Fits(Without(empty, e), max)
    {
      out := RenderSections(r);
      if |out| <= max {
        return;
      }
      WithoutNext(empty, d);
      var found := Find(r, DROP_ORDER[i]);
      if found.Some? {
        r := r[..found.value] + r[found.value + 1..];
      }
      d := d + 1;
    }
    WithoutAll(empty);
    RenderNothing();
  }

  lemma RenderNothing()
    ensures Render([]) == ""
  {
  }

  // ----- what it means ------------------------------------------------------------------

  /** The state is the only one that meets the description. */
  lemma TruncatedIsUnique(sections: seq<Section>, max: nat, r1: seq<Section>, n1: nat, d1: nat, r2: seq<Section>, n2: nat, d2: nat)
    requires Truncated(sections, max, r1, n1, d1) && Truncated(sections, max, r2, n2, d2)
    ensures r1 == r2 && n1 == n2 && d1 == d2
  {
    hide Kept, Without, Fits, Total;
    if n1 == n2 {
      assert Fits(Without(Kept(sections, n1), d1), max) && Fits(Without(Kept(sections, n1), d2), max);
    } else {
      WithoutNothing(Kept(sections, n1));
      WithoutNothing(Kept(sections, n2));
    }
  }

  /** Sections that fit are left as they are. */
  lemma AllFit(sections: seq<Section>, max: nat, r: seq<Section>, n: nat, d: nat)
    requires DistinctNames(sections) && Truncated(sections, max, r, n, d) && Fits(sections, max)
    ensures r == sections
  {
    hide Kept, Without, Fits, Total;
    KeptAll(sections);
    WithoutNothing(sections);
    assert Truncated(sections, max, sections, Total(sections), 0);
    TruncatedIsUnique(sections, max, r, n, d, sections, Total(sections), 0);
  }

  /** Sections keep a prefix of their lines, and a section that lost a line leaves none in the
      sections ranked below it: an active goal goes only after every other line. */
  lemma LowerRanksGoFirst(sections: seq<Section>, max: nat, r: seq<Section>, n: nat, d: nat, low: SectionName, high: SectionName)
    requires DistinctNames(sections) && Truncated(sections, max, r, n, d)
    requires Rank(low) < Rank(high)
    ensures LinesOf(r, low) <= LinesOf(sections, low)
    ensures LinesOf(r, high) <= LinesOf(sections, high)
    ensures LinesOf(r, high) != LinesOf(sections, high) ==> LinesOf(r, low) == []
  {
    hide Upto, Find, Kept, Fits, Without;
    var kept := Kept(sections, n);
    KeptLines(sections, n, Rank(low));
    KeptLines(sections, n, Rank(high));
    LinesAfterDropping(kept, d, low);
    LinesAfterDropping(kept, d, high);
    UptoStep(sections, Rank(high));
    UptoFalls(sections, Rank(low) + 1, Rank(high));
  }

  lemma {:induction false} LinesAfterDropping(sections: seq<Section>, d: nat, name: SectionName)
    requires d <= 6
    ensures LinesOf(Without(sections, d), name) == if DropRank(name) < d then [] else LinesOf(sections, name)
  {
    hide Removed, LinesOf, DropRank, Without;
    if sections == [] {
      WithoutAny(d);
      NoLines(name);
    } else {
      var head, rest := sections[0], sections[1..];
      LinesAfterDropping(rest, d, name);
      WithoutCons(head, rest, d);
      assert sections == [head] + rest;
      RemovedFromCons(head, rest, name);
      RemovedFromCons(head, Without(rest, d), name);
    }
  }

  lemma NoLines(name: SectionName)
    ensures LinesOf([], name) == []
  {
  }

  lemma UptoEnd(sections: seq<Section>)
    ensures Upto(sections, 6) == 0
  {
  }

  lemma NothingAtRank(sections: seq<Section>, n: nat, rank: nat)
    requires DistinctNames(sections) && rank < 6 && n <= Upto(sections, rank)
    requires LinesOf(Kept(sections, n), TRIM_ORDER[rank]) == []
    ensures n <= Upto(sections, rank + 1)
  {
    hide Upto, Kept, Find;
    UptoStep(sections, rank);
    KeptLines(sections, n, rank);
  }
}
