/** Building a memory bulletin from recalled memories, and its citations (src/memory/bulletin.rs). */
module Bulletin {
  import opened Positions
  import opened Prelude
  import opened Text
  import opened BulletinSections

  datatype NodeType = Fact | Preference | Decision | Identity | Event | Observation | Goal | Todo

  datatype Citation = Citation(memoryId: string, source: string)

  /** A recalled memory. `disputed` stands for an unresolved contradiction or a confidence below
      one half; `summary` is the snippet when there is one. */
  datatype Memory = Memory(id: string, summary: string, nodeType: NodeType, disputed: bool, citation: Citation)

  function Line(m: Memory): string { "- " + m.summary + " [" + m.id + "]" }

  function SectionFor(t: NodeType): SectionName {
    match t
    case Goal => ActiveGoals
    case Todo => OpenTodos
    case Decision => RecentDecisions
    case Preference => PreferenceProfile
    case _ => KnowledgeSummary
  }

  predicate Belongs(m: Memory, name: SectionName) {
    name == SectionFor(m.nodeType) || (name == ConflictsAndUncertainties && m.disputed)
  }

  /** The lines of one section: one for each memory that belongs there, in recall order. */
  function LinesFor(memories: seq<Memory>, name: SectionName): seq<string> {
    if memories == [] then []
    else
      var last := memories[|memories| - 1];
      LinesFor(memories[..|memories| - 1], name) + (if Belongs(last, name) then [Line(last)] else [])
  }

  function Built(memories: seq<Memory>): (r: seq<Section>)
    ensures DistinctNames(r)
  {
    seq(6, i requires 0 <= i < 6 => Section(ALL[i], LinesFor(memories, ALL[i])))
  }

  // ----- the sections by the memories' own fields ---------------------------------------

  /** The line of each memory. */
  function Texts(memories: seq<Memory>): seq<string> {
    seq(|memories|, i requires 0 <= i < |memories| => "- " + memories[i].summary + " [" + memories[i].id + "]")
  }

  function OfTypes(memories: seq<Memory>, types: set<NodeType>): set<nat> {
    set p | 0 <= p < |memories| && memories[p].nodeType in types
  }

  function DisputedOnes(memories: seq<Memory>): set<nat> {
    set p | 0 <= p < |memories| && memories[p].disputed
  }

  /** The sections before truncation: each kind of memory has its lines in one of them, in recall
      order, and the disputed memories have theirs in the last one too. */
  ghost predicate Filled(memories: seq<Memory>, built: seq<Section>) {
    && |built| == 6
    && built[0].name == KnowledgeSummary
    && Selects(Texts(memories), OfTypes(memories, {Fact, Identity, Event, Observation}), built[0].lines)
    && built[1].name == ActiveGoals
    && Selects(Texts(memories), OfTypes(memories, {Goal}), built[1].lines)
    && built[2].name == OpenTodos
    && Selects(Texts(memories), OfTypes(memories, {Todo}), built[2].lines)
    && built[3].name == RecentDecisions
    && Selects(Texts(memories), OfTypes(memories, {Decision}), built[3].lines)
    && built[4].name == PreferenceProfile
    && Selects(Texts(memories), OfTypes(memories, {Preference}), built[4].lines)
    && built[5].name == ConflictsAndUncertainties
    && Selects(Texts(memories), DisputedOnes(memories), built[5].lines)
  }

  function BelongingTo(memories: seq<Memory>, name: SectionName): set<nat> {
    set p | 0 <= p < |memories| && Belongs(memories[p], name)
  }

  lemma {:induction false} LinesAreSelected(memories: seq<Memory>, name: SectionName)
    ensures Selects(Texts(memories), BelongingTo(memories, name), LinesFor(memories, name))
  {
    hide Belongs, Selects, Line;
    if memories == [] {
      NoPositions(Texts(memories));
      assert BelongingTo(memories, name) == {};
    } else {
      var init, last := memories[..|memories| - 1], memories[|memories| - 1];
      var before := BelongingTo(init, name);
      LinesAreSelected(init, name);
      SelectsNext(Texts(init), Line(last), before, LinesFor(init, name));
      assert Texts(memories) == Texts(init) + [Line(last)] by { LineIs(last); }
      assert BelongingTo(memories, name) == if Belongs(last, name) then before + {|init|} else before;
      assert LinesFor(init, name) + [] == LinesFor(init, name);
    }
  }

  lemma LineIs(m: Memory)
    ensures Line(m) == "- " + m.summary + " [" + m.id + "]"
  {
  }

  lemma BuiltIsFilled(memories: seq<Memory>)
    ensures Filled(memories, Built(memories))
  {
    hide Texts, LinesFor, Selects;
    forall i | 0 <= i < 6
      ensures Selects(Texts(memories), BelongingTo(memories, ALL[i]), Built(memories)[i].lines)
    {
      LinesAreSelected(memories, ALL[i]);
    }
    assert BelongingTo(memories, ALL[0]) == OfTypes(memories, {Fact, Identity, Event, Observation});
    assert BelongingTo(memories, ALL[1]) == OfTypes(memories, {Goal});
    assert BelongingTo(memories, ALL[2]) == OfTypes(memories, {Todo});
    assert BelongingTo(memories, ALL[3]) == OfTypes(memories, {Decision});
    assert BelongingTo(memories, ALL[4]) == OfTypes(memories, {Preference});
    assert BelongingTo(memories, ALL[5]) == DisputedOnes(memories);
  }

  /** Only one list of sections meets the description. */
  lemma FilledIsUnique(memories: seq<Memory>, a: seq<Section>, b: seq<Section>)
    requires Filled(memories, a) && Filled(memories, b)
    ensures a == b && DistinctNames(a)
  {
    hide Texts, Selects;
    SelectsOnce(Texts(memories), OfTypes(memories, {Fact, Identity, Event, Observation}), a[0].lines, b[0].lines);
    SelectsOnce(Texts(memories), OfTypes(memories, {Goal}), a[1].lines, b[1].lines);
    SelectsOnce(Texts(memories), OfTypes(memories, {Todo}), a[2].lines, b[2].lines);
    SelectsOnce(Texts(memories), OfTypes(memories, {Decision}), a[3].lines, b[3].lines);
    SelectsOnce(Texts(memories), OfTypes(memories, {Preference}), a[4].lines, b[4].lines);
    SelectsOnce(Texts(memories), DisputedOnes(memories), a[5].lines, b[5].lines);
  }

  // ----- citations ----------------------------------------------------------------------

  /** The text between the last `[` and the last `]`. */
  function CitedId(line: string): Option<string> {
    match LastIndexOf(line, '[')
    case None => None
    case Some(start) =>
      match LastIndexOf(line, ']')
      case None => None
      case Some(end) => if end > start + 1 then Some(line[start + 1..end]) else None
  }

  function LineIds(lines: seq<string>): set<string> {
    if lines == [] then {}
    else
      LineIds(lines[..|lines| - 1])
      + match CitedId(lines[|lines| - 1]) { case Some(id) => {id} case None => {} }
  }

  function IdsOf(sections: seq<Section>): set<string> {
    if sections == [] then {} else IdsOf(sections[..|sections| - 1]) + LineIds(sections[|sections| - 1].lines)
  }

  function KeepCited(citations: seq<Citation>, ids: set<string>): seq<Citation> {
    if citations == [] then []
    else
      var last := citations[|citations| - 1];
      KeepCited(citations[..|citations| - 1], ids) + (if last.memoryId in ids then [last] else [])
  }

  function CitationsOf(memories: seq<Memory>): seq<Citation> {
    seq(|memories|, i requires 0 <= i < |memories| => memories[i].citation)
  }

  /** `citations_for_sections`. */
  method CitationsForSections(sections: seq<Section>, citations: seq<Citation>) returns (r: seq<Citation>)
    ensures r == KeepCited(citations, IdsOf(sections))
  {
    hide CitedId;
    var ids: set<string> := {};
    for i := 0 to |sections|
      invariant ids == IdsOf(sections[..i])
    {
      assert sections[..i + 1][..i] == sections[..i];
      var lines := sections[i].lines;
      for j := 0 to |lines|
        invariant ids == IdsOf(sections[..i]) + LineIds(lines[..j])
      {
        assert lines[..j + 1][..j] == lines[..j];
        var id := CitedId(lines[j]);
        if id.Some? {
          ids := ids + {id.value};
        }
      }
      assert lines[..|lines|] == lines;
    }
    assert sections[..|sections|] == sections;
    r := [];
    for i := 0 to |citations|
      invariant r == KeepCited(citations[..i], ids)
    {
      assert citations[..i + 1][..i] == citations[..i];
      if citations[i].memoryId in ids {
        r := r + [citations[i]];
      }
    }
    assert citations[..|citations|] == citations;
  }

  // ----- building -----------------------------------------------------------------------

  lemma BuiltGrows(memories: seq<Memory>, k: nat, name: SectionName)
    requires k < |memories|
    ensures LinesFor(memories[..k + 1], name)
         == LinesFor(memories[..k], name) + (if Belongs(memories[k], name) then [Line(memories[k])] else [])
  {
    assert memories[..k + 1][..k] == memories[..k];
  }

  /** `find_section_mut(..).lines.push(..)`. */
  function Push(sections: seq<Section>, i: nat, line: string): seq<Section>
    requires i < |sections|
  {
    sections[i := sections[i].(lines := sections[i].lines + [line])]
  }

  /** `build_memory_bulletin`: a line for each memory, pushed into its section, a second one when
      it is disputed; then truncation, rendering, citations. */
  method BuildMemoryBulletin(memories: seq<Memory>, maxChars: nat)
    returns (rendered: string, citations: seq<Citation>, sections: seq<Section>, ghost built: seq<Section>, ghost n: nat, ghost d: nat)
    ensures Filled(memories, built) && built == Built(memories)
    ensures Truncated(built, maxChars, sections, n, d)
    ensures rendered == Render(sections) && |rendered| <= maxChars
    ensures citations == KeepCited(CitationsOf(memories), IdsOf(sections))
    ensures CitesTheShown(memories, sections, citations)
  {
    hide Line, Truncated, Render, IdsOf, KeepCited, Filled, CitesTheShown;
    sections := seq(6, i requires 0 <= i < 6 => Section(ALL[i], []));
    for k := 0 to |memories|
      invariant sections == Built(memories[..k])
    {
      ghost var before := sections;
      var m := memories[k];
      var home := Find(sections, SectionFor(m.nodeType));
      assert home.Some? by { EveryNameIsBuilt(sections, SectionFor(m.nodeType)); }
      sections := Push(sections, home.value, Line(m));
      if m.disputed {
        var conflicts := Find(sections, ConflictsAndUncertainties);
        assert conflicts.Some? by { EveryNameIsBuilt(sections, ConflictsAndUncertainties); }
        sections := Push(sections, conflicts.value, Line(m));
      }
      forall i | 0 <= i < 6 ensures sections[i] == Built(memories[..k + 1])[i] {
        BuiltGrows(memories, k, ALL[i]);
      }
    }
    assert memories[..|memories|] == memories;
    built := sections;
    BuiltIsFilled(memories);
    sections, n, d := TruncateSections(sections, maxChars);
    rendered := RenderSections(sections);
    assert |rendered| <= maxChars by { TruncatedFits(built, maxChars, sections, n, d); }
    citations := CitationsForSections(sections, CitationsOf(memories));
    CitationsAreShownOnes(memories, maxChars, sections, n, d);
  }

  lemma EveryNameIsBuilt(sections: seq<Section>, name: SectionName)
    requires |sections| == 6 && forall i :: 0 <= i < 6 ==> sections[i].name == ALL[i]
    ensures Find(sections, name).Some?
  {
    assert sections[0].name == KnowledgeSummary && sections[1].name == ActiveGoals && sections[2].name == OpenTodos;
    assert sections[3].name == RecentDecisions && sections[4].name == PreferenceProfile;
    assert sections[5].name == ConflictsAndUncertainties;
  }

  lemma TruncatedFits(built: seq<Section>, max: nat, sections: seq<Section>, n: nat, d: nat)
    requires Truncated(built, max, sections, n, d)
    ensures |Render(sections)| <= max
  {
  }

  // ----- what the citations are ---------------------------------------------------------

  /** What a line can show of an id: the part after its last `[`. */
  function Tail(id: string): string {
    match LastIndexOf(id, '[')
    case None => id
    case Some(i) => id[i + 1..]
  }

  lemma TailIsPlain(id: string)
    ensures '[' !in Tail(id)
    ensures '[' !in id <==> Tail(id) == id
    ensures exists front :: id == front + Tail(id) && (front == "" || front[|front| - 1] == '[')
  {
    hide LastIndexOf;
    match LastIndexOf(id, '[')
    case None => assert id == "" + Tail(id);
    case Some(i) =>
      assert id == id[..i + 1] + Tail(id);
      assert |Tail(id)| < |id|;
  }

  lemma BracketsEnclose(front: string, tail: string)
    requires front != "" && front[|front| - 1] == '[' && '[' !in tail
    ensures CitedId(front + tail + "]") == if tail == "" then None else Some(tail)
  {
    hide LastIndexOf;
    var line := front + tail + "]";
    var before := front[..|front| - 1];
    assert line == before + ['['] + (tail + "]");
    LastIndexOfAt(before, '[', tail + "]");
    assert line == (front + tail) + [']'] + "";
    LastIndexOfAt(front + tail, ']', "");
    assert line[|front|..|line| - 1] == tail;
  }

  /** A line cites the part of its memory's id after the last `[`, if there is any. */
  lemma LineCitesTail(m: Memory)
    ensures CitedId(Line(m)) == if Tail(m.id) == "" then None else Some(Tail(m.id))
  {
    hide Tail, CitedId;
    TailIsPlain(m.id);
    var front :| m.id == front + Tail(m.id) && (front == "" || front[|front| - 1] == '[');
    var before := "- " + m.summary + " [";
    assert Line(m) == before + front + Tail(m.id) + "]";
    BracketsEnclose(before + front, Tail(m.id));
  }

  /** No line cites an empty id, or one that holds `[`. */
  lemma CitedIdIsPlain(line: string)
    ensures CitedId(line).Some? ==> CitedId(line).value != "" && '[' !in CitedId(line).value
  {
    hide LastIndexOf;
    if CitedId(line).Some? {
      var start, end := LastIndexOf(line, '[').value, LastIndexOf(line, ']').value;
      assert forall k :: start + 1 <= k < end ==> line[k] == line[start + 1..][k - start - 1];
    }
  }

  /** A line cites its own memory exactly when the id is not empty and holds no `[`. */
  lemma LineCitesItsMemoryIff(m: Memory)
    ensures CitedId(Line(m)) == Some(m.id) <==> m.id != "" && '[' !in m.id
  {
    hide Tail, CitedId;
    LineCitesTail(m);
    TailIsPlain(m.id);
  }

  /** The id of a memory that has a line in some section is cited exactly when it is not empty and
      holds no `[`. */
  lemma SurvivorIsCitedIff(sections: seq<Section>, m: Memory, s: Section)
    requires s in sections && Line(m) in s.lines
    ensures m.id in IdsOf(sections) <==> m.id != "" && '[' !in m.id
  {
    hide CitedId, Line, LineIds;
    LineCitesItsMemoryIff(m);
    IdsOfSections(sections, m.id);
    LineIdsOf(s.lines, m.id);
    if m.id in IdsOf(sections) {
      var i :| 0 <= i < |sections| && m.id in LineIds(sections[i].lines);
      LineIdsOf(sections[i].lines, m.id);
      var j :| 0 <= j < |sections[i].lines| && CitedId(sections[i].lines[j]) == Some(m.id);
      CitedIdIsPlain(sections[i].lines[j]);
    }
  }

  /** Some memory with this id still has a line in the bulletin. */
  ghost predicate Survives(memories: seq<Memory>, sections: seq<Section>, id: string) {
    exists m <- memories, s <- sections :: m.id == id && Line(m) in s.lines
  }

  /** Some memory whose id shows as this one still has a line in the bulletin. */
  ghost predicate Shows(memories: seq<Memory>, sections: seq<Section>, id: string) {
    id != "" && exists m <- memories, s <- sections :: Tail(m.id) == id && Line(m) in s.lines
  }

  lemma {:induction false} LineIdsOf(lines: seq<string>, id: string)
    ensures id in LineIds(lines) <==> exists j :: 0 <= j < |lines| && CitedId(lines[j]) == Some(id)
  {
    hide CitedId;
    if lines != [] {
      var init := lines[..|lines| - 1];
      LineIdsOf(init, id);
      if j :| 0 <= j < |lines| && CitedId(lines[j]) == Some(id) {
        assert j < |init| ==> init[j] == lines[j];
      }
    }
  }

  lemma {:induction false} IdsOfSections(sections: seq<Section>, id: string)
    ensures id in IdsOf(sections) <==> exists i :: 0 <= i < |sections| && id in LineIds(sections[i].lines)
  {
    hide LineIds;
    if sections != [] {
      var init := sections[..|sections| - 1];
      IdsOfSections(init, id);
      if i :| 0 <= i < |sections| && id in LineIds(sections[i].lines) {
        assert i < |init| ==> init[i] == sections[i];
      }
    }
  }

  lemma {:induction false} LinesComeFromMemories(memories: seq<Memory>, name: SectionName, j: nat)
    requires j < |LinesFor(memories, name)|
    ensures exists m <- memories :: Line(m) == LinesFor(memories, name)[j]
  {
    hide Line, Belongs;
    if memories != [] {
      var init, last := memories[..|memories| - 1], memories[|memories| - 1];
      if j < |LinesFor(init, name)| {
        LinesComeFromMemories(init, name, j);
        var m :| m in init && Line(m) == LinesFor(init, name)[j];
        assert m in memories;
      } else {
        assert last in memories;
      }
    }
  }

  lemma BulletinLine(memories: seq<Memory>, max: nat, sections: seq<Section>, n: nat, d: nat, i: nat, j: nat) returns (m: Memory)
    requires Truncated(Built(memories), max, sections, n, d) && i < |sections| && j < |sections[i].lines|
    ensures m in memories && Line(m) == sections[i].lines[j]
  {
    hide Line, Fits, Share, Upto;
    WithoutIsSubset(Kept(Built(memories), n), d);
    var k :| 0 <= k < 6 && Kept(Built(memories), n)[k] == sections[i];
    assert sections[i].lines[j] == LinesFor(memories, ALL[k])[j];
    LinesComeFromMemories(memories, ALL[k], j);
    m :| m in memories && Line(m) == LinesFor(memories, ALL[k])[j];
  }

  /** For any ids: the cited ones are those that the memories with a surviving line show. */
  lemma CitedIffShown(memories: seq<Memory>, max: nat, sections: seq<Section>, n: nat, d: nat, id: string)
    requires Truncated(Built(memories), max, sections, n, d)
    ensures id in IdsOf(sections) <==> Shows(memories, sections, id)
  {
    hide Truncated, Built, Line, CitedId, LineIds, Tail;
    IdsOfSections(sections, id);
    if id in IdsOf(sections) {
      var i :| 0 <= i < |sections| && id in LineIds(sections[i].lines);
      LineIdsOf(sections[i].lines, id);
      var j :| 0 <= j < |sections[i].lines| && CitedId(sections[i].lines[j]) == Some(id);
      var m := BulletinLine(memories, max, sections, n, d, i, j);
      LineCitesTail(m);
      assert m in memories && sections[i] in sections && Line(m) in sections[i].lines;
    }
    if Shows(memories, sections, id) {
      var m, s :| m in memories && s in sections && Tail(m.id) == id && Line(m) in s.lines;
      LineCitesTail(m);
      LineIdsOf(s.lines, id);
    }
  }

  /** The citations are those that a surviving line shows, each once for its memory, in recall order. */
  ghost predicate CitesTheShown(memories: seq<Memory>, sections: seq<Section>, citations: seq<Citation>) {
    exists at: seq<nat> ::
      && Increasing(at) && |at| == |citations|
      && (forall i :: 0 <= i < |at| ==> at[i] < |memories| && citations[i] == memories[at[i]].citation)
      && forall p :: 0 <= p < |memories| ==> (p in at <==> Shows(memories, sections, memories[p].citation.memoryId))
  }

  function IdsIn(citations: seq<Citation>, ids: set<string>): set<nat> {
    set p | 0 <= p < |citations| && citations[p].memoryId in ids
  }

  lemma {:induction false} KeptAreSelected(citations: seq<Citation>, ids: set<string>)
    ensures Selects(citations, IdsIn(citations, ids), KeepCited(citations, ids))
  {
    hide Selects;
    if citations == [] {
      NoPositions(citations);
      assert IdsIn(citations, ids) == {};
    } else {
      var init, last := citations[..|citations| - 1], citations[|citations| - 1];
      KeptAreSelected(init, ids);
      SelectsNext(init, last, IdsIn(init, ids), KeepCited(init, ids));
      assert citations == init + [last];
      assert IdsIn(citations, ids) == if last.memoryId in ids then IdsIn(init, ids) + {|init|} else IdsIn(init, ids);
      assert KeepCited(init, ids) + [] == KeepCited(init, ids);
    }
  }

  lemma CitationsAreShownOnes(memories: seq<Memory>, max: nat, sections: seq<Section>, n: nat, d: nat)
    requires Truncated(Built(memories), max, sections, n, d)
    ensures CitesTheShown(memories, sections, KeepCited(CitationsOf(memories), IdsOf(sections)))
  {
    hide Truncated, Built, IdsOf, Shows, KeepCited;
    var all, ids := CitationsOf(memories), IdsOf(sections);
    KeptAreSelected(all, ids);
    var at: seq<nat> :| ItemsAt(all, at, KeepCited(all, ids)) && Members(at) == IdsIn(all, ids);
    forall p | 0 <= p < |memories| ensures p in at <==> Shows(memories, sections, memories[p].citation.memoryId) {
      CitedIffShown(memories, max, sections, n, d, memories[p].citation.memoryId);
      assert p in Members(at) <==> p in at;
    }
  }

  /** The recalled memories whose citation is shown by a surviving line, in recall order. */
  ghost function Shown(memories: seq<Memory>, all: seq<Memory>, sections: seq<Section>): seq<Memory> {
    if memories == [] then []
    else
      var last := memories[|memories| - 1];
      Shown(memories[..|memories| - 1], all, sections) + (if Shows(all, sections, last.citation.memoryId) then [last] else [])
  }

  /** The bulletin's citations, for any ids: exactly those that surviving lines show, in recall order. */
  lemma CitationsAreTheShown(memories: seq<Memory>, max: nat, sections: seq<Section>, n: nat, d: nat)
    requires Truncated(Built(memories), max, sections, n, d)
    ensures KeepCited(CitationsOf(memories), IdsOf(sections)) == CitationsOf(Shown(memories, memories, sections))
  {
    hide Truncated, Built, IdsOf, Shows;
    forall m <- memories ensures m.citation.memoryId in IdsOf(sections) <==> Shows(memories, sections, m.citation.memoryId) {
      CitedIffShown(memories, max, sections, n, d, m.citation.memoryId);
    }
    KeptAreShown(memories, memories, sections);
  }

  lemma {:induction false} KeptAreShown(memories: seq<Memory>, all: seq<Memory>, sections: seq<Section>)
    requires forall m <- memories :: m.citation.memoryId in IdsOf(sections) <==> Shows(all, sections, m.citation.memoryId)
    ensures KeepCited(CitationsOf(memories), IdsOf(sections)) == CitationsOf(Shown(memories, all, sections))
  {
    hide IdsOf, Shows;
    if memories != [] {
      var init, last := memories[..|memories| - 1], memories[|memories| - 1];
      KeptAreShown(init, all, sections);
      assert CitationsOf(memories) == CitationsOf(init) + [last.citation];
      assert CitationsOf(memories)[..|memories| - 1] == CitationsOf(init);
    }
  }

  predicate Citable(memories: seq<Memory>) {
    forall m <- memories :: m.id != "" && '[' !in m.id && m.citation.memoryId == m.id
  }

  /** With ids that hold no `[`, showing is surviving. */
  lemma ShowsIsSurvives(memories: seq<Memory>, sections: seq<Section>, id: string)
    requires Citable(memories)
    ensures Shows(memories, sections, id) <==> Survives(memories, sections, id)
  {
    hide Tail, Line;
    forall m <- memories ensures Tail(m.id) == m.id { PlainIsTail(m.id); }
  }

  lemma PlainIsTail(id: string)
    requires '[' !in id
    ensures Tail(id) == id
  {
    hide Tail;
    TailIsPlain(id);
  }

  /** The recalled memories that still have a line, in recall order. */
  ghost function Survivors(memories: seq<Memory>, all: seq<Memory>, sections: seq<Section>): seq<Memory> {
    if memories == [] then []
    else
      var last := memories[|memories| - 1];
      Survivors(memories[..|memories| - 1], all, sections) + (if Survives(all, sections, last.id) then [last] else [])
  }

  /** With such ids the citations are exactly those of the memories with a surviving line. */
  lemma CitationsAreTheSurvivors(memories: seq<Memory>, max: nat, sections: seq<Section>, n: nat, d: nat)
    requires Truncated(Built(memories), max, sections, n, d) && Citable(memories)
    ensures KeepCited(CitationsOf(memories), IdsOf(sections)) == CitationsOf(Survivors(memories, memories, sections))
  {
    hide Truncated, Built, IdsOf, Survives, Shows, KeepCited;
    CitationsAreTheShown(memories, max, sections, n, d);
    ShownSurvive(memories, memories, sections);
  }

  lemma {:induction false} ShownSurvive(memories: seq<Memory>, all: seq<Memory>, sections: seq<Section>)
    requires Citable(all) && forall m <- memories :: m.citation.memoryId == m.id
    ensures Shown(memories, all, sections) == Survivors(memories, all, sections)
  {
    hide Survives, Shows, Citable;
    if memories != [] {
      var init, last := memories[..|memories| - 1], memories[|memories| - 1];
      ShownSurvive(init, all, sections);
      ShowsIsSurvives(all, sections, last.id);
    }
  }

  // ----- which lines go first -----------------------------------------------------------

  /** The section called `name` has no line of this memory. */
  predicate Gone(m: Memory, name: SectionName, r: seq<Section>) {
    forall s <- r :: s.name == name ==> "- " + m.summary + " [" + m.id + "]" !in s.lines
  }

  predicate Emptied(names: set<SectionName>, r: seq<Section>) {
    forall s <- r :: s.name in names ==> s.lines == []
  }

  /** Lines go by kind: a todo's only after all facts, preferences, disputes and decisions, and a
      goal's after everything else. */
  lemma LinesGoByKind(memories: seq<Memory>, built: seq<Section>, max: nat, r: seq<Section>, n: nat, d: nat, m: Memory)
    requires Filled(memories, built) && Truncated(built, max, r, n, d) && m in memories
    ensures m.nodeType == Preference && Gone(m, PreferenceProfile, r) ==> Emptied({KnowledgeSummary}, r)
    ensures m.disputed && Gone(m, ConflictsAndUncertainties, r) ==> Emptied({KnowledgeSummary, PreferenceProfile}, r)
    ensures m.nodeType == Decision && Gone(m, RecentDecisions, r)
        ==> Emptied({KnowledgeSummary, PreferenceProfile, ConflictsAndUncertainties}, r)
    ensures m.nodeType == Todo && Gone(m, OpenTodos, r)
        ==> Emptied({KnowledgeSummary, PreferenceProfile, ConflictsAndUncertainties, RecentDecisions}, r)
    ensures m.nodeType == Goal && Gone(m, ActiveGoals, r)
        ==> Emptied({KnowledgeSummary, PreferenceProfile, ConflictsAndUncertainties, RecentDecisions, OpenTodos}, r)
  {
    hide Filled, Truncated, Gone, Emptied;
    var p :| 0 <= p < |memories| && memories[p] == m;
    if m.nodeType == Preference && Gone(m, PreferenceProfile, r) { GoneEmpties(memories, built, max, r, n, d, p, 4, {KnowledgeSummary}); }
    if m.disputed && Gone(m, ConflictsAndUncertainties, r) {
      GoneEmpties(memories, built, max, r, n, d, p, 5, {KnowledgeSummary, PreferenceProfile});
    }
    if m.nodeType == Decision && Gone(m, RecentDecisions, r) {
      GoneEmpties(memories, built, max, r, n, d, p, 3, {KnowledgeSummary, PreferenceProfile, ConflictsAndUncertainties});
    }
    if m.nodeType == Todo && Gone(m, OpenTodos, r) {
      GoneEmpties(memories, built, max, r, n, d, p, 2, {KnowledgeSummary, PreferenceProfile, ConflictsAndUncertainties, RecentDecisions});
    }
    if m.nodeType == Goal && Gone(m, ActiveGoals, r) {
      GoneEmpties(memories, built, max, r, n, d, p, 1,
                  {KnowledgeSummary, PreferenceProfile, ConflictsAndUncertainties, RecentDecisions, OpenTodos});
    }
  }

  lemma GoneEmpties(memories: seq<Memory>, built: seq<Section>, max: nat, r: seq<Section>, n: nat, d: nat, p: nat, i: nat, lower: set<SectionName>)
    requires Filled(memories, built) && Truncated(built, max, r, n, d) && p < |memories| && i < 6
    requires Belongs(memories[p], ALL[i]) && Gone(memories[p], ALL[i], r)
    requires forall name <- lower :: Rank(name) < Rank(ALL[i])
    ensures Emptied(lower, r)
  {
    hide Filled, Truncated, Line, LinesFor;
    BuiltIsFilled(memories);
    FilledIsUnique(memories, built, Built(memories));
    LinesAreSelected(memories, ALL[i]);
    var text := Texts(memories)[p];
    assert text in LinesFor(memories, ALL[i]) by {
      SelectedIsThere(Texts(memories), BelongingTo(memories, ALL[i]), LinesFor(memories, ALL[i]), p);
    }
    FindsItself(built, i);
    LosesTail(built, max, r, n, d, ALL[i], text);
    TruncatedIsDistinct(built, max, r, n, d);
    forall s <- r | s.name in lower ensures s.lines == [] {
      LowerRanksGoFirst(built, max, r, n, d, s.name, ALL[i]);
      MemberLines(r, s);
    }
  }

  lemma SelectedIsThere<T>(items: seq<T>, wanted: set<nat>, values: seq<T>, p: nat)
    requires Selects(items, wanted, values) && p in wanted && p < |items|
    ensures items[p] in values
  {
    var at: seq<nat> :| ItemsAt(items, at, values) && Members(at) == wanted;
    assert p in Members(at);
    var i :| 0 <= i < |at| && at[i] == p;
    assert values[i] == items[p];
  }

  /** A section whose line is in none of that name left has lost it. */
  lemma LosesTail(built: seq<Section>, max: nat, r: seq<Section>, n: nat, d: nat, name: SectionName, text: string)
    requires text in LinesOf(built, name) && forall s <- r :: s.name == name ==> text !in s.lines
    ensures LinesOf(r, name) != LinesOf(built, name)
  {
    if Find(r, name).Some? { assert r[Find(r, name).value] in r; }
  }

  function Names(sections: seq<Section>): seq<SectionName> {
    seq(|sections|, i requires 0 <= i < |sections| => sections[i].name)
  }

  /** The names of the last `count` sections to stay, in their order in the text. */
  function NamesLeft(count: nat): seq<SectionName>
    requires count <= 6
  {
    match count
    case 0 => []
    case 1 => [ActiveGoals]
    case 2 => [ActiveGoals, OpenTodos]
    case 3 => [ActiveGoals, OpenTodos, RecentDecisions]
    case 4 => [KnowledgeSummary, ActiveGoals, OpenTodos, RecentDecisions]
    case 5 => [KnowledgeSummary, ActiveGoals, OpenTodos, RecentDecisions, PreferenceProfile]
    case _ => [KnowledgeSummary, ActiveGoals, OpenTodos, RecentDecisions, PreferenceProfile, ConflictsAndUncertainties]
  }

  /** Whole sections go only when no line is left, disputes first and the goals last. */
  lemma SectionsGoInOrder(memories: seq<Memory>, built: seq<Section>, max: nat, r: seq<Section>, n: nat, d: nat)
    requires Filled(memories, built) && Truncated(built, max, r, n, d)
    ensures |r| < 6 ==> forall s <- r :: s.lines == []
    ensures |r| <= 6 && Names(r) == NamesLeft(|r|)
  {
    hide Selects, Texts, Kept, Without, Render;
    var kept := Kept(built, n);
    NamesOfRest(kept, d);
    if d > 0 {
      WithoutIsSubset(kept, d);
      NothingKept(built);
    }
  }

  lemma NamesOfRest(six: seq<Section>, d: nat)
    requires |six| == 6 && d <= 6
    requires six[0].name == KnowledgeSummary && six[1].name == ActiveGoals && six[2].name == OpenTodos
    requires six[3].name == RecentDecisions && six[4].name == PreferenceProfile && six[5].name == ConflictsAndUncertainties
    ensures var r := Without(six, d); |r| == 6 - d && Names(r) == NamesLeft(6 - d)
  {
    hide Without;
    WithoutSix(six[0], six[1], six[2], six[3], six[4], six[5], d);
    assert six == [six[0], six[1], six[2], six[3], six[4], six[5]];
  }

  lemma WithoutSix(a: Section, b: Section, c: Section, e: Section, f: Section, g: Section, d: nat)
    requires d <= 6
    requires a.name == KnowledgeSummary && b.name == ActiveGoals && c.name == OpenTodos
    requires e.name == RecentDecisions && f.name == PreferenceProfile && g.name == ConflictsAndUncertainties
    ensures Without([a, b, c, e, f, g], d)
         == match d {
              case 0 => [a, b, c, e, f, g]
              case 1 => [a, b, c, e, f]
              case 2 => [a, b, c, e]
              case 3 => [b, c, e]
              case 4 => [b, c]
              case 5 => [b]
              case _ => []
            }
  {
    hide Without;
    WithoutCons(a, [b, c, e, f, g], d);
    WithoutCons(b, [c, e, f, g], d);
    WithoutCons(c, [e, f, g], d);
    WithoutCons(e, [f, g], d);
    WithoutCons(f, [g], d);
    WithoutCons(g, [], d);
    WithoutAny(d);
    assert [a] + [b, c, e, f, g] == [a, b, c, e, f, g] && [b] + [c, e, f, g] == [b, c, e, f, g] && [c] + [e, f, g] == [c, e, f, g];
    assert [e] + [f, g] == [e, f, g] && [f] + [g] == [f, g] && [g] + [] == [g];
    if d > 0 { assert [b] + ([c] + [e]) == [b, c, e]; }
  }

  /** A concrete text: one goal, not disputed, well within the limit. */
  lemma OneGoalRendered(c: Citation, built: seq<Section>, r: seq<Section>, n: nat, d: nat)
    requires Filled([Memory("g1", "ship it", Goal, false, c)], built) && Truncated(built, 4000, r, n, d)
    ensures Render(r)
         == "knowledge_summary:\n-\n" + "active_goals:\n- ship it [g1]\n" + "open_todos:\n-\n"
            + "recent_decisions:\n-\n" + "preference_profile:\n-\n" + "conflicts_and_uncertainties:\n-\n"
  {
    hide Filled, Built, Render, Truncated;
    var memories := [Memory("g1", "ship it", Goal, false, c)];
    BuiltIsFilled(memories);
    FilledIsUnique(memories, built, Built(memories));
    OneGoalBuilt(memories[0]);
    RenderSix("- ship it [g1]");
    AllFit(built, 4000, r, n, d);
  }

  lemma OneGoalBuilt(m: Memory)
    requires m.id == "g1" && m.summary == "ship it" && m.nodeType == Goal && !m.disputed
    ensures Built([m])
         == [Section(KnowledgeSummary, []), Section(ActiveGoals, ["- ship it [g1]"]), Section(OpenTodos, []),
             Section(RecentDecisions, []), Section(PreferenceProfile, []), Section(ConflictsAndUncertainties, [])]
  {
    hide LinesFor;
    forall name ensures LinesFor([m], name) == if name == ActiveGoals then ["- ship it [g1]"] else [] { OneGoalLines(m, name); }
  }

  lemma OneGoalLines(m: Memory, name: SectionName)
    requires m.id == "g1" && m.summary == "ship it" && m.nodeType == Goal && !m.disputed
    ensures LinesFor([m], name) == if name == ActiveGoals then ["- ship it [g1]"] else []
  {
    assert [m][..0] == [];
    assert LinesFor([], name) == [];
    assert Line(m) == "- ship it [g1]";
  }

  lemma RenderSix(text: string)
    ensures Render([Section(KnowledgeSummary, []), Section(ActiveGoals, [text]), Section(OpenTodos, []),
                    Section(RecentDecisions, []), Section(PreferenceProfile, []), Section(ConflictsAndUncertainties, [])])
         == "knowledge_summary:\n-\n" + ("active_goals:\n" + text + "\n") + "open_todos:\n-\n"
            + "recent_decisions:\n-\n" + "preference_profile:\n-\n" + "conflicts_and_uncertainties:\n-\n"
  {
    hide Render, RenderSection;
    var k, a, o := Section(KnowledgeSummary, []), Section(ActiveGoals, [text]), Section(OpenTodos, []);
    var e, p, c := Section(RecentDecisions, []), Section(PreferenceProfile, []), Section(ConflictsAndUncertainties, []);
    RenderNothing();
    RenderNext([], k);
    RenderNext([k], a);
    RenderNext([k, a], o);
    RenderNext([k, a, o], e);
    RenderNext([k, a, o, e], p);
    RenderNext([k, a, o, e, p], c);
    assert [] + [k] == [k] && [k] + [a] == [k, a] && [k, a] + [o] == [k, a, o] && [k, a, o] + [e] == [k, a, o, e];
    assert [k, a, o, e] + [p] == [k, a, o, e, p] && [k, a, o, e, p] + [c] == [k, a, o, e, p, c];
    SectionTexts(text);
  }

  lemma SectionTexts(text: string)
    ensures RenderSection(Section(KnowledgeSummary, [])) == "knowledge_summary:\n-\n"
    ensures RenderSection(Section(ActiveGoals, [text])) == "active_goals:\n" + text + "\n"
    ensures RenderSection(Section(OpenTodos, [])) == "open_todos:\n-\n"
    ensures RenderSection(Section(RecentDecisions, [])) == "recent_decisions:\n-\n"
    ensures RenderSection(Section(PreferenceProfile, [])) == "preference_profile:\n-\n"
    ensures RenderSection(Section(ConflictsAndUncertainties, [])) == "conflicts_and_uncertainties:\n-\n"
  {
    OneLineText(text);
  }
}
