/** Lexical path normalisation (src/orchestration/workspace_access.rs) on Unix paths. */
module Paths {
  import opened Prelude
  import opened Text

  datatype Component = RootDir | CurDir | ParentDir | Normal(name: string)

  datatype PathError =
    | NotAbsolute
    | EscapesFilesystemRoot
    | TemplateAbsolute
    | TemplateNotCanonical
    | TemplateEmpty
    | TemplateReserved
    | EscapesOutputRoot

  predicate IsAbsolute(path: string) { path != "" && path[0] == '/' }

  function PieceComponents(piece: string): seq<Component> {
    if piece == "" || piece == "." then []
    else if piece == ".." then [ParentDir]
    else [Normal(piece)]
  }

  function PiecesComponents(pieces: seq<string>): seq<Component> {
    if pieces == [] then [] else PieceComponents(pieces[0]) + PiecesComponents(pieces[1..])
  }

  /** `Path::components`: empty and inner `.` pieces vanish. */
  function Components(path: string): seq<Component> {
    var pieces := Split(path, '/');
    if IsAbsolute(path) then [RootDir] + PiecesComponents(pieces)
    else (if pieces[0] == "." then [CurDir] else []) + PiecesComponents(pieces)
  }

  // ----- the stack reading --------------------------------------------------------------

  /** Names pushed and popped component by component; popping the bare root fails. */
  function Stack(cs: seq<Component>): Option<seq<string>> {
    if cs == [] then Some([])
    else
      match Stack(cs[..|cs| - 1])
      case None => None
      case Some(names) =>
        match cs[|cs| - 1]
        case RootDir => Some([])
        case CurDir => Some(names)
        case Normal(name) => Some(names + [name])
        case ParentDir => if names == [] then None else Some(names[..|names| - 1])
  }

  function Normalize(path: string): Result<seq<string>, PathError> {
    if !IsAbsolute(path) then Err(NotAbsolute)
    else
      match Stack(Components(path))
      case None => Err(EscapesFilesystemRoot)
      case Some(names) => Ok(names)
  }

  /** `normalize_absolute_path`: a mutable path, pushed and popped in one loop. */
  method NormalizeAbsolutePath(path: string) returns (r: Result<seq<string>, PathError>)
    ensures r == Normalize(path)
  {
    if !IsAbsolute(path) {
      return Err(NotAbsolute);
    }
    var cs := Components(path);
    var normalized: seq<string> := [];
    for i := 0 to |cs|
      invariant Stack(cs[..i]) == Some(normalized)
    {
      assert cs[..i + 1][..i] == cs[..i];
      match cs[i] {
        case RootDir => normalized := [];
        case Normal(name) => normalized := normalized + [name];
        case CurDir =>
        case ParentDir =>
          if normalized == [] {
            StackFailsForGood(cs, i + 1);
            return Err(EscapesFilesystemRoot);
          }
          normalized := normalized[..|normalized| - 1];
      }
    }
    assert cs[..|cs|] == cs;
    r := Ok(normalized);
  }

  lemma {:induction false} StackFailsForGood(cs: seq<Component>, n: nat)
    requires n <= |cs| && Stack(cs[..n]) == None
    ensures Stack(cs) == None
  {
    if n == |cs| {
      assert cs[..n] == cs;
    } else {
      assert cs[..|cs| - 1][..n] == cs[..n];
      StackFailsForGood(cs[..|cs| - 1], n);
    }
  }

  // ----- when it fails, and what survives -----------------------------------------------

  function Weight(c: Component): int {
    match c
    case Normal(_) => 1
    case ParentDir => -1
    case _ => 0
  }

  /** How far below the root the first `n` components lead. */
  function Depth(cs: seq<Component>, n: nat): int
    requires n <= |cs|
  {
    if n == 0 then 0 else Depth(cs, n - 1) + Weight(cs[n - 1])
  }

  predicate RootOnlyFirst(cs: seq<Component>) {
    forall i :: 0 < i < |cs| ==> cs[i] != RootDir
  }

  /** Component `i` names a directory that no later `..` climbs out of. */
  predicate Survives(cs: seq<Component>, n: nat, i: nat)
    requires n <= |cs|
  {
    i < n && cs[i].Normal? && forall j :: i < j <= n ==> Depth(cs, j) >= Depth(cs, i + 1)
  }

  predicate NeverAboveRoot(cs: seq<Component>, n: nat)
    requires n <= |cs|
  {
    forall j :: 0 <= j <= n ==> Depth(cs, j) >= 0
  }

  predicate Increasing(xs: seq<nat>) { forall i, j :: 0 <= i < j < |xs| ==> xs[i] < xs[j] }

  /** `ids` lists, in order, the components whose names are on the stack: the k-th one leads to
      depth k + 1, and they are exactly the survivors. */
  ghost predicate StackOf(cs: seq<Component>, n: nat, names: seq<string>, ids: seq<nat>)
    requires n <= |cs|
  {
    && |ids| == |names| == Depth(cs, n) && Increasing(ids)
    && (forall k :: 0 <= k < |ids| ==> ids[k] < n && cs[ids[k]] == Normal(names[k]) && Depth(cs, ids[k] + 1) == k + 1)
    && (forall i: nat :: i in ids <==> Survives(cs, n, i))
  }

  lemma PushSurvives(cs: seq<Component>, n: nat, names: seq<string>, ids: seq<nat>)
    requires n < |cs| && StackOf(cs, n, names, ids) && cs[n].Normal?
    ensures StackOf(cs, n + 1, names + [cs[n].name], ids + [n])
  {
    forall i: nat ensures i in ids + [n] <==> Survives(cs, n + 1, i) {
      if Survives(cs, n + 1, i) && i < n { assert Survives(cs, n, i); }
      if Survives(cs, n, i) { assert Depth(cs, n) >= Depth(cs, i + 1); }
    }
  }

  lemma PopSurvives(cs: seq<Component>, n: nat, names: seq<string>, ids: seq<nat>)
    requires n < |cs| && StackOf(cs, n, names, ids) && cs[n] == ParentDir && names != []
    ensures StackOf(cs, n + 1, names[..|names| - 1], ids[..|ids| - 1])
  {
    var kept := ids[..|ids| - 1];
    forall i: nat ensures i in kept <==> Survives(cs, n + 1, i) {
      if Survives(cs, n + 1, i) {
        assert Survives(cs, n, i);
        var k :| 0 <= k < |ids| && ids[k] == i;
        assert Depth(cs, n + 1) >= Depth(cs, i + 1) == k + 1;
        assert kept[k] == i;
      }
      if i in kept {
        var k :| 0 <= k < |kept| && kept[k] == i;
        assert ids[k] == i && i in ids;
      }
    }
  }

  lemma {:induction false} StackSurvives(cs: seq<Component>, n: nat) returns (ids: seq<nat>)
    requires n <= |cs| && RootOnlyFirst(cs)
    ensures Stack(cs[..n]).Some? <==> NeverAboveRoot(cs, n)
    ensures Stack(cs[..n]).Some? ==> StackOf(cs, n, Stack(cs[..n]).value, ids)
  {
    ids := [];
    if n > 0 {
      assert cs[..n][..n - 1] == cs[..n - 1];
      ids := StackSurvives(cs, n - 1);
      var before := Stack(cs[..n - 1]);
      if before.Some? {
        match cs[n - 1]
        case Normal(_) =>
          PushSurvives(cs, n - 1, before.value, ids);
          ids := ids + [n - 1];
        case ParentDir =>
          if before.value != [] {
            PopSurvives(cs, n - 1, before.value, ids);
            ids := ids[..|ids| - 1];
          }
        case RootDir =>
        case CurDir =>
          forall i: nat ensures Survives(cs, n, i) <==> Survives(cs, n - 1, i) {
            if Survives(cs, n - 1, i) { assert Depth(cs, n - 1) >= Depth(cs, i + 1); }
          }
      }
    }
  }

  lemma {:induction false} PiecesHaveNoRoot(pieces: seq<string>)
    ensures forall i :: 0 <= i < |PiecesComponents(pieces)| ==> PiecesComponents(pieces)[i] != RootDir
    ensures forall i :: 0 <= i < |PiecesComponents(pieces)| ==> PiecesComponents(pieces)[i] != CurDir
  {
    if pieces != [] { PiecesHaveNoRoot(pieces[1..]); }
  }

  /** Normalisation of an absolute path fails exactly when some prefix climbs above the root;
      otherwise its names are, in order, those of the components no later `..` climbs out of. */
  lemma NormalizeKeepsSurvivors(path: string) returns (ids: seq<nat>)
    requires IsAbsolute(path)
    ensures var cs := Components(path);
            match Normalize(path)
            case Err(e) => e == EscapesFilesystemRoot && !NeverAboveRoot(cs, |cs|)
            case Ok(names) => NeverAboveRoot(cs, |cs|) && StackOf(cs, |cs|, names, ids)
  {
    hide Stack, StackOf, NeverAboveRoot, Split;
    var cs := Components(path);
    PiecesHaveNoRoot(Split(path, '/'));
    ids := StackSurvives(cs, |cs|);
    assert cs[..|cs|] == cs;
  }

  // ----- idempotence --------------------------------------------------------------------

  predicate PlainName(name: string) { name != "" && name != "." && name != ".." && '/' !in name }

  predicate PlainNames(names: seq<string>) { forall i :: 0 <= i < |names| ==> PlainName(names[i]) }

  function Join(a: string, b: string): string {
    if IsAbsolute(b) then b
    else if a == "" || a[|a| - 1] == '/' then a + b
    else a + ['/'] + b
  }

  /** A normalised path as text. */
  function Rendered(names: seq<string>): string {
    if names == [] then "/" else Join(Rendered(names[..|names| - 1]), names[|names| - 1])
  }

  function Normals(names: seq<string>): (cs: seq<Component>)
    ensures |cs| == |names| && forall i :: 0 <= i < |cs| ==> cs[i] == Normal(names[i])
  {
    seq(|names|, i requires 0 <= i < |names| => Normal(names[i]))
  }

  lemma {:induction false} PiecesConcat(a: seq<string>, b: seq<string>)
    ensures PiecesComponents(a + b) == PiecesComponents(a) + PiecesComponents(b)
  {
    if a == [] {
      assert a + b == b;
    } else {
      assert (a + b)[1..] == a[1..] + b;
      PiecesConcat(a[1..], b);
    }
  }

  predicate EndsWithSlash(a: string) { a != "" && a[|a| - 1] == '/' }

  lemma SlashAddsNothing(init: string)
    ensures PiecesComponents(Split(init + ['/'], '/')) == PiecesComponents(Split(init, '/'))
  {
    hide Split;
    SplitConcat(init, '/', "");
    SplitWhole("", '/');
    PiecesConcat(Split(init, '/'), [""]);
    assert init + ['/'] + "" == init + ['/'];
    assert PiecesComponents([""]) == PieceComponents("") + PiecesComponents([""][1..]);
  }

  /** Joining a relative path onto an absolute one appends its pieces. */
  lemma JoinComponents(a: string, b: string)
    requires IsAbsolute(a) && !IsAbsolute(b)
    ensures IsAbsolute(Join(a, b)) && Components(Join(a, b)) == Components(a) + PiecesComponents(Split(b, '/'))
  {
    hide Split, PiecesComponents;
    if EndsWithSlash(a) {
      var init := a[..|a| - 1];
      assert a == init + ['/'];
      SplitConcat(init, '/', b);
      SlashAddsNothing(init);
      PiecesConcat(Split(init, '/'), Split(b, '/'));
    } else {
      SplitConcat(a, '/', b);
      PiecesConcat(Split(a, '/'), Split(b, '/'));
    }
  }

  lemma PlainPiece(name: string)
    requires PlainName(name)
    ensures !IsAbsolute(name) && PiecesComponents(Split(name, '/')) == [Normal(name)]
  {
    SplitWhole(name, '/');
    assert [name][1..] == [];
    assert PiecesComponents([]) == [];
  }

  lemma {:induction false} RenderedComponents(names: seq<string>)
    requires PlainNames(names)
    ensures IsAbsolute(Rendered(names)) && Components(Rendered(names)) == [RootDir] + Normals(names)
  {
    hide Split, Join;
    if names == [] {
      RootComponents();
    } else {
      var init, last := names[..|names| - 1], names[|names| - 1];
      RenderedComponents(init);
      PlainPiece(last);
      JoinComponents(Rendered(init), last);
      assert Normals(names) == Normals(init) + [Normal(last)];
    }
  }

  lemma RootComponents()
    ensures Components("/") == [RootDir]
  {
    SplitConcat("", '/', "");
    assert "" + ['/'] + "" == "/";
    SplitWhole("", '/');
    assert ["", ""][1..] == [""] && [""][1..] == [];
  }

  lemma {:induction false} StackOfNormals(names: seq<string>)
    ensures Stack([RootDir] + Normals(names)) == Some(names)
  {
    var cs := [RootDir] + Normals(names);
    if names == [] {
      assert cs == [RootDir] && cs[..0] == [];
    } else {
      var init := names[..|names| - 1];
      assert cs[..|cs| - 1] == [RootDir] + Normals(init);
      assert cs[|cs| - 1] == Normal(names[|names| - 1]) && names == init + [names[|names| - 1]];
      StackOfNormals(init);
    }
  }

  lemma {:induction false} PiecesArePlain(pieces: seq<string>)
    requires forall k :: 0 <= k < |pieces| ==> '/' !in pieces[k]
    ensures forall i :: 0 <= i < |PiecesComponents(pieces)| && PiecesComponents(pieces)[i].Normal? ==>
              PlainName(PiecesComponents(pieces)[i].name)
  {
    if pieces != [] { PiecesArePlain(pieces[1..]); }
  }

  lemma {:induction false} StackIsPlain(cs: seq<Component>)
    requires forall i :: 0 <= i < |cs| && cs[i].Normal? ==> PlainName(cs[i].name)
    ensures Stack(cs).Some? ==> PlainNames(Stack(cs).value)
  {
    hide PlainName;
    if cs != [] { StackIsPlain(cs[..|cs| - 1]); }
  }

  lemma NormalizedIsPlain(path: string)
    requires Normalize(path).Ok?
    ensures PlainNames(Normalize(path).value)
  {
    hide Split, Stack, PlainName;
    forall k | 0 <= k < |Split(path, '/')| ensures '/' !in Split(path, '/')[k] { PiecesHaveNoSeparator(path, '/', k); }
    PiecesArePlain(Split(path, '/'));
    StackIsPlain(Components(path));
  }

  /** Normalising a normalised path changes nothing. */
  lemma NormalizeIsIdempotent(path: string)
    requires Normalize(path).Ok?
    ensures Normalize(Rendered(Normalize(path).value)) == Normalize(path)
  {
    hide Split, Stack, PlainName, Components;
    var names := Normalize(path).value;
    NormalizedIsPlain(path);
    RenderedComponents(names);
    StackOfNormals(names);
  }
}
