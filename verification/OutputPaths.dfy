/** Where a step attempt may write its output files (src/orchestration/output_contract.rs). */
module OutputPaths {
  import opened Prelude
  import opened Numerals
  import opened Text
  import opened Paths

  const RESERVED: seq<string> := ["prompt.md", "context.md", "provider_invocation.json"]

  /** The attempt directory as the source builds it, by successive joins. */
  function AttemptRoot(stateRoot: string, runId: string, stepId: string, attempt: nat): string {
    Join(Join(Join(Join(Join(Join(stateRoot, "workflows/runs"), runId), "steps"), stepId), "attempts"), Decimal(attempt))
  }

  /** `validate_relative_output_template`. */
  function TemplateError(template: string): Option<PathError> {
    if IsAbsolute(template) then Some(TemplateAbsolute)
    else
      var cs := Components(template);
      if CurDir in cs || ParentDir in cs then Some(TemplateNotCanonical)
      else if RootDir in cs then Some(TemplateAbsolute)
      else if cs == [] then Some(TemplateEmpty)
      else None
  }

  predicate IsReserved(template: string) {
    var cs := Components(template);
    |cs| == 1 && cs[0].Normal? && cs[0].name in RESERVED
  }

  predicate StartsWith(path: seq<string>, root: seq<string>) { root <= path }

  function ResolveTemplate(root: seq<string>, template: string): Result<seq<string>, PathError> {
    if TemplateError(template).Some? then Err(TemplateError(template).value)
    else if IsReserved(template) then Err(TemplateReserved)
    else
      match Normalize(Join(Rendered(root), template))
      case Err(e) => Err(e)
      case Ok(resolved) => if StartsWith(resolved, root) then Ok(resolved) else Err(EscapesOutputRoot)
  }

  function NamesOf(cs: seq<Component>): (names: seq<string>)
    requires forall i :: 0 <= i < |cs| ==> cs[i].Normal?
    ensures |names| == |cs| && Normals(names) == cs
  {
    seq(|cs|, i requires 0 <= i < |cs| => cs[i].name)
  }

  predicate Accepted(template: string) { TemplateError(template).None? && !IsReserved(template) }

  function TemplateNames(template: string): (names: seq<string>)
    requires Accepted(template)
    ensures names != [] && Components(template) == Normals(names)
  {
    NamesOf(Components(template))
  }

  lemma {:induction false} StackAppend(cs: seq<Component>, names: seq<string>)
    requires Stack(cs).Some?
    ensures Stack(cs + Normals(names)) == Some(Stack(cs).value + names)
  {
    if names == [] {
      assert cs + Normals(names) == cs && Stack(cs).value + names == Stack(cs).value;
    } else {
      var init, last := names[..|names| - 1], names[|names| - 1];
      var all := cs + Normals(names);
      assert all[..|all| - 1] == cs + Normals(init) && all[|all| - 1] == Normal(last);
      StackAppend(cs, init);
      assert Stack(all) == Some(Stack(cs).value + init + [last]);
      assert Stack(cs).value + init + [last] == Stack(cs).value + names;
    }
  }

  lemma RelativeComponents(template: string)
    requires !IsAbsolute(template) && CurDir !in Components(template)
    ensures Components(template) == PiecesComponents(Split(template, '/'))
  {
    hide Split;
    assert Split(template, '/')[0] == "." ==> [CurDir] <= Components(template);
  }

  /** An accepted template resolves to the output root followed by its own names: the checks
      for climbing above the file system root and for leaving the output root never fire. */
  lemma AcceptedResolvesBelowRoot(root: seq<string>, template: string)
    requires PlainNames(root)
    ensures ResolveTemplate(root, template).Ok? <==> Accepted(template)
    ensures Accepted(template) ==> ResolveTemplate(root, template) == Ok(root + TemplateNames(template))
    ensures ResolveTemplate(root, template).Err? ==>
              ResolveTemplate(root, template).error in {TemplateAbsolute, TemplateNotCanonical, TemplateEmpty, TemplateReserved}
  {
    hide Split, Stack, Components, Join;
    if Accepted(template) {
      RenderedComponents(root);
      JoinComponents(Rendered(root), template);
      RelativeComponents(template);
      StackOfNormals(root);
      StackAppend([RootDir] + Normals(root), TemplateNames(template));
    }
  }

  /** `paths` holds exactly the first `n` keys, each with its template resolved below `root`. */
  ghost predicate Filled(root: seq<string>, templates: seq<(string, string)>, n: nat, paths: map<string, seq<string>>)
    requires n <= |templates|
  {
    && (forall key :: key in paths <==> exists k :: 0 <= k < n && templates[k].0 == key)
    && (forall k :: 0 <= k < n ==> Accepted(templates[k].1) && templates[k].0 in paths
                                   && paths[templates[k].0] == root + TemplateNames(templates[k].1))
  }

  lemma FillOne(root: seq<string>, templates: seq<(string, string)>, n: nat, paths: map<string, seq<string>>)
    requires n < |templates| && Filled(root, templates, n, paths) && Accepted(templates[n].1)
    requires forall i, j :: 0 <= i < j < |templates| ==> templates[i].0 != templates[j].0
    ensures Filled(root, templates, n + 1, paths[templates[n].0 := root + TemplateNames(templates[n].1)])
  {
    hide Accepted, TemplateNames;
    var key := templates[n].0;
    var more := paths[key := root + TemplateNames(templates[n].1)];
    forall other ensures other in more <==> exists k :: 0 <= k < n + 1 && templates[k].0 == other {
      KeysOneMore(templates, n, other);
    }
    forall k | 0 <= k < n + 1
      ensures Accepted(templates[k].1) && templates[k].0 in more && more[templates[k].0] == root + TemplateNames(templates[k].1)
    {
      assert k < n ==> templates[k].0 != key;
    }
  }

  lemma KeysOneMore(templates: seq<(string, string)>, n: nat, key: string)
    requires n < |templates|
    ensures (exists k :: 0 <= k < n + 1 && templates[k].0 == key) <==> key == templates[n].0 || exists k :: 0 <= k < n && templates[k].0 == key
  {
  }

  /** `resolve_step_output_paths`: fills a map from the step's templates, already interpolated,
      one for each key. */
  method ResolveStepOutputPaths(stateRoot: string, runId: string, stepId: string, attempt: nat, templates: seq<(string, string)>)
    returns (r: Result<map<string, seq<string>>, PathError>)
    requires forall i, j :: 0 <= i < j < |templates| ==> templates[i].0 != templates[j].0
    ensures var root := Normalize(AttemptRoot(stateRoot, runId, stepId, attempt));
            && (r.Ok? <==> root.Ok? && forall i :: 0 <= i < |templates| ==> Accepted(templates[i].1))
            && (root.Err? ==> r == Err(root.error))
            && (r.Ok? ==> Filled(root.value, templates, |templates|, r.value))
            && (root.Ok? && r.Err? ==> r.error in {TemplateAbsolute, TemplateNotCanonical, TemplateEmpty, TemplateReserved})
  {
    hide Normalize, AttemptRoot, ResolveTemplate, Accepted, TemplateNames, PlainNames;
    var path := AttemptRoot(stateRoot, runId, stepId, attempt);
    var root := NormalizeAbsolutePath(path);
    if root.Err? {
      return Err(root.error);
    }
    NormalizedIsPlain(path);
    var paths: map<string, seq<string>> := map[];
    for i := 0 to |templates|
      invariant Filled(root.value, templates, i, paths)
    {
      var resolved := ResolveTemplate(root.value, templates[i].1);
      AcceptedResolvesBelowRoot(root.value, templates[i].1);
      if resolved.Err? {
        return Err(resolved.error);
      }
      FillOne(root.value, templates, i, paths);
      paths := paths[templates[i].0 := resolved.value];
    }
    r := Ok(paths);
  }

  // ----- different attempts never share a path ------------------------------------------

  function AttemptNames(runId: string, stepId: string, attempt: nat): seq<string> {
    ["workflows", "runs", runId, "steps", stepId, "attempts", Decimal(attempt)]
  }

  lemma PlainDecimal(n: nat)
    ensures PlainName(Decimal(n))
  {
    hide Render, Digits;
    var s := Decimal(n);
    assert IsDigit(s[0]) && forall i :: 0 <= i < |s| ==> IsDigit(s[i]);
  }

  lemma WorkflowsRuns()
    ensures !IsAbsolute("workflows/runs") && PiecesComponents(Split("workflows/runs", '/')) == [Normal("workflows"), Normal("runs")]
  {
    hide Split;
    assert "workflows" + ['/'] + "runs" == "workflows/runs";
    SplitConcat("workflows", '/', "runs");
    PlainPiece("workflows");
    PlainPiece("runs");
    SplitWhole("workflows", '/');
    SplitWhole("runs", '/');
    PiecesConcat(["workflows"], ["runs"]);
  }

  lemma JoinName(a: string, name: string, names: seq<string>, base: seq<Component>)
    requires IsAbsolute(a) && PlainName(name) && Components(a) == base + Normals(names)
    ensures IsAbsolute(Join(a, name)) && Components(Join(a, name)) == base + Normals(names + [name])
  {
    hide Split, Components, Join;
    PlainPiece(name);
    JoinComponents(a, name);
    assert Normals(names + [name]) == Normals(names) + [Normal(name)];
  }

  /** With single-component ids the output root is the state root followed by the attempt's names. */
  lemma AttemptRootNames(stateRoot: string, runId: string, stepId: string, attempt: nat)
    requires Normalize(stateRoot).Ok? && PlainName(runId) && PlainName(stepId)
    ensures Normalize(AttemptRoot(stateRoot, runId, stepId, attempt))
         == Ok(Normalize(stateRoot).value + AttemptNames(runId, stepId, attempt))
  {
    hide Split, Stack, Components, Join, PlainName;
    var base := Components(stateRoot);
    WorkflowsRuns();
    JoinComponents(stateRoot, "workflows/runs");
    var p2 := Join(stateRoot, "workflows/runs");
    assert Components(p2) == base + Normals(["workflows", "runs"]);
    assert PlainName("steps") && PlainName("attempts") by { PlainWords(); }
    PlainDecimal(attempt);
    JoinName(p2, runId, ["workflows", "runs"], base);
    JoinName(Join(p2, runId), "steps", ["workflows", "runs", runId], base);
    var p4 := Join(Join(p2, runId), "steps");
    JoinName(p4, stepId, ["workflows", "runs", runId, "steps"], base);
    JoinName(Join(p4, stepId), "attempts", ["workflows", "runs", runId, "steps", stepId], base);
    var p6 := Join(Join(p4, stepId), "attempts");
    JoinName(p6, Decimal(attempt), ["workflows", "runs", runId, "steps", stepId, "attempts"], base);
    assert AttemptNames(runId, stepId, attempt)
        == ["workflows", "runs", runId, "steps", stepId, "attempts"] + [Decimal(attempt)];
    assert AttemptRoot(stateRoot, runId, stepId, attempt) == Join(p6, Decimal(attempt));
    StackAppend(base, AttemptNames(runId, stepId, attempt));
  }

  lemma PlainWords()
    ensures PlainName("steps") && PlainName("attempts")
  {
  }

  /** Two attempts that resolve any templates to the same path are the same attempt. */
  lemma AttemptsNeverShareAPath(stateRoot: string, run1: string, step1: string, attempt1: nat, template1: string,
                                run2: string, step2: string, attempt2: nat, template2: string)
    requires Normalize(stateRoot).Ok?
    requires PlainName(run1) && PlainName(step1) && PlainName(run2) && PlainName(step2)
    requires Accepted(template1) && Accepted(template2)
    requires var root1 := Normalize(AttemptRoot(stateRoot, run1, step1, attempt1));
             var root2 := Normalize(AttemptRoot(stateRoot, run2, step2, attempt2));
             root1.Ok? && root2.Ok? && ResolveTemplate(root1.value, template1) == ResolveTemplate(root2.value, template2)
    ensures run1 == run2 && step1 == step2 && attempt1 == attempt2
  {
    hide ResolveTemplate, Normalize, AttemptRoot, PlainName, Decimal;
    AttemptRootNames(stateRoot, run1, step1, attempt1);
    AttemptRootNames(stateRoot, run2, step2, attempt2);
    var root1 := Normalize(AttemptRoot(stateRoot, run1, step1, attempt1)).value;
    var root2 := Normalize(AttemptRoot(stateRoot, run2, step2, attempt2)).value;
    NormalizedIsPlain(AttemptRoot(stateRoot, run1, step1, attempt1));
    NormalizedIsPlain(AttemptRoot(stateRoot, run2, step2, attempt2));
    AcceptedResolvesBelowRoot(root1, template1);
    AcceptedResolvesBelowRoot(root2, template2);
    var n := |Normalize(stateRoot).value|;
    var out := ResolveTemplate(root1, template1).value;
    assert out[n + 2] == run1 == run2;
    assert out[n + 4] == step1 == step2;
    assert out[n + 6] == Decimal(attempt1) == Decimal(attempt2);
    DecimalRoundTrip(attempt1);
    DecimalRoundTrip(attempt2);
  }
}
