/** Runs of the queue that lose a message, lose a dead letter, and give a file two holders. Each
    file has a name the repository would give it. */
module QueueWitness {
  import opened Prelude
  import opened QueueNames
  import opened QueueFiles
  import opened QueueMachine
  import opened QueueRuns
  import opened QueueReplies
  import opened QueueProcess

  const FILE := "m.json"

  /** Nobody works, nothing is in processing, and the file's name is free. */
  predicate AtRest(q: Queue) {
    (q.workers == map[] || q.workers == map[0 := Free]) && q.files.processing == map[] && FILE !in q.files.incoming
  }

  /** Steps `k` to `k + 3`: accepted under the file's name, listed, and claimed by worker 0. */
  ghost predicate ClaimAt(steps: seq<Step>, k: nat, body: Body) {
    && k + 3 <= |steps| && steps[k] == Accept(FILE, body) && steps[k + 1] == Look(0, [FILE]) && steps[k + 2] == Try(0)
    && AtRest(Run(steps[..k])) && body !in Run(steps[..k]).accepted
  }

  function Claimed(q: Queue, body: Body): Queue {
    q.(files := q.files.(processing := map[FILE := body]), workers := map[0 := Holding(FILE, body)], accepted := q.accepted + {body})
  }

  lemma ClaimSteps(q: Queue, body: Body)
    requires AtRest(q) && body !in q.accepted
    ensures Next(Next(Next(q, Accept(FILE, body)), Look(0, [FILE])), Try(0)) == Claimed(q, body)
  {
    hide RecoverPrefix, DroppedBy, OverwrittenBy, IsOrder;
    var q1 := Next(q, Accept(FILE, body));
    assert q1.files.incoming - {FILE} == q.files.incoming;
    assert q1.lost == q.lost;
    var q2 := Next(q1, Look(0, [FILE]));
    assert q2.workers == map[0 := Walking([FILE])];
  }

  lemma ClaimIs(steps: seq<Step>, k: nat, body: Body)
    requires ClaimAt(steps, k, body)
    ensures Run(steps[..k + 3]) == Claimed(Run(steps[..k]), body)
  {
    hide Next, Run;
    Stepwise(steps, k);
    Stepwise(steps, k + 1);
    Stepwise(steps, k + 2);
    ClaimSteps(Run(steps[..k]), body);
  }

  // ----- recovery onto a taken name -----------------------------------------------------

  /** The file name of a recovered message is used again, claimed, and recovered under the same
      new name. */
  function RecoveredTwice(hash: string -> string): seq<Step> {
    [Accept(FILE, Body(0, None)), Look(0, [FILE]), Try(0), Crash, RecoverSome(hash, [FILE], 1),
     Accept(FILE, Body(1, None)), Look(0, [FILE]), Try(0), Crash, RecoverSome(hash, [FILE], 1)]
  }

  lemma OneTurn(hash: string -> string, f: Files, body: Body)
    requires f.processing == map[FILE := body] && body.key.None?
    ensures IsOrder([FILE], f.processing) && DroppedBy(f, [FILE], 1) == {}
    ensures var target := RecoveredName(hash, 0, FILE);
            && RecoverPrefix(hash, f, [FILE], 1).files == f.(incoming := f.incoming[target := body], processing := map[])
            && OverwrittenBy(hash, f, [FILE], 1) == Under(f.incoming, target)
  {
    hide RecoveredName, OutgoingKeys;
    var order := [FILE];
    assert Restored(f, order, 0) && BodyAt(f, order, 0) == body;
    var target := RecoveredName(hash, 0, FILE);
    assert RecoverPrefix(hash, f, order, 0) == Recovery(f, {}, [], []);
    assert forall name :: Writes(hash, f, order, 1, name) <==> name == target;
  }

  lemma RecoverRound(hash: string -> string, steps: seq<Step>, k: nat, body: Body)
    requires ClaimAt(steps, k, body) && body.key.None?
    requires k + 5 <= |steps| && steps[k + 3] == Crash && steps[k + 4] == RecoverSome(hash, [FILE], 1)
    ensures var q := Run(steps[..k]);
            var target := RecoveredName(hash, 0, FILE);
            Run(steps[..k + 5]) == q.(files := q.files.(incoming := q.files.incoming[target := body]), workers := map[], counter := 0,
                                      accepted := q.accepted + {body}, lost := q.lost + Under(q.files.incoming, target))
  {
    hide RecoveredName, RecoverPrefix, DroppedBy, OverwrittenBy, OutgoingKeys, Run, IsOrder;
    ClaimIs(steps, k, body);
    Stepwise(steps, k + 3);
    Stepwise(steps, k + 4);
    OneTurn(hash, Run(steps[..k + 4]).files, body);
  }

  /** A message is lost, for every hash. */
  lemma TheRunLoses(hash: string -> string)
    ensures Run(RecoveredTwice(hash)).accepted == {Body(0, None), Body(1, None)}
    ensures Run(RecoveredTwice(hash)).lost == {Body(0, None)}
  {
    hide RecoveredName, Next, IsOrder;
    var steps := RecoveredTwice(hash);
    assert RecoveredName(hash, 0, FILE) != FILE by { RecoveredStartsWithR(hash); }
    assert steps[..0] == [];
    RecoverRound(hash, steps, 0, Body(0, None));
    RecoverRound(hash, steps, 5, Body(1, None));
    assert steps[..10] == steps;
  }

  lemma RecoveredStartsWithR(hash: string -> string)
    ensures RecoveredName(hash, 0, FILE)[0] == 'r'
  {
  }

  // ----- names used again after a restart -----------------------------------------------

  const FIRST := Body(0, Some(("c", "m")))
  const SECOND := Body(1, Some(("c", "m")))

  /** The counter starts at zero again when the program is started again, after a crash or a stop:
      the second message is requeued under the name of the first, which waits there. */
  function RequeuedTwice(hash: string -> string): seq<Step> {
    var name := RequeueName(hash, FILE, 1, 0);
    [Accept(FILE, FIRST), Look(0, [FILE]), Try(0), GiveBack(0, name), Crash,
     Accept(FILE, SECOND), Look(0, [FILE]), Try(0), GiveBack(0, name)]
  }

  lemma RequeueStep(steps: seq<Step>, k: nat, body: Body, name: string)
    requires ClaimAt(steps, k, body) && k + 4 <= |steps| && steps[k + 3] == GiveBack(0, name)
    ensures var q := Run(steps[..k]);
            Run(steps[..k + 4]) == q.(files := q.files.(incoming := q.files.incoming[name := body]), workers := map[0 := Free],
                                      counter := q.counter + 1, accepted := q.accepted + {body},
                                      lost := q.lost + Under(q.files.incoming, name))
  {
    hide RecoverPrefix, DroppedBy, OverwrittenBy, IsOrder, Run;
    ClaimIs(steps, k, body);
    Stepwise(steps, k + 3);
    assert map[FILE := body] - {FILE} == map[];
    assert map[0 := Holding(FILE, body)][0 := Free] == map[0 := Free];
  }

  lemma CrashStep(steps: seq<Step>, k: nat)
    requires k < |steps| && steps[k] == Crash
    ensures Run(steps[..k + 1]) == Run(steps[..k]).(workers := map[], counter := 0)
  {
    hide Run;
    Stepwise(steps, k);
  }

  lemma FileHasNoAttempt()
    ensures NextAttempt(FILE) == 1
  {
    hide Numerals.Decimal;
    Text.LastIndexOfAt("m", '.', "json");
    assert "m" + ['.'] + "json" == FILE;
  }

  lemma RequeueStates(hash: string -> string)
    ensures var steps := RequeuedTwice(hash);
            var name := RequeueName(hash, FILE, 1, 0);
            && WorkerOf(Run(steps[..3]), 0) == Holding(FILE, FIRST) && Run(steps[..3]).counter == 0
            && WorkerOf(Run(steps[..8]), 0) == Holding(FILE, SECOND) && Run(steps[..8]).counter == 0
            && Run(steps).lost == {FIRST} && Run(steps).files.incoming == map[name := SECOND]
  {
    hide RequeueName, Next, IsOrder;
    var steps := RequeuedTwice(hash);
    var name := RequeueName(hash, FILE, 1, 0);
    assert name != FILE by { RequeueNameCounts(hash, FILE, 1, 0); }
    assert Run(steps[..0]) == EMPTY_QUEUE by { assert steps[..0] == []; EmptyRun(); }
    hide Run;
    RequeueStep(steps, 0, FIRST, name);
    ClaimIs(steps, 0, FIRST);
    CrashStep(steps, 4);
    RequeueStep(steps, 5, SECOND, name);
    ClaimIs(steps, 5, SECOND);
    assert steps[..9] == steps;
    assert map[name := FIRST][name := SECOND] == map[name := SECOND];
  }

  /** Requeueing after a restart loses the message requeued before it, for every hash. */
  lemma RequeueAfterRestartLoses(hash: string -> string)
    ensures Always(Named(hash), RequeuedTwice(hash))
    ensures Run(RequeuedTwice(hash)).lost == {FIRST} && Run(RequeuedTwice(hash)).files.incoming == map[RequeueName(hash, FILE, 1, 0) := SECOND]
  {
    hide RequeueName, Run, NextAttempt, IsOrder;
    FileHasNoAttempt();
    RequeueStates(hash);
  }

  /** With a budget of one attempt, a message that fails before a restart and its successor of the
      same id that fails after it. */
  function BuriedTwice(hash: string -> string): seq<Step> {
    var name := DeadLetterName(hash, "m", 0);
    [Accept(FILE, FIRST), Look(0, [FILE]), Try(0), WriteDeadLetter(0, name), Finish(0), Crash,
     Accept(FILE, SECOND), Look(0, [FILE]), Try(0), WriteDeadLetter(0, name), Finish(0)]
  }

  lemma BuryStep(steps: seq<Step>, k: nat, body: Body, name: string)
    requires ClaimAt(steps, k, body) && k + 5 <= |steps| && steps[k + 3] == WriteDeadLetter(0, name) && steps[k + 4] == Finish(0)
    requires body.key.Some?
    ensures var q := Run(steps[..k]);
            Run(steps[..k + 5]) == q.(files := q.files.(failed := q.files.failed[name := body]), workers := map[0 := Free],
                                      counter := q.counter + 1, accepted := q.accepted + {body}, buried := q.buried + {body},
                                      erased := q.erased + (Under(q.files.failed, name) - {body}))
  {
    hide RecoverPrefix, DroppedBy, OverwrittenBy, IsOrder, Run;
    ClaimIs(steps, k, body);
    Stepwise(steps, k + 3);
    Stepwise(steps, k + 4);
    assert map[FILE := body] - {FILE} == map[];
    assert map[0 := Holding(FILE, body)][0 := Burying(FILE, body)][0 := Free] == map[0 := Free];
  }

  lemma BuriedStates(hash: string -> string)
    ensures var steps := BuriedTwice(hash);
            var name := DeadLetterName(hash, "m", 0);
            var q := Run(steps);
            && WorkerOf(Run(steps[..3]), 0) == Holding(FILE, FIRST) && Run(steps[..3]).counter == 0
            && WorkerOf(Run(steps[..9]), 0) == Holding(FILE, SECOND) && Run(steps[..9]).counter == 0
            && q.buried == {FIRST, SECOND} && q.erased == {FIRST} && q.lost == {} && q.files.failed == map[name := SECOND]
  {
    hide DeadLetterName, Next, IsOrder;
    var steps := BuriedTwice(hash);
    var name := DeadLetterName(hash, "m", 0);
    assert Run(steps[..0]) == EMPTY_QUEUE by { assert steps[..0] == []; EmptyRun(); }
    hide Run;
    BuryStep(steps, 0, FIRST, name);
    ClaimIs(steps, 0, FIRST);
    CrashStep(steps, 5);
    BuryStep(steps, 6, SECOND, name);
    ClaimIs(steps, 6, SECOND);
    assert steps[..11] == steps;
    assert map[name := FIRST][name := SECOND] == map[name := SECOND];
  }

  /** A dead letter written after a restart replaces the one written before it, for every hash:
      both messages are dead-lettered, one letter is left. */
  lemma LetterAfterRestartErases(hash: string -> string)
    ensures Always(Named(hash), BuriedTwice(hash))
    ensures var q := Run(BuriedTwice(hash));
            q.buried == {FIRST, SECOND} && q.erased == {FIRST} && q.files.failed == map[DeadLetterName(hash, "m", 0) := SECOND] && q.lost == {}
  {
    hide DeadLetterName, Run, IsOrder;
    BuriedStates(hash);
  }

  // ----- two holders --------------------------------------------------------------------

  /** A file enqueued again under its name while a worker holds it is claimed by a second one. */
  const CLAIMED_TWICE: seq<Step> :=
    [Accept(FILE, FIRST), Look(0, [FILE]), Try(0), Accept(FILE, SECOND), Look(1, [FILE]), Try(1)]

  lemma TwoWorkersHoldOneFile()
    ensures var q := Run(CLAIMED_TWICE);
            && q == EMPTY_QUEUE.(files := q.files, workers := map[0 := Holding(FILE, FIRST), 1 := Holding(FILE, SECOND)],
                                 accepted := {FIRST, SECOND}, lost := {FIRST})
            && q.files == Files(map[], map[FILE := SECOND], map[], map[]) && !HeldInv(q)
  {
    hide Run, RecoverPrefix, DroppedBy, OverwrittenBy, IsOrder;
    var steps := CLAIMED_TWICE;
    assert Run(steps[..0]) == EMPTY_QUEUE by { assert steps[..0] == []; EmptyRun(); }
    ClaimIs(steps, 0, FIRST);
    Stepwise(steps, 3);
    Stepwise(steps, 4);
    Stepwise(steps, 5);
    assert steps[..6] == steps;
    var q := Run(steps);
    assert q.workers[0].name == q.workers[1].name;
    assert map[FILE := SECOND] - {FILE} == map[];
  }

  lemma EmptyRun()
    ensures Run([]) == EMPTY_QUEUE
  {
  }

  lemma RunThen(steps: seq<Step>, step: Step)
    ensures Run(steps + [step]) == Next(Run(steps), step)
  {
    assert (steps + [step])[..|steps|] == steps;
  }

  // ----- replies ------------------------------------------------------------------------

  const REPLY := Reply("c", "m", 0)
  const REPLY_FILE := "c_m_0.json"

  const REPLIED: seq<Step> := CLAIMED_TWICE + [BeginReplies(1, [REPLY])] + [WriteOne(1, REPLY_FILE)]

  lemma RepliedIs()
    ensures var q := Run(REPLIED);
            && q.workers == map[0 := Holding(FILE, FIRST), 1 := Replying(FILE, SECOND, [])]
            && q.files == Files(map[], map[FILE := SECOND], map[REPLY_FILE := REPLY], map[]) && q.accepted == {FIRST, SECOND}
    ensures Answered(Run(REPLIED), SECOND)
  {
    hide Run, RecoverPrefix, DroppedBy, OverwrittenBy, IsOrder, HeldInv;
    var s1 := CLAIMED_TWICE + [BeginReplies(1, [REPLY])];
    TwoWorkersHoldOneFile();
    RunThen(CLAIMED_TWICE, BeginReplies(1, [REPLY]));
    assert Run(s1).workers == map[0 := Holding(FILE, FIRST), 1 := Replying(FILE, SECOND, [REPLY])];
    RunThen(s1, WriteOne(1, REPLY_FILE));
    assert [REPLY][1..] == [];
    assert Run(REPLIED).files.outgoing == map[REPLY_FILE := REPLY];
    assert ReplyKey(REPLY) == ("c", "m");
  }

  /** When two workers hold one file, the requeue of the one puts back the message that the other has
      answered. */
  lemma AnsweredComesBack(renamed: string)
    ensures var q := Run(REPLIED + [GiveBack(0, renamed)]);
            && Answered(q, SECOND) && q.files.incoming == map[renamed := SECOND]
            && !GivesOwn(Run(REPLIED), GiveBack(0, renamed))
  {
    hide Run, RecoverPrefix, DroppedBy, OverwrittenBy, IsOrder, OutgoingKeys;
    RepliedIs();
    RunThen(REPLIED, GiveBack(0, renamed));
    SameReplies(Run(REPLIED).files, Run(REPLIED + [GiveBack(0, renamed)]).files);
  }

  function Claiming(steps: seq<Step>, body: Body): seq<Step> { steps + [Accept(FILE, body)] + [Look(0, [FILE])] + [Try(0)] }

  lemma ClaimingIs(steps: seq<Step>, body: Body)
    requires AtRest(Run(steps)) && body !in Run(steps).accepted
    ensures Run(Claiming(steps, body)) == Claimed(Run(steps), body)
  {
    hide Run, Next, AtRest, Claimed;
    RunThen(steps, Accept(FILE, body));
    RunThen(steps + [Accept(FILE, body)], Look(0, [FILE]));
    RunThen(steps + [Accept(FILE, body)] + [Look(0, [FILE])], Try(0));
    ClaimSteps(Run(steps), body);
  }

  const ANSWERED: seq<Step> := Claiming([], FIRST) + [BeginReplies(0, [REPLY])] + [WriteOne(0, REPLY_FILE)] + [Finish(0)]

  /** A second message of the same key, accepted after the first was answered and claimed when the
      process dies. */
  function SharedKey(hash: string -> string): seq<Step> { Claiming(ANSWERED, SECOND) + [Crash] + [RecoverSome(hash, [FILE], 1)] }

  function Completed(): Queue {
    EMPTY_QUEUE.(files := Files(map[], map[], map[REPLY_FILE := REPLY], map[]), workers := map[0 := Free], accepted := {FIRST}, completed := {FIRST})
  }

  lemma AnswerSteps()
    ensures Next(Next(Next(Claimed(EMPTY_QUEUE, FIRST), BeginReplies(0, [REPLY])), WriteOne(0, REPLY_FILE)), Finish(0)) == Completed()
  {
    hide RecoverPrefix, DroppedBy, OverwrittenBy, IsOrder, TryNext, GiveBackFile;
    var q1 := Next(Claimed(EMPTY_QUEUE, FIRST), BeginReplies(0, [REPLY]));
    assert q1.workers == map[0 := Replying(FILE, FIRST, [REPLY])];
    var q2 := Next(q1, WriteOne(0, REPLY_FILE));
    assert [REPLY][1..] == [];
    assert q2.workers == map[0 := Replying(FILE, FIRST, [])];
    assert map[FILE := FIRST] - {FILE} == map[];
  }

  lemma FirstAnswered()
    ensures Run(ANSWERED) == Completed()
  {
    EmptyRun();
    hide Run, Next;
    var s0 := Claiming([], FIRST);
    var s1 := s0 + [BeginReplies(0, [REPLY])];
    ClaimingIs([], FIRST);
    hide Claiming;
    RunThen(s0, BeginReplies(0, [REPLY]));
    RunThen(s1, WriteOne(0, REPLY_FILE));
    RunThen(s1 + [WriteOne(0, REPLY_FILE)], Finish(0));
    AnswerSteps();
  }

  lemma SecondAccepted()
    ensures Next(Completed(), Accept(FILE, SECOND)).files.incoming == map[FILE := SECOND]
    ensures Answered(Next(Completed(), Accept(FILE, SECOND)), SECOND)
  {
    hide RecoverPrefix, DroppedBy, OverwrittenBy, IsOrder;
    var q := Next(Completed(), Accept(FILE, SECOND));
    assert ReplyKey(REPLY) == ("c", "m") && q.files.outgoing[REPLY_FILE] == REPLY;
  }

  /** It waits in incoming with a reply of its key, and a crash makes recovery drop it, though nobody
      has handled it. */
  lemma SharedKeyIsDropped(hash: string -> string)
    ensures var q := Run(ANSWERED + [Accept(FILE, SECOND)]); q.files.incoming == map[FILE := SECOND] && Answered(q, SECOND)
    ensures var q := Run(SharedKey(hash));
            q.completed == {FIRST} && q.dropped == {SECOND} && q.files.incoming == map[] && q.files.processing == map[]
  {
    hide Run, RecoverPrefix, DroppedBy, OverwrittenBy, IsOrder, OutgoingKeys, TryNext, GiveBackFile, FinishFile, Claiming;
    FirstAnswered();
    RunThen(ANSWERED, Accept(FILE, SECOND));
    SecondAccepted();
    ClaimingIs(ANSWERED, SECOND);
    var s1 := Claiming(ANSWERED, SECOND);
    RunThen(s1, Crash);
    RunThen(s1 + [Crash], RecoverSome(hash, [FILE], 1));
    DroppedTurn(hash, Run(s1 + [Crash]).files);
  }

  lemma DroppedTurn(hash: string -> string, f: Files)
    requires f.processing == map[FILE := SECOND] && f.outgoing == map[REPLY_FILE := REPLY]
    ensures IsOrder([FILE], f.processing) && DroppedBy(f, [FILE], 1) == {SECOND} && OverwrittenBy(hash, f, [FILE], 1) == {}
    ensures RecoverPrefix(hash, f, [FILE], 1).files == f.(processing := map[])
  {
    hide RecoveredName;
    var order := [FILE];
    assert ReplyKey(f.outgoing[REPLY_FILE]) == ("c", "m");
    assert !Restored(f, order, 0) && BodyAt(f, order, 0) == SECOND;
    assert RecoverPrefix(hash, f, order, 0) == Recovery(f, {}, [], []);
    assert map[FILE := SECOND] - {FILE} == map[];
  }
}
