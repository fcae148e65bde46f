# A verified model of DireClaw's runtime

DireClaw is a file-backed orchestration runtime. This project models its four state machines and
the text and arithmetic algorithms they rest on, and proves what they keep over whole runs.

| part | files | what is modelled |
|---|---|---|
| Workflow engine | `Workflow`, `RunStore`, `EngineMachine`, `EngineInvariant`, `EngineShape`, `EngineProgress`, `EngineBounds`, `EngineLimits`, `EngineRecovery`, `EngineResume`, `EngineCancel`, `EngineWitness`, `WorkflowEngine` | `start`/`resume` over a cyclic step graph with reviews, retries and limits, as a machine with one step for each store operation, so that cancels and crashes fall between any two; then the class `Engine`, whose methods are the source's loops and whose ghost machine takes those steps |
| Automation scheduler | `Numerals`, `Text`, `Cron`, `CronText`, `Schedule`, `CronMeaning`, `Calendar`, `JobStore`, `Tick`, `TickGuards`, `TickSafety`, `TickRepeat`, `TickOverlap`, `TickStores`, `TickProgress`, `TickTimes`, `TickWitness`, `TickMeaning`, `Scheduler` | job operations, ticks, completion, the run history and the 2048-entry cache; cron parsing and the next-run search; the class `SchedulerWorker` with the source's loops |
| Message queue | `KeyScheduler`, `QueueNames`, `QueueFiles`, `QueueLifecycle`, `QueueMachine`, `QueueRuns`, `QueueReplies`, `QueueProcess`, `QueueWitness` | the per-key scheduler (a class); claiming, replying, requeueing, dead-lettering and recovery as file moves (a class), and as steps of any number of workers, with any file names, and with crashes between file operations, in the middle of a recovery too |
| Algorithms | `Positions`, `BulletinSections`, `Bulletin`, `Spans`, `RunIds`, `Paths`, `OutputPaths` | bulletin truncation and citations, sentence spans, base-36 run ids, path normalisation, output paths |

## How to read the model

- The file system is a set of maps from names to records; one read-modify-write is one step unless
  a section above says it is split. The clock is an argument.
- Left open, as parameters: what a provider call yields (any function of what was recorded
  before it), the local calendar fields of a timestamp in a zone (`Zones`), the SHA hash used in
  file names, directory listing order, nanosecond stamps, random suffixes.
- Imperative code is modelled by classes and methods with loops, each proved equal to a
  specification function of the old state; the theorems are lemmas about those functions and about
  runs built from them.
- Characters are Unicode scalar values, except in the bulletin modules, where text is its UTF-8
  bytes because the limit counts bytes.

## Where the code does less than one might expect

Each of these is stated exactly: a condition that can be checked before the call, a theorem under
it, and, where the failure is one of whole runs, a run from the empty store that shows it.

1. **A trigger can be dispatched twice.** `tick` enqueues the trigger before it computes the next
   run; when the cron search finds nothing, the tick fails with no history record, and the next
   tick enqueues the same execution id again. The guard is `Tick.StrandsTrigger`: a job is reached
   that is due, not to be skipped, not held back, not known, and has no next run
   (`TickGuards.StrandsTriggerIff`, `TickRepeat.HaltedTickRepeats`). It happens in coordinated
   universal time: a job for 29 February dispatched in 2096 finds no other 29 February within the
   window of 1,830 days (`TickWitness.AtMostOnceCanFail`). Without such a tick dispatch is at most
   once (`TickSafety.AtMostOnceDispatch`).
2. **Jobs that forbid overlap can overlap.** The list of active executions is saved only by a tick
   that ends well. A tick that dispatches job A and then fails at job B forgets A's execution, and
   A is dispatched again when it is next due, with no completion and within a day
   (`TickOverlap.ForgottenIsDispatchedAgain`, `TickWitness.OverlapCanFail`). The guard is
   `TickOverlap.Forgets` (`TickOverlap.ForgetsIff`); without it any two dispatches are separated
   (`TickOverlap.NoOverlapOverRuns`).
3. **A completion can make the history forget an execution** the scheduler recorded, dispatched or
   skipped, and so break at-most-once dispatch: when the execution id it names sanitises to the
   file name of another execution's only record. It forgets nothing if and only if
   `Tick.KeepsKnown` holds (`TickSafety.CompletionRemembersIff`,
   `TickWitness.ForgettingDispatchesTwice`).
4. **A cancel can be undone.** The engine writes back its own copy of the run. A cancel sticks if
   and only if it falls where the engine will reload before it writes
   (`EngineCancel.CancelSticksIff`, `EngineCancel.EveryCancelSticksIff`). Between the stored start of an attempt and the stored count
   there are two exceptions, each shown by a run: the moment between loading and writing the
   counted run, and a safety check that refuses the attempt
   (`EngineWitness.CancelWhileCountingIsUndone`, `EngineWitness.CancelBeforeRefusalIsUndone`).
5. **A crash can make resume misread the run.** It is harmless if and only if the record under
   the stored pointer, when there is one, is the last one stored and a success
   (`EngineRecovery.CrashIsHarmlessIff`, `EngineRecovery.NextCrashIsHarmlessIff`). Right after a
   failed attempt is stored it reads as success
   (`EngineRecovery.CrashAfterFailureReadsAsSuccess`, `EngineWitness.CrashAfterFailureSucceeds`);
   when a step has been entered again, the record of the first time is taken for the new attempt
   and the step is skipped (`EngineWitness.ReenteredStepIsSkipped`). A crash between the execution
   of an attempt and its count also costs the limit one attempt
   (`EngineBounds.EveryRunIsBounded`, `EngineWitness.CrashExceedsLimit`).
6. **Cron search from a negative base** skips the first candidate unless the base is a multiple of
   60, because the division truncates (`Schedule.FirstCandidateIsLeastIff`).
7. **Messages and dead letters can be overwritten.** No operation of the queue that renames or
   writes a file checks the name, apart from the search for an outgoing name. Nothing is lost if
   and only if every step gives its file a free name (`QueueRuns.NothingIsLostIff`,
   `QueueFiles.RecoverySparesIff`). Between two restarts the counter keeps the names a process
   makes up apart: it loses nothing when accepted names are new and no name it makes is on disk
   already (`QueueProcess.OneProcessLosesNothing`). A restart, after a crash or an orderly stop,
   sets the counter to zero, and then a requeue overwrites a message and a dead letter replaces an
   earlier one (`QueueWitness.RequeueAfterRestartLoses`,
   `QueueWitness.LetterAfterRestartErases`); so does recovery when the new name of a restored file
   is taken (`QueueWitness.TheRunLoses`).
8. **Two workers can hold one file**, when a file is enqueued under a name that is being worked
   on. No file ever has two holders if and only if no claim takes a held name
   (`QueueRuns.MutualExclusionIff`, `QueueWitness.TwoWorkersHoldOneFile`); it is enough that
   enqueued and requeued files take no held name (`QueueRuns.UnheldNamesExclude`).
9. **A reply counts for every message of its key.** A message accepted with the key of one already
   answered waits in incoming with a reply of its key, and a crash after its claim makes recovery
   drop it unhandled (`QueueWitness.SharedKeyIsDropped`). The answered message itself stays out of
   incoming, whatever keys are shared (`QueueReplies.AnsweredStaysOut`): only a requeue of its
   file brings it back (`QueueReplies.AnsweredReturnsIff`), which takes two holders
   (`QueueWitness.AnsweredComesBack`).
10. **A success has as many iterations as the limit exactly when the limit is zero**, which only a
   workflow without steps achieves (`EngineBounds.WholeRunIsBounded`,
   `EngineWitness.EmptyWorkflowSucceedsAtZero`).
11. **A memory with a line is not cited exactly when its id is empty or holds `[`**
   (`Bulletin.SurvivorIsCitedIff`). A line shows what follows the last `[` of the id, and that can
   keep the citation of another memory (`Bulletin.CitationsAreTheShown`).

## Model

| member | source | states |
|---|---|---|
| EngineInvariant.EngineStepKeepsInv | src/orchestration/workflow_engine.rs:240-457 | every store operation of the engine keeps the invariant tying stored run, engine copy, attempt records and execution log: reading the pointer from the store names the same next attempt as the log does, and success is stored only after a complete log |
| EngineInvariant.CancelKeepsInv | src/app/command_dispatch.rs:191-215 | a cancel between any two store operations keeps the invariant |
| EngineInvariant.CrashKeepsInv | src/orchestration/workflow_engine.rs:77-118 | a crash keeps the invariant when the run is terminal or the record under the stored pointer is the last one and a success |
| EngineShape.LegalLogIsPath | src/orchestration/output_contract.rs:232-281 | what was executed is a path: it starts at the first listed step, each success moves to the target its decision, `next` or list order chose, at attempt 1, and each retry follows a retryable failure within the budget |
| EngineShape.TerminalStepIsLastListed | src/orchestration/output_contract.rs:337-344 | a run can end well only at the last listed step, an agent_task without `next`, even when ids repeat |
| EngineShape.SuccessTarget | src/orchestration/output_contract.rs:232-281 | with unique ids a success leads to a declared step: the one its decision names, its `next`, or the one listed after it; it ends the run only at the last listed step; which errors a step raises by itself |
| EngineShape.SuccessfulRunShape | src/orchestration/workflow_engine.rs:271-457 | every state with a stored success has a path of declared steps from the first to the last listed step, with attempts numbered within the retry budget |
| EngineBounds.WholeRunShape | src/orchestration/workflow_engine.rs:271-457 | the same for every run without crashes, whatever calls and cancels it holds |
| EngineShape.ResumeRefinesUninterrupted | src/orchestration/workflow_engine.rs:220-238 | in the same world, the attempts of an interrupted and resumed run are a prefix of those of a succeeded run, and two succeeded runs have the same attempts |
| EngineRecovery.CheckedResumeRefines | src/orchestration/workflow_engine.rs:77-118 | that refinement when crashes fall where the stored pointer names no failure and no attempt so far has re-entered a step |
| EngineRecovery.ForwardNeverReenters | src/orchestration/output_contract.rs:232-281 | a workflow whose targets are all listed after their steps never re-enters one: a condition on the definition alone |
| EngineResume.ResumeCompletes | src/orchestration/workflow_engine.rs:220-269 | after any admissible interruptions an undisturbed resume ends: in success with the attempts of the run that went to its end, in the same final step failure after them, or at a safety limit that is really reached (or, for limits above 10,000, the cycle guard) |
| EngineResume.ResumeEndsTheSame | src/orchestration/workflow_engine.rs:220-269 | when the iterations left cover the attempts to come and no clock reading is late, it ends exactly as the uninterrupted run, success or failure |
| EngineRecovery.CrashIsHarmlessIff | src/orchestration/workflow_engine.rs:96-109 | for open runs, steps entered again included, after a crash the stored pointer says what the log says if and only if the record under it, when there is one, is the last one stored and a success |
| EngineRecovery.NextCrashIsHarmlessIff | src/orchestration/workflow_engine.rs:96-109 | so it is over every run whose crashes were harmless so far: the condition on crashes under which resume refines the uninterrupted run is exact |
| EngineRecovery.CrashIsHarmlessUnlessFailed | src/orchestration/workflow_engine.rs:96-109 | in runs that entered no step twice, the condition is that the record is not a failure, which the store alone tells |
| EngineRecovery.CrashAfterFailureReadsAsSuccess | src/orchestration/workflow_engine.rs:96-109 | a crash right after a stored final or retryable failure makes the next resume report success |
| EngineWitness.CrashAfterFailureSucceeds | src/orchestration/workflow_engine.rs:96-109 | a run whose only step fails for good, crashes right after, and is resumed to success |
| EngineWitness.ReenteredStepIsSkipped | src/orchestration/workflow_engine.rs:96-109 | a run that crashes when a step has been entered again, and is resumed past it without executing it |
| EngineWitness.CrashExceedsLimit | src/orchestration/run_store.rs:356-400 | a run with a limit of one that executes an attempt twice, around a crash |
| EngineWitness.CancelWhileCountingIsUndone | src/orchestration/run_store.rs:356-400 | a run canceled between the load and the write of the counted record that succeeds |
| EngineWitness.CancelBeforeRefusalIsUndone | src/orchestration/workflow_engine.rs:459-486 | a run canceled right before a refused safety check that ends failed |
| EngineWitness.EmptyWorkflowSucceedsAtZero | src/orchestration/workflow_engine.rs:271-311 | a workflow without steps succeeds with total iterations equal to a limit of zero |
| EngineBounds.EngineStepKeepsCounts | src/orchestration/run_store.rs:356-400 | every engine step keeps the counters in step: log, stored iterations, executed attempts and limit |
| EngineBounds.BoundedExecution | src/orchestration/workflow_engine.rs:120-153 | executed attempts stay within the limit; a success stays strictly below it exactly when the limit is not zero, and at zero has executed nothing |
| EngineBounds.WholeRunIsBounded | src/orchestration/workflow_engine.rs:120-153 | over every crash-free run with any resumes and cancels, at most the resolved limit of attempts execute; a success has fewer iterations than that limit if and only if it is not zero; "no progress" never occurs, nor "maximum cycles" for limits up to 10,000; `EngineLimits` says whose limit it is |
| EngineLimits.LimitsAreConfigured | src/orchestration/workflow_engine.rs:40-76 | the resolved limits are exactly the configured ones, field by field: the workflow's iterations and run timeout before the orchestrator's, else 12 and 3,600; the orchestrator's step timeout, else 900, capped by its maximum; the step's retries, else 2 |
| EngineLimits.WholeRunStaysWithinConfigured | src/orchestration/workflow_engine.rs:56-61 | over every crash-free run: if the workflow gives n, at most n attempts execute, whatever the orchestrator gives; if only the orchestrator gives n, at most n; if neither, at most 12 |
| EngineLimits.WholeRunMeetsLimit | src/orchestration/workflow_engine.rs:120-153 | with the configured limit n: a success counts fewer than n iterations unless n is zero, and the cycle guard is silent for n up to 10,000 |
| EngineLimits.UnknownWorkflowExecutesNothing | src/orchestration/workflow_engine.rs:271-311 | a run of a workflow that is not configured executes nothing |
| EngineLimits.AttemptStartsIff | src/orchestration/workflow_engine.rs:120-153 | an attempt executes if and only if no configured limit refuses it: iterations, run timeout, step timeout, retries; the first reason is the error |
| EngineLimits.OutcomeIsActedOn | src/orchestration/workflow_engine.rs:366-453 | after an attempt is counted: the configured limits again, then the next step, success, a retry for four kinds of error within the configured budget, or the error |
| EngineLimits.AttemptIsStored | src/orchestration/workflow_engine.rs:331-429 | the stored record of an attempt: times, next step or error, and retryable exactly within the configured budget |
| EngineLimits.StartAndCountAreStored | src/orchestration/run_store.rs:313-378 | what a started and a counted attempt change in the stored run |
| EngineBounds.EveryRunIsBounded | src/orchestration/run_store.rs:356-400 | over every run, crashes at any moment included, each executed attempt is counted, in progress, or was cut off by a crash before its count; executed attempts are at most the limit plus the number of such crashes |
| EngineProgress.EveryRunLives | src/orchestration/run_store.rs:356-400 | over every run, crashes at any moment included, iterations stay within the limit and the engine's copy differs from the store by a cancel at most |
| EngineProgress.EngineStepDecreases | src/orchestration/workflow_engine.rs:240-269 | from every such state a measure built on limit minus iterations falls with every store operation |
| EngineProgress.EveryCallEnds | src/orchestration/workflow_engine.rs:203-238 | from every state a run can be left in, start and resume end within 12 times the remaining iterations plus 21 store operations |
| EngineProgress.OpenRunsEnd | src/orchestration/workflow_engine.rs:203-269 | an undisturbed call on a queued or running run ends in Succeeded or Failed, or, for limits above 10,000 only, at the cycle guard |
| EngineCancel.CancelSticksIff | src/orchestration/run_store.rs:244-284 | in every state a run can reach, a cancel of an open run stays forever if it falls where the engine will reload before writing, and is overwritten within three operations otherwise |
| EngineCancel.EveryCancelSticksIff | src/app/command_dispatch.rs:191-215 | the same stated over every run, crashes at any moment included |
| EngineCancel.HeldCancelIsForever | src/orchestration/workflow_engine.rs:313-484 | a cancel that is held keeps the state Canceled and its reason through every later retry, checkpoint, failure, crash, call and cancel |
| EngineCancel.CancelDuringExecutionSticks | src/orchestration/run_store.rs:313-400 | a cancel while an attempt executes, from the passed safety check to the stored record and again after the count, is held |
| WorkflowEngine.Engine.TransitionState | src/orchestration/run_store.rs:244-284 | refuses a forbidden transition and leaves the store alone; otherwise stores the new state, reason and time and keeps the rest |
| RunStore.AllowedMoves | src/orchestration/run_store.rs:22-44 | the ten allowed transitions, listed; terminal states have none, every open state can fail or be canceled |
| WorkflowEngine.Engine.MarkStepAttemptStarted | src/orchestration/run_store.rs:313-339 | stores the engine's copy with the step, attempt and time; in lockstep with the machine |
| WorkflowEngine.Engine.PersistStepAttempt | src/orchestration/run_store.rs:356-400 | stores the attempt record, reloads the run and writes it back with one more iteration; three machine steps |
| WorkflowEngine.Engine.ActOnOutcome | src/orchestration/workflow_engine.rs:355-456 | after the reload: limits again, then the next step, completion, a retry within the budget, or the error, as the machine does |
| WorkflowEngine.Engine.ExecuteStep | src/orchestration/workflow_engine.rs:313-456 | the retry loop follows the machine and ends settled or with the machine's error |
| WorkflowEngine.Engine.ExecuteNext | src/orchestration/workflow_engine.rs:271-457 | chooses workflow, pointer and step as the machine does, completing the run when nothing is left |
| WorkflowEngine.Engine.ExecuteOrFail | src/orchestration/workflow_engine.rs:459-486 | an error fails the run unless it is terminal already |
| WorkflowEngine.Engine.RunUntilNonRunning | src/orchestration/workflow_engine.rs:240-269 | the bounded loop ends, and its result is the machine's |
| WorkflowEngine.Engine.Execute | src/orchestration/workflow_engine.rs:203-238 | start and resume end from every state a run can be left in, crashes included; the store is where the machine's steps lead; open runs end in Succeeded or Failed; a success is a path; iterations, and without crashes executions, stay within the configured limit of the run's workflow: its own, else the orchestrator's, else 12 |
| TickSafety.AtMostOnceDispatch | src/orchestration/scheduler.rs:407-461 | over every sequence of operations in which no tick strands a trigger and no completion takes another execution's only record, no execution id is enqueued twice, and the cache stays inside the history |
| TickSafety.AtMostOnceWhenSearchesSucceed | src/orchestration/scheduler.rs:828-889 | the same under a condition on the jobs alone: the searches for the jobs that are due succeed |
| TickGuards.StrandsTriggerIff | src/orchestration/scheduler.rs:363-478 | a tick fails leaving a trigger its history does not know if and only if it reaches a job that is due, not to be skipped, not held back, not known, and without a next run |
| TickGuards.SearchesKeepTicksWhole | src/orchestration/scheduler.rs:379-461 | a tick whose searches succeed reaches its end, whatever the store holds |
| TickGuards.PlainSchedulesSucceed | src/orchestration/scheduler.rs:828-889 | a condition a caller reads off the jobs: searches for one-time schedules and for intervals above zero always succeed, so only cron schedules and zero intervals can strand a trigger |
| TickSafety.CompletionRemembersIff | src/orchestration/scheduler.rs:512-634 | a completion forgets no id the scheduler could have made, for a dispatch or for a skip, if and only if the history file it writes is new, its own, or not the only file of another such id |
| TickSafety.CacheAgreesWithHistory | src/orchestration/scheduler.rs:407-413 | the test of cache and history answers as the history alone does |
| TickSafety.PerformKeepsSafety | src/orchestration/scheduler.rs:177-575 | each create, update, pause, resume, delete and run-now, each tick that strands no trigger, and each completion that keeps what is dispatched keep the safety invariant |
| TickRepeat.HaltedTickRepeats | src/orchestration/scheduler.rs:424-461 | whenever a tick strands a trigger, the same tick run again enqueues the same id a second time |
| TickWitness.AtMostOnceCanFail | src/orchestration/scheduler.rs:424-461 | a run from the empty store, in coordinated universal time, that dispatches one id twice |
| TickWitness.ForgettingDispatchesTwice | src/orchestration/scheduler.rs:608-634 | a run without stranded triggers in which a completion under another id's file name leads to one id dispatched twice |
| TickWitness.OverlapCanFail | src/orchestration/scheduler.rs:474-476 | a well-formed run without stranded triggers in which a job that never allows overlap is dispatched twice within two minutes and nothing ends the first execution |
| Calendar.CyclesStartAtNewYear | src/orchestration/scheduler.rs:804-826 | the calendar behind these runs has 1 January as day 0 and repeats every 400 years |
| Calendar.LeapTextIs | src/orchestration/scheduler.rs:786-802 | the schedule of these runs, written out field by field, is `0 0 29 2 *` |
| Calendar.LeapIsLast | src/orchestration/scheduler.rs:857-875 | from any minute of 29 February 2096 the search for the next 29 February fails |
| Calendar.FridayOrThirteenth | src/orchestration/scheduler.rs:817-825 | `0 0 13 * 5` in coordinated universal time, from 0 with no last run, runs next at 86,400, a Friday that is not the 13th |
| TickOverlap.AtMostOneActive | src/orchestration/scheduler.rs:462-466 | a job that never allows overlap has at most one active execution in every reachable state |
| TickOverlap.NoOverlapOverRuns | src/orchestration/scheduler.rs:398-466 | over every run in which no tick fails at or after the turn in which it dispatches the job, any two dispatches of a job that never allows overlap are separated by the completion of the first or by a tick more than 86,400 seconds after it |
| TickOverlap.NoOverlapWhenSearchesSucceed | src/orchestration/scheduler.rs:398-466 | the same when the searches for the jobs that are due succeed |
| TickOverlap.ForgetsIff | src/orchestration/scheduler.rs:474-476 | a tick fails after triggering the job if and only if it reaches the job when it can be dispatched and then, there or later, a job without a next run |
| TickOverlap.ForgottenIsDispatchedAgain | src/orchestration/scheduler.rs:398-466 | after such a tick, any later tick that reaches the job when it is due for an unknown run dispatches it again |
| TickOverlap.DispatchesAreSeparated | src/orchestration/scheduler.rs:480-523 | while nothing completes an active execution or finds it stale, its job is not dispatched again |
| TickOverlap.ActiveUntilEnded | src/orchestration/scheduler.rs:480-523 | only its completion, or a tick more than 86,400 seconds after its start, removes an active execution |
| TickOverlap.NoDispatchWhileActive | src/orchestration/scheduler.rs:398-405 | one operation does not dispatch a job whose execution stays active |
| TickOverlap.DispatchedIsActive | src/orchestration/scheduler.rs:462-466 | every trigger of a tick that reaches its end is active afterwards |
| TickStores.EveryRunKeepsStore | src/orchestration/scheduler.rs:363-478 | over every run in which completions take no other execution's only record, stranded and repeated triggers included: jobs under their ids, history files named after what they hold, the cache inside the history |
| TickProgress.TickMakesProgress | src/orchestration/scheduler.rs:363-478 | after a tick each job was triggered at most once; each triggered or skipped job has a later next run or is disabled; a job still due was held back by overlap or by its history |
| TickProgress.EveryTickMakesProgress | src/orchestration/scheduler.rs:363-478 | so does every tick that reaches its end after any such run |
| TickMeaning.TickMeans | src/orchestration/scheduler.rs:363-478 | after a tick that reaches its end, from each job's own fields: exactly the enabled jobs due, not missed under skip-missed, not held back by an execution at most 86,400 seconds old, and not in their history are triggered, each under `exec-<job>-<time>` and in listing order; every job, history, active entry and the last 2,048 ids afterwards |
| TickMeaning.EveryTickMeans | src/orchestration/scheduler.rs:363-478 | so does every tick that reaches its end after any run that `TickStores.EveryRunKeepsStore` covers |
| TickMeaning.TickedIsUnique | src/orchestration/scheduler.rs:363-478 | that description leaves nothing of the store open |
| TickMeaning.FailedTickMeans | src/orchestration/scheduler.rs:379-461 | a tick that fails does so at the first job whose search fails: the turns before it stand, it and the later jobs are as they were, its trigger is out when it was to fire, and the scheduler state is not saved |
| TickTimes.DispatchTimesIncrease | src/orchestration/scheduler.rs:407-461 | over runs in which no tick strands a trigger, completions name dispatched executions, new jobs take new ids, and there is no run-now and no new schedule: each job's dispatched times strictly increase and no job is due for a run already known |
| TickTimes.NextRunIsUnknown | src/orchestration/scheduler.rs:412-422 | in such runs the duplicate branch is dead |
| JobStore.ExecutionIdInjective | src/orchestration/scheduler.rs:407 | equal execution ids come from the same job and the same time |
| JobStore.HistoryNameInjective | src/orchestration/scheduler.rs:619-623 | history files of different canonical ids never share a name |
| JobStore.NewJobIdIsWellFormed | src/orchestration/scheduler.rs:185-189 | new job ids are unchanged by sanitising and end in a digit, which the injectivity needs |
| JobStore.SanitizedIdIs | src/orchestration/scheduler.rs:972-976 | a sanitised id keeps ASCII letters and digits and has a dash for everything else |
| Cron.AddSegment | src/orchestration/scheduler.rs:1015-1065 | the loop inserts exactly the segment's arithmetic progression, weekday 7 as 0, or reports the segment's error |
| Cron.ParseCronField | src/orchestration/scheduler.rs:992-1013 | a field is the union of its segments, or the first segment's error |
| Cron.FieldHoldsUnion | src/orchestration/scheduler.rs:992-1065 | a value is in a field if and only if some segment's progression holds a value that folds to it |
| Cron.FieldStaysInBounds | src/orchestration/scheduler.rs:1015-1065 | field values stay within bounds and weekday 7 is never stored |
| Cron.ParseCronExpression | src/orchestration/scheduler.rs:786-802 | five fields with their bounds and aliases, or the first error |
| CronText.SegmentReadsBack | src/orchestration/scheduler.rs:1015-1050 | a written segment (star, number, name or range of them, with or without a step) is read as what it means, or refused with the error of its first fault |
| CronText.FieldReadsBack | src/orchestration/scheduler.rs:992-1065 | a written field is read as exactly the numbers its segments cover, Sunday 7 as 0; only the lone star is the wildcard; the first refused segment gives the error |
| CronText.NamesMean | src/orchestration/scheduler.rs:1067-1100 | in any case the twelve month names mean 1 to 12 and the seven weekday names 0 to 6, Sunday first; no other word is a name |
| CronText.ExpressionReadsBack | src/orchestration/scheduler.rs:786-802 | a written expression is read field by field with each field's bounds and names, or refused with the first field's error |
| Schedule.ComputeNextRunAt | src/orchestration/scheduler.rs:828-877 | the search loop computes the next run of every schedule kind, and its errors; `CronMeaning` says what they are from the written schedule |
| Schedule.CronNextRunIsLeast | src/orchestration/scheduler.rs:857-875 | for a non-negative base the next cron run is the least matching multiple of 60 after it; an error means none of the 2,635,200 candidates matches; what matches is stated by `CronMeaning.ExpressionMeans` |
| CronMeaning.CoversIff | src/orchestration/scheduler.rs:1015-1065 | a written segment covers a number if and only if its step is not zero and the number is a whole number of steps, one by default, after the range's first and not beyond its last, both given by a number or a name and within the field's bounds |
| CronMeaning.ExpressionMeans | src/orchestration/scheduler.rs:804-826 | a written expression that parses matches a local time if and only if minute, hour and month are covered and, when either day field is a lone star, both day fields hold, otherwise when the day of month or the weekday is covered |
| CronMeaning.ParsesIff | src/orchestration/scheduler.rs:786-802 | a written expression parses if and only if each field does, within its bounds and names |
| CronMeaning.CronNextRunIsFirstMeant | src/orchestration/scheduler.rs:857-875 | for every base and written expression: the next run is the first whole minute from the start of the search that the expression means; the search fails exactly when none of the 2,635,200 minutes is meant |
| CronMeaning.PlainNextRunIs | src/orchestration/scheduler.rs:828-856 | the next run of one-time and interval schedules, case by case |
| CronMeaning.RecoveryNextRunIs | src/orchestration/scheduler.rs:879-889 | after a recovery a one-time schedule has no next run and any other goes on from now |
| CronMeaning.CronErrorsAre | src/orchestration/scheduler.rs:857-864 | an unknown zone fails before a refused expression, and both before any search |
| Schedule.FirstCandidateIsLeastIff | src/orchestration/scheduler.rs:865 | the search starts at the least multiple of 60 after the base if and only if the base is non-negative or such a multiple |
| Schedule.NextRunIsLater | src/orchestration/scheduler.rs:828-889 | a next run computed from now lies strictly after now |
| Scheduler.SchedulerWorker.CreateJob | src/orchestration/scheduler.rs:177-209 | succeeds if and only if the schedule is accepted, the orchestrator id not blank and a first run found; then stores the new job, enabled, under `job-<id>-<stamp>`, with every field named; otherwise stores nothing |
| Scheduler.SchedulerWorker.UpdateJob | src/orchestration/scheduler.rs:253-282 | succeeds if and only if the job exists, is not deleted and a new schedule is accepted and has a next run; then changes exactly the patched fields, the next run of a new schedule and the time of update |
| Scheduler.SchedulerWorker.TransitionState | src/orchestration/scheduler.rs:310-328 | moves the job along one of the eight allowed transitions, listed, and changes only state and time |
| Scheduler.SchedulerWorker.RunJobNow | src/orchestration/scheduler.rs:296-308 | makes an enabled job due now and refuses any other |
| Scheduler.SchedulerWorker.ListAll | src/orchestration/scheduler.rs:219-240 | lists every stored job exactly once |
| Scheduler.SchedulerWorker.FindExecution | src/orchestration/scheduler.rs:636-657 | finds the id if and only if some history file of the job carries it |
| Scheduler.SchedulerWorker.RecoverStaleActiveExecutions | src/orchestration/scheduler.rs:480-510 | keeps, in order, exactly the entries started at most 86,400 seconds ago |
| Scheduler.SchedulerWorker.SkipMissedRun | src/orchestration/scheduler.rs:379-396 | records the skipped run and moves the job to its recovery run |
| Scheduler.SchedulerWorker.DispatchRun | src/orchestration/scheduler.rs:424-466 | enqueues, reschedules, records and remembers one run, in that order, stopping at the first error |
| Scheduler.SchedulerWorker.TickOneJob | src/orchestration/scheduler.rs:370-466 | the loop body: not due, missed, overlapping, duplicate or dispatched |
| Scheduler.SchedulerWorker.TickWorker | src/orchestration/scheduler.rs:363-478 | a tick over all jobs is the fold of the loop body; on every store a run can leave, the whole store afterwards from the jobs' own fields, for a tick that ends well and for one that fails |
| Scheduler.SchedulerWorker.CompleteExecution | src/orchestration/scheduler.rs:512-575 | removes exactly the entries of that job and execution, in order, and records the outcome in the job and its history, field by field; an unknown job changes neither |
| KeyScheduler.PerKeyScheduler.Enqueue | src/queue/scheduler.rs:67-69 | appends to the pending list |
| KeyScheduler.PerKeyScheduler.DequeueRunnable | src/queue/scheduler.rs:71-94 | hands out, in the order of the pending list, the items at the first `n` positions whose key is not active and occurs at no earlier position; pending is the items at all other positions, in order; activates the keys handed out |
| KeyScheduler.BatchIsUnique | src/queue/scheduler.rs:71-94 | that description fixes the batch and what stays pending |
| KeyScheduler.PerKeyScheduler.Complete | src/queue/scheduler.rs:96-98 | frees the key and nothing else |
| KeyScheduler.PerKeyScheduler.DrainPending | src/queue/scheduler.rs:108-110 | hands out everything pending and leaves the active keys |
| KeyScheduler.OrderAndExclusion | src/queue/scheduler.rs:66-110 | over every run, for each key what was handed out followed by what is pending is what was enqueued, in order, and at most one value per key that `dequeue_runnable` handed out is not yet completed |
| KeyScheduler.PickedAreChosen | src/queue/scheduler.rs:71-94 | every item handed out is one of the first `n` runnable ones |
| KeyScheduler.PickedLength | src/queue/scheduler.rs:71-94 | fewer than `n` come out only when no more are runnable |
| KeyScheduler.PickedKeysDistinct | src/queue/scheduler.rs:71-94 | no key twice in a batch, none that is active |
| KeyScheduler.BatchKeepsOrder | src/queue/scheduler.rs:71-94 | per key, the batch followed by the rest is the pending list |
| QueueNames.RequeueNameDecodes | src/queue/lifecycle.rs:264-286 | a requeue name decodes to the attempt it encodes, for every original name |
| QueueNames.FailureBudget | src/queue/lifecycle.rs:154-167 | a message that keeps failing is requeued up to the budget and then dead-lettered; `QueueNames.FreshMessageIsTriedLimitTimes` says what the budget is |
| QueueNames.CountdownIs | src/queue/lifecycle.rs:154-167 | from a fresh name: attempts 1 to m-1 requeued in order, failure m fatal, m being the limit but at least 1 |
| QueueNames.FreshMessageIsTriedLimitTimes | src/queue/lifecycle.rs:154-167 | a message that keeps failing from a fresh name is requeued with attempts 1 to limit - 1 and dead-lettered with attempt `limit`; a limit of zero dead-letters the first failure |
| QueueNames.DisposedByLimit | src/queue/lifecycle.rs:154-167 | one attempt more than the name says, and dead-lettered if and only if that reaches the limit |
| QueueNames.RenamedFilesSpelledOut | src/queue/lifecycle.rs:264-286 | the requeue and recovered names of a file with an extension, spelled out |
| QueueNames.BareFilesSpelledOut | src/queue/lifecycle.rs:264-286 | and of one without |
| QueueNames.WrittenFilesSpelledOut | src/queue/lifecycle.rs:212-227 | the names of dead letters and replies, heartbeats among them, spelled out |
| QueueNames.SanitizedCharacters | src/queue/paths.rs:50-60 | a sanitised component keeps ASCII letters, digits, `-`, `_` and `.`, and has `_` for everything else |
| QueueNames.OutgoingNamesDiffer | src/queue/lifecycle.rs:212-227 | outgoing names of different indexes differ, so the name search ends |
| QueueNames.RecoveredNamesDiffer | src/runtime/recovery.rs:75-88 | recovered names of different indexes differ |
| QueueNames.RequeueNameCounts | src/queue/lifecycle.rs:262-271 | the counter can be read back from a requeue name, so names of different counters differ |
| QueueNames.DeadLetterNameCounts | src/queue/lifecycle.rs:288-292 | the same for dead-letter names |
| QueueLifecycle.QueueDirectory.ClaimOldest | src/queue/lifecycle.rs:31-67 | walking any stale snapshot, claims the first name still there: that file moves to processing and nothing else changes; one that does not parse goes back under a new name |
| QueueLifecycle.QueueDirectory.WriteOutgoing | src/queue/lifecycle.rs:229-260 | adds one file under the first free name and overwrites none |
| QueueLifecycle.QueueDirectory.CompleteSuccessMany | src/queue/lifecycle.rs:94-116 | completing with k replies adds exactly k new outgoing files, overwrites none, then removes the message |
| QueueLifecycle.QueueDirectory.CompleteSuccessNoOutgoing | src/queue/lifecycle.rs:86-92 | removes the message and nothing else |
| QueueLifecycle.QueueDirectory.RequeueProcessingFile | src/queue/lifecycle.rs:311-334 | moves the file back under a name that encodes the next attempt; when the file is gone it fails, with the counter used up and nothing moved |
| QueueLifecycle.QueueDirectory.RequeueOrDeadLetter | src/queue/lifecycle.rs:132-167 | takes one attempt more than the name says; dead-letters if and only if that reaches the limit, writing the letter of the message it read and then removing the file; else moves the file back under the next attempt; when the file is gone both fail, the letter written all the same |
| QueueLifecycle.QueueDirectory.RecoverProcessing | src/runtime/recovery.rs:18-73 | the recovery loop does what the specification of recovery says; from the files' own keys: those whose key a reply or an earlier file has are dropped, all others come back, both listed in order |
| QueueLifecycle.QueueDirectory.OutgoingKeysOf | src/runtime/recovery.rs:105-129 | the keys of all outgoing files |
| QueueFiles.RecoveryRestores | src/runtime/recovery.rs:18-73 | what the first `n` turns of recovery leave in every directory; after all turns processing is empty |
| QueueFiles.RecoverySparesIff | src/runtime/recovery.rs:51-66 | the first `n` turns keep everything in incoming if and only if no restored file goes to a name that another message has there |
| QueueFiles.EachKeyRestoredOnce | src/runtime/recovery.rs:36-49 | a key without an outgoing reply is restored exactly once, one with a reply not at all |
| QueueFiles.RecoveryMeans | src/runtime/recovery.rs:18-73 | a whole recovery, from the files' own channels and message ids: which files go, which come back under which names and in which order, and every directory afterwards |
| QueueMachine.ApplyKeepsHeld | src/queue/lifecycle.rs:31-67 | every step that claims no held name keeps each held file in processing, as its worker read it, under that worker alone |
| QueueMachine.ApplyKeepsPlace | src/queue/lifecycle.rs:94-167 | every step, with any file names, keeps each accepted message in exactly one of incoming, processing, completed, dead-lettered, dropped, lost |
| QueueMachine.ApplyKeepsLoss | src/queue/lifecycle.rs:132-152 | every step keeps: a dead letter for each message dead-lettered, in failed unless another's replaced it; only parsed messages have an outcome; whatever recovery dropped is accounted for |
| QueueRuns.QueueIsSafe | src/queue/lifecycle.rs:31-167 | these two over every run, with any number of workers, crashes between any two file operations, files given up on, any names for accepted, requeued and dead-lettered files, and recoveries onto any names, interrupted or not |
| QueueRuns.MutualExclusionIff | src/queue/lifecycle.rs:31-67 | throughout a run no file has two holders if and only if no claim takes a name that a worker holds |
| QueueRuns.UnheldNamesExclude | src/queue/lifecycle.rs:31-67 | it is enough that accepted and requeued files take no held name |
| QueueRuns.NothingIsLostIff | src/queue/lifecycle.rs:31-167 | over every run no message and no dead letter is lost if and only if every accepted, claimed, requeued, restored and dead-lettered file takes a name that is free where it goes, a dead letter for the same message aside |
| QueueRuns.WholeRecoveriesLoseIff | src/runtime/recovery.rs:18-73 | when recoveries run to their end and new names are not in processing, claims never replace a file, and the other steps decide |
| QueueRuns.SparedRunsKeepAll | src/runtime/recovery.rs:18-73 | in a run that loses nothing each accepted message is in a directory, completed, or a duplicate or failure whose key has a message, a dead letter or a reply; each message dead-lettered has its letter in failed; one that does not parse is in incoming or processing |
| QueueRuns.CrashThenRecovery | src/runtime/recovery.rs:18-73 | after a crash anywhere, in a recovery too, and a whole recovery, processing is empty; a message that does not parse is in incoming or lost; the key of one that parses has a message in incoming, in failed or completed, a reply, or is among the lost and erased; `QueueReplies.AnsweredAfterRecovery` ties completed to a reply |
| QueueRuns.InterruptedRecovery | src/runtime/recovery.rs:36-68 | a recovery cut after any turn and run again puts each message it found back in incoming, drops it as a duplicate whose key is accounted for, or loses it to a taken name |
| QueueProcess.CrashFreeRuns | src/queue/lifecycle.rs:31-167 | with new names, no crash and no file given up on, every message in processing is in one worker's hands and nothing is dropped or lost |
| QueueProcess.OneProcessLosesNothing | src/queue/lifecycle.rs:262-286 | after any run that leaves no worker at work and incoming and processing with different names, as a whole recovery does: a process that runs without a crash, names files by its counter and accepts new names, no requeue names among them, loses no message and no dead letter, files given up on included, when none of the names it makes is on disk |
| QueueProcess.RestartStarts | src/runtime/recovery.rs:18-73 | after a crash and a whole recovery the counter is zero and the names on disk are all that is left of that condition |
| QueueProcess.FirstProcess | src/queue/lifecycle.rs:262-286 | on the empty store a process needs no condition on names it makes; while it gives no file up, every message in processing is in one worker's hands |
| QueueWitness.TheRunLoses | src/runtime/recovery.rs:51-66 | a run from the empty queue in which recovery loses a message, for every hash |
| QueueWitness.RequeueAfterRestartLoses | src/queue/lifecycle.rs:262-271 | a run with the names the code gives in which a requeue after a restart overwrites a waiting message, for every hash |
| QueueWitness.LetterAfterRestartErases | src/queue/lifecycle.rs:288-292 | a run with the names the code gives in which two messages of one id are dead-lettered and one letter is left, for every hash |
| QueueWitness.TwoWorkersHoldOneFile | src/queue/lifecycle.rs:31-67 | a run in which a file enqueued again under a held name gets a second holder |
| QueueWitness.AnsweredComesBack | src/queue/lifecycle.rs:311-334 | a run in which two workers hold one file and the requeue of the one puts back the message the other has answered |
| QueueWitness.SharedKeyIsDropped | src/runtime/recovery.rs:36-49 | a run in which a second message of an answered key waits in incoming, is claimed, and is dropped by recovery unhandled |
| QueueReplies.BroughtBackIff | src/runtime/recovery.rs:36-68 | from any state of any run, one step puts an answered message into incoming if and only if it is a requeue of that message's file; recovery never does |
| QueueReplies.AnsweredReturnsIff | src/runtime/recovery.rs:36-68 | over every run from any point: an answered message stays out of incoming if and only if no requeue moves its file |
| QueueReplies.AnsweredStaysOut | src/queue/lifecycle.rs:94-116 | over every run in which requeues move the file their worker read, crashes and recoveries included, whatever other messages share the key and however many replies there are: once a reply with its own key is written, a message is answered, not in incoming, and held by replying workers only |
| QueueReplies.UnheldGivesOwn | src/queue/lifecycle.rs:311-334 | while no claim takes a held name, requeues move the file their worker read |
| QueueReplies.CompletedAreAnswered | src/queue/lifecycle.rs:94-116 | over every run in which at least one reply to each message carries its key, whatever keys are shared and whatever names are held: every completed message has its reply |
| QueueReplies.AnsweredAfterRecovery | src/runtime/recovery.rs:18-73 | in such runs, after a crash anywhere and a whole recovery, the key of each parsed message has a message in incoming, a dead letter or a reply, or a message or dead letter of the key lost its name |
| QueueReplies.EachIsAnsweredOrKept | src/runtime/recovery.rs:18-73 | when moreover no two accepted messages share a key, that holds of each message itself |
| QueueReplies.RepliedStaysOut | src/runtime/recovery.rs:36-49 | when no two accepted messages share a key, all replies to a message carry its key, and requeues move the file their worker read: no message in incoming has a reply of its key |
| BulletinSections.RenderSections | src/memory/bulletin.rs:310-326 | the buffer is the rendering of the sections, in order |
| BulletinSections.LinesTextConcat | src/memory/bulletin.rs:318-323 | the text of a list of lines is the texts of its parts, in order |
| BulletinSections.TruncateSections | src/memory/bulletin.rs:226-284 | for every limit, 0 included, the result fits and is the first fitting state: the best `n` lines for the largest `n`, else the fewest dropped sections |
| BulletinSections.TruncatedIsUnique | src/memory/bulletin.rs:226-284 | that description has one solution |
| BulletinSections.PopKeepsBest | src/memory/bulletin.rs:240-261 | popping the lowest line of the best `n` lines gives the best `n - 1` |
| BulletinSections.LowerRanksGoFirst | src/memory/bulletin.rs:231-238 | sections keep a prefix of their lines, and one that lost a line leaves none in the sections ranked below: a goal goes last |
| Bulletin.BuildMemoryBulletin | src/memory/bulletin.rs:82-143 | before truncation each section holds, in recall order, the lines `- summary [id]` of its own kinds of memory, and the conflicts those of the disputed ones; then truncation, rendering within the limit, and the citations that surviving lines show, each once for its memory and in recall order |
| Bulletin.FilledIsUnique | src/memory/bulletin.rs:86-127 | that description of the sections has one solution |
| Bulletin.LinesGoByKind | src/memory/bulletin.rs:231-238 | when a goal's line is missing every other section is empty; a todo's goes only after all facts, preferences, disputes and decisions, and so on down by kind |
| Bulletin.SectionsGoInOrder | src/memory/bulletin.rs:263-284 | sections are dropped only when no line is left; for each number of sections left, their names |
| Bulletin.OneGoalRendered | src/memory/bulletin.rs:310-326 | the whole text for one goal, letter by letter |
| Bulletin.CitationsForSections | src/memory/bulletin.rs:286-308 | keeps, in order, the citations whose id some line shows between its last brackets |
| Bulletin.LineCitesItsMemoryIff | src/memory/bulletin.rs:290-299 | a line cites its own memory if and only if the id is not empty and holds no `[` |
| Bulletin.SurvivorIsCitedIff | src/memory/bulletin.rs:286-308 | the id of a memory with a line in some section is cited if and only if it is not empty and holds no `[` |
| Bulletin.CitationsAreTheShown | src/memory/bulletin.rs:132-135 | for any ids the citations are exactly those whose id some surviving line shows, the part after the last `[` of its memory's id, in recall order |
| Bulletin.CitationsAreTheSurvivors | src/memory/bulletin.rs:132-135 | with such ids the citations are exactly those of the recalled memories with a surviving line, in recall order |
| Spans.SentenceRanges | src/memory/repository.rs:742-761 | the ranges lie end to end over the whole text, each closed by the one `.`, `!`, `?` or line feed it holds, but for the last |
| Spans.SentencesAreUnique | src/memory/repository.rs:742-761 | that description has one solution |
| Spans.SplitContentIntoSpans | src/memory/repository.rs:665-740 | sentence by sentence the text from its first to its last character that is not white space, cut end to end into pieces of exactly `max_chars` characters but for the last, zero counting as one; each numbered, with its UTF-8 byte offsets and its text trimmed |
| Spans.SplitIsSound | src/memory/repository.rs:665-740 | spans are numbered from 1, ordered and disjoint in bytes, within the bound in characters (at least 1), inside one sentence; every character that is not white space is in exactly one |
| Spans.CutIsTight | src/memory/repository.rs:702-737 | a sentence that fits is one span; a longer one is cut without gaps into pieces of exactly the bound, but for the last |
| RunIds.EncodeU64 | src/orchestration/transitions.rs:25-36 | the digits pushed and reversed decode to the value, for every u64 |
| RunIds.EncodeFixedU32 | src/orchestration/transitions.rs:38-45 | the buffer filled from the right is the fixed-width encoding |
| RunIds.DigitsAre | src/orchestration/transitions.rs:21-23 | the 36 digits are `0` to `9` and `a` to `z`, in this order |
| RunIds.Base36FixedDecodes | src/orchestration/transitions.rs:38-45 | the fixed-width encoding decodes to the value modulo 36 to the width, and so to the value itself below that |
| RunIds.RunIdInjective | src/orchestration/transitions.rs:47-63 | equal run ids have equal timestamps and suffixes |
| RunIds.GenerateRunId | src/orchestration/transitions.rs:47-63 | `run-`, the time in base 36 without leading zeros, a dash and the sample modulo 1,679,616 in four base-36 characters, or which of the two errors |
| RunIds.AllocateRunId | src/orchestration/transitions.rs:71-89 | the first generated id absent from the store, the generator's error, or failure after exactly 16 collisions |
| Paths.NormalizeAbsolutePath | src/orchestration/workspace_access.rs:109-135 | the loop equals the stack reading of the path's components |
| Paths.NormalizeKeepsSurvivors | src/orchestration/workspace_access.rs:109-135 | fails if and only if some prefix climbs above the root; else keeps, in order, the names no later `..` climbs out of |
| Paths.NormalizeIsIdempotent | src/orchestration/workspace_access.rs:109-135 | normalising a normalised path changes nothing |
| OutputPaths.AcceptedResolvesBelowRoot | src/orchestration/output_contract.rs:358-453 | a template resolves if and only if it is accepted, and then to the output root followed by its own names: the escape branch is dead |
| OutputPaths.ResolveStepOutputPaths | src/orchestration/output_contract.rs:358-406 | fills the map with exactly the step's keys, each below the output root, or fails with a template error |
| OutputPaths.AttemptRootNames | src/orchestration/output_contract.rs:364-371 | with single-component ids the output root is the state root followed by the attempt's names |
| OutputPaths.AttemptsNeverShareAPath | src/orchestration/output_contract.rs:358-406 | two attempts that resolve any templates to one path are the same run, step and attempt |

## Left out

- Provider calls, prompts, output parsing and file materialisation: a step attempt yields an arbitrary outcome; review text is reduced to approve, reject or unrecognised.
- Progress snapshots, engine logs, heartbeats and scheduler events: written beside the state that is modelled and read by none of it.
- Failing writes: every file operation succeeds; a crash falls between operations.
- Several runs in one store: one run is modelled, as the engine addresses runs by id.
- Fields of jobs, triggers and messages that no branch reads, such as target references and payloads.
- Template interpolation: templates are taken after the placeholders are filled in.
- Listing order: jobs and files are listed in an arbitrary order instead of sorted by id or time, which covers the sorted one.
- Integer edges: retry limits below 2^32 - 1; intervals, timestamps and name counters are unbounded.
- Delivery of outgoing files by the channel adapters, and the derivation of ordering keys.
- Workers running between an interrupted recovery and the next whole one are allowed, although the program recovers before it starts them: the model covers more runs.
- Exactly one restored file for each key across an interrupted recovery: the keys already seen are forgotten, so a duplicate may come back.
- Several replies cut midway by a crash: the message is accounted for, but replies may be repeated or missing.
- Tick and completion interleaving their load and save: each is one step.
- Two workers racing for one outgoing name: the search for a free name and the write are one step.
- QueueProcess.CrashFreeRuns: leaves out names taken by a live file, where a message is lost; `QueueProcess.OneProcessLosesNothing` shows that a process makes none that are taken.
- QueueReplies.AnsweredStaysOut: leaves out runs in which a requeue moves a file its worker did not read, where an answered message can come back.
- QueueReplies.RepliedStaysOut: leaves out runs in which accepted messages share a key or a reply carries another message's key, where a message waits in incoming with a reply of its key; `QueueReplies.AnsweredStaysOut` covers them for the message answered.
- QueueReplies.EachIsAnsweredOrKept: leaves out runs in which accepted messages share a key; `QueueReplies.AnsweredAfterRecovery` covers them key by key.
- Floating-point ranking and embedding: the confidence test of a memory is a flag.
- Prefixes of Windows paths: paths are Unix paths.
- EngineCancel.CancelDuringExecutionSticks: does not cover the moment between loading and writing the counted run, where a cancel is overwritten.
- EngineShape.ResumeRefinesUninterrupted: leaves out crashes where the record under the stored pointer is a failure or not the last one stored; `EngineRecovery.NextCrashIsHarmlessIff` shows that resume then misreads the run.
- TickSafety.AtMostOnceDispatch: leaves out ticks that strand a trigger and completions that take another execution's only record, where dispatch repeats.
- TickOverlap.DispatchesAreSeparated: starts from an execution that is active; a tick that fails after a dispatch is the subject of `TickOverlap.NoOverlapOverRuns`.
- TickOverlap.DispatchedIsActive: speaks of ticks that reach their end; a failing one saves no active execution.
