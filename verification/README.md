# Oarlock run engine: a verified model

Oarlock runs workflows as rows in Postgres and jobs in a queue; no process owns a
run. This project models the run engine, the workflow definition it executes, the
ways a run is started, the secret redactor and the canvas projection, and proves
what they promise over every input, every run and every interleaving.

`dafny verify dfyconfig.toml` checks the whole project.

## How the model is laid out

- `Definitions` – the definition format, `Step`, `TransitiveNeeds`, the three-colour
  cycle check and `Validate`, as loops and depth-first searches over mutable search
  objects, specified by paths, ranks and closures.
- `RunState` – the state of one run: the rows of `runs`, `tasks` and `suspensions`,
  the pending jobs, the workers in flight, and a little history (who was invoked, who
  was resumed, which backoffs were set, how often `RetryRun` was called). Each
  committed transaction is a function on that state, each transaction, job pickup,
  worker death and redelivery an event, and a history is any sequence of enabled
  events. `Execute`, `EvalExpression` and callback payloads are uninterpreted
  functions of a step and its context (`World`).
- `Ladder`, `RunStatusProof`, `Workers`, `Suspensions`, `Wakeups`, `Budget`, `Interpreter`,
  `Termination` – what each single event keeps. `Ladder.Evolves` is the one relation
  every event's effect on the task rows obeys; most invariants follow from it.
- `Effects` – what each event does to rows, jobs, suspensions and workers, stated on the
  tables before and after it and not by the functions that define the transactions.
- `Histories`, `Liveness`, `Determinism`, `Outcomes`, `Recovery`, `Passes` – the theorems
  over whole histories.
- `Queries`, `RunStore` – the transactions as the source performs them: loops over
  rows and steps, guarded updates and job inserts on mutable tables. The class keeps
  its history as ghost state, and its invariant says that this is a history of the
  model; every method that commits adds exactly its own event, and `Disturb` adds the
  deaths and redeliveries the code does not control. So everything proved of histories
  holds for runs of this code.
- `Starts`, `Schedule` – `StartRunOpts`, its idempotency keys, and the cron sweep.
- `Redaction` – the redactor and what can survive it; `Fragments` – what it leaves of a
  secret; `JsonText` – what a reader of redacted JSON text can make out. `Canvas` – `definitionToFlow` and `flowToDefinition`.

## What a few of the statements mean

- A history may contain anything: late workers, reaps of live workers, redelivered
  jobs, timers racing callbacks and cancels, `RetryRun` at any time it is accepted.
- *No stranded run*: that a run that is not over has an advance job or a live task, and
  that a timed wait has its resume job, holds in every history. That a queued task has its
  job pending or in flight is false when a worker is lost between taking its
  `execute_task` job and the claim. `Histories.QueuedUnlessLost` gives the exact
  condition: the job is there iff no such loss, still unrepaired by a cancel or a
  redelivery, lies in the history. `Liveness.LossIsReachable` gives a three-event history
  into the failing case for every workflow with an unguarded first step.
- *A started step's guard held* is false across `RetryRun`, which queues a new attempt
  after a failed guard row without asking the guard again.
  `Determinism.StartedWasGuarded` and `Determinism.RetryRespectsGuardIff` give the exact
  condition, in terms of a row a caller of `RetryRun` can look at, and
  `Determinism.BypassFrom` starts the executor from any state that shows such a row.
- *Schedule independence* holds with `RetryRun` allowed: a step whose guard errors is
  never settled by the engine itself, and if it is retried past its guard it yields
  what its executor yields. The hypothesis `Consistent` says that foreign code behaves
  as a function where it succeeds; executors may still fail at any time and in any
  pattern, and callbacks may come in any number for tasks that wait for one.
- *How runs turn out*: exactly which events end the attempts of a step is
  `Outcomes.FatalIff`; a failed run has one in its history, answered neither by an
  automatic retry nor by a `RetryRun` (`Outcomes.FailureHasCause`), and every history whatever can be carried on to a success
  with the interpreter's outputs (`Recovery.EveryRunCanBeSaved`): lost rows, dead workers
  and failed attempts by a cancel and a retry, erroring guards because `RetryRun` passes
  them, waits by the callback they wait for.
- `TransitiveNeeds` is documented as excluding the key itself; the code includes it on
  a cyclic graph. The model follows the code (`Upstream` is reachability by one or more
  edges) and proves that the key is left out exactly when no cycle runs through it.
- The redactor: *no secret survives* is false for a secret that touches the mark
  `[redacted]` (is inside it, contains it, or overlaps it at an end), and true for every
  other one, whatever the other secrets and their order (`Redaction.SurvivesIff`, over
  the lists that are built from secrets and their escaped forms). "Can survive" is about
  some redactor: in a given one a secret that touches the mark may still never survive
  (`Redaction.TouchingMayBeRemoved`).
- The redactor's comment says that longest-first order keeps overlapping secrets from
  leaving fragments. That is false for two secrets that share a part
  (`Fragments.OverlappingSecretsLeaveFragment`). `Fragments.RedactionIsChoice` shows that
  redaction chooses disjoint occurrences in the original text, and
  `Fragments.LeavesNothingIff` when an occurrence leaves no letter: iff no chosen
  occurrence partly overlaps it, or two of them meet inside it (which does happen,
  `Fragments.AbuttingLeavesNothing`). `Fragments.NoStraddleNoFragment` is the condition
  to read off the text beforehand, `Fragments.NoOverlapNoFragment` the one to read off
  the secrets alone.

- *No secret can be read from redacted JSON*: `JsonText.SecretUnreadable` says that no piece
  of the redacted text decodes to a secret, for texts that do not spell a `\u` escape
  themselves. The guard is needed: in a text that spells one, JSON doubles the backslash,
  and a reader that starts behind the first of the two reads the escape
  (`JsonText.SpelledEscapeReads`, a family of such texts).

## Model

| member | source | states |
|---|---|---|
| Definitions.FindStep | engine/internal/definition/definition.go:44-51 | Returns a step with the key that has no such step before it, and nothing exactly when no step carries the key. |
| Definitions.NeedsSearch.Visit | engine/internal/definition/definition.go:61-72 | The recursive visit on any graph, cyclic included: it terminates, adds only keys reachable from its argument, and leaves the newly seen keys closed under needs. |
| Definitions.TransitiveNeeds | engine/internal/definition/definition.go:58-75 | On any graph, cyclic included, the result is exactly the set of keys reachable by one or more needs edges. |
| Definitions.UpstreamOfItself | engine/internal/definition/definition.go:53-75 | A key is in its own transitive needs exactly when a cycle runs through it, so never in an acyclic definition. |
| Definitions.CycleSearch.Visit | engine/internal/definition/definition.go:122-138 | Success ranks the key above everything it needs and restores the stack of grey keys; failure means the graph has a cycle. |
| Definitions.CycleSearch.BackEdgeClosesCycle | engine/internal/definition/definition.go:124-126 | Meeting a grey key exhibits a cycle through it. |
| Definitions.CheckAcyclic | engine/internal/definition/definition.go:115-145 | Accepts exactly the graphs without a cycle, and exactly those that have a rank under which every need is strictly lower. |
| Definitions.ValidateSteps | engine/internal/definition/definition.go:80-101 | No error iff keys are unique and every step has a key, a known type, 0 to 10 retries and a timeout of 0 to 600 seconds; an error names a real violation. |
| Definitions.ValidateNeeds | engine/internal/definition/definition.go:102-111 | No error iff every need names another existing step; an error names a real violation. |
| Definitions.Validate | engine/internal/definition/definition.go:79-113 | No error iff the definition is acceptable and acyclic; acceptance gives the rank and the 0–10 retry bound the engine relies on; every error is explained by the definition. |
| Queries.LatestAttempts | engine/internal/engine/advance.go:58-78 | Whatever order rows are visited in, the greatest attempt of every step that has a row, and no other step. |
| Queries.BuildRunContext | engine/internal/engine/execute.go:305-334 | The context maps exactly the transitive needs with a succeeded attempt to that attempt's output. |
| Queries.StepOutputs | engine/internal/api/mcpserver.go:263-271 | For rows that form an attempt ladder and any order of them, a step has an entry iff it has a succeeded row with a non-empty output, and the entry is that output. |
| Queries.Survey | engine/internal/engine/advance.go:80-111 | The order-dependent readiness loop: `anyFailed` iff some latest attempt is failed or canceled, `allSucceeded` iff all are settled, and otherwise `ready` lists, once each, exactly the missing steps whose needs have all settled. |
| Queries.CollectRedos | engine/internal/engine/engine.go:285-309 | Lists, once each, exactly the latest attempts that are failed or canceled. |
| RunStore.Store.constructor | engine/internal/engine/engine.go:203-216 | A new run is queued with no task and one advance job, and its history is the empty one. |
| RunStore.Store.EvalGuard | engine/internal/engine/advance.go:217-232 | Empty or truthy guards queue, falsy ones skip, erroring ones fail; the guard sees the frozen context only. |
| RunStore.Store.InsertReady | engine/internal/engine/advance.go:133-184 | Adds exactly the first rows of the ready steps and one job per queued row, and reports whether some guard ended its step. |
| RunStore.Store.Advance | engine/internal/engine/advance.go:25-205 | The whole pass, loops and conflict-tolerant inserts included: it fails the run iff some latest attempt is failed or canceled, completes it iff all are settled, and otherwise adds a row exactly for the missing steps whose needs have all settled, with one job per queued row, and changes no other row; it is the advance event of the history. |
| RunStore.Store.Load | engine/internal/engine/execute.go:32-56 | A job goes on exactly when its task is still queued. |
| RunStore.Store.Prepare | engine/internal/engine/execute.go:81-96 | The worker holds the context built from the rows at that moment. |
| RunStore.Store.Claim | engine/internal/engine/execute.go:108-119 | The guarded claim wins exactly on a queued row and starts the executor then only. |
| RunStore.Store.EndTask | engine/internal/engine/execute.go:266-284 | The terminal row, the next attempt with its delayed job when a failure is inside the budget, and the advance job, all or nothing; `Effects.EndDoes` says the same on the tables alone. |
| RunStore.Store.FinishTask | engine/internal/engine/execute.go:244-300 | Takes effect only on a queued or running row; otherwise the result is discarded. |
| RunStore.Store.FailLoaded | engine/internal/engine/execute.go:60-96 | Failures before the step is found end the task without retries; later ones use the step's setting. |
| RunStore.Store.FailPrepared | engine/internal/engine/execute.go:97-106 | A failure after the context is built and before the claim ends the task inside its retry budget. |
| RunStore.Store.Finish | engine/internal/engine/execute.go:137-154 | The executor's result is the finish event on its row. |
| RunStore.Store.SuspendTask | engine/internal/engine/execute.go:163-216 | On a running row and a free token only: the row is suspended and shows the output, the suspension row carries it, and a timed wait has its resume job; `Effects.SuspendDoes` says the same on the tables alone. |
| RunStore.Store.Suspend | engine/internal/engine/execute.go:146-150 | The executor's suspend signal is the suspend event. |
| RunStore.Store.TimerLookup | engine/internal/engine/resume.go:46-66 | The timer picks up the stored payload, or drops out exactly when no suspension row is left. |
| RunStore.Store.ResumeSuspended | engine/internal/engine/resume.go:78-111 | Succeeds a suspended task and nothing else; clears its suspension rows either way; one advance job iff it took effect. |
| RunStore.Store.ResumeSuspendedTask | engine/internal/engine/resume.go:120-150 | Unknown token, task no longer waiting and success are told apart exactly, with the state each leaves. |
| RunStore.CallbackIsTwoEvents | engine/internal/engine/resume.go:120-150 | The endpoint's effect is a callback pickup followed by a resume. |
| RunStore.Store.ReapTask | engine/internal/engine/reaper.go:84-127 | On a running row it is the reap event (failed, output kept, next attempt inside the budget); any other row is left alone. |
| RunStore.Store.ReapOrphans | engine/internal/engine/reaper.go:44-76 | A sweep collects exactly the overdue running rows and reaps each in turn. |
| RunStore.SweepFails | engine/internal/engine/reaper.go:70-127 | After a sweep every collected row is failed and every other running row is unchanged. |
| RunStore.Store.CancelRun | engine/internal/engine/engine.go:229-261 | Refused exactly on terminal runs; otherwise cancels the run and every live task and nothing else. |
| RunStore.Store.RetryRun | engine/internal/engine/engine.go:267-341 | Refused unless failed or canceled; otherwise queues, with a job, one attempt past every dead latest attempt. |
| Effects.AdvanceDoes | engine/internal/engine/advance.go:83-205 | On rows and jobs alone: a pass ends a run that has a dead latest attempt or is settled; otherwise it adds a row exactly for the ready steps, with the status their guards give, a job for each queued one, and one more advance exactly if some new row got no job; no other row changes. |
| Effects.PrepareDoes | engine/internal/engine/execute.go:305-334 | The context a worker takes holds, for every transitive need with a succeeded row and for no other step, the output of that row. |
| Effects.ClaimDoes | engine/internal/engine/execute.go:108-119 | A queued row turns running and an executor starts; on any other row only the worker is gone. |
| Effects.EndDoes | engine/internal/engine/execute.go:244-284 | A finish or early failure finds a queued or running row, a reap a running one; the row is written and an advance job added, and after a failure of attempt n the attempt n + 1 is queued, with its job and a backoff of 2^n seconds, exactly if n is at most the step's retries. |
| Effects.BackoffSeconds | engine/internal/engine/execute.go:266-280 | The backoffs are 2, 4 and 8 seconds and double from attempt to attempt. |
| Effects.EndReleases | engine/internal/engine/execute.go:244-300 | Whoever reports an end is gone, and no other worker. |
| Effects.SuspendDoes | engine/internal/engine/execute.go:163-216 | On a running row and a free token the row is suspended with exactly the output, the suspension carries it, and a timed wait has its resume job; otherwise nothing is written. |
| Effects.PickupDoes | engine/internal/engine/resume.go:46-66 | A timer takes up the stored payload and uses its job up; a callback takes its own payload. |
| Effects.ResumeDoes | engine/internal/engine/resume.go:78-111 | A suspended task succeeds with the output and an advance job is added; any other task is left alone; exactly the task's suspension rows go. |
| Effects.CancelDoes | engine/internal/engine/engine.go:229-261 | The run and exactly its queued, running and suspended tasks are canceled, outputs kept, and nothing else changes. |
| Effects.RetryDoes | engine/internal/engine/engine.go:267-341 | The run is running again with one more advance job, and exactly the attempts one past a failed or canceled latest one are added, queued, each with its job. |
| Ladder.StepEvolves | engine/internal/engine/execute.go:244-284 | Every event moves task rows by one relation: rows only move forward, new rows are first attempts of ready steps or follow a dead attempt. |
| Histories.AlwaysSound | engine/internal/engine/engine.go:142-341 | Every state of every history satisfies the combined safety invariant (ladder, status, workers, contexts, suspensions, budget). |
| Histories.AttemptsFormLadder | engine/internal/engine/execute.go:266-281 | The attempts of a step are exactly 1..n, and all below n are failed or canceled. |
| Histories.OneSettledAttempt | engine/internal/engine/engine.go:318-330 | Over the whole life of a run at most one attempt of a step ever succeeds or is skipped, and it keeps its row. |
| Histories.BudgetAlways | engine/internal/engine/execute.go:266-280 | At most 1 + retries + `RetryRun` calls attempts; each automatic backoff at most 1024s, a step's backoffs at most 2046s in all, and no 64-bit overflow. |
| Histories.RetryCallsCounted | engine/internal/engine/engine.go:267-341 | The budget's count of `RetryRun` calls is the number of accepted calls in the history. |
| Histories.TerminalRowsFinal | engine/internal/engine/execute.go:255-264 | A terminal row keeps its status and output in every later state. |
| Histories.OneWinner | engine/internal/engine/execute.go:255-264 | Exactly one event of a history makes a terminal row terminal. |
| Histories.StartedOnce | engine/internal/engine/execute.go:111-119 | The executor is started at most once per (run, step, attempt), over any redeliveries. |
| Histories.FrozenContext | engine/internal/engine/execute.go:85-96 | Once a step has a row, everything in its transitive needs is settled for good and its context is the same in every later state. |
| Histories.GuardSawContext | engine/internal/engine/advance.go:217-232 | The context a guard was evaluated on is the one the step has ever after. |
| Histories.AttemptsShareContext | engine/internal/engine/execute.go:85-96 | All executors ever started for a step, in any attempts, get one and the same context. |
| Histories.StatusSound | engine/internal/engine/advance.go:113-127 | A succeeded run has every step settled, a failed run a dead latest attempt, a canceled run no live task, a queued run no task. |
| Histories.SucceededStays | engine/internal/engine/advance.go:48-51 | A succeeded run stays succeeded. |
| Histories.TerminalUntilRetry | engine/internal/engine/engine.go:243-255 | Only `RetryRun` leaves a terminal status; until then a canceled run has no live task. |
| Histories.SuspensionsMatch | engine/internal/engine/execute.go:189-214 | Every suspended task has exactly one suspension row and every suspension row belongs to a suspended or canceled task; a suspension's payload is the output its task's row shows, after a cancel too. |
| Histories.ResumedAtMostOnce | engine/internal/engine/resume.go:78-111 | Over any race of timers, callbacks and cancels a task is resumed at most once, never after it was canceled, and keeps that resume's output. |
| Histories.NeverStranded | engine/internal/engine/advance.go:83-199 | In every state of every history a non-terminal run has an advance job or a live task, and a timed suspension has its resume job pending or in flight. |
| Histories.AdvanceAlwaysDue | engine/internal/engine/advance.go:186-193 | Whenever a pass would fail the run, complete it or fill a step, an advance job is pending: in every state of every history. |
| Histories.QueuedUnlessLost | engine/internal/engine/advance.go:170-184 | A queued task has its execute job pending or in flight iff no loss before the claim, still unrepaired, lies in the history. |
| Histories.LostIff | engine/internal/engine/engine.go:44-48 | A queued row is out of reach of every worker iff a worker died between taking its job and the claim and neither a cancel nor a redelivery came since; no other event can lose a row. |
| Wakeups.SomeStepReady | engine/internal/engine/advance.go:83-111 | With nothing live, nothing dead and something unsettled, an acyclic definition has a ready step. |
| Liveness.BoundedWork | engine/internal/engine/execute.go:244-284 | Between `RetryRun` calls, the engine steps taken are bounded by the weight of the state plus what redeliveries, callbacks and dead resumers inject. |
| Termination.StepLowers | engine/internal/engine/reaper.go:84-127 | Every engine event strictly lowers the weight; events from outside raise it by at most a constant. |
| Liveness.WholeRunBounded | engine/internal/engine/advance.go:113-199 | A run left to itself takes at most 240 steps per workflow step, and two more. |
| Liveness.RestingRun | engine/internal/engine/advance.go:83-199 | Where no engine step is possible the run is terminal or has live tasks, and every live task waits for a callback or was lost before its claim. |
| Liveness.CanComeToRest | engine/internal/engine/advance.go:83-205 | From every state of every history, engine steps alone lead to such a point. |
| Histories.LostForever | engine/internal/engine/reaper.go:47-52 | A queued row whose job is lost stays queued, and its run cannot succeed, until a cancel or a redelivery. |
| Liveness.LossIsReachable | engine/internal/engine/engine.go:44-48 | Every workflow with an unguarded first step has a three-event history into that situation. |
| Determinism.SettledMatchesInterpreter | engine/internal/engine/advance.go:83-232 | In every state of every consistent history each settled step has exactly the status and output a recursive interpreter over the graph gives it. |
| Determinism.SchedulesAgree | engine/internal/engine/execute.go:85-154 | Any two histories agree on every step both have settled. |
| Determinism.SucceededRunsAgree | engine/internal/engine/execute.go:305-334 | Any two succeeded runs have the same rows for all steps. |
| Determinism.StartedWasGuarded | engine/internal/engine/advance.go:135-168 | An executor starts where the guard held on its own context iff the step shows no row that only a guard's error leaves behind; otherwise the guard errored, the attempt is at least the second and `RetryRun` was called. |
| Determinism.RetryRespectsGuardIff | engine/internal/engine/engine.go:304-330 | For every attempt an accepted `RetryRun` queues, the guard holds on its context iff the first attempt is not a failed row without output that was never started. |
| Determinism.RetryStarts | engine/internal/engine/engine.go:318-330 | Every attempt `RetryRun` queues can be started in four events, with the context its step has at the call. |
| Determinism.BypassFrom | engine/internal/engine/engine.go:304-330 | From any consistent history that accepts a `RetryRun` and shows a guard's row, the executor of that step can be started although its guard errors on the very context. |
| Determinism.BypassIsReachable | engine/internal/engine/engine.go:304-330 | Wherever a first step's guard errors, a six-event history starts its executor. |
| Outcomes.KillsIff | engine/internal/engine/execute.go:255-284 | Exactly these events make a row dead: a failing finish, an early failure or a reap that finds it queued or running, a cancel that finds it live, an advance that finds its step ready and its guard in error. |
| Outcomes.FatalIff | engine/internal/engine/execute.go:266-284 | Of those, exactly the ones outside the automatic retry budget end the attempts of the step. |
| Outcomes.RetriesAreUsed | engine/internal/engine/execute.go:266-281 | Without `RetryRun`, a step whose attempts were ended by a failure that knew the step has exactly 1 + retries attempts. |
| Outcomes.FailureHasCause | engine/internal/engine/advance.go:113-120 | A failed run has an event in its history that ended the attempts of a step that still has no later one, answered neither by an automatic retry nor by a `RetryRun` since. |
| Outcomes.CancellationHasCause | engine/internal/engine/engine.go:229-261 | A canceled run was canceled by a call of `CancelRun` that no `RetryRun` has answered. |
| Outcomes.RestIsSuccess | engine/internal/engine/advance.go:113-127 | A consistent run at rest in which every event that ended a step's attempts and every cancel has been answered by a `RetryRun` (and attempts may have failed and been retried), with no lost row and no task waiting for a callback, has succeeded, with the interpreter's row for every step. |
| Recovery.CanSucceed | engine/internal/engine/execute.go:108-154 | Where guards do not error, every history in which no step's attempts have ended, no row is lost and running rows have their workers can be carried on, without cancel or retry calls, to that success. |
| Recovery.EveryRunCanBeSaved | engine/internal/engine/engine.go:263-341 | Every consistent history, whatever was lost, failed, canceled or left waiting in it, continues to a success with the interpreter's row for every step. |
| Recovery.Heal | engine/internal/engine/engine.go:229-341 | Every consistent history of a run that has not succeeded continues, filling no step that had no row, to a state in which no step's attempts have ended, no row is lost and running rows have their workers. |
| Passes.PassesSettle | engine/internal/engine/advance.go:80-199 | Passes repeated with no other activity change nothing after at most one more than the number of steps, from every reachable state. |
| Starts.RunTable.StartRunOpts | engine/internal/engine/engine.go:142-223 | Without a version nothing happens; without a key one new run without a key is added, with its job; with a key the run that holds it is returned, or else one new run that holds it is added, with its job; the unique index is kept and a key is never found on another workflow. |
| Starts.CallsShareRun | engine/internal/engine/engine.go:163-201 | Of all calls for one (workspace, workflow, non-empty key), every later one returns the run of the first and creates nothing. |
| Starts.AtMostOneRun | engine/internal/engine/engine.go:176-216 | Over any calls such a triple has at most one run, of that workflow, with exactly one initial advance job. |
| Starts.UnkeyedCallsDiffer | engine/internal/engine/engine.go:205-216 | Every start without a key has a run of its own, which keeps its workspace and workflow, has no key and one initial job, whatever the other calls. |
| Starts.ScopedReads | engine/internal/engine/engine.go:163-172 | The stored key is the workflow, a colon and the caller's key. |
| Starts.HookKeyReads | engine/internal/api/hooks.go:25-31 | A webhook key is empty for an empty caller key and otherwise "hook:", the trigger, a colon and the caller's key. |
| Starts.CronKeyReads | engine/internal/engine/scheduler.go:123-127 | A schedule key is "cron:", the trigger, a colon and the Unix second in decimal digits. |
| Starts.ScopedInjective | engine/internal/engine/engine.go:163-172 | The stored key determines the workflow and the caller's key. |
| Starts.HookKeysInjective | engine/internal/api/hooks.go:25-31 | The stored key of a webhook start determines workflow, trigger and caller key. |
| Starts.CronKeysInjective | engine/internal/engine/scheduler.go:123-127 | The stored key of a scheduled start determines workflow, trigger and instant. |
| Starts.HookIsNotCron | engine/internal/api/hooks.go:18-31 | Webhook and schedule keys never collide. |
| Starts.RawKeyMeetsIff | engine/internal/api/api.go:461-462 | A raw API key meets a webhook or schedule key iff it spells that key out, on the same workflow. |
| Schedule.LatestOccurrence | engine/internal/engine/scheduler.go:106-118 | On any schedule, `@every` included, the last activation up to now on the walk from the window's start; on fixed activations the greatest one in (now − lookback, now], and nothing exactly when there is none. |
| Schedule.FiresIff | engine/internal/engine/scheduler.go:100-118 | A sweep at t fires the activation a iff a ≤ t < a + lookback and t is before the next activation. |
| Schedule.DueIff | engine/internal/engine/scheduler.go:12-21 | A trigger asks for the start of an activation, under the key made of the trigger and the activation's Unix second, iff the sweep comes less than 90 seconds after it and before the next one. |
| Schedule.SweepsCover | engine/internal/engine/scheduler.go:12-21 | With sweeps at most a minute apart no activation between the first and last sweep is missed. |
| Schedule.SweepsCoverTwice | engine/internal/engine/scheduler.go:12-21 | At the scheduler's interval two sweeps in a row fire each activation. |
| Schedule.WiderGapMisses | engine/internal/engine/scheduler.go:18-21 | One nanosecond more than a minute between sweeps can lose an activation. |
| Schedule.ExactlyOneRun | engine/internal/engine/scheduler.go:80-136 | Sweeps at most a minute apart whose fires succeed, among any other starts and over any number of replicas, give every activation exactly one run and one initial job. |
| Schedule.ExactlyOneRunDespiteFailures | engine/internal/engine/scheduler.go:80-136 | At the scheduler's interval the same holds however many sweeps fail, as long as of any two in a row one succeeds. |
| Schedule.OneRunPerActivation | engine/internal/engine/scheduler.go:120-136 | Different activations have different runs. |
| Schedule.SweepSchedules | engine/internal/engine/scheduler.go:50-98 | A sweep over triggers of any kind commits exactly one start for every due trigger, in their order, and nothing else; an unparsable or unstartable trigger does not stop the others. |
| Schedule.SweepAsks | engine/internal/engine/scheduler.go:50-136 | For triggers with fixed activations, the starts a sweep asks for are exactly those of the activations due now. |
| Schedule.DueIsFired | engine/internal/engine/scheduler.go:80-98 | For a trigger with fixed activations, what a sweep calls is what the exactly-once theorems ask for. |
| Schedule.RunScheduler | engine/internal/engine/scheduler.go:28-41 | The table a series of sweeps leaves: the due calls of every sweep in order; with sweeps at most a minute apart every activation they span, of every five-field trigger whose workflow is deployed, has exactly one run and one initial job. |
| Redaction.Redactor.constructor | engine/internal/engine/redact.go:18-35 | Holds every secret of at least four bytes and its escaped form, and nothing else, longest first. |
| Redaction.Redactor.Redact | engine/internal/engine/redact.go:37-45 | The loop is the iterated replacement in the order of the values. |
| Redaction.FirstReplaced | engine/internal/engine/redact.go:37-45 | A replacement puts "[redacted]" for the leftmost occurrence and goes on behind it. |
| Redaction.SurvivorsWereThere | engine/internal/engine/redact.go:41-43 | A string that does not touch the mark and is in the result of a replacement was in the input and is not the pattern: no replacement recreates one. |
| Redaction.ValueRemoved | engine/internal/engine/redact.go:37-45 | A value that does not touch the mark is gone from every text, whatever the other values and their order. |
| Redaction.TouchingSurvives | engine/internal/engine/redact.go:18-45 | A secret of four bytes or more that touches the mark survives on some text in the redactor built for it and one other secret, escaped forms included. |
| Redaction.SurvivesIff | engine/internal/engine/redact.go:16-45 | A secret of four bytes or more can survive, in some redactor built from secrets that include it and on some text, iff it touches the mark. |
| Redaction.PlainTouchesIff | engine/internal/engine/redact.go:16-16 | A string without brackets touches the mark iff it is a piece of "redacted". |
| Redaction.NothingLeftBehind | engine/internal/engine/redact.go:18-45 | Where every value that touches the mark contains one that does not, no value survives on any text. |
| Redaction.NoSecretLeftBehind | engine/internal/engine/redact.go:18-45 | In particular where no secret of four bytes or more and no escaped form of one touches the mark. |
| Redaction.TouchingMayBeRemoved | engine/internal/engine/redact.go:37-45 | A secret between two opening brackets touches the mark and yet, alone, survives on no text. |
| Redaction.PlainSecretsIff | engine/internal/engine/redact.go:18-45 | For secrets without brackets, some value survives on some text iff some secret of four bytes or more is a piece of "redacted". |
| Fragments.RedactionIsChoice | engine/internal/engine/redact.go:37-45 | For values that do not touch the mark, iterated replacement prints the original text with a choice of disjoint occurrences replaced by one mark each. |
| Fragments.ChosenAreOccurrences | engine/internal/engine/redact.go:37-45 | Each chosen occurrence is an occurrence of a value in the original text, from end to end. |
| Fragments.LeavesNothingIff | engine/internal/engine/redact.go:9-45 | Longest first, right after its turn, an occurrence of a value has left no letter behind iff no chosen occurrence partly overlaps it or two of them meet inside it. |
| Fragments.NoStraddleNoFragment | engine/internal/engine/redact.go:9-45 | An occurrence that no occurrence of a value at least as long straddles leaves no letter in the redacted text. |
| Fragments.NoOverlapNoFragment | engine/internal/engine/redact.go:9-45 | A value that no value at least as long overlaps at an end, itself included, leaves no letter of any occurrence in any text. |
| Fragments.OverlapLeavesFragment | engine/internal/engine/redact.go:9-45 | Of two values that share a part, in a text that overlaps them, the second leaves its end behind: all such pairs of values. |
| Fragments.OverlappingSecretsLeaveFragment | engine/internal/engine/redact.go:9-45 | The same in the redactor built for two secrets that JSON leaves alone. |
| Fragments.AbuttingLeavesNothing | engine/internal/engine/redact.go:9-45 | Two chosen occurrences that meet inside a third leave nothing of it. |
| Fragments.WholeSecretReplaced | engine/internal/engine/redact.go:9-35 | Longest first, a text that is a secret becomes the mark with no fragment left. |
| Fragments.ShorterFirstLeavesFragment | engine/internal/engine/redact.go:9-11 | A secret that begins with another one would leave its end if the shorter went first: all such pairs. |
| Redaction.JsonEscapeIsFit | engine/internal/engine/redact.go:24-30 | The escaping of ASCII text adds no brackets and marks every change with a backslash, as the redactor's guarantee needs. |
| JsonText.JsonRoundTrip | engine/internal/engine/redact.go:24-30 | A reader of JSON strings, written on its own, reads the escaped form of every ASCII text back to that text; no quote or control character stands raw in it. |
| JsonText.EscapeForms | engine/internal/engine/redact.go:24-30 | Seven characters have short escapes, the other control characters and <, > and & lower-case `\u` escapes, and the rest stand for themselves. |
| JsonText.SurvivorsWereInText | engine/internal/engine/redact.go:37-45 | Whatever does not touch the mark and stands in the redacted text stood in the text. |
| JsonText.SecretUnreadable | engine/internal/engine/redact.go:9-45 | In the redacted form of a marshalled text that spells no `\u` escape no piece decodes to a secret that, like its escaped form, does not touch the mark, whatever the other values. |
| JsonText.MarshalledSecretGone | engine/internal/engine/redact.go:9-45 | In particular where the secret stands inside the text, whose marshalled form then holds the secret's. |
| JsonText.SpelledEscapeReads | engine/internal/engine/redact.go:37-45 | A family of texts that spell an escape and whose redacted form holds a piece that decodes to the secret. |
| Canvas.DefinitionToFlow | web/src/lib/flow.ts:20-34 | One node per step in order, where the document puts it or else at 80 + 240 i across and 120 down, so that steps without a position stand apart; an edge per need, from the needed step to its own, named after both ends, in order. |
| Canvas.Round | web/src/lib/flow.ts:47-47 | A whole number, the nearest one, halves up. |
| Canvas.EngineViewPreserved | web/src/lib/flow.ts:20-51 | Order, keys, types, ordered needs, guards, configs, retries and timeouts come back unchanged iff no step that shares its key with another carries needs. |
| Canvas.VerdictUnchanged | web/src/lib/flow.ts:20-51 | For every document, validation accepts it after the round trip iff it did before. |
| Canvas.SavedIsCanonical | web/src/lib/flow.ts:36-51 | Whatever the canvas saves is canonical. |
| Canvas.SavedNearby | web/src/lib/flow.ts:20-51 | A step is saved on a whole position at most half a unit from where the document had it, or exactly at its default place. |
| Canvas.IdentityIff | web/src/lib/flow.ts:20-51 | The round trip is the identity iff the document is canonical and no step that shares its key with another carries needs. |
| Canvas.IdempotentIff | web/src/lib/flow.ts:20-51 | A second save changes nothing iff no step that shares its key with another carries needs. |

## Left out

- Postgres isolation: transactions are serial; an overlap in which `CancelRun` cannot see a retry row that `finishTask` is inserting is outside the model.
- River delivery and rescue timing, Valkey notifications, SSE: I/O. Jobs are a multiset; any redelivery of an advance, execute or resume job is an event.
- Timestamps, error texts, task inputs, logs and the time at which delayed jobs become due: a delayed job may be taken at any time, and the reaper may reap any running row, which covers every timing.
- Executors, goja, HTTP, AI, MCP, `{{ }}` interpolation, the vault and secrets lookup: foreign code, kept as functions (`World`); per-step timeouts surface as failures.
- A run is modelled by its own rows; transactions of different runs do not touch each other's rows.
- JSON: outputs and payloads are strings; that redacted JSON is still JSON is not claimed, and is false for a secret such as `true`.
- NothingLeftBehind: a sufficient condition on a given set of values; for sets without brackets `Redaction.PlainSecretsIff` is exact, with brackets no exact condition on the whole set is stated (touching the mark is not one, `Redaction.TouchingMayBeRemoved`), only the exact one per secret over all redactors, `Redaction.SurvivesIff`.
- JsonEscapeIsFit: covers ASCII text, as do JsonRoundTrip and SecretUnreadable; for other text the redactor's theorems hold for any escaping with the same two properties.
- SecretUnreadable: texts that spell a `\u` escape are left out, because the claim is false for a family of them (`JsonText.SpelledEscapeReads`). Not every such text fails, so the guard is sufficient, not exact.
- Cron parsing, time zones, DST and the meaning of `@every`: a schedule is its `Next` function; the exactly-once theorems are about fixed activations at least a minute apart.
- Raw API idempotency keys are not namespaced: a caller of the API can meet a webhook or schedule key of the same workflow by spelling it out (`Starts.RawKeyMeetsIff`), so no disjointness is claimed for them.
- Numbers in canvas documents are integers (retries, timeouts) and reals (positions); `NaN` and infinities are not modelled.
- Authentication (HMAC, sessions, passwords), pagination, log caps, version numbering, `nextKey`, the last-admin guard, the migration runner, the web UI and the Helm chart are not part of the model.
