/**
 The main theorems: what holds in every state of every history of a run, for
 any interleaving of workers, timers, callbacks, reapers, redeliveries, cancels
 and retries.
 */
module Histories {
  import opened Definitions
  import opened RunState
  import opened Ladder
  import opened RunStatusProof
  import opened Workers
  import opened Suspensions
  import opened Wakeups
  import opened Budget

  /** A history of a run of `g` from its start. */
  ghost predicate RunHistory(w: World, g: Graph, states: seq<State>, events: seq<Event>) {
    Runnable(g) && History(w, g, states, events) && states[0] == START
  }

  lemma LinkAt(w: World, g: Graph, states: seq<State>, events: seq<Event>, i: nat)
    requires History(w, g, states, events) && i < |events|
    ensures Enabled(states[i], events[i]) && states[i + 1] == Apply(w, g, states[i], events[i])
  {
    hide Apply, Enabled;
    var j := i + 1;
    assert Next(w, g, states[i], events[i], states[j]);
  }

  lemma HistoryLength(w: World, g: Graph, states: seq<State>, events: seq<Event>)
    requires RunHistory(w, g, states, events)
    ensures |states| == |events| + 1 && Runnable(g)
  {
    hide Runnable, Next;
  }

  lemma StartHistory(w: World, g: Graph)
    requires Runnable(g)
    ensures RunHistory(w, g, [START], [])
  {
  }

  lemma Extended(w: World, g: Graph, states: seq<State>, events: seq<Event>, e: Event, s': State)
    requires RunHistory(w, g, states, events) && Enabled(states[|events|], e) && s' == Apply(w, g, states[|events|], e)
    ensures RunHistory(w, g, states + [s'], events + [e])
  {
    hide Runnable, Apply, Enabled;
    var states', events' := states + [s'], events + [e];
    forall i, j | 0 <= i < j < |states'| && j == i + 1
      ensures Next(w, g, states'[i], events'[i], states'[j])
    {
      if i < |events| {
        assert Next(w, g, states[i], events[i], states[j]);
      }
    }
  }

  // ----- the safety invariant -----

  ghost predicate Sound(g: Graph, s: State) {
    && RowsOk(g, s.tasks)
    && StatusOk(g, s)
    && WorkersOk(s)
    && ContextsOk(g, s)
    && BooksOk(s)
    && ResumersOk(s)
    && BudgetOk(g, s)
  }

  lemma StartIsSound(g: Graph)
    ensures Sound(g, START)
  {
    hide RowsOk, WorkersOk, ContextsOk, BooksOk, ResumersOk, BudgetOk;
    StartRows(g);
    StartWorkers(g);
    StartBooks(g);
  }

  lemma StartRows(g: Graph)
    ensures RowsOk(g, map[])
  {
  }

  lemma StartWorkers(g: Graph)
    ensures WorkersOk(START) && ContextsOk(g, START)
  {
    hide BuildContext, RunsOnce;
    assert START.loaded == START.executes == START.invoked == multiset{};
    assert START.prepared == START.executing == multiset{};
    assert RunsOnce(multiset{}, multiset{}, map[]) by {
      NoneRun(map[]);
    }
  }

  lemma NoneRun(tasks: Tasks)
    ensures RunsOnce(multiset{}, multiset{}, tasks)
  {
  }

  lemma StartBooks(g: Graph)
    ensures BooksOk(START) && ResumersOk(START) && BudgetOk(g, START)
  {
    hide Pow2;
  }

  lemma SoundKept(w: World, g: Graph, s: State, e: Event)
    requires Runnable(g) && Sound(g, s) && Enabled(s, e)
    ensures Sound(g, Apply(w, g, s, e))
  {
    hide Runnable, Apply, Enabled, RowsOk, StatusOk, WorkersOk, ContextsOk, BooksOk, ResumersOk, BudgetOk, Evolves;
    StepEvolves(w, g, s, e);
    RowsKept(g, s.tasks, Apply(w, g, s, e).tasks);
    StatusKept(w, g, s, e);
    WorkersKept(w, g, s, e);
    ContextsKept(w, g, s, e);
    BooksKept(w, g, s, e);
    ResumersKept(w, g, s, e);
    BudgetKept(w, g, s, e);
  }

  /** Every reachable state is sound. */
  lemma {:induction false} AlwaysSound(w: World, g: Graph, states: seq<State>, events: seq<Event>, i: nat)
    requires RunHistory(w, g, states, events) && i < |states|
    ensures Sound(g, states[i])
  {
    hide Runnable, Apply, Enabled, Sound, Next;
    if i == 0 {
      StartIsSound(g);
    } else {
      AlwaysSound(w, g, states, events, i - 1);
      LinkAt(w, g, states, events, i - 1);
      SoundKept(w, g, states[i - 1], events[i - 1]);
    }
  }

  lemma SoundRows(g: Graph, s: State)
    requires Sound(g, s)
    ensures RowsOk(g, s.tasks)
  {
  }

  lemma SoundBooks(g: Graph, s: State)
    requires Sound(g, s)
    ensures BooksOk(s)
  {
    hide RowsOk, StatusOk, WorkersOk, ContextsOk, BooksOk, ResumersOk, BudgetOk;
  }

  lemma SoundStatus(g: Graph, s: State)
    requires Sound(g, s)
    ensures StatusOk(g, s)
  {
    hide RowsOk, StatusOk, WorkersOk, ContextsOk, BooksOk, ResumersOk, BudgetOk;
  }

  // ----- attempts -----

  /** The attempts of a step are exactly 1..n; all below n are failed or canceled,
      so at most one attempt is live or has ever settled. */
  lemma AttemptsFormLadder(w: World, g: Graph, states: seq<State>, events: seq<Event>, i: nat, k: string)
    requires RunHistory(w, g, states, events) && i < |states|
    ensures var tasks := states[i].tasks;
      HasRow(tasks, k) ==>
        && (forall a: nat :: TaskId(k, a) in tasks <==> 1 <= a <= Top(tasks, k))
        && (forall a: nat :: 1 <= a < Top(tasks, k) ==> Dead(tasks[TaskId(k, a)].status))
  {
    hide RunHistory, Sound, Grounded, AttemptLadder, Dead;
    AlwaysSound(w, g, states, events, i);
    var tasks := states[i].tasks;
    SoundRows(g, states[i]);
    if HasRow(tasks, k) {
      forall a: nat
        ensures TaskId(k, a) in tasks <==> 1 <= a <= Top(tasks, k)
        ensures 1 <= a < Top(tasks, k) ==> Dead(tasks[TaskId(k, a)].status)
      {
        RungsBelow(tasks, k, Top(tasks, k), a);
      }
    }
  }

  lemma RungsBelow(tasks: Tasks, k: string, n: nat, a: nat)
    requires AttemptLadder(tasks) && IsTop(tasks, k, n)
    ensures TaskId(k, a) in tasks <==> 1 <= a <= n
    ensures 1 <= a < n ==> Dead(tasks[TaskId(k, a)].status)
  {
    assert TaskId(k, a).step == k && TaskId(k, n).step == k;
  }

  /** The RetryRun calls among the first `n` events. */
  ghost function RetryRuns(events: seq<Event>, n: nat): nat
    requires n <= |events|
  {
    if n == 0 then 0 else RetryRuns(events, n - 1) + if events[n - 1].RetryRun? then 1 else 0
  }

  lemma {:induction false} RetryCallsCounted(w: World, g: Graph, states: seq<State>, events: seq<Event>, i: nat)
    requires RunHistory(w, g, states, events) && i < |states|
    ensures states[i].retryCalls == RetryRuns(events, i)
  {
    hide Runnable, Apply, Enabled, Next;
    if i > 0 {
      RetryCallsCounted(w, g, states, events, i - 1);
      LinkAt(w, g, states, events, i - 1);
      RetryCallsStep(w, g, states[i - 1], events[i - 1]);
    }
  }

  /** At most 1 + retries + RetryRun calls attempts; each backoff at most 1024s,
      all of a step's at most 2046s. */
  lemma BudgetAlways(w: World, g: Graph, states: seq<State>, events: seq<Event>, i: nat, k: string, n: nat)
    requires RunHistory(w, g, states, events) && i < |states| && k in g
    ensures forall id :: id in states[i].tasks && id.step == k ==> id.attempt <= 1 + g[k].retries + RetryRuns(events, i)
    ensures forall id :: id in states[i].backoffs && id.step == k ==>
              states[i].backoffs[id] <= 1024 && states[i].backoffs[id] * NANOS_PER_SECOND < INT64_LIMIT
    ensures TotalBackoff(states[i].backoffs, k, n) <= 2046
  {
    AlwaysSound(w, g, states, events, i);
    RetryCallsCounted(w, g, states, events, i);
    BackoffLimits(g, states[i], k, n);
  }

  // ----- rows move forward only -----

  ghost predicate RowsForward(t: Tasks, t': Tasks) {
    forall id :: id in t ==> id in t' && Forward(t[id], t'[id])
  }

  lemma RowsForwardOnce(g: Graph, t: Tasks, t': Tasks)
    requires Evolves(g, t, t')
    ensures RowsForward(t, t')
  {
  }

  lemma RowsForwardTwice(t: Tasks, t': Tasks, t'': Tasks)
    requires RowsForward(t, t') && RowsForward(t', t'')
    ensures RowsForward(t, t'')
  {
  }

  lemma {:induction false} RowsForwardAlong(w: World, g: Graph, states: seq<State>, events: seq<Event>, i: nat, j: nat)
    requires RunHistory(w, g, states, events) && i <= j < |states|
    ensures RowsForward(states[i].tasks, states[j].tasks)
    decreases j
  {
    hide Runnable, Apply, Enabled, Next, Evolves, RowsOk, Sound, RowsForward;
    if i == j {
      EvolvesSame(g, states[i].tasks);
      RowsForwardOnce(g, states[i].tasks, states[i].tasks);
    } else {
      RowsForwardAlong(w, g, states, events, i, j - 1);
      AlwaysSound(w, g, states, events, j - 1);
      LinkAt(w, g, states, events, j - 1);
      SoundRows(g, states[j - 1]);
      StepEvolves(w, g, states[j - 1], events[j - 1]);
      RowsForwardOnce(g, states[j - 1].tasks, states[j].tasks);
      RowsForwardTwice(states[i].tasks, states[j - 1].tasks, states[j].tasks);
    }
  }

  /** A terminal row's status and output never change again. */
  lemma TerminalRowsFinal(w: World, g: Graph, states: seq<State>, events: seq<Event>, i: nat, j: nat, id: TaskId)
    requires RunHistory(w, g, states, events) && i <= j < |states|
    requires id in states[i].tasks && !Live(states[i].tasks[id].status)
    ensures id in states[j].tasks && states[j].tasks[id] == states[i].tasks[id]
  {
    hide RunHistory;
    RowsForwardAlong(w, g, states, events, i, j);
  }

  /** Over the whole life of a run at most one attempt of a step ever settles. */
  lemma {:induction false} OneSettledAttempt(
      w: World, g: Graph, states: seq<State>, events: seq<Event>, i: nat, j: nat, p: TaskId, q: TaskId)
    requires RunHistory(w, g, states, events) && i < |states| && j < |states| && p.step == q.step
    requires p in states[i].tasks && Settled(states[i].tasks[p].status)
    requires q in states[j].tasks && Settled(states[j].tasks[q].status)
    ensures p == q && states[i].tasks[p] == states[j].tasks[q]
  {
    hide RunHistory, Sound, Grounded, AttemptLadder;
    if i <= j {
      TerminalRowsFinal(w, g, states, events, i, j, p);
      AlwaysSound(w, g, states, events, j);
      SoundRows(g, states[j]);
      OneUndeadAttempt(states[j].tasks, p, q);
    } else {
      OneSettledAttempt(w, g, states, events, j, i, q, p);
    }
  }

  /** Event `i` makes the row terminal. */
  ghost predicate MakesTerminal(states: seq<State>, i: nat, id: TaskId)
    requires i + 1 < |states|
  {
    && id in states[i + 1].tasks && !Live(states[i + 1].tasks[id].status)
    && (id in states[i].tasks ==> Live(states[i].tasks[id].status))
  }

  /** Exactly one event makes a row terminal. */
  lemma {:induction false} OneWinner(w: World, g: Graph, states: seq<State>, events: seq<Event>, j: nat, id: TaskId)
    returns (i: nat)
    requires RunHistory(w, g, states, events) && j < |states|
    requires id in states[j].tasks && !Live(states[j].tasks[id].status)
    ensures i < j && MakesTerminal(states, i, id)
    ensures forall n: nat :: n + 1 < |states| && MakesTerminal(states, n, id) ==> n == i
  {
    hide Runnable, History, Live;
    assert j > 0;
    if id in states[j - 1].tasks && !Live(states[j - 1].tasks[id].status) {
      i := OneWinner(w, g, states, events, j - 1, id);
    } else {
      i := j - 1;
      forall n: nat | n + 1 < |states| && MakesTerminal(states, n, id)
        ensures n == i
      {
        if n < i {
          TerminalRowsFinal(w, g, states, events, n + 1, i, id);
        } else if i < n {
          TerminalRowsFinal(w, g, states, events, i + 1, n, id);
        }
      }
    }
  }

  /** A claim that finds its row queued starts the executor. */
  ghost predicate Starts(s: State, e: Event, id: TaskId) {
    e.Claim? && e.id == id && id in s.tasks && s.tasks[id].status == Queued
  }

  lemma StartedIsRunning(w: World, g: Graph, s: State, e: Event, id: TaskId)
    requires Enabled(s, e) && Starts(s, e, id)
    ensures id in Apply(w, g, s, e).tasks && Apply(w, g, s, e).tasks[id].status == Running
  {
  }

  /** The executor is started at most once per attempt. */
  lemma {:induction false} StartedOnce(
      w: World, g: Graph, states: seq<State>, events: seq<Event>, i: nat, j: nat, id: TaskId)
    requires RunHistory(w, g, states, events) && i < |events| && j < |events|
    requires Starts(states[i], events[i], id) && Starts(states[j], events[j], id)
    ensures i == j
  {
    hide Runnable, Apply, Enabled, Next;
    if i < j {
      LinkAt(w, g, states, events, i);
      StartedIsRunning(w, g, states[i], events[i], id);
      RowsForwardAlong(w, g, states, events, i + 1, j);
    } else if j < i {
      StartedOnce(w, g, states, events, j, i, id);
    }
  }

  // ----- frozen contexts -----

  lemma {:induction false} ContextAlong(
      w: World, g: Graph, states: seq<State>, events: seq<Event>, i: nat, j: nat, k: string)
    requires RunHistory(w, g, states, events) && i <= j < |states|
    requires forall n :: n in Upstream(g, k) ==> SettledRow(states[i].tasks, n)
    ensures BuildContext(g, states[j].tasks, k) == BuildContext(g, states[i].tasks, k)
    ensures forall n :: n in Upstream(g, k) ==> SettledRow(states[j].tasks, n)
    decreases j
  {
    hide Runnable, Apply, Enabled, Next, Evolves, RowsOk, Sound, BuildContext, Upstream, SettledRow;
    if i < j {
      ContextAlong(w, g, states, events, i, j - 1, k);
      AlwaysSound(w, g, states, events, j - 1);
      LinkAt(w, g, states, events, j - 1);
      SoundRows(g, states[j - 1]);
      StepEvolves(w, g, states[j - 1], events[j - 1]);
      ContextFrozen(g, states[j - 1].tasks, states[j].tasks, k);
      forall n | n in Upstream(g, k)
        ensures SettledRow(states[j].tasks, n)
      {
        SettledStays(g, states[j - 1].tasks, states[j].tasks, n);
      }
    }
  }

  /** Once a step has a row, everything upstream has settled for good and the
      context built for the step never changes. */
  lemma FrozenContext(w: World, g: Graph, states: seq<State>, events: seq<Event>, i: nat, j: nat, k: string)
    requires RunHistory(w, g, states, events) && i <= j < |states| && HasRow(states[i].tasks, k)
    ensures forall n :: n in Upstream(g, k) ==> LatestSettled(states[j].tasks, n)
    ensures BuildContext(g, states[j].tasks, k) == BuildContext(g, states[i].tasks, k)
  {
    hide RunHistory, RowsOk, BuildContext, Upstream, SettledRow, LatestSettled;
    AlwaysSound(w, g, states, events, i);
    SoundRows(g, states[i]);
    forall n | n in Upstream(g, k)
      ensures SettledRow(states[i].tasks, n)
    {
      UpstreamSettled(g, states[i].tasks, k, n);
    }
    ContextAlong(w, g, states, events, i, j, k);
    AlwaysSound(w, g, states, events, j);
    SoundRows(g, states[j]);
    forall n | n in Upstream(g, k)
      ensures LatestSettled(states[j].tasks, n)
    {
      RowsLatest(g, states[j].tasks, n);
    }
  }

  lemma RowsLatest(g: Graph, tasks: Tasks, n: string)
    requires RowsOk(g, tasks)
    ensures SettledRow(tasks, n) <==> LatestSettled(tasks, n)
  {
    SettledIsLatest(tasks, n);
  }

  /** The guard saw the same context: it was evaluated on the rows of state `i`,
      in which the step was ready. */
  lemma GuardSawContext(w: World, g: Graph, states: seq<State>, events: seq<Event>, i: nat, j: nat, k: string)
    requires RunHistory(w, g, states, events) && i <= j < |states| && Ready(g, states[i].tasks, k)
    ensures BuildContext(g, states[j].tasks, k) == BuildContext(g, states[i].tasks, k)
  {
    hide RunHistory, RowsOk, BuildContext, Upstream, SettledRow, LatestSettled;
    AlwaysSound(w, g, states, events, i);
    SoundRows(g, states[i]);
    forall n | n in Needs(g, k)
      ensures SettledRow(states[i].tasks, n)
    {
      RowsLatest(g, states[i].tasks, n);
    }
    forall n | n in Upstream(g, k)
      ensures SettledRow(states[i].tasks, n)
    {
      ReadyUpstreamSettled(g, states[i].tasks, k, n);
    }
    ContextAlong(w, g, states, events, i, j, k);
  }

  lemma StarterContext(g: Graph, s: State, e: Event, id: TaskId)
    requires Sound(g, s) && Enabled(s, e) && Starts(s, e, id)
    ensures e.ctx == BuildContext(g, s.tasks, id.step)
  {
    assert Prepared(id, e.ctx) in s.prepared;
    hide BuildContext;
  }

  /** All executors ever started for a step, whatever the attempt, get one context. */
  lemma {:induction false} AttemptsShareContext(
      w: World, g: Graph, states: seq<State>, events: seq<Event>, i: nat, j: nat, p: TaskId, q: TaskId)
    requires RunHistory(w, g, states, events) && i < |events| && j < |events|
    requires Starts(states[i], events[i], p) && Starts(states[j], events[j], q) && p.step == q.step
    ensures events[i].ctx == events[j].ctx
  {
    if i <= j {
      hide Runnable, Apply, Enabled, Next, Sound, BuildContext, Upstream;
      AlwaysSound(w, g, states, events, i);
      AlwaysSound(w, g, states, events, j);
      LinkAt(w, g, states, events, i);
      LinkAt(w, g, states, events, j);
      StarterContext(g, states[i], events[i], p);
      StarterContext(g, states[j], events[j], q);
      FrozenContext(w, g, states, events, i, j, p.step);
    } else {
      AttemptsShareContext(w, g, states, events, j, i, q, p);
    }
  }

  // ----- run status -----

  lemma NoAttemptAbove(tasks: Tasks, id: TaskId, q: TaskId)
    requires AttemptLadder(tasks) && q in tasks && q.step == id.step && NextAttempt(id) !in tasks
    ensures q.attempt <= id.attempt
  {
    var b := id.attempt + 1;
    assert TaskId(q.step, b) == NextAttempt(id);
    assert q == TaskId(q.step, q.attempt);
  }

  lemma DeadEndIsLatest(g: Graph, tasks: Tasks)
    requires RowsOk(g, tasks) && exists id :: DeadEnd(tasks, id)
    ensures AnyDead(g, tasks)
  {
    var id :| DeadEnd(tasks, id);
    assert TaskId(id.step, id.attempt) == id;
    forall q | q in tasks && q.step == id.step
      ensures q.attempt <= id.attempt
    {
      NoAttemptAbove(tasks, id, q);
    }
    LatestAt(tasks, id.step, id.attempt);
    assert LatestDead(tasks, id.step);
  }

  /** What the run's status says. */
  lemma StatusSound(w: World, g: Graph, states: seq<State>, events: seq<Event>, i: nat)
    requires RunHistory(w, g, states, events) && i < |states|
    ensures states[i].run == RunSucceeded ==> AllSettled(g, states[i].tasks)
    ensures states[i].run == RunFailed ==> AnyDead(g, states[i].tasks)
    ensures states[i].run == RunCanceled ==> !HasLive(states[i].tasks)
    ensures states[i].run == RunQueued ==> states[i].tasks == map[]
  {
    hide RunHistory, Sound, RowsOk, StatusOk;
    AlwaysSound(w, g, states, events, i);
    SoundRows(g, states[i]);
    SoundStatus(g, states[i]);
    StatusTells(g, states[i]);
  }

  lemma StatusTells(g: Graph, s: State)
    requires RowsOk(g, s.tasks) && StatusOk(g, s)
    ensures s.run == RunSucceeded ==> AllSettled(g, s.tasks)
    ensures s.run == RunFailed ==> AnyDead(g, s.tasks)
    ensures s.run == RunCanceled ==> !HasLive(s.tasks)
    ensures s.run == RunQueued ==> s.tasks == map[]
  {
    hide RowsOk, AllSettled, AnyDead, DeadEnd, SettledRow;
    if s.run == RunSucceeded {
      AllSettledRows(g, s.tasks);
    } else if s.run == RunFailed {
      DeadEndIsLatest(g, s.tasks);
    }
  }

  lemma StatusStep(w: World, g: Graph, s: State, e: Event)
    requires Enabled(s, e)
    ensures Terminal(s.run) && !e.RetryRun? ==> Apply(w, g, s, e).run == s.run
    ensures s.run == RunSucceeded ==> Apply(w, g, s, e).run == RunSucceeded
  {
    hide ApplyStarting, ApplyEnding, ApplyParking, ApplyFault, FirstRows, AnyDead, AllSettled, RedoIds;
    if !Control(e) {
      hide Apply;
      WorkContinues(w, g, s, e);
    } else {
      match e
      case Advance =>
      case CancelRun =>
      case RetryRun =>
    }
  }

  /** A succeeded run stays succeeded. */
  lemma {:induction false} SucceededStays(w: World, g: Graph, states: seq<State>, events: seq<Event>, i: nat, j: nat)
    requires RunHistory(w, g, states, events) && i <= j < |states| && states[i].run == RunSucceeded
    ensures states[j].run == RunSucceeded
    decreases j
  {
    hide Runnable, Apply, Enabled, Next;
    if i < j {
      SucceededStays(w, g, states, events, i, j - 1);
      LinkAt(w, g, states, events, j - 1);
      StatusStep(w, g, states[j - 1], events[j - 1]);
    }
  }

  /** Only RetryRun leaves a terminal status; a canceled run has no live task until then. */
  lemma {:induction false} TerminalUntilRetry(
      w: World, g: Graph, states: seq<State>, events: seq<Event>, i: nat, j: nat)
    requires RunHistory(w, g, states, events) && i <= j < |states| && Terminal(states[i].run)
    requires forall n :: i <= n < j ==> !events[n].RetryRun?
    ensures states[j].run == states[i].run
    ensures states[i].run == RunCanceled ==> !HasLive(states[j].tasks)
    decreases j
  {
    hide Runnable, Apply, Enabled, Next;
    StatusSound(w, g, states, events, j);
    if i < j {
      TerminalUntilRetry(w, g, states, events, i, j - 1);
      LinkAt(w, g, states, events, j - 1);
      StatusStep(w, g, states[j - 1], events[j - 1]);
    }
  }

  // ----- suspensions -----

  /** Every suspended task has exactly one suspension row, and every suspension
      row belongs to a suspended or canceled task, whose row shows the payload the
      suspension carries. */
  lemma SuspensionsMatch(w: World, g: Graph, states: seq<State>, events: seq<Event>, i: nat)
    requires RunHistory(w, g, states, events) && i < |states|
    ensures forall id :: id in states[i].tasks && states[i].tasks[id].status == Suspended ==>
              IsParked(states[i].parked, id)
    ensures var parked := states[i].parked;
            forall a, b :: a in parked && b in parked && parked[a].task == parked[b].task ==> a == b
    ensures forall a :: a in states[i].parked ==>
              && states[i].parked[a].task in states[i].tasks
              && states[i].tasks[states[i].parked[a].task].status in {Suspended, Canceled}
              && states[i].tasks[states[i].parked[a].task].output == Some(states[i].parked[a].payload)
  {
    hide RunHistory;
    AlwaysSound(w, g, states, events, i);
    hide RowsOk, StatusOk, WorkersOk, ContextsOk, ResumersOk, BudgetOk;
    forall id | id in states[i].tasks && states[i].tasks[id].status == Suspended
      ensures IsParked(states[i].parked, id)
    {
      assert IsParked(states[i].parked, id);
      var token :| token in states[i].parked && states[i].parked[token].task == id;
    }
  }

  /** A resume that finds its task suspended takes effect. */
  ghost predicate Revives(s: State, e: Event, id: TaskId) {
    e.Resume? && e.id == id && id in s.tasks && s.tasks[id].status == Suspended
  }

  lemma RevivedIsDone(w: World, g: Graph, s: State, e: Event, id: TaskId)
    requires Enabled(s, e) && Revives(s, e, id)
    ensures id in Apply(w, g, s, e).tasks && Apply(w, g, s, e).tasks[id] == Row(Succeeded, Some(e.output))
    ensures !IsParked(Apply(w, g, s, e).parked, id)
  {
  }

  /** Across any race of timers, callbacks and cancels a task is resumed at most
      once, and not after it was canceled. */
  lemma {:induction false} ResumedAtMostOnce(
      w: World, g: Graph, states: seq<State>, events: seq<Event>, i: nat, j: nat, id: TaskId)
    requires RunHistory(w, g, states, events) && i < |events| && j < |events|
    requires Revives(states[i], events[i], id)
    ensures Revives(states[j], events[j], id) ==> i == j
    ensures j <= i && id in states[j].tasks ==> states[j].tasks[id].status != Canceled
    ensures j > i ==> id in states[j].tasks && states[j].tasks[id] == Row(Succeeded, Some(events[i].output))
  {
    hide Runnable, Apply, Enabled, Next;
    LinkAt(w, g, states, events, i);
    RevivedIsDone(w, g, states[i], events[i], id);
    if i < j {
      RowsForwardAlong(w, g, states, events, i + 1, j);
    } else {
      RowsForwardAlong(w, g, states, events, j, i);
      if j < i && Revives(states[j], events[j], id) {
        LinkAt(w, g, states, events, j);
        RevivedIsDone(w, g, states[j], events[j], id);
        RowsForwardAlong(w, g, states, events, j + 1, i);
      }
    }
  }

  // ----- no stranded run -----

  ghost predicate NotStranded(s: State) {
    Awake(s) && TimersSet(s)
  }

  /** In every state a non-terminal run has an advance job or a live task, and
      every timed suspension has its resume job pending or in flight. */
  lemma {:induction false} NeverStranded(w: World, g: Graph, states: seq<State>, events: seq<Event>, i: nat)
    requires RunHistory(w, g, states, events) && i < |states|
    ensures NotStranded(states[i])
  {
    hide Apply, Enabled, Next, Awake, TimersSet, RowsOk, StatusOk, WorkersOk, ContextsOk, BooksOk, ResumersOk, BudgetOk;
    if i == 0 {
      StartNotStranded();
    } else {
      NeverStranded(w, g, states, events, i - 1);
      AlwaysSound(w, g, states, events, i - 1);
      LinkAt(w, g, states, events, i - 1);
      AwakeKept(w, g, states[i - 1], events[i - 1]);
      TimersKept(w, g, states[i - 1], events[i - 1]);
    }
  }

  lemma StartNotStranded()
    ensures NotStranded(START)
  {
  }

  /** Whenever a pass over the rows would fail the run, complete it or fill a step,
      an advance job is pending. */
  lemma AdvanceAlwaysDue(w: World, g: Graph, states: seq<State>, events: seq<Event>, i: nat)
    requires RunHistory(w, g, states, events) && i < |states|
    requires !Terminal(states[i].run)
    requires || AnyDead(g, states[i].tasks) || AllSettled(g, states[i].tasks)
             || exists k :: Ready(g, states[i].tasks, k)
    ensures states[i].advances > 0
  {
    hide RunHistory, AnyDead, AllSettled, Ready;
    AdvanceDueAlong(w, g, states, events, i);
  }

  lemma {:induction false} AdvanceDueAlong(w: World, g: Graph, states: seq<State>, events: seq<Event>, i: nat)
    requires RunHistory(w, g, states, events) && i < |states|
    ensures AdvanceDue(g, states[i])
  {
    hide Runnable, Apply, Enabled, Next, Sound, RowsOk, Actionable;
    if i > 0 {
      AdvanceDueAlong(w, g, states, events, i - 1);
      AlwaysSound(w, g, states, events, i - 1);
      SoundRows(g, states[i - 1]);
      LinkAt(w, g, states, events, i - 1);
      AdvanceDueKept(w, g, states[i - 1], events[i - 1]);
    }
  }

  /** Event `i` lost the row of a task, and nothing brought it back before `j`. */
  ghost predicate LostAt(states: seq<State>, events: seq<Event>, i: nat, j: nat, id: TaskId)
    requires |states| == |events| + 1 && i < j < |states|
  {
    && MayLose(events[i], id) && Lost(states[i + 1], id)
    && forall n :: i < n < j ==> events[n] != CancelRun && events[n] != ReplayExecute(id)
  }

  ghost predicate LostBefore(states: seq<State>, events: seq<Event>, j: nat, id: TaskId)
    requires |states| == |events| + 1 && j < |states|
  {
    exists i :: 0 <= i < j && LostAt(states, events, i, j, id)
  }

  /** A queued task has its job pending or in flight, unless its worker died
      between taking the job and the claim and nothing has brought it back. */
  lemma QueuedUnlessLost(w: World, g: Graph, states: seq<State>, events: seq<Event>, j: nat, id: TaskId)
    requires RunHistory(w, g, states, events) && j < |states|
    requires id in states[j].tasks && states[j].tasks[id].status == Queued
    ensures (id in states[j].executes || id in states[j].loaded || PreparedFor(states[j].prepared, id)) <==>
            !LostBefore(states, events, j, id)
  {
    hide RunHistory, LostBefore;
    LostIff(w, g, states, events, j, id);
  }

  lemma NothingLostAtStart(id: TaskId)
    ensures !Lost(START, id)
  {
  }

  /** Exactly the losses not yet made good leave a row behind. */
  lemma {:induction false} LostIff(w: World, g: Graph, states: seq<State>, events: seq<Event>, j: nat, id: TaskId)
    requires RunHistory(w, g, states, events) && j < |states|
    ensures Lost(states[j], id) <==> LostBefore(states, events, j, id)
  {
    hide RunHistory, Lost;
    HistoryLength(w, g, states, events);
    if LostBefore(states, events, j, id) {
      var i :| 0 <= i < j && LostAt(states, events, i, j, id);
      LostForever(w, g, states, events, i + 1, j, id);
    } else if Lost(states[j], id) {
      LossHasEvent(w, g, states, events, j, id);
    }
  }

  lemma {:induction false} LossHasEvent(w: World, g: Graph, states: seq<State>, events: seq<Event>, j: nat, id: TaskId)
    requires RunHistory(w, g, states, events) && j < |states| && Lost(states[j], id)
    ensures LostBefore(states, events, j, id)
  {
    hide Runnable, Next, Apply, Enabled, RowsOk, Sound, Lost, START;
    if j == 0 {
      NothingLostAtStart(id);
    } else {
      var i := j - 1;
      LinkAt(w, g, states, events, i);
      AlwaysSound(w, g, states, events, i);
      SoundRows(g, states[i]);
      if Lost(states[i], id) {
        if events[i] == CancelRun || events[i] == ReplayExecute(id) {
          LossEnds(w, g, states[i], events[i], id);
        }
        LossHasEvent(w, g, states, events, i, id);
        var n :| 0 <= n < i && LostAt(states, events, n, i, id);
        assert LostAt(states, events, n, j, id);
      } else {
        if !MayLose(events[i], id) {
          FoundKept(w, g, states[i], events[i], id);
        }
        assert LostAt(states, events, i, j, id);
      }
    }
  }

  /** Nothing that could bring the row back is added. */
  ghost predicate StillLost(s: State, s': State, id: TaskId) {
    && id in s.tasks && id in s'.tasks && s'.tasks[id] == s.tasks[id]
    && (id in s'.executes ==> id in s.executes)
    && (id in s'.loaded ==> id in s.loaded || id in s.executes)
    && (forall p :: p in s'.prepared && p.id == id ==> p in s.prepared || id in s.loaded)
  }

  lemma LostKept(s: State, s': State, id: TaskId)
    requires Lost(s, id) && StillLost(s, s', id)
    ensures Lost(s', id)
  {
  }

  lemma SpreadLost(s: State, rows: Tasks, id: TaskId)
    requires id in s.tasks && id !in rows
    ensures StillLost(s, SpreadTx(s, rows), id)
  {
    hide GuardResolved;
    assert id !in QueuedIn(rows);
  }

  lemma AdvanceLost(w: World, g: Graph, s: State, id: TaskId)
    requires id in s.tasks
    ensures StillLost(s, AdvanceTx(w, g, s), id)
  {
    hide AnyDead, AllSettled, FirstRows, FirstStatus, Ready, SpreadTx;
    var rows := FirstRows(w, g, s.tasks);
    assert id !in rows by {
      if id in rows {
        FirstRowsNew(w, g, s.tasks, id);
      }
    }
    SpreadLost(s, rows, id);
  }

  lemma RetryLost(g: Graph, s: State, id: TaskId)
    requires RowsOk(g, s.tasks) && id in s.tasks
    ensures StillLost(s, RetryTx(s), id)
  {
    hide RowsOk, RedoIds;
    assert id !in RedoIds(s.tasks) by {
      if id in RedoIds(s.tasks) {
        RedoIsLater(g, s.tasks, id);
      }
    }
  }

  lemma EndLost(s: State, other: TaskId, row: Row, retries: int, id: TaskId)
    requires id in s.tasks && id != other
    ensures StillLost(s, EndTx(s, other, row, retries), id)
  {
  }

  lemma EndsAnother(s: State, e: Event, id: TaskId)
    requires WorkersOk(s) && Lost(s, id) && Enabled(s, e) && Ending(e)
    ensures e.id != id
  {
    if e.Finish? {
      assert e.id in s.invoked by {
        assert Prepared(e.id, e.ctx) in s.executing;
      }
    }
  }

  lemma EndingLost(g: Graph, s: State, e: Event, id: TaskId)
    requires WorkersOk(s) && Lost(s, id) && Enabled(s, e) && Ending(e)
    ensures StillLost(s, ApplyEnding(g, s, e), id)
  {
    hide ApplyEnding, EndTx, WorkersOk;
    ShapeOfEnding(g, s, e);
    if Wins(s, e) {
      EndsAnother(s, e, id);
      hide Lost, Enabled;
      EndLost(Leaving(s, e), e.id, FinalRow(s, e), RetriesSeen(g, e), id);
    }
  }

  lemma LoadLost(s: State, other: TaskId, id: TaskId)
    requires Lost(s, id) && other in s.executes
    ensures StillLost(s, LoadTx(s.(executes := s.executes - multiset{other}), other), id)
  {
  }

  lemma PrepareLost(s: State, p: Prepared, id: TaskId)
    requires Lost(s, id) && p.id in s.loaded
    ensures StillLost(s, s.(loaded := s.loaded - multiset{p.id}, prepared := s.prepared + multiset{p}), id)
  {
  }

  lemma ClaimLost(s: State, p: Prepared, id: TaskId)
    requires Lost(s, id) && p in s.prepared
    ensures StillLost(s, ClaimTx(s.(prepared := s.prepared - multiset{p}), p.id, p.ctx), id)
  {
    assert p.id != id;
  }

  lemma StartingLost(g: Graph, s: State, e: Event, id: TaskId)
    requires Lost(s, id) && Enabled(s, e) && Starting(e)
    ensures StillLost(s, ApplyStarting(g, s, e), id)
  {
    hide BuildContext, Lost, StillLost, LoadTx, ClaimTx;
    match e
    case Load(other) => LoadLost(s, other, id);
    case Prepare(other) => PrepareLost(s, Prepared(other, BuildContext(g, s.tasks, other.step)), id);
    case Claim(other, ctx) => ClaimLost(s, Prepared(other, ctx), id);
  }

  lemma ParkingLost(s: State, e: Event, id: TaskId)
    requires Lost(s, id) && Enabled(s, e) && Parking(e)
    ensures StillLost(s, ApplyParking(s, e), id)
  {
    match e
    case Suspend(_, _, _, _, _) =>
    case TimerPickup(_, _) =>
    case TimerStale(_) =>
    case CallbackPickup(_, _) =>
    case Resume(_, _, _) =>
  }

  lemma FaultLost(s: State, e: Event, id: TaskId)
    requires Lost(s, id) && Fault(e) && e != ReplayExecute(id)
    ensures StillLost(s, ApplyFault(s, e), id)
  {
    match e
    case WorkerDies(_, _) =>
    case ResumerDies(_, _, _) =>
    case LoadedLost(_) =>
    case PreparedLost(_, _) =>
    case ReplayAdvance =>
    case ReplayExecute(_) =>
    case ReplayResume(_) =>
  }

  lemma LostStep(w: World, g: Graph, s: State, e: Event, id: TaskId)
    requires RowsOk(g, s.tasks) && WorkersOk(s) && Lost(s, id) && Enabled(s, e)
    requires e != CancelRun && e != ReplayExecute(id)
    ensures Lost(Apply(w, g, s, e), id)
  {
    hide RowsOk, WorkersOk, StillLost, AdvanceTx, CancelTx, RetryTx, ApplyStarting, ApplyEnding, ApplyParking,
      ApplyFault;
    if Starting(e) {
      StartingLost(g, s, e, id);
    } else if Ending(e) {
      EndingLost(g, s, e, id);
    } else if Parking(e) {
      ParkingLost(s, e, id);
    } else if Fault(e) {
      FaultLost(s, e, id);
    } else if e.Advance? {
      AdvanceLost(w, g, s.(advances := s.advances - 1), id);
      LostKept(s.(advances := s.advances - 1), Apply(w, g, s, e), id);
      return;
    } else {
      RetryLost(g, s, id);
    }
    LostKept(s, Apply(w, g, s, e), id);
  }

  /** A lost row stays queued, and its run cannot succeed, until the run is
      canceled or the job is delivered again: the reaper looks at running rows only. */
  lemma {:induction false} LostForever(
      w: World, g: Graph, states: seq<State>, events: seq<Event>, i: nat, j: nat, id: TaskId)
    requires RunHistory(w, g, states, events) && i <= j < |states| && Lost(states[i], id)
    requires forall n :: i <= n < j ==> events[n] != CancelRun && events[n] != ReplayExecute(id)
    ensures Lost(states[j], id) && states[j].run != RunSucceeded
    decreases j
  {
    hide Apply, Enabled, Next, Runnable, RowsOk, WorkersOk, ContextsOk, BooksOk, ResumersOk, Lost;
    AlwaysSound(w, g, states, events, j);
    if i < j {
      LostForever(w, g, states, events, i, j - 1, id);
      AlwaysSound(w, g, states, events, j - 1);
      LinkAt(w, g, states, events, j - 1);
      LostStep(w, g, states[j - 1], events[j - 1], id);
    }
    LiveBlocksSuccess(g, states[j], id);
  }

  lemma LiveBlocksSuccess(g: Graph, s: State, id: TaskId)
    requires RowsOk(g, s.tasks) && StatusOk(g, s) && Lost(s, id)
    ensures s.run != RunSucceeded
  {
    if s.run == RunSucceeded {
      assert SettledRow(s.tasks, id.step);
      var other :| other in s.tasks && other.step == id.step && Settled(s.tasks[other].status);
      OneUndeadAttempt(s.tasks, id, other);
    }
  }
}
