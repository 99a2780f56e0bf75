/**
 Schedule independence over whole histories: what a settled step shows does not
 depend on the interleaving, on reaps, on retries or on redeliveries.
 */
module Determinism {
  import opened Definitions
  import opened RunState
  import opened Ladder
  import opened RunStatusProof
  import opened Workers
  import opened Suspensions
  import opened Interpreter
  import opened Histories
  import opened Liveness

  /** The foreign code behaved as the world's functions say up to state `i`. */
  ghost predicate ConsistentUpTo(w: World, states: seq<State>, events: seq<Event>, i: nat)
    requires i <= |events| && |states| == |events| + 1
  {
    forall n :: 0 <= n < i ==> Consistent(w, states[n], events[n])
  }

  ghost predicate Faithful(w: World, g: Graph, rank: map<string, nat>, s: State)
    requires IsRank(g, rank)
  {
    RowsFaithful(w, g, rank, s.tasks) && WaitsFaithful(w, g, rank, s) && GuardsHonest(w, g, rank, s)
  }

  lemma StartFaithful(w: World, g: Graph, rank: map<string, nat>)
    requires IsRank(g, rank)
    ensures Faithful(w, g, rank, START)
  {
    hide RowFaithful, GuardHonest, ParkedFaithful, ResumerFaithful;
  }

  lemma FaithfulKept(w: World, g: Graph, rank: map<string, nat>, s: State, e: Event)
    requires IsRank(g, rank) && Sound(g, s) && Faithful(w, g, rank, s) && Enabled(s, e) && Consistent(w, s, e)
    ensures Faithful(w, g, rank, Apply(w, g, s, e))
  {
    hide Apply, Enabled, Consistent, RowsOk, StatusOk, WorkersOk, ContextsOk, BooksOk, ResumersOk,
      RowsFaithful, WaitsFaithful, GuardsHonest;
    RowsFaithfulKept(w, g, rank, s, e);
    WaitsFaithfulKept(w, g, rank, s, e);
    GuardsHonestKept(w, g, rank, s, e);
  }

  lemma {:induction false} AlwaysFaithful(
      w: World, g: Graph, rank: map<string, nat>, states: seq<State>, events: seq<Event>, i: nat)
    requires RunHistory(w, g, states, events) && IsRank(g, rank) && i < |states| && ConsistentUpTo(w, states, events, i)
    ensures Faithful(w, g, rank, states[i])
  {
    hide Apply, Enabled, Next, Runnable, Sound, Consistent, IsRank, Faithful;
    if i == 0 {
      StartFaithful(w, g, rank);
    } else {
      AlwaysFaithful(w, g, rank, states, events, i - 1);
      AlwaysSound(w, g, states, events, i - 1);
      LinkAt(w, g, states, events, i - 1);
      FaithfulKept(w, g, rank, states[i - 1], events[i - 1]);
    }
  }

  /** What the interpreter says a settled step's row is. */
  ghost function IdealRow(w: World, g: Graph, rank: map<string, nat>, k: string): Row
    requires IsRank(g, rank) && k in g
  {
    match Ideal(w, g, rank, k)
    case Skips => Row(Skipped, None)
    case Yields(output) => Row(Succeeded, Some(output))
  }

  /** Every settled step shows exactly what the interpreter computes. */
  lemma SettledMatchesInterpreter(
      w: World, g: Graph, rank: map<string, nat>, states: seq<State>, events: seq<Event>, i: nat, k: string)
    requires RunHistory(w, g, states, events) && IsRank(g, rank) && i < |states| && ConsistentUpTo(w, states, events, i)
    requires k in g && LatestSettled(states[i].tasks, k)
    ensures Latest(states[i].tasks, k) == Some(IdealRow(w, g, rank, k))
  {
    hide RunHistory, ConsistentUpTo, Ideal, WaitsFaithful, GuardsHonest;
    AlwaysFaithful(w, g, rank, states, events, i);
    var id := TaskId(k, Top(states[i].tasks, k));
    assert RowFaithful(w, g, rank, id, states[i].tasks[id]);
  }

  /** Any two histories of a run agree on every step both have settled. */
  lemma SchedulesAgree(
      w: World, g: Graph,
      states: seq<State>, events: seq<Event>, i: nat,
      states': seq<State>, events': seq<Event>, i': nat, k: string)
    requires RunHistory(w, g, states, events) && i < |states| && ConsistentUpTo(w, states, events, i)
    requires RunHistory(w, g, states', events') && i' < |states'| && ConsistentUpTo(w, states', events', i')
    requires k in g && LatestSettled(states[i].tasks, k) && LatestSettled(states'[i'].tasks, k)
    ensures Latest(states[i].tasks, k) == Latest(states'[i'].tasks, k)
  {
    hide History, ConsistentUpTo, LatestSettled, Latest, IsRank;
    var rank :| IsRank(g, rank);
    SettledMatchesInterpreter(w, g, rank, states, events, i, k);
    SettledMatchesInterpreter(w, g, rank, states', events', i', k);
  }

  /** Hence two runs that succeed end with the same outputs. */
  lemma SucceededRunsAgree(
      w: World, g: Graph,
      states: seq<State>, events: seq<Event>, i: nat,
      states': seq<State>, events': seq<Event>, i': nat)
    requires RunHistory(w, g, states, events) && i < |states| && ConsistentUpTo(w, states, events, i)
    requires RunHistory(w, g, states', events') && i' < |states'| && ConsistentUpTo(w, states', events', i')
    requires states[i].run == RunSucceeded && states'[i'].run == RunSucceeded
    ensures forall k :: k in g ==> Latest(states[i].tasks, k) == Latest(states'[i'].tasks, k)
  {
    hide RunHistory, ConsistentUpTo, LatestSettled, Latest;
    StatusSound(w, g, states, events, i);
    StatusSound(w, g, states', events', i');
    forall k | k in g
      ensures Latest(states[i].tasks, k) == Latest(states'[i'].tasks, k)
    {
      SchedulesAgree(w, g, states, events, i, states', events', i', k);
    }
  }

  // ----- guards -----

  ghost function GuardValue(w: World, g: Graph, k: string, ctx: Context): Verdict
    requires k in g
  {
    if g[k].cond == "" then Truthy else w.eval("!!(" + g[k].cond + ")", ctx)
  }

  /** What the rows tell of a guard: it held on the step's context exactly when
      no row is there that only a guard's error leaves behind. */
  lemma GuardRowTells(w: World, g: Graph, states: seq<State>, events: seq<Event>, i: nat, id: TaskId)
    requires RunHistory(w, g, states, events) && i < |states| && ConsistentUpTo(w, states, events, i)
    requires id in states[i].tasks && states[i].tasks[id].status != Skipped
    ensures id.step in g
    ensures GuardValue(w, g, id.step, BuildContext(g, states[i].tasks, id.step)) == Truthy <==>
            !GuardRow(states[i], id.step)
    ensures GuardValue(w, g, id.step, BuildContext(g, states[i].tasks, id.step)) == EvalError <==>
            GuardRow(states[i], id.step)
  {
    hide Next, ConsistentUpTo, IsRank, Faithful, GuardRow, BuildContext;
    var rank :| IsRank(g, rank);
    AlwaysFaithful(w, g, rank, states, events, i);
    AlwaysSound(w, g, states, events, i);
    GuardOnRow(w, g, rank, states[i], id);
  }

  lemma GuardOnRow(w: World, g: Graph, rank: map<string, nat>, s: State, id: TaskId)
    requires IsRank(g, rank) && Sound(g, s) && Faithful(w, g, rank, s) && id in s.tasks && s.tasks[id].status != Skipped
    ensures id.step in g
    ensures GuardValue(w, g, id.step, BuildContext(g, s.tasks, id.step)) == Truthy <==> !GuardRow(s, id.step)
    ensures GuardValue(w, g, id.step, BuildContext(g, s.tasks, id.step)) == EvalError <==> GuardRow(s, id.step)
  {
    hide IsRank, RowsOk, StatusOk, WorkersOk, ContextsOk, BooksOk, ResumersOk, RowsFaithful, WaitsFaithful,
      GuardsHonest,
      GuardRow, BuildContext, IdealContext;
    GuardHeldIff(w, g, rank, s, id);
    RowContextIsIdeal(w, g, rank, s.tasks, id);
    NotFalsy(w, g, rank, s.tasks, id);
  }

  lemma NotFalsy(w: World, g: Graph, rank: map<string, nat>, tasks: Tasks, id: TaskId)
    requires IsRank(g, rank) && RowsFaithful(w, g, rank, tasks) && id in tasks && tasks[id].status != Skipped
    ensures id.step in g && IdealGuard(w, g, rank, id.step) != Falsy
  {
    hide IsRank, IdealGuard;
    assert RowFaithful(w, g, rank, id, tasks[id]);
  }

  /** An executor starts exactly where the guard held in that very context, except
      where it errored and left its row, which takes a RetryRun. */
  lemma StartedWasGuarded(w: World, g: Graph, states: seq<State>, events: seq<Event>, i: nat, id: TaskId)
    requires RunHistory(w, g, states, events) && i < |events| && ConsistentUpTo(w, states, events, i)
    requires Starts(states[i], events[i], id)
    ensures id.step in g
    ensures GuardValue(w, g, id.step, events[i].ctx) == Truthy <==> !GuardRow(states[i], id.step)
    ensures GuardValue(w, g, id.step, events[i].ctx) == EvalError <==> GuardRow(states[i], id.step)
    ensures GuardRow(states[i], id.step) ==> id.attempt >= 2 && RetryRuns(events, i) >= 1
  {
    hide Next, ConsistentUpTo, IsRank, Faithful, BuildContext, Enabled, Apply;
    AlwaysSound(w, g, states, events, i);
    LinkAt(w, g, states, events, i);
    StarterContext(g, states[i], events[i], id);
    GuardRowTells(w, g, states, events, i, id);
    RetryCallsCounted(w, g, states, events, i);
    if GuardRow(states[i], id.step) {
      var rank :| IsRank(g, rank);
      AlwaysFaithful(w, g, rank, states, events, i);
      BypassTakesRetry(w, g, rank, states[i], id);
    }
  }

  lemma BypassTakesRetry(w: World, g: Graph, rank: map<string, nat>, s: State, id: TaskId)
    requires IsRank(g, rank) && Sound(g, s) && Faithful(w, g, rank, s)
    requires id in s.tasks && s.tasks[id].status == Queued && GuardRow(s, id.step)
    ensures id.attempt >= 2 && s.retryCalls >= 1
  {
    hide IsRank, Grounded, StatusOk, WorkersOk, ContextsOk, BooksOk, ResumersOk, RowsFaithful, WaitsFaithful,
      IdealGuard;
    var first := TaskId(id.step, 1);
    assert id == TaskId(id.step, id.attempt);
    assert GuardHonest(w, g, rank, first, s.tasks[first], first in s.invoked, s.retryCalls);
    assert GuardHonest(w, g, rank, id, s.tasks[id], id in s.invoked, s.retryCalls);
  }

  /** What a caller of RetryRun can look at: of the attempts it queues, exactly
      those run past a guard that did not hold whose step shows a guard's row. */
  lemma RetryRespectsGuardIff(w: World, g: Graph, states: seq<State>, events: seq<Event>, i: nat, id: TaskId)
    requires RunHistory(w, g, states, events) && i < |states| && ConsistentUpTo(w, states, events, i)
    requires Enabled(states[i], RetryRun) && id in RedoIds(states[i].tasks)
    ensures id.step in g
    ensures GuardValue(w, g, id.step, BuildContext(g, states[i].tasks, id.step)) == Truthy <==>
            !GuardRow(states[i], id.step)
  {
    hide RunHistory, ConsistentUpTo, RedoIds, GuardRow, BuildContext;
    var prev := RedoFollows(states[i].tasks, id);
    GuardRowTells(w, g, states, events, i, prev);
  }

  lemma RedoFollows(tasks: Tasks, id: TaskId) returns (prev: TaskId)
    requires id in RedoIds(tasks)
    ensures prev in tasks && Dead(tasks[prev].status) && tasks[prev].status != Skipped && id == NextAttempt(prev)
    ensures HasRow(tasks, id.step)
  {
    prev :|
      prev in tasks && IsTop(tasks, prev.step, prev.attempt) && Dead(tasks[prev].status) && id == NextAttempt(prev);
  }

  /** Every attempt RetryRun queues can be started, with the context the step has
      at the call, in four more events. */
  lemma RetryStarts(w: World, g: Graph, states: seq<State>, events: seq<Event>, id: TaskId)
    returns (states': seq<State>, events': seq<Event>)
    requires RunHistory(w, g, states, events) && Enabled(states[|events|], RetryRun)
    requires id in RedoIds(states[|events|].tasks)
    ensures RunHistory(w, g, states', events') && states <= states' && events <= events'
    ensures |events'| == |events| + 4 && events'[|events|] == RetryRun
    ensures Starts(states'[|events| + 3], events'[|events| + 3], id)
    ensures events'[|events| + 3].ctx == BuildContext(g, states[|events|].tasks, id.step)
    ensures forall n :: |events| <= n < |events'| ==> Quiet(events'[n])
  {
    var n := |events|;
    var ctx := BuildContext(g, states[n].tasks, id.step);
    hide RunHistory, Enabled, Apply, RedoIds, BuildContext, START, Quiet;
    AreQuiet(id, ctx);
    HistoryLength(w, g, states, events);
    var longer, more := RetryNext(w, g, states, events, id);
    var s1 := longer[n + 1];
    var s2, s3 := LoadThenPrepare(w, g, s1, id);
    ClaimEnabled(s3, id, ctx);
    var s4 := Apply(w, g, s3, Claim(id, ctx));
    states', events' := ThreeMore(w, g, longer, more, s2, s3, s4, id, ctx);
    PrefixOfPrefix(states, longer, states');
    PrefixOfPrefix(events, more, events');
    assert events'[n] == more[n];
  }

  lemma PrefixOfPrefix<T>(a: seq<T>, b: seq<T>, c: seq<T>)
    requires a <= b <= c
    ensures a <= c
  {
  }

  /** Events that no foreign code takes part in. */
  predicate Quiet(e: Event) {
    e.RetryRun? || e.Load? || e.Prepare? || e.Claim?
  }

  lemma AreQuiet(id: TaskId, ctx: Context)
    ensures Quiet(RetryRun) && Quiet(Load(id)) && Quiet(Prepare(id)) && Quiet(Claim(id, ctx))
  {
  }

  lemma RetryNext(w: World, g: Graph, states: seq<State>, events: seq<Event>, id: TaskId)
    returns (longer: seq<State>, more: seq<Event>)
    requires RunHistory(w, g, states, events) && Enabled(states[|events|], RetryRun)
    requires id in RedoIds(states[|events|].tasks)
    ensures RunHistory(w, g, longer, more) && states <= longer && events <= more
    ensures |more| == |events| + 1 && more[|events|] == RetryRun
    ensures var s1 := longer[|more|];
      && id in s1.tasks && s1.tasks[id].status == Queued && id in s1.executes
      && BuildContext(g, s1.tasks, id.step) == BuildContext(g, states[|events|].tasks, id.step)
  {
    var n := |events|;
    hide RunHistory, Sound, RowsOk, Enabled, Apply, RetryTx, RedoIds, BuildContext, START;
    HistoryLength(w, g, states, events);
    AlwaysSound(w, g, states, events, n);
    SoundRows(g, states[n]);
    var prev := RedoFollows(states[n].tasks, id);
    var s1 := RetryTx(states[n]);
    RetryApplies(w, g, states[n]);
    RetryAccepted(states[n]);
    RetryQueues(g, states[n], id);
    Extended(w, g, states, events, RetryRun, s1);
    longer, more := states + [s1], events + [RetryRun];
    FrozenContext(w, g, longer, more, n, n + 1, id.step);
  }

  lemma ThreeMore(
      w: World, g: Graph, states: seq<State>, events: seq<Event>, s2: State, s3: State, s4: State,
      id: TaskId, ctx: Context)
    returns (states': seq<State>, events': seq<Event>)
    requires RunHistory(w, g, states, events)
    requires Enabled(states[|events|], Load(id)) && s2 == Apply(w, g, states[|events|], Load(id))
    requires Enabled(s2, Prepare(id)) && s3 == Apply(w, g, s2, Prepare(id))
    requires Enabled(s3, Claim(id, ctx)) && s4 == Apply(w, g, s3, Claim(id, ctx))
    ensures RunHistory(w, g, states', events')
    ensures states <= states' && events <= events' && |events'| == |events| + 3
    ensures states'[|events| + 2] == s3 && events'[|events| + 2] == Claim(id, ctx)
    ensures forall n :: |events| <= n < |events'| ==> Quiet(events'[n])
  {
    hide RunHistory, Enabled, Apply, START, Quiet;
    AreQuiet(id, ctx);
    HistoryLength(w, g, states, events);
    Extended(w, g, states, events, Load(id), s2);
    states', events' := states + [s2], events + [Load(id)];
    Extended(w, g, states', events', Prepare(id), s3);
    states', events' := states' + [s3], events' + [Prepare(id)];
    Extended(w, g, states', events', Claim(id, ctx), s4);
    states', events' := states' + [s4], events' + [Claim(id, ctx)];
  }

  lemma QuietIsConsistent(w: World, s: State, e: Event)
    requires Quiet(e)
    ensures Consistent(w, s, e)
  {
  }

  lemma RetryApplies(w: World, g: Graph, s: State)
    requires Enabled(s, RetryRun)
    ensures RetryTx(s) == Apply(w, g, s, RetryRun)
  {
    hide RetryTx;
  }

  lemma RetryQueues(g: Graph, s: State, id: TaskId)
    requires RowsOk(g, s.tasks) && (s.run == RunFailed || s.run == RunCanceled) && id in RedoIds(s.tasks)
    ensures id in RetryTx(s).tasks && RetryTx(s).tasks[id].status == Queued && id in RetryTx(s).executes
  {
    hide RowsOk, RedoIds;
  }

  lemma RetryAccepted(s: State)
    requires Enabled(s, RetryRun)
    ensures s.run == RunFailed || s.run == RunCanceled
  {
  }

  lemma LoadThenPrepare(w: World, g: Graph, s: State, id: TaskId) returns (s2: State, s3: State)
    requires id in s.tasks && s.tasks[id].status == Queued && id in s.executes
    ensures Enabled(s, Load(id)) && s2 == Apply(w, g, s, Load(id))
    ensures Enabled(s2, Prepare(id)) && s3 == Apply(w, g, s2, Prepare(id))
    ensures s3.tasks == s.tasks && Prepared(id, BuildContext(g, s.tasks, id.step)) in s3.prepared
  {
    hide BuildContext;
    s2 := LoadTx(s.(executes := s.executes - multiset{id}), id);
    var p := Prepared(id, BuildContext(g, s.tasks, id.step));
    s3 := s2.(loaded := s2.loaded - multiset{id}, prepared := s2.prepared + multiset{p});
  }

  lemma ClaimEnabled(s: State, id: TaskId, ctx: Context)
    requires Prepared(id, ctx) in s.prepared
    ensures Enabled(s, Claim(id, ctx))
  {
  }

  /** The exception occurs wherever it can: from any state whose rows show a
      guard's error and which accepts a RetryRun, that step can be started. */
  lemma BypassFrom(w: World, g: Graph, states: seq<State>, events: seq<Event>, id: TaskId)
    returns (states': seq<State>, events': seq<Event>)
    requires RunHistory(w, g, states, events) && ConsistentUpTo(w, states, events, |events|)
    requires Enabled(states[|events|], RetryRun) && id in RedoIds(states[|events|].tasks)
    requires GuardRow(states[|events|], id.step)
    ensures RunHistory(w, g, states', events') && |events'| == |events| + 4
    ensures ConsistentUpTo(w, states', events', |events'|)
    ensures Starts(states'[|events| + 3], events'[|events| + 3], id)
    ensures id.step in g && GuardValue(w, g, id.step, events'[|events| + 3].ctx) == EvalError
  {
    hide RunHistory, Enabled, Consistent, GuardRow, RedoIds, BuildContext, Starts;
    HistoryLength(w, g, states, events);
    states', events' := RetryStarts(w, g, states, events, id);
    HistoryLength(w, g, states', events');
    forall n | 0 <= n < |events'|
      ensures Consistent(w, states'[n], events'[n])
    {
      if n < |events| {
        assert states'[n] == states[n] && events'[n] == events[n];
      } else {
        QuietIsConsistent(w, states'[n], events'[n]);
      }
    }
    var prev := RedoFollows(states[|events|].tasks, id);
    GuardRowTells(w, g, states, events, |events|, prev);
  }

  /** In particular where a first step's guard errors. */
  lemma BypassIsReachable(w: World, g: Graph, k: string) returns (states: seq<State>, events: seq<Event>)
    requires Runnable(g) && k in g && g[k].needs == [] && GuardValue(w, g, k, BuildContext(g, map[], k)) == EvalError
    ensures RunHistory(w, g, states, events) && |events| == 6 && ConsistentUpTo(w, states, events, 6)
    ensures Starts(states[5], events[5], TaskId(k, 2)) && GuardValue(w, g, k, events[5].ctx) == EvalError
  {
    hide BuildContext, Runnable, Apply;
    var s1 := GuardFails(w, g, k);
    var s2 := s1.(run := RunFailed, advances := s1.advances - 1);
    FailedRowFails(w, g, s1, TaskId(k, 1));
    StartHistory(w, g);
    assert Enabled(START, Advance) && Enabled(s1, Advance) && Enabled(s2, RetryRun);
    assert Consistent(w, START, Advance) && Consistent(w, s1, Advance);
    hide RunHistory, Enabled, GuardValue, Consistent;
    Extended(w, g, [START], [], Advance, s1);
    Extended(w, g, [START] + [s1], [] + [Advance], Advance, s2);
    states, events := [START] + [s1] + [s2], [] + [Advance] + [Advance];
    assert NextAttempt(TaskId(k, 1)) in RedoIds(s2.tasks);
    states, events := BypassFrom(w, g, states, events, TaskId(k, 2));
  }

  lemma GuardFails(w: World, g: Graph, k: string) returns (s1: State)
    requires Runnable(g) && k in g && g[k].needs == [] && GuardValue(w, g, k, BuildContext(g, map[], k)) == EvalError
    ensures s1 == Apply(w, g, START, Advance) && s1.run == RunRunning && s1.advances > 0
    ensures IsTop(s1.tasks, k, 1) && GuardRow(s1, k)
  {
    hide Runnable, Apply, FirstRows, Ready, BuildContext;
    s1 := FirstPass(w, g, k);
    FirstRowsNew(w, g, map[], TaskId(k, 1));
    assert FirstStatus(w, g, map[], k) == Failed;
    hide FirstStatus;
    forall id | id in FirstRows(w, g, map[])
      ensures id.attempt == 1
    {
      FirstRowsNew(w, g, map[], id);
    }
  }

  lemma FailedRowFails(w: World, g: Graph, s: State, id: TaskId)
    requires s.run == RunRunning && s.advances > 0 && id.step in g
    requires IsTop(s.tasks, id.step, id.attempt) && Dead(s.tasks[TaskId(id.step, id.attempt)].status)
    ensures Enabled(s, Advance) && s.(run := RunFailed, advances := s.advances - 1) == Apply(w, g, s, Advance)
  {
    LatestAt(s.tasks, id.step, id.attempt);
    assert LatestDead(s.tasks, id.step);
    assert AnyDead(g, s.tasks);
    hide AnyDead, AllSettled, FirstRows;
  }
}
