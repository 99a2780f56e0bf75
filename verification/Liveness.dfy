/**
 How a run ends: engine steps are bounded in number, and a run at which no
 engine step is left is terminal or waits for an external callback.  A job lost
 before its claim is the one way to be stuck otherwise.
 */
module Liveness {
  import opened Definitions
  import opened RunState
  import opened Ladder
  import opened Suspensions
  import opened Wakeups
  import opened Termination
  import opened Histories

  // ----- bounded work -----

  /** Engine steps among the events of `lo..hi`: everything but redeliveries,
      callbacks and dying resumers. */
  ghost function EngineSteps(events: seq<Event>, lo: nat, hi: nat): nat
    requires lo <= hi <= |events|
    decreases hi
  {
    if lo == hi then 0 else EngineSteps(events, lo, hi - 1) + if External(events[hi - 1]) then 0 else 1
  }

  ghost function Injected(events: seq<Event>, lo: nat, hi: nat): nat
    requires lo <= hi <= |events|
    decreases hi
  {
    if lo == hi then 0 else Injected(events, lo, hi - 1) + Injects(events[hi - 1])
  }

  ghost predicate Enumerates(order: seq<string>, g: Graph) {
    forall k :: k in g <==> k in order
  }

  /** Between RetryRun calls, the engine steps taken are at most the weight at
      the start plus what was injected from outside. */
  lemma {:induction false} BoundedWork(
      w: World, g: Graph, order: seq<string>, states: seq<State>, events: seq<Event>, i: nat, j: nat)
    requires RunHistory(w, g, states, events) && i <= j < |states| && Enumerates(order, g)
    requires forall n :: i <= n < j ==> !events[n].RetryRun?
    ensures EngineSteps(events, i, j) + Weight(g, order, states[j]) <=
            Weight(g, order, states[i]) + Injected(events, i, j)
    decreases j
  {
    hide Apply, Enabled, Next, Runnable, RowsOk, Sound, Weight, Injects, External;
    if i < j {
      BoundedWork(w, g, order, states, events, i, j - 1);
      AlwaysSound(w, g, states, events, j - 1);
      SoundRows(g, states[j - 1]);
      LinkAt(w, g, states, events, j - 1);
      StepLowers(w, g, order, states[j - 1], events[j - 1]);
    }
  }

  /** A run that is left to itself takes at most 240 steps per workflow step, and two more. */
  lemma WholeRunBounded(w: World, g: Graph, order: seq<string>, states: seq<State>, events: seq<Event>)
    requires RunHistory(w, g, states, events) && Enumerates(order, g)
    requires forall n :: 0 <= n < |events| ==> !External(events[n])
    ensures |events| <= 240 * |order| + 2
  {
    hide Next, Weight, Runnable, Injects;
    BoundedWork(w, g, order, states, events, 0, |events|);
    StartWeight(g, order);
    AllEngineSteps(events, |events|);
  }

  lemma {:induction false} AllEngineSteps(events: seq<Event>, hi: nat)
    requires hi <= |events| && forall n :: 0 <= n < hi ==> !External(events[n])
    ensures EngineSteps(events, 0, hi) == hi && Injected(events, 0, hi) == 0
  {
    if hi > 0 {
      AllEngineSteps(events, hi - 1);
      assert !External(events[hi - 1]);
    }
  }

  // ----- where a run comes to rest -----

  /** Steps the engine takes by itself when nothing fails. */
  predicate EngineStep(e: Event) {
    e.Advance? || e.Load? || e.Prepare? || e.Claim? || e.Reap? || e.TimerPickup? || e.Resume?
  }

  ghost predicate AtRest(s: State) {
    forall e :: EngineStep(e) ==> !Enabled(s, e)
  }

  ghost predicate WaitsForCallback(s: State, id: TaskId) {
    && id in s.tasks && s.tasks[id].status == Suspended
    && exists token :: token in s.parked && s.parked[token].task == id && !s.parked[token].timed
  }

  lemma QueuedCanStep(s: State, id: TaskId)
    requires id in s.tasks && s.tasks[id].status == Queued && !Lost(s, id)
    ensures !AtRest(s)
  {
    if id in s.executes {
      assert Enabled(s, Load(id));
    } else if id in s.loaded {
      assert Enabled(s, Prepare(id));
    } else {
      var p :| p in s.prepared && p.id == id;
      assert Enabled(s, Claim(p.id, p.ctx));
    }
  }

  lemma SuspendedCanStep(s: State, id: TaskId)
    requires BooksOk(s) && TimersSet(s) && id in s.tasks && s.tasks[id].status == Suspended
    ensures !AtRest(s) || WaitsForCallback(s, id)
  {
    hide TimersOk, ResumedOnce;
    assert IsParked(s.parked, id);
    var token :| token in s.parked && s.parked[token].task == id;
    assert TimerRuns(s, token);
    if s.parked[token].timed {
      if id in s.resumes {
        assert Enabled(s, TimerPickup(id, token));
      } else {
        var r :| r in s.resuming && r.id == id && r.timer;
        assert Enabled(s, Resume(r.id, r.output, r.timer));
      }
    }
  }

  lemma RestingState(s: State)
    requires NotStranded(s) && BooksOk(s) && AtRest(s)
    ensures Terminal(s.run) || HasLive(s.tasks)
    ensures forall id :: id in s.tasks && Live(s.tasks[id].status) ==> WaitsForCallback(s, id) || Lost(s, id)
  {
    hide BooksOk, TimersSet;
    assert !Enabled(s, Advance);
    forall id | id in s.tasks && Live(s.tasks[id].status)
      ensures WaitsForCallback(s, id) || Lost(s, id)
    {
      assert !Enabled(s, Reap(id));
      hide AtRest, WaitsForCallback, Enabled, Lost;
      if s.tasks[id].status == Queued {
        if !Lost(s, id) {
          QueuedCanStep(s, id);
        }
      } else {
        SuspendedCanStep(s, id);
      }
    }
  }

  /** A run at rest is over or has live tasks, and every live task waits for a
      callback or was lost before its claim and not brought back. */
  lemma RestingRun(w: World, g: Graph, states: seq<State>, events: seq<Event>, i: nat)
    requires RunHistory(w, g, states, events) && i < |states| && AtRest(states[i])
    ensures Terminal(states[i].run) || HasLive(states[i].tasks)
    ensures forall id :: id in states[i].tasks && Live(states[i].tasks[id].status) ==>
              WaitsForCallback(states[i], id) || LostBefore(states, events, i, id)
  {
    hide RunHistory, NotStranded, AtRest, WaitsForCallback, LostBefore, Lost, Sound, BooksOk;
    HistoryLength(w, g, states, events);
    NeverStranded(w, g, states, events, i);
    AlwaysSound(w, g, states, events, i);
    SoundBooks(g, states[i]);
    RestingState(states[i]);
    forall id | id in states[i].tasks && Live(states[i].tasks[id].status)
      ensures WaitsForCallback(states[i], id) || LostBefore(states, events, i, id)
    {
      LostIff(w, g, states, events, i, id);
    }
  }

  /** From every state of every history, engine steps alone lead to rest. */
  lemma {:induction false} CanComeToRest(w: World, g: Graph, order: seq<string>, states: seq<State>, events: seq<Event>)
    returns (states': seq<State>, events': seq<Event>)
    requires RunHistory(w, g, states, events) && Enumerates(order, g)
    ensures RunHistory(w, g, states', events') && states <= states' && events <= events'
    ensures forall n :: |events| <= n < |events'| ==> EngineStep(events'[n])
    ensures AtRest(states'[|events'|])
    decreases Weight(g, order, states[|events|])
  {
    hide RunHistory, Apply, Enabled, Weight, AtRest, EngineStep;
    HistoryLength(w, g, states, events);
    if AtRest(states[|events|]) {
      return states, events;
    }
    var e := SomeStep(states[|events|]);
    EngineStepLowers(w, g, order, states, events, e);
    Extended(w, g, states, events, e, Apply(w, g, states[|events|], e));
    var longer := states + [Apply(w, g, states[|events|], e)];
    assert longer[|events + [e]|] == Apply(w, g, states[|events|], e);
    states', events' := CanComeToRest(w, g, order, longer, events + [e]);
    assert events'[|events|] == e;
  }

  lemma SomeStep(s: State) returns (e: Event)
    requires !AtRest(s)
    ensures EngineStep(e) && Enabled(s, e)
  {
    hide EngineStep, Enabled;
    e :| EngineStep(e) && Enabled(s, e);
  }

  lemma EngineStepLowers(w: World, g: Graph, order: seq<string>, states: seq<State>, events: seq<Event>, e: Event)
    requires RunHistory(w, g, states, events) && Enumerates(order, g)
    requires EngineStep(e) && Enabled(states[|events|], e)
    ensures Weight(g, order, Apply(w, g, states[|events|], e)) < Weight(g, order, states[|events|])
  {
    hide Next, Apply, Enabled, Runnable, RowsOk, Sound, Weight;
    AlwaysSound(w, g, states, events, |events|);
    SoundRows(g, states[|events|]);
    StepLowers(w, g, order, states[|events|], e);
  }

  // ----- a job lost before its claim -----

  /** Every workflow with an unguarded first step has such a history of three events. */
  lemma LossIsReachable(w: World, g: Graph, k: string) returns (states: seq<State>, events: seq<Event>)
    requires Runnable(g) && k in g && g[k].needs == [] && g[k].cond == ""
    ensures RunHistory(w, g, states, events) && |events| == 3
    ensures Lost(states[3], TaskId(k, 1)) && !Terminal(states[3].run)
  {
    hide Runnable, Next, Lost;
    var id := TaskId(k, 1);
    var s1 := FirstAdvance(w, g, k);
    var s2, s3 := LoadThenLose(w, g, s1, id);
    ThreeEvents(w, g, s1, s2, s3, Advance, Load(id), LoadedLost(id));
    states, events := [START, s1, s2, s3], [Advance, Load(id), LoadedLost(id)];
  }

  lemma ThreeEvents(w: World, g: Graph, s1: State, s2: State, s3: State, e1: Event, e2: Event, e3: Event)
    requires Runnable(g) && Next(w, g, START, e1, s1) && Next(w, g, s1, e2, s2) && Next(w, g, s2, e3, s3)
    ensures RunHistory(w, g, [START, s1, s2, s3], [e1, e2, e3])
  {
    hide Runnable, Next;
  }

  lemma LoadThenLose(w: World, g: Graph, s: State, id: TaskId) returns (s2: State, s3: State)
    requires id in s.tasks && s.tasks[id].status == Queued
    requires s.executes[id] == 1 && id !in s.loaded && s.prepared == multiset{}
    ensures Next(w, g, s, Load(id), s2) && Next(w, g, s2, LoadedLost(id), s3)
    ensures s3.run == s.run && Lost(s3, id)
  {
    s2 := LoadTx(s.(executes := s.executes - multiset{id}), id);
    s3 := s2.(loaded := s2.loaded - multiset{id});
  }

  lemma FirstAdvance(w: World, g: Graph, k: string) returns (s1: State)
    requires Runnable(g) && k in g && g[k].needs == [] && g[k].cond == ""
    ensures Next(w, g, START, Advance, s1)
    ensures s1.run == RunRunning && s1.loaded == multiset{} && s1.prepared == multiset{}
    ensures TaskId(k, 1) in s1.tasks && s1.tasks[TaskId(k, 1)].status == Queued && s1.executes[TaskId(k, 1)] == 1
  {
    hide Runnable, Next, FirstRows, FirstStatus, Ready, GuardResolved;
    s1 := FirstPass(w, g, k);
    FirstRowsNew(w, g, map[], TaskId(k, 1));
    UnguardedIsQueued(w, g, map[], k);
    assert TaskId(k, 1) in QueuedIn(FirstRows(w, g, map[]));
  }

  /** The first advance of a workflow with a step that needs nothing. */
  lemma FirstPass(w: World, g: Graph, k: string) returns (s1: State)
    requires k in g && g[k].needs == []
    ensures var rows := FirstRows(w, g, map[]);
      && s1 == START.(run := RunRunning, tasks := rows, executes := multiset(QueuedIn(rows)),
                      advances := if GuardResolved(rows) then 1 else 0)
      && TaskId(k, 1) in rows
    ensures Next(w, g, START, Advance, s1)
  {
    var rows := FirstRows(w, g, map[]);
    NothingYet(w, g, k);
    hide AnyDead, AllSettled, FirstRows, GuardResolved, QueuedIn, Ready;
    s1 := START.(run := RunRunning, tasks := rows, executes := multiset(QueuedIn(rows)),
                 advances := if GuardResolved(rows) then 1 else 0);
    AdvanceFromEmpty(w, g, START.(advances := 0), rows);
    assert START.executes + multiset(QueuedIn(rows)) == multiset(QueuedIn(rows));
    hide AdvanceTx;
  }

  lemma AdvanceFromEmpty(w: World, g: Graph, s: State, rows: Tasks)
    requires !Terminal(s.run) && s.tasks == map[] && !AnyDead(g, map[]) && !AllSettled(g, map[])
    requires rows == FirstRows(w, g, map[])
    ensures AdvanceTx(w, g, s) ==
            s.(run := RunRunning, tasks := rows, executes := s.executes + multiset(QueuedIn(rows)),
               advances := s.advances + if GuardResolved(rows) then 1 else 0)
  {
    hide AnyDead, AllSettled, FirstRows, GuardResolved, QueuedIn;
    assert s.tasks + rows == rows;
  }

  lemma NothingYet(w: World, g: Graph, k: string)
    requires k in g && g[k].needs == []
    ensures !AnyDead(g, map[]) && !AllSettled(g, map[])
    ensures TaskId(k, 1) in FirstRows(w, g, map[])
  {
    var t: Tasks := map[];
    assert forall j :: !HasRow(t, j);
    assert !LatestSettled(t, k);
    assert Ready(g, t, k);
    FirstRowsCover(w, g, t, k);
  }

  lemma UnguardedIsQueued(w: World, g: Graph, t: Tasks, k: string)
    requires k in g && g[k].cond == ""
    ensures FirstStatus(w, g, t, k) == Queued
  {
  }
}
