/**
 The advance pass by itself: exactly which steps it resolves, and that passes
 repeated with no other activity soon change nothing.
 */
module Passes {
  import opened Definitions
  import opened RunState
  import opened Ladder
  import opened RunStatusProof
  import opened Wakeups
  import opened Histories

  /** What a pass that leaves the run running does to the row `id` and its jobs. */
  ghost predicate PassResolves(
    g: Graph, tasks: Tasks, jobs: multiset<TaskId>, tasks': Tasks, jobs': multiset<TaskId>, id: TaskId)
  {
    && (id in tasks ==> id in tasks' && tasks'[id] == tasks[id] && jobs'[id] == jobs[id])
    && (id !in tasks ==> (id in tasks' <==> id.attempt == 1 && Ready(g, tasks, id.step)))
    && (id !in tasks && id in tasks' ==> jobs'[id] == jobs[id] + if tasks'[id].status == Queued then 1 else 0)
  }

  lemma RowResolved(w: World, g: Graph, s: State, id: TaskId)
    ensures var s' := SpreadTx(s, FirstRows(w, g, s.tasks));
            PassResolves(g, s.tasks, s.executes, s'.tasks, s'.executes, id)
  {
    hide FirstRows, FirstStatus, GuardResolved, Ready;
    var rows := FirstRows(w, g, s.tasks);
    if id in rows {
      FirstRowsNew(w, g, s.tasks, id);
    } else if id !in s.tasks && id.attempt == 1 && Ready(g, s.tasks, id.step) {
      FirstRowsCover(w, g, s.tasks, id.step);
    }
  }

  lemma PassDecided(w: World, g: Graph, s: State)
    ensures var s' := AdvanceTx(w, g, s);
      && (Terminal(s.run) ==> s' == s)
      && (!Terminal(s.run) ==>
            && (s'.run == RunFailed <==> AnyDead(g, s.tasks))
            && (s'.run == RunSucceeded <==> AllSettled(g, s.tasks))
            && (s'.run == RunRunning || s'.tasks == s.tasks))
      && (!Terminal(s.run) && s'.run == RunRunning ==>
            forall id :: PassResolves(g, s.tasks, s.executes, s'.tasks, s'.executes, id))
  {
    hide FirstRows, PassResolves;
    NotBoth(g, s.tasks);
    hide AnyDead, AllSettled;
    forall id
      ensures var s' := SpreadTx(s, FirstRows(w, g, s.tasks));
              PassResolves(g, s.tasks, s.executes, s'.tasks, s'.executes, id)
    {
      RowResolved(w, g, s, id);
    }
    hide SpreadTx;
    SpreadRuns(s, FirstRows(w, g, s.tasks));
  }

  lemma SpreadRuns(s: State, rows: Tasks)
    ensures SpreadTx(s, rows).run == RunRunning
  {
    hide QueuedIn, GuardResolved;
  }

  lemma NotBoth(g: Graph, tasks: Tasks)
    ensures !(AnyDead(g, tasks) && AllSettled(g, tasks))
  {
  }

  // ----- repeated passes -----

  ghost function Repeat(w: World, g: Graph, s: State, n: nat): State {
    if n == 0 then s else AdvanceTx(w, g, Repeat(w, g, s, n - 1))
  }

  ghost function Missing(g: Graph, tasks: Tasks): set<string> {
    set k | k in g && !HasRow(tasks, k)
  }

  ghost function Unfinished(g: Graph, s: State): nat {
    |Missing(g, s.tasks)| + if Terminal(s.run) then 0 else 1
  }

  lemma FilledIsNotMissing(w: World, g: Graph, t: Tasks)
    requires FirstRows(w, g, t) != map[]
    ensures |Missing(g, t + FirstRows(w, g, t))| < |Missing(g, t)|
  {
    hide FirstRows, FirstStatus;
    var rows := FirstRows(w, g, t);
    var id :| id in rows;
    FirstRowsNew(w, g, t, id);
    assert id.step in Missing(g, t);
    assert id in t + rows;
    forall k | k in g && HasRow(t, k)
      ensures HasRow(t + rows, k)
    {
      var row :| row in t && row.step == k;
      assert row in t + rows;
    }
    FewerElements(Missing(g, t + rows), Missing(g, t));
  }

  lemma EmptyPass(w: World, g: Graph, s: State)
    requires Ranked(g) && RowsOk(g, s.tasks) && StatusOk(g, s) && FirstRows(w, g, s.tasks) == map[]
    requires !Terminal(s.run) && !AnyDead(g, s.tasks) && !AllSettled(g, s.tasks)
    ensures AdvanceTx(w, g, s) == s
  {
    hide AnyDead, AllSettled, FirstRows, RowsOk, Ranked;
    var t := s.tasks;
    if s.run == RunQueued {
      assert !HasLive(t);
      SomeStepReady(g, t);
      var k :| Ready(g, t, k);
      FirstRowsCover(w, g, t, k);
      assert false;
    }
    assert t + map[] == t;
    assert QueuedIn(map[]) == {};
    assert s.executes + multiset(QueuedIn(map[])) == s.executes;
  }

  lemma PassProgress(w: World, g: Graph, s: State)
    requires Ranked(g) && RowsOk(g, s.tasks) && StatusOk(g, s)
    ensures AdvanceTx(w, g, s) == s || Unfinished(g, AdvanceTx(w, g, s)) < Unfinished(g, s)
  {
    hide AnyDead, AllSettled, FirstRows, RowsOk, Ranked, StatusOk, Missing, GuardResolved, QueuedIn;
    if !Terminal(s.run) && !AnyDead(g, s.tasks) && !AllSettled(g, s.tasks) {
      if FirstRows(w, g, s.tasks) == map[] {
        EmptyPass(w, g, s);
      } else {
        FilledIsNotMissing(w, g, s.tasks);
      }
    }
  }

  lemma {:induction false} RepeatKeeps(w: World, g: Graph, s: State, n: nat)
    requires Ranked(g) && RowsOk(g, s.tasks) && StatusOk(g, s)
    ensures RowsOk(g, Repeat(w, g, s, n).tasks) && StatusOk(g, Repeat(w, g, s, n))
    ensures AdvanceTx(w, g, Repeat(w, g, s, n)) == Repeat(w, g, s, n)
            || Unfinished(g, Repeat(w, g, s, n)) + n <= Unfinished(g, s)
    decreases n
  {
    hide Ranked, RowsOk, StatusOk, AdvanceTx, Unfinished, Evolves;
    if n > 0 {
      var prev := Repeat(w, g, s, n - 1);
      RepeatKeeps(w, g, s, n - 1);
      AdvanceEvolves(w, g, prev);
      RowsKept(g, prev.tasks, AdvanceTx(w, g, prev).tasks);
      AdvanceStatus(w, g, prev);
      PassProgress(w, g, prev);
    }
  }

  /** Passes repeated with no other activity reach a fixpoint after at most
      |steps| + 1 of them, from every state of every history. */
  lemma PassesSettle(w: World, g: Graph, states: seq<State>, events: seq<Event>, i: nat, n: nat)
    requires RunHistory(w, g, states, events) && i < |states| && n >= |g.Keys| + 1
    ensures AdvanceTx(w, g, Repeat(w, g, states[i], n)) == Repeat(w, g, states[i], n)
  {
    hide History, AdvanceTx, RowsOk, StatusOk, Ranked, Repeat;
    AlwaysSound(w, g, states, events, i);
    var s := states[i];
    RepeatKeeps(w, g, s, n);
    if AdvanceTx(w, g, Repeat(w, g, s, n)) != Repeat(w, g, s, n) {
      FewerElements(Missing(g, s.tasks), g.Keys);
      PassProgress(w, g, Repeat(w, g, s, n));
    }
  }
}
