/**
 The engine's transactions as the source performs them: guarded updates and job
 inserts on mutable tables, with loops over rows and steps.  Every method is
 proved to do exactly what the event of the same name does to the abstract
 state, so everything proved about histories holds for runs of this code.
 */
module RunStore {
  import opened Definitions
  import opened RunState
  import opened Ladder
  import opened Wakeups
  import opened Histories
  import opened Passes
  import opened Queries

  // ----- the tables of one run -----

  datatype ResumeError = SuspensionNotFound | NotWaiting
  datatype Resumed = Done | Refused(error: ResumeError)

  class Store {
    const definition: Definition
    const world: World
    // the tables and the job queue
    var run: RunStatus
    var tasks: Tasks
    var parked: map<string, Suspension>
    var advances: nat
    var executes: multiset<TaskId>
    var resumes: multiset<TaskId>
    var backoffs: map<TaskId, nat>
    /** The history so far: every state and every event of this run. */
    ghost var states: seq<State>
    ghost var events: seq<Event>

    ghost function Steps(): Graph {
      GraphOf(definition)
    }

    /** The state the history has reached. */
    ghost function Now(): State
      requires |states| > 0
      reads this`states
    {
      states[|states| - 1]
    }

    /** The tables are those of the abstract state `s`. */
    ghost predicate Holds(s: State)
      reads this
    {
      && run == s.run && tasks == s.tasks && parked == s.parked
      && advances == s.advances && executes == s.executes && resumes == s.resumes
      && backoffs == s.backoffs
    }

    /** What the code has done to the tables is a history of the model. */
    ghost predicate Valid()
      reads this
    {
      UniqueKeys(definition) && RunHistory(world, Steps(), states, events) && |states| > 0 && Holds(Now())
    }

    /** One event was taken, and nothing else. */
    ghost predicate Took(before: seq<State>, past: seq<Event>, e: Event)
      reads this
    {
      && |before| > 0 && Enabled(before[|before| - 1], e)
      && states == before + [Apply(world, Steps(), before[|before| - 1], e)]
      && events == past + [e]
    }

    constructor (d: Definition, w: World)
      requires UniqueKeys(d) && Runnable(GraphOf(d))
      ensures definition == d && world == w && Valid() && states == [START] && events == []
    {
      definition, world := d, w;
      run, tasks, parked, advances := RunQueued, map[], map[], 1;
      executes, resumes, backoffs := multiset{}, multiset{}, map[];
      states, events := [START], [];
      new;
      StartHistory(w, GraphOf(d));
    }

    ghost method Record(e: Event)
      requires UniqueKeys(definition) && RunHistory(world, Steps(), states, events) && |states| > 0
      requires Enabled(Now(), e) && Holds(Apply(world, Steps(), Now(), e))
      modifies this`states, this`events
      ensures Valid() && Took(old(states), old(events), e)
    {
      hide RunHistory, UniqueKeys, Apply, Enabled, START;
      HistoryLength(world, Steps(), states, events);
      var next := Apply(world, Steps(), Now(), e);
      Extended(world, Steps(), states, events, e, next);
      states, events := states + [next], events + [e];
    }

    // ----- advance_run -----

    /** How a ready step's first row starts out. */
    method EvalGuard(g: Graph, step: Step, rows: Tasks) returns (status: TaskStatus)
      requires step.key in g && g[step.key] == step
      ensures status == FirstStatus(world, g, rows, step.key)
    {
      if step.cond == "" {
        return Queued;
      }
      var ctx := BuildRunContext(g, rows, step.key);
      match world.eval("!!(" + step.cond + ")", ctx)
      case Truthy => return Queued;
      case Falsy => return Skipped;
      case EvalError => return Failed;
    }

    /** The insert loop: a row for every ready step, a job for every queued row. */
    method InsertReady(ready: seq<string>, ghost rows: Tasks) returns (guardResolved: bool)
      requires RowsFor(world, Steps(), tasks, ready, rows)
      modifies this`tasks, this`executes
      ensures tasks == old(tasks) + rows
      ensures executes == old(executes) + multiset(QueuedIn(rows))
      ensures guardResolved <==> GuardResolved(rows)
    {
      var g := GraphOf(definition);
      var before := tasks;
      hide FirstStatus, GraphOf, QueuedIn, GuardResolved, RowsFor, Prefix;
      guardResolved := false;
      PrefixEnds(world, g, before, ready, rows);
      for i := 0 to |ready|
        invariant tasks == before + Prefix(rows, ready, i)
        invariant executes == old(executes) + multiset(QueuedIn(Prefix(rows, ready, i)))
        invariant guardResolved <==> GuardResolved(Prefix(rows, ready, i))
      {
        var key := ready[i];
        var id := TaskId(key, 1);
        PrefixStep(world, g, before, ready, rows, i);
        var status := EvalGuard(g, g[key], before);
        OneMoreRow(before, old(executes), Prefix(rows, ready, i), id, Row(status, None));
        if id !in tasks { // on conflict do nothing
          tasks := tasks[id := Row(status, None)];
          if status == Queued {
            executes := executes + multiset{id};
          } else {
            guardResolved := true;
          }
        }
      }
    }

    /** The third branch of a pass: neither failed nor complete. */
    method Dispatch(ghost s: State, ready: seq<string>)
      requires Holds(s) && !Terminal(run) && RowsFor(world, Steps(), tasks, ready, FirstRows(world, Steps(), tasks))
      modifies this`run, this`tasks, this`executes, this`advances
      ensures Holds(SpreadTx(s, FirstRows(world, Steps(), s.tasks)))
    {
      ghost var rows := FirstRows(world, Steps(), tasks);
      hide FirstRows, GraphOf, RowsFor, QueuedIn, GuardResolved;
      var guardResolved := InsertReady(ready, rows);
      if guardResolved {
        advances := advances + 1;
      }
      if run == RunQueued {
        run := RunRunning;
      }
    }

    method AdvancePass(ghost s: State)
      requires Holds(s) && UniqueKeys(definition)
      modifies this`run, this`tasks, this`executes, this`advances
      ensures Holds(AdvanceTx(world, Steps(), s))
    {
      hide AnyDead, AllSettled, FirstRows, Ready, RowsFor, SpreadTx, UniqueKeys;
      if run == RunSucceeded || run == RunFailed || run == RunCanceled {
        return;
      }
      var anyFailed, allSucceeded, ready := Survey(definition, tasks);
      if anyFailed {
        run := RunFailed;
      } else if allSucceeded {
        run := RunSucceeded;
      } else {
        ReadyRows(world, Steps(), tasks, ready);
        Dispatch(s, ready);
      }
    }

    /** A pass over a run that is not over fails it iff some latest attempt is
        dead, completes it iff all are settled, and otherwise adds a first row
        exactly for the missing steps whose needs have all settled, with one job
        for every row it leaves queued, and changes no other row. */
    method Advance()
      requires Valid() && advances > 0
      modifies this
      ensures Valid() && Took(old(states), old(events), Event.Advance)
      ensures Terminal(old(run)) ==> run == old(run) && tasks == old(tasks)
      ensures !Terminal(old(run)) ==>
                && (run == RunFailed <==> AnyDead(Steps(), old(tasks)))
                && (run == RunSucceeded <==> AllSettled(Steps(), old(tasks)))
                && (run == RunRunning || tasks == old(tasks))
      ensures !Terminal(old(run)) && run == RunRunning ==>
                forall id :: PassResolves(Steps(), old(tasks), old(executes), tasks, executes, id)
    {
      hide RunHistory, UniqueKeys, START, AdvanceTx, AnyDead, AllSettled, PassResolves, ApplyStarting, ApplyEnding,
        ApplyParking, ApplyFault;
      PassDecided(world, Steps(), Now().(advances := Now().advances - 1));
      advances := advances - 1;
      AdvancePass(Now().(advances := Now().advances - 1));
      Record(Event.Advance);
    }

    // ----- execute_task -----

    /** Job pickup: only a queued task goes on. */
    method Load(id: TaskId) returns (go: bool)
      requires Valid() && id in executes
      modifies this
      ensures go <==> id in old(tasks) && old(tasks)[id].status == Queued
      ensures Valid() && Took(old(states), old(events), Event.Load(id))
    {
      hide RunHistory, UniqueKeys, START, ApplyControl, ApplyEnding, ApplyParking, ApplyFault;
      executes := executes - multiset{id};
      go := id in tasks && tasks[id].status == Queued;
      Record(Event.Load(id));
    }

    method Prepare(id: TaskId) returns (ctx: Context)
      requires Valid() && id in Now().loaded
      modifies this`states, this`events
      ensures Valid() && Took(old(states), old(events), Event.Prepare(id))
      ensures ctx == BuildContext(Steps(), tasks, id.step) && Prepared(id, ctx) in Now().prepared
    {
      hide RunHistory, UniqueKeys, START, BuildContext, ApplyControl, ApplyEnding, ApplyParking, ApplyFault;
      ctx := BuildRunContext(GraphOf(definition), tasks, id.step);
      Record(Event.Prepare(id));
    }

    /** The guarded claim; the caller invokes the executor only if it won. */
    method Claim(id: TaskId, ctx: Context) returns (won: bool)
      requires Valid() && Prepared(id, ctx) in Now().prepared
      modifies this`tasks, this`states, this`events
      ensures won <==> id in old(tasks) && old(tasks)[id].status == Queued
      ensures Valid() && Took(old(states), old(events), Event.Claim(id, ctx))
    {
      hide RunHistory, UniqueKeys, START, ApplyControl, ApplyEnding, ApplyParking, ApplyFault;
      won := id in tasks && tasks[id].status == Queued;
      if won {
        tasks := tasks[id := tasks[id].(status := Running)];
      }
      Record(Event.Claim(id, ctx));
    }

    /** The common end of finishTask and reapTask, behind their guards. */
    method EndTask(ghost s: State, id: TaskId, row: Row, retries: int)
      requires Holds(s)
      modifies this`tasks, this`executes, this`backoffs, this`advances
      ensures Holds(EndTx(s, id, row, retries))
    {
      if row.status == Failed && id.attempt <= retries {
        var next := TaskId(id.step, id.attempt + 1);
        if next in tasks { // unique violation: the transaction rolls back
          return;
        }
        tasks := tasks[id := row][next := Row(Queued, None)];
        executes := executes + multiset{next};
        backoffs := backoffs[next := Pow2(id.attempt)];
      } else {
        tasks := tasks[id := row];
      }
      advances := advances + 1;
    }

    method FinishTask(ghost s: State, id: TaskId, status: TaskStatus, output: string, retries: int)
      requires Holds(s)
      modifies this`tasks, this`executes, this`backoffs, this`advances
      ensures Holds(FinishTx(s, id, status, output, retries))
    {
      hide EndTx;
      if id in tasks && (tasks[id].status == Queued || tasks[id].status == Running) {
        EndTask(s, id, Row(status, Some(output)), retries);
      }
    }

    method StepRetries(k: string) returns (retries: int)
      ensures retries == Retries(Steps(), k)
    {
      var step := FindStep(definition, k);
      retries := if step.Some? then step.value.retries else 0;
    }

    /** A failure before the claim; the retry setting is unknown until the step is found. */
    method FailLoaded(id: TaskId, knowsRetries: bool)
      requires Valid() && id in Now().loaded
      modifies this
      ensures Valid() && Took(old(states), old(events), Event.FailLoaded(id, knowsRetries))
    {
      hide RunHistory, UniqueKeys, START, FinishTx, ApplyControl, ApplyStarting, ApplyParking, ApplyFault;
      var retries := 0;
      if knowsRetries {
        retries := StepRetries(id.step);
      }
      FinishTask(Now().(loaded := Now().loaded - multiset{id}), id, Failed, NO_OUTPUT, retries);
      Record(Event.FailLoaded(id, knowsRetries));
    }

    method FailPrepared(id: TaskId, ctx: Context)
      requires Valid() && Prepared(id, ctx) in Now().prepared
      modifies this
      ensures Valid() && Took(old(states), old(events), Event.FailPrepared(id, ctx))
    {
      hide RunHistory, UniqueKeys, START, FinishTx, ApplyControl, ApplyStarting, ApplyParking, ApplyFault;
      var retries := StepRetries(id.step);
      FinishTask(Now().(prepared := Now().prepared - multiset{Prepared(id, ctx)}), id, Failed, NO_OUTPUT, retries);
      Record(Event.FailPrepared(id, ctx));
    }

    method Finish(id: TaskId, ctx: Context, ok: bool, output: string)
      requires Valid() && Prepared(id, ctx) in Now().executing
      modifies this
      ensures Valid() && Took(old(states), old(events), Event.Finish(id, ctx, ok, output))
    {
      hide RunHistory, UniqueKeys, START, FinishTx, ApplyControl, ApplyStarting, ApplyParking, ApplyFault;
      var retries := StepRetries(id.step);
      FinishTask(Now().(executing := Now().executing - multiset{Prepared(id, ctx)}), id,
                 if ok then Succeeded else Failed, output, retries);
      Record(Event.Finish(id, ctx, ok, output));
    }

    /** A canceled task drops everything; a taken token rolls the transaction back. */
    method SuspendTask(ghost s: State, id: TaskId, token: string, timed: bool, output: string)
      requires Holds(s)
      modifies this`tasks, this`parked, this`resumes
      ensures Holds(SuspendTx(s, id, token, timed, output))
    {
      if id in tasks && tasks[id].status == Running && token !in parked {
        tasks := tasks[id := Row(Suspended, Some(output))];
        parked := parked[token := Suspension(id, timed, output)];
        if timed {
          resumes := resumes + multiset{id};
        }
      }
    }

    method Suspend(id: TaskId, ctx: Context, token: string, timed: bool, output: string)
      requires Valid() && Prepared(id, ctx) in Now().executing
      modifies this`tasks, this`parked, this`resumes, this`states, this`events
      ensures Valid() && Took(old(states), old(events), Event.Suspend(id, ctx, token, timed, output))
    {
      hide RunHistory, UniqueKeys, START, SuspendTx, ResumeTx, ApplyControl, ApplyStarting, ApplyEnding, ApplyFault;
      SuspendTask(Now().(executing := Now().executing - multiset{Prepared(id, ctx)}), id, token, timed, output);
      Record(Event.Suspend(id, ctx, token, timed, output));
    }

    // ----- resume -----

    /** The suspension row of a task, if any. */
    method FindSuspension(id: TaskId) returns (found: Option<string>)
      requires Valid()
      ensures found.None? <==> !IsParked(Now().parked, id)
      ensures found.Some? ==> found.value in parked && parked[found.value].task == id
    {
      var todo := parked.Keys;
      while todo != {}
        invariant todo <= parked.Keys
        invariant forall t :: t in parked && t !in todo ==> parked[t].task != id
        decreases |todo|
      {
        var t :| t in todo;
        if parked[t].task == id {
          return Some(t);
        }
        todo := todo - {t};
      }
      return None;
    }

    /** The timer's lookup: the stored payload, or nothing left to do. */
    method TimerLookup(id: TaskId) returns (token: Option<string>)
      requires Valid() && id in resumes
      modifies this`resumes, this`states, this`events
      ensures Valid()
      ensures token.None? ==> Took(old(states), old(events), TimerStale(id))
      ensures token.Some? ==> Took(old(states), old(events), TimerPickup(id, token.value))
    {
      hide RunHistory, UniqueKeys, START, SuspendTx, ResumeTx, ApplyControl, ApplyStarting, ApplyEnding, ApplyFault;
      token := FindSuspension(id);
      resumes := resumes - multiset{id};
      if token.Some? {
        Record(TimerPickup(id, token.value));
      } else {
        Record(TimerStale(id));
      }
    }

    method ResumeSuspended(ghost s: State, id: TaskId, output: string) returns (ok: bool)
      requires Holds(s)
      modifies this`tasks, this`parked, this`advances
      ensures ok <==> id in s.tasks && s.tasks[id].status == Suspended
      ensures Holds(ResumeTx(s, id, output))
    {
      if id !in tasks {
        return false;
      }
      ok := tasks[id].status == Suspended;
      if ok {
        tasks := tasks[id := Row(Succeeded, Some(output))];
      }
      parked := Unpark(parked, id);
      if ok {
        advances := advances + 1;
      }
    }

    method Resume(id: TaskId, output: string, timer: bool) returns (ok: bool)
      requires Valid() && Resuming(id, output, timer) in Now().resuming
      modifies this
      ensures ok <==> id in old(tasks) && old(tasks)[id].status == Suspended
      ensures Valid() && Took(old(states), old(events), Event.Resume(id, output, timer))
    {
      hide RunHistory, UniqueKeys, START, ResumeTx, SuspendTx, ApplyControl, ApplyStarting, ApplyEnding, ApplyFault;
      ok := ResumeSuspended(Now().(resuming := Now().resuming - multiset{Resuming(id, output, timer)}), id, output);
      Record(Event.Resume(id, output, timer));
    }

    /** The callback endpoint, undisturbed between its lookup and its transaction. */
    method ResumeSuspendedTask(token: string, output: string) returns (r: Resumed)
      requires Valid()
      modifies this
      ensures Valid()
      ensures token !in old(parked) ==>
              r == Refused(SuspensionNotFound) && states == old(states) && events == old(events)
      ensures token in old(parked) ==>
                var id := old(parked)[token].task;
                && r == (if id in old(tasks) && old(tasks)[id].status == Suspended then Done else Refused(NotWaiting))
                && events == old(events) + [CallbackPickup(token, output), Event.Resume(id, output, false)]
                && Now() == ResumeTx(old(Now()), id, output)
    {
      hide RunHistory, UniqueKeys, START, ResumeTx, SuspendTx, ApplyControl, ApplyStarting, ApplyEnding, ApplyFault;
      if token !in parked {
        return Refused(SuspensionNotFound);
      }
      var id := parked[token].task;
      CallbackIsTwoEvents(world, Steps(), Now(), token, output);
      Record(CallbackPickup(token, output));
      var ok := Resume(id, output, false);
      return if ok then Done else Refused(NotWaiting);
    }

    // ----- the reaper -----

    method ReapTask(id: TaskId)
      requires Valid()
      modifies this
      ensures Valid()
      ensures id in old(tasks) && old(tasks)[id].status == Running ==> Took(old(states), old(events), Reap(id))
      ensures !(id in old(tasks) && old(tasks)[id].status == Running) ==> states == old(states) && events == old(events)
    {
      hide RunHistory, UniqueKeys, START, EndTx, ApplyControl, ApplyStarting, ApplyParking, ApplyFault;
      var retries := StepRetries(id.step);
      if id in tasks && tasks[id].status == Running {
        EndTask(Now(), id, tasks[id].(status := Failed), retries);
        Record(Reap(id));
      }
    }

    /** One sweep: collect the overdue running rows, then reap each. */
    method ReapOrphans(overdue: set<TaskId>) returns (orphans: seq<TaskId>)
      requires Valid()
      modifies this
      ensures Valid() && Now() == ReapAll(Steps(), old(Now()), orphans)
      ensures forall id :: id in orphans <==> id in overdue && id in old(tasks) && old(tasks)[id].status == Running
      ensures old(events) <= events
      ensures forall n :: |old(events)| <= n < |events| ==> events[n].Reap? && events[n].id in orphans
    {
      hide RunHistory, UniqueKeys, START, ReapTx, GraphOf, Apply, Enabled;
      orphans := [];
      var todo := overdue;
      while todo != {}
        invariant todo <= overdue
        invariant forall id :: id in orphans <==> id in overdue - todo && id in tasks && tasks[id].status == Running
        decreases |todo|
      {
        var id :| id in todo;
        todo := todo - {id};
        if id in tasks && tasks[id].status == Running {
          orphans := orphans + [id];
        }
      }
      for i := 0 to |orphans|
        invariant Valid() && Now() == ReapAll(Steps(), old(Now()), orphans[..i])
        invariant old(events) <= events
        invariant forall n :: |old(events)| <= n < |events| ==> events[n].Reap? && events[n].id in orphans
      {
        assert orphans[..i + 1][..i] == orphans[..i];
        ReapIsReapTx(world, Steps(), Now(), orphans[i]);
        ReapTask(orphans[i]);
      }
      assert orphans[..|orphans|] == orphans;
    }

    // ----- cancel and retry -----

    method CancelRun() returns (ok: bool)
      requires Valid()
      modifies this
      ensures Valid() && (ok <==> !Terminal(old(run)))
      ensures ok ==> Took(old(states), old(events), Event.CancelRun)
      ensures !ok ==> states == old(states) && events == old(events)
    {
      hide RunHistory, UniqueKeys, START, ApplyStarting, ApplyEnding, ApplyParking, ApplyFault;
      if run == RunSucceeded || run == RunFailed || run == RunCanceled {
        return false;
      }
      run := RunCanceled;
      tasks := map id | id in tasks :: CanceledRow(tasks[id]);
      Record(Event.CancelRun);
      return true;
    }

    method InsertRedos(redos: seq<TaskId>)
      requires forall i, j :: 0 <= i < j < |redos| ==> redos[i] != redos[j]
      modifies this`tasks, this`executes
      ensures tasks == old(tasks) + Requeued(RequeuedIds(redos, |redos|))
      ensures executes == old(executes) + multiset(RequeuedIds(redos, |redos|))
    {
      hide Requeued, RequeuedIds;
      RequeuedNone(redos);
      for i := 0 to |redos|
        invariant tasks == old(tasks) + Requeued(RequeuedIds(redos, i))
        invariant executes == old(executes) + multiset(RequeuedIds(redos, i))
      {
        var next := NextAttempt(redos[i]);
        RequeuedOneMore(redos, i);
        OneMoreRequeued(old(tasks), old(executes), RequeuedIds(redos, i), next);
        tasks := tasks[next := Row(Queued, None)];
        executes := executes + multiset{next};
      }
    }

    method Requeue(ghost s: State, redos: seq<TaskId>)
      requires Holds(s) && forall i, j :: 0 <= i < j < |redos| ==> redos[i] != redos[j]
      modifies this`run, this`tasks, this`executes, this`advances
      ensures Holds(RequeueTx(s, RequeuedIds(redos, |redos|)))
    {
      hide Requeued, RequeuedIds;
      run := RunRunning;
      InsertRedos(redos);
      advances := advances + 1;
    }

    method RetryRun() returns (ok: bool)
      requires Valid()
      modifies this
      ensures Valid() && (ok <==> old(run) == RunFailed || old(run) == RunCanceled)
      ensures ok ==> Took(old(states), old(events), Event.RetryRun)
      ensures !ok ==> states == old(states) && events == old(events)
    {
      hide RunHistory, UniqueKeys, START, RequeuedIds, RetryTx, RequeueTx, ApplyStarting, ApplyEnding, ApplyParking,
        ApplyFault;
      if run != RunFailed && run != RunCanceled {
        return false;
      }
      var redos := CollectRedos(tasks);
      RetryRequeues(Now(), redos);
      Requeue(Now(), redos);
      Record(Event.RetryRun);
      return true;
    }

    // ----- what the code does not control -----

    /** Workers and resumers die, and jobs are delivered again. */
    method Disturb(e: Event)
      requires Valid() && Fault(e) && Enabled(Now(), e)
      modifies this
      ensures Valid() && Took(old(states), old(events), e)
    {
      hide RunHistory, UniqueKeys, START, Enabled, ApplyControl, ApplyStarting, ApplyEnding, ApplyParking, ApplyFault;
      FaultTables(Now(), e);
      if e.ReplayAdvance? {
        advances := advances + 1;
      } else if e.ReplayExecute? {
        executes := executes + multiset{e.id};
      } else if e.ReplayResume? || (e.ResumerDies? && e.timer) {
        resumes := resumes + multiset{e.id};
      }
      Record(e);
    }
  }

  /** Which tables a fault or a redelivery touches. */
  lemma FaultTables(s: State, e: Event)
    requires Fault(e)
    ensures var s' := ApplyFault(s, e);
      && s'.run == s.run && s'.tasks == s.tasks && s'.parked == s.parked && s'.backoffs == s.backoffs
      && s'.advances == (if e.ReplayAdvance? then s.advances + 1 else s.advances)
      && s'.executes == (if e.ReplayExecute? then s.executes + multiset{e.id} else s.executes)
      && s'.resumes ==
         (if e.ReplayResume? || (e.ResumerDies? && e.timer) then s.resumes + multiset{e.id} else s.resumes)
  {
    match e
    case WorkerDies(_, _) =>
    case ResumerDies(_, _, _) =>
    case LoadedLost(_) =>
    case PreparedLost(_, _) =>
    case ReplayAdvance =>
    case ReplayExecute(_) =>
    case ReplayResume(_) =>
  }

  /** The reaper's transactions, one after the other. */
  function ReapAll(g: Graph, s: State, orphans: seq<TaskId>): State {
    if orphans == [] then s
    else
      var last := |orphans| - 1;
      ReapTx(ReapAll(g, s, orphans[..last]), orphans[last], Retries(g, orphans[last].step))
  }

  lemma ReapIsReapTx(w: World, g: Graph, s: State, id: TaskId)
    ensures Enabled(s, Reap(id)) <==> id in s.tasks && s.tasks[id].status == Running
    ensures Enabled(s, Reap(id)) ==> Apply(w, g, s, Reap(id)) == ReapTx(s, id, Retries(g, id.step))
    ensures !Enabled(s, Reap(id)) ==> ReapTx(s, id, Retries(g, id.step)) == s
  {
    hide EndTx;
  }

  /** A sweep fails every row it collected and touches no other row. */
  lemma {:induction false} SweepFails(g: Graph, s: State, orphans: seq<TaskId>, id: TaskId)
    requires RowsOk(g, s.tasks) && id in s.tasks && s.tasks[id].status == Running
    ensures RowsOk(g, ReapAll(g, s, orphans).tasks)
    ensures id in ReapAll(g, s, orphans).tasks
    ensures ReapAll(g, s, orphans).tasks[id] == if id in orphans then s.tasks[id].(status := Failed) else s.tasks[id]
  {
    hide RowsOk, Retries;
    if orphans != [] {
      var last := |orphans| - 1;
      var prev := ReapAll(g, s, orphans[..last]);
      SweepFails(g, s, orphans[..last], id);
      assert orphans == orphans[..last] + [orphans[last]];
      ReapOne(g, prev, orphans[last], id);
    }
  }

  lemma ReapOne(g: Graph, s: State, orphan: TaskId, id: TaskId)
    requires RowsOk(g, s.tasks) && id in s.tasks
    ensures var s' := ReapTx(s, orphan, Retries(g, orphan.step));
      && RowsOk(g, s'.tasks) && id in s'.tasks
      && s'.tasks[id] ==
         if id == orphan && s.tasks[id].status == Running then s.tasks[id].(status := Failed) else s.tasks[id]
  {
    hide RowsOk, Evolves, Grounded, AttemptLadder;
    if orphan in s.tasks && s.tasks[orphan].status == Running {
      var row := s.tasks[orphan].(status := Failed);
      EndEvolves(g, s, orphan, row, Retries(g, orphan.step));
      RowsKept(g, s.tasks, EndTx(s, orphan, row, Retries(g, orphan.step)).tasks);
      NextAttemptIsFree(g, s.tasks, orphan);
    }
  }

  /** The callback endpoint's transaction is a lookup and a resume, back to back. */
  lemma CallbackIsTwoEvents(w: World, g: Graph, s: State, token: string, output: string)
    requires token in s.parked
    ensures var e, e' := CallbackPickup(token, output), Event.Resume(s.parked[token].task, output, false);
      && Enabled(s, e) && Enabled(Apply(w, g, s, e), e')
      && Apply(w, g, Apply(w, g, s, e), e') == ResumeTx(s, s.parked[token].task, output)
  {
    var r := Resuming(s.parked[token].task, output, false);
    var s1 := s.(resuming := s.resuming + multiset{r});
    assert s1 == Apply(w, g, s, CallbackPickup(token, output));
    assert s1.resuming - multiset{r} == s.resuming;
    assert s1.(resuming := s1.resuming - multiset{r}) == s;
    hide ResumeTx;
  }
}
