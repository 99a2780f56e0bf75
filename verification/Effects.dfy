/**
 What each event does to the tables, stated outright on the rows and jobs before
 and after it.  Nothing here refers to the functions the transactions are
 defined by.
 */
module Effects {
  import opened Definitions
  import opened RunState
  import opened Ladder
  import opened Wakeups
  import opened Passes
  import opened Determinism

  // ----- frames -----

  /** The suspension rows, resume jobs and resume books. */
  ghost predicate SameParking(s: State, s': State) {
    && s'.parked == s.parked && s'.resumes == s.resumes && s'.resuming == s.resuming
    && s'.resumed == s.resumed && s'.timers == s.timers
  }

  /** Workers that have taken an execute job. */
  ghost predicate SameWorkers(s: State, s': State) {
    && s'.loaded == s.loaded && s'.prepared == s.prepared && s'.executing == s.executing && s'.invoked == s.invoked
  }

  /** The run, the task rows, and the jobs a row change brings. */
  ghost predicate SameTables(s: State, s': State) {
    && s'.run == s.run && s'.tasks == s.tasks && s'.advances == s.advances && s'.backoffs == s.backoffs
    && s'.retryCalls == s.retryCalls
  }

  lemma StartApplies(w: World, g: Graph, s: State, e: Event)
    requires Enabled(s, e) && Starting(e)
    ensures Apply(w, g, s, e) == ApplyStarting(g, s, e)
  {
    hide ApplyControl, ApplyStarting, ApplyEnding, ApplyParking, ApplyFault, Enabled;
  }

  lemma EndApplies(w: World, g: Graph, s: State, e: Event)
    requires Enabled(s, e) && Ending(e)
    ensures Apply(w, g, s, e) == ApplyEnding(g, s, e)
  {
    hide ApplyControl, ApplyStarting, ApplyEnding, ApplyParking, ApplyFault, Enabled;
  }

  // ----- taking and claiming an execute job -----

  predicate IsQueued(tasks: Tasks, id: TaskId) {
    id in tasks && tasks[id].status == Queued
  }

  /** The job is used up; only a queued task goes on. */
  lemma LoadDoes(w: World, g: Graph, s: State, id: TaskId)
    requires Enabled(s, Load(id))
    ensures var s' := Apply(w, g, s, Load(id));
      && SameTables(s, s') && SameParking(s, s')
      && s'.executes == s.executes - multiset{id}
      && s'.loaded == (if IsQueued(s.tasks, id) then s.loaded + multiset{id} else s.loaded)
      && s'.prepared == s.prepared && s'.executing == s.executing && s'.invoked == s.invoked
  {
  }

  /** The worker holds, for every transitive need with a succeeded row, and for no
      other step, the output of that row. */
  lemma PrepareDoes(w: World, g: Graph, s: State, id: TaskId) returns (ctx: Context)
    requires Enabled(s, Prepare(id)) && AttemptLadder(s.tasks)
    ensures var s' := Apply(w, g, s, Prepare(id));
      && SameTables(s, s') && SameParking(s, s') && s'.executes == s.executes
      && s'.loaded == s.loaded - multiset{id} && s'.prepared == s.prepared + multiset{Prepared(id, ctx)}
      && s'.executing == s.executing && s'.invoked == s.invoked
    ensures forall row :: row in s.tasks && s.tasks[row].status == Succeeded && Reaches(g, id.step, row.step) ==>
              row.step in ctx && ctx[row.step] == s.tasks[row].output
    ensures forall n :: n in ctx ==>
              && Reaches(g, id.step, n)
              && exists row :: row in s.tasks && row.step == n && s.tasks[row].status == Succeeded
  {
    ctx := BuildContext(g, s.tasks, id.step);
    ContextHolds(g, s.tasks, id.step);
    hide BuildContext;
  }

  lemma ContextHolds(g: Graph, tasks: Tasks, k: string)
    requires AttemptLadder(tasks)
    ensures var ctx := BuildContext(g, tasks, k);
      && (forall row :: row in tasks && tasks[row].status == Succeeded && Reaches(g, k, row.step) ==>
            row.step in ctx && ctx[row.step] == tasks[row].output)
      && (forall n :: n in ctx ==>
            Reaches(g, k, n) && exists row :: row in tasks && row.step == n && tasks[row].status == Succeeded)
  {
    hide AttemptLadder, Upstream, Reaches;
    var ctx := BuildContext(g, tasks, k);
    forall row | row in tasks && tasks[row].status == Succeeded && Reaches(g, k, row.step)
      ensures row.step in ctx && ctx[row.step] == tasks[row].output
    {
      UpstreamIsReachable(g, k, row.step);
      SettledEntry(tasks, row);
      assert row in SucceededRows(tasks);
    }
    forall n | n in ctx
      ensures Reaches(g, k, n) && exists row :: row in tasks && row.step == n && tasks[row].status == Succeeded
    {
      UpstreamIsReachable(g, k, n);
      var row :| row in SucceededRows(tasks) && row.step == n;
    }
  }

  /** The claim wins exactly on a queued row; only then does an executor start. */
  lemma ClaimDoes(w: World, g: Graph, s: State, id: TaskId, ctx: Context)
    requires Enabled(s, Claim(id, ctx))
    ensures var s' := Apply(w, g, s, Claim(id, ctx)); var p := Prepared(id, ctx);
      && SameParking(s, s') && s'.executes == s.executes && s'.loaded == s.loaded
      && s'.prepared == s.prepared - multiset{p}
      && (!IsQueued(s.tasks, id) ==>
            SameTables(s, s') && s'.executing == s.executing && s'.invoked == s.invoked)
      && (IsQueued(s.tasks, id) ==>
            && s'.tasks == s.tasks[id := Row(Running, s.tasks[id].output)]
            && s'.executing == s.executing + multiset{p} && s'.invoked == s.invoked + multiset{id}
            && SameTables(s, s'.(tasks := s.tasks)))
  {
    StartApplies(w, g, s, Claim(id, ctx));
    hide BuildContext, LoadTx, Apply, Enabled;
  }

  // ----- ends of an attempt -----

  /** The row an end writes, and how many retries its worker knows of. */
  function EndRow(s: State, e: Event): Row
    requires Ending(e) && e.id in s.tasks
  {
    match e
    case FailLoaded(_, _) => Row(Failed, Some("null"))
    case FailPrepared(_, _) => Row(Failed, Some("null"))
    case Finish(_, _, ok, output) => Row(if ok then Succeeded else Failed, Some(output))
    case Reap(id) => Row(Failed, s.tasks[id].output)
  }

  function KnownRetries(g: Graph, e: Event): int
    requires Ending(e)
  {
    if (e.FailLoaded? && !e.knowsRetries) || e.id.step !in g then 0 else g[e.id.step].retries
  }

  /** An end takes effect on a queued or running row: on a running one when reaped. */
  predicate FindsRow(s: State, e: Event)
    requires Ending(e)
  {
    e.id in s.tasks && (s.tasks[e.id].status == Running || (s.tasks[e.id].status == Queued && !e.Reap?))
  }

  /** The row is written and an advance job added; after a failure at attempt n the
      next attempt is queued, with its job and a backoff of 2^n seconds, exactly if
      n is at most the step's retries; no other row changes. */
  lemma EndDoes(w: World, g: Graph, s: State, e: Event)
    requires RowsOk(g, s.tasks) && Enabled(s, e) && Ending(e)
    ensures var s' := Apply(w, g, s, e); var id := e.id; var next := TaskId(e.id.step, e.id.attempt + 1);
      && s'.run == s.run && SameParking(s, s') && s'.invoked == s.invoked && s'.retryCalls == s.retryCalls
      && (!FindsRow(s, e) ==> SameTables(s, s') && s'.executes == s.executes)
      && (FindsRow(s, e) ==>
            && next !in s.tasks && s'.advances == s.advances + 1
            && if EndRow(s, e).status == Failed && id.attempt <= KnownRetries(g, e) then
                 && s'.tasks == s.tasks[id := EndRow(s, e)][next := Row(Queued, None)]
                 && s'.executes == s.executes + multiset{next}
                 && s'.backoffs == s.backoffs[next := Pow2(id.attempt)]
               else
                 s'.tasks == s.tasks[id := EndRow(s, e)] && s'.executes == s.executes && s'.backoffs == s.backoffs)
  {
    EndApplies(w, g, s, e);
    ShapeOfEnding(g, s, e);
    LeavingIsWorker(s, e);
    EndRowIsFinal(g, s, e);
    hide RowsOk, Apply, ApplyEnding, EndTx, Leaving, Pow2;
    if Wins(s, e) {
      NextAttemptIsFree(g, s.tasks, e.id);
      EndTxDoes(Leaving(s, e), e.id, FinalRow(s, e), RetriesSeen(g, e));
    }
  }

  lemma EndRowIsFinal(g: Graph, s: State, e: Event)
    requires Enabled(s, e) && Ending(e)
    ensures Wins(s, e) <==> FindsRow(s, e)
    ensures Wins(s, e) ==> FinalRow(s, e) == EndRow(s, e)
    ensures RetriesSeen(g, e) == KnownRetries(g, e)
  {
    match e
    case FailLoaded(_, _) =>
    case FailPrepared(_, _) =>
    case Finish(_, _, _, _) =>
    case Reap(_) =>
  }

  lemma LeavingIsWorker(s: State, e: Event)
    requires Ending(e)
    ensures var left := Leaving(s, e);
      SameTables(s, left) && SameParking(s, left) && left.executes == s.executes && left.invoked == s.invoked
  {
    match e
    case FailLoaded(_, _) =>
    case FailPrepared(_, _) =>
    case Finish(_, _, _, _) =>
    case Reap(_) =>
  }

  lemma EndTxDoes(s: State, id: TaskId, row: Row, retries: int)
    requires id in s.tasks && NextAttempt(id) !in s.tasks
    ensures var s' := EndTx(s, id, row, retries); var next := TaskId(id.step, id.attempt + 1);
      && s'.run == s.run && SameParking(s, s') && s'.invoked == s.invoked && s'.retryCalls == s.retryCalls
      && next !in s.tasks && s'.advances == s.advances + 1
      && if row.status == Failed && id.attempt <= retries then
           && s'.tasks == s.tasks[id := row][next := Row(Queued, None)]
           && s'.executes == s.executes + multiset{next} && s'.backoffs == s.backoffs[next := Pow2(id.attempt)]
         else
           s'.tasks == s.tasks[id := row] && s'.executes == s.executes && s'.backoffs == s.backoffs
  {
    hide Pow2;
  }

  /** Whoever reports an end is gone, and so is nobody else. */
  lemma EndReleases(w: World, g: Graph, s: State, e: Event)
    requires Enabled(s, e) && Ending(e)
    ensures var s' := Apply(w, g, s, e);
      && s'.loaded == (if e.FailLoaded? then s.loaded - multiset{e.id} else s.loaded)
      && s'.prepared == (if e.FailPrepared? then s.prepared - multiset{Prepared(e.id, e.ctx)} else s.prepared)
      && s'.executing == (if e.Finish? then s.executing - multiset{Prepared(e.id, e.ctx)} else s.executing)
  {
    EndApplies(w, g, s, e);
    ShapeOfEnding(g, s, e);
    LeavingReleases(s, e);
    hide Apply, Leaving, ApplyEnding, EndTx;
    if Wins(s, e) {
      EndTxReleases(Leaving(s, e), e.id, FinalRow(s, e), RetriesSeen(g, e));
    }
  }

  lemma LeavingReleases(s: State, e: Event)
    requires Ending(e)
    ensures var left := Leaving(s, e);
      && left.loaded == (if e.FailLoaded? then s.loaded - multiset{e.id} else s.loaded)
      && left.prepared == (if e.FailPrepared? then s.prepared - multiset{Prepared(e.id, e.ctx)} else s.prepared)
      && left.executing == (if e.Finish? then s.executing - multiset{Prepared(e.id, e.ctx)} else s.executing)
  {
    match e
    case FailLoaded(_, _) =>
    case FailPrepared(_, _) =>
    case Finish(_, _, _, _) =>
    case Reap(_) =>
  }

  lemma EndTxReleases(s: State, id: TaskId, row: Row, retries: int)
    requires id in s.tasks
    ensures SameWorkers(s, EndTx(s, id, row, retries).(invoked := s.invoked))
  {
  }

  /** 2s, 4s, 8s and so on. */
  lemma BackoffSeconds()
    ensures Pow2(1) == 2 && Pow2(2) == 4 && Pow2(3) == 8
    ensures forall n: nat :: Pow2(n + 1) == Pow2(n) + Pow2(n)
  {
  }

  // ----- waiting -----

  predicate Parks(s: State, id: TaskId, token: string) {
    id in s.tasks && s.tasks[id].status == Running && token !in s.parked
  }

  /** On a running row and a free token: the row is suspended and shows the output,
      the suspension carries it, and a timed wait has its resume job. */
  lemma SuspendDoes(w: World, g: Graph, s: State, id: TaskId, ctx: Context, token: string, timed: bool, output: string)
    requires Enabled(s, Suspend(id, ctx, token, timed, output))
    ensures var s' := Apply(w, g, s, Suspend(id, ctx, token, timed, output));
      && s'.executing == s.executing - multiset{Prepared(id, ctx)}
      && s'.loaded == s.loaded && s'.prepared == s.prepared && s'.invoked == s.invoked && s'.executes == s.executes
      && (!Parks(s, id, token) ==> SameTables(s, s') && SameParking(s, s'))
      && (Parks(s, id, token) ==>
            && s'.tasks == s.tasks[id := Row(Suspended, Some(output))]
            && SameTables(s, s'.(tasks := s.tasks))
            && s'.parked == s.parked[token := Suspension(id, timed, output)]
            && s'.resumes == (if timed then s.resumes + multiset{id} else s.resumes)
            && s'.timers == (if timed then s.timers + {id} else s.timers)
            && s'.resuming == s.resuming && s'.resumed == s.resumed)
  {
    hide ResumeTx;
  }

  /** A timer takes up the stored payload, a callback its own. */
  lemma PickupDoes(w: World, g: Graph, s: State, e: Event)
    requires Enabled(s, e) && (e.TimerPickup? || e.CallbackPickup?)
    ensures var s' := Apply(w, g, s, e); var p := s.parked[e.token];
      && SameTables(s, s') && SameWorkers(s, s') && s'.executes == s.executes && s'.parked == s.parked
      && s'.resumed == s.resumed && s'.timers == s.timers
      && s'.resumes == (if e.TimerPickup? then s.resumes - multiset{p.task} else s.resumes)
      && s'.resuming == s.resuming + multiset{
           if e.TimerPickup? then Resuming(p.task, p.payload, true) else Resuming(p.task, e.output, false)}
  {
    hide SuspendTx, ResumeTx;
  }

  lemma StaleDoes(w: World, g: Graph, s: State, id: TaskId)
    requires Enabled(s, TimerStale(id))
    ensures Apply(w, g, s, TimerStale(id)) == s.(resumes := s.resumes - multiset{id})
  {
    hide SuspendTx, ResumeTx;
  }

  /** A resume succeeds a suspended task with its output and adds an advance job; it
      leaves any other task alone; either way the task's suspension rows go. */
  lemma ResumeDoes(w: World, g: Graph, s: State, id: TaskId, output: string, timer: bool)
    requires Enabled(s, Resume(id, output, timer)) && id in s.tasks
    ensures var s' := Apply(w, g, s, Resume(id, output, timer));
      && SameWorkers(s, s') && s'.executes == s.executes && s'.resumes == s.resumes && s'.timers == s.timers
      && s'.resuming == s.resuming - multiset{Resuming(id, output, timer)}
      && s'.run == s.run && s'.backoffs == s.backoffs && s'.retryCalls == s.retryCalls
      && (forall token :: token in s'.parked <==> token in s.parked && s.parked[token].task != id)
      && (forall token :: token in s'.parked ==> s'.parked[token] == s.parked[token])
      && if s.tasks[id].status == Suspended then
           && s'.tasks == s.tasks[id := Row(Succeeded, Some(output))] && s'.advances == s.advances + 1
           && s'.resumed == s.resumed + multiset{id}
         else s'.tasks == s.tasks && s'.advances == s.advances && s'.resumed == s.resumed
  {
    hide SuspendTx;
  }

  // ----- the advance pass -----

  /** How the guard of a step with a new row resolves. */
  ghost predicate ResolvedByGuard(w: World, g: Graph, tasks: Tasks, k: string, row: Row) {
    && k in g && row.output == None
    && (g[k].cond == "" ==> row.status == Queued)
    && (g[k].cond != "" ==>
          && (w.eval("!!(" + g[k].cond + ")", BuildContext(g, tasks, k)) == Truthy <==> row.status == Queued)
          && (w.eval("!!(" + g[k].cond + ")", BuildContext(g, tasks, k)) == Falsy <==> row.status == Skipped)
          && (w.eval("!!(" + g[k].cond + ")", BuildContext(g, tasks, k)) == EvalError <==> row.status == Failed))
  }

  /** Some row is new and has no job. */
  ghost predicate ResolvedWithoutJob(tasks: Tasks, tasks': Tasks) {
    exists id :: id in tasks' && id !in tasks && tasks'[id].status != Queued
  }

  /** A pass ends a run that has a dead latest attempt or is settled, and otherwise
      adds a row exactly for the ready steps, resolved by their guards, with a job
      for each queued one, and one more advance if some row got no job. */
  lemma AdvanceDoes(w: World, g: Graph, s: State)
    requires Enabled(s, Advance)
    ensures var s' := Apply(w, g, s, Advance);
      && SameParking(s, s') && SameWorkers(s, s') && s'.backoffs == s.backoffs && s'.retryCalls == s.retryCalls
      && (Terminal(s.run) ==> s'.run == s.run)
      && (!Terminal(s.run) && AnyDead(g, s.tasks) ==> s'.run == RunFailed)
      && (!Terminal(s.run) && AllSettled(g, s.tasks) ==> s'.run == RunSucceeded)
      && (Terminal(s.run) || AnyDead(g, s.tasks) || AllSettled(g, s.tasks) ==>
            s'.tasks == s.tasks && s'.executes == s.executes && s'.advances == s.advances - 1)
      && (!Terminal(s.run) && !AnyDead(g, s.tasks) && !AllSettled(g, s.tasks) ==>
            && s'.run == RunRunning
            && (forall id :: PassResolves(g, s.tasks, s.executes, s'.tasks, s'.executes, id))
            && (forall id :: id in s'.tasks && id !in s.tasks ==>
                  ResolvedByGuard(w, g, s.tasks, id.step, s'.tasks[id]))
            && s'.advances == s.advances - 1 + if ResolvedWithoutJob(s.tasks, s'.tasks) then 1 else 0)
  {
    var s0 := s.(advances := s.advances - 1);
    PassDecided(w, g, s0);
    hide AnyDead, AllSettled, FirstRows, SpreadTx, PassResolves, ResolvedByGuard, ResolvedWithoutJob;
    if !Terminal(s.run) && !AnyDead(g, s.tasks) && !AllSettled(g, s.tasks) {
      SpreadDoes(w, g, s0);
    }
  }

  lemma SpreadDoes(w: World, g: Graph, s: State)
    ensures var s' := SpreadTx(s, FirstRows(w, g, s.tasks));
      && SameParking(s, s') && SameWorkers(s, s') && s'.backoffs == s.backoffs && s'.retryCalls == s.retryCalls
      && s'.run == RunRunning
      && (forall id :: id in s'.tasks && id !in s.tasks ==> ResolvedByGuard(w, g, s.tasks, id.step, s'.tasks[id]))
      && s'.advances == s.advances + if ResolvedWithoutJob(s.tasks, s'.tasks) then 1 else 0
  {
    hide FirstRows, QueuedIn, ResolvedByGuard;
    var rows := FirstRows(w, g, s.tasks);
    forall id | id in rows
      ensures id !in s.tasks && ResolvedByGuard(w, g, s.tasks, id.step, rows[id])
    {
      FirstRowResolved(w, g, s.tasks, id);
    }
    var t' := s.tasks + rows;
    assert GuardResolved(rows) <==> ResolvedWithoutJob(s.tasks, t') by {
      if id :| id in rows && rows[id].status != Queued {
        assert id in t' && id !in s.tasks && t'[id].status != Queued;
      }
    }
  }

  lemma FirstRowResolved(w: World, g: Graph, tasks: Tasks, id: TaskId)
    requires id in FirstRows(w, g, tasks)
    ensures id !in tasks && ResolvedByGuard(w, g, tasks, id.step, FirstRows(w, g, tasks)[id])
  {
    hide FirstRows, Ready, BuildContext;
    FirstRowsNew(w, g, tasks, id);
    ReadyInGraph(g, tasks, id.step);
  }

  lemma ReadyInGraph(g: Graph, tasks: Tasks, k: string)
    requires Ready(g, tasks, k)
    ensures k in g
  {
  }

  // ----- cancel and retry -----

  /** The run and every live task are canceled, outputs kept; nothing else changes. */
  lemma CancelDoes(w: World, g: Graph, s: State)
    requires Enabled(s, CancelRun)
    ensures var s' := Apply(w, g, s, CancelRun);
      && s'.run == RunCanceled && SameTables(s, s'.(run := s.run, tasks := s.tasks))
      && SameParking(s, s') && SameWorkers(s, s') && s'.executes == s.executes
      && s'.tasks.Keys == s.tasks.Keys
      && forall id :: id in s.tasks ==>
           s'.tasks[id] == if s.tasks[id].status in {Queued, Running, Suspended}
                           then Row(Canceled, s.tasks[id].output) else s.tasks[id]
  {
    hide ApplyStarting, ApplyEnding, ApplyParking, ApplyFault;
  }

  /** An attempt that is one past the latest of its step, which is failed or canceled. */
  ghost predicate FollowsDead(tasks: Tasks, id: TaskId) {
    && id.attempt > 0 && IsTop(tasks, id.step, id.attempt - 1)
    && tasks[TaskId(id.step, id.attempt - 1)].status in {Failed, Canceled}
  }

  /** The run is running again and has one more advance job; exactly those attempts
      are added, queued, each with its job; no other row changes. */
  lemma RetryDoes(w: World, g: Graph, s: State)
    requires RowsOk(g, s.tasks) && Enabled(s, RetryRun)
    ensures var s' := Apply(w, g, s, RetryRun);
      && s'.run == RunRunning && s'.advances == s.advances + 1 && s'.retryCalls == s.retryCalls + 1
      && SameParking(s, s') && SameWorkers(s, s') && s'.backoffs == s.backoffs
      && (forall id :: id in s.tasks ==>
            id in s'.tasks && s'.tasks[id] == s.tasks[id] && s'.executes[id] == s.executes[id])
      && (forall id :: id !in s.tasks ==>
            && (id in s'.tasks <==> FollowsDead(s.tasks, id))
            && (id in s'.tasks ==> s'.tasks[id] == Row(Queued, None))
            && s'.executes[id] == s.executes[id] + if id in s'.tasks then 1 else 0)
  {
    RetryAccepted(s);
    RetryApplies(w, g, s);
    forall id
      ensures id in RedoIds(s.tasks) <==> FollowsDead(s.tasks, id)
      ensures id in RedoIds(s.tasks) ==> id !in s.tasks
    {
      RedoFollowsDead(g, s.tasks, id);
    }
    hide RowsOk, RedoIds, FollowsDead, Enabled, Apply;
  }

  lemma RedoFollowsDead(g: Graph, tasks: Tasks, id: TaskId)
    requires RowsOk(g, tasks)
    ensures id in RedoIds(tasks) <==> FollowsDead(tasks, id)
    ensures id in RedoIds(tasks) ==> id !in tasks
  {
    if id in RedoIds(tasks) {
      RedoIsLater(g, tasks, id);
      var prev := RedoFollows(tasks, id);
      var top :|
        top in tasks && IsTop(tasks, top.step, top.attempt) && Dead(tasks[top].status) && id == NextAttempt(top);
      assert top == TaskId(id.step, id.attempt - 1);
    }
    if FollowsDead(tasks, id) {
      var prev := TaskId(id.step, id.attempt - 1);
      assert NextAttempt(prev) == id;
    }
  }

  // ----- deaths and redeliveries -----

  /** A death takes its worker, and a dying timer worker gives its job back; a
      redelivery adds its job. */
  lemma FaultDoes(w: World, g: Graph, s: State, e: Event)
    requires Enabled(s, e) && Fault(e)
    ensures var s' := Apply(w, g, s, e);
      && s'.run == s.run && s'.tasks == s.tasks && s'.parked == s.parked && s'.backoffs == s.backoffs
      && s'.retryCalls == s.retryCalls && s'.invoked == s.invoked && s'.resumed == s.resumed && s'.timers == s.timers
      && s'.advances == (if e.ReplayAdvance? then s.advances + 1 else s.advances)
      && s'.executes == (if e.ReplayExecute? then s.executes + multiset{e.id} else s.executes)
      && s'.resumes ==
         (if e.ReplayResume? || (e.ResumerDies? && e.timer) then s.resumes + multiset{e.id} else s.resumes)
      && s'.loaded == (if e.LoadedLost? then s.loaded - multiset{e.id} else s.loaded)
      && s'.prepared == (if e.PreparedLost? then s.prepared - multiset{Prepared(e.id, e.ctx)} else s.prepared)
      && s'.executing == (if e.WorkerDies? then s.executing - multiset{Prepared(e.id, e.ctx)} else s.executing)
      && s'.resuming ==
         (if e.ResumerDies? then s.resuming - multiset{Resuming(e.id, e.output, e.timer)} else s.resuming)
  {
    hide Enabled;
    match e
    case WorkerDies(_, _) =>
    case ResumerDies(_, _, _) =>
    case LoadedLost(_) =>
    case PreparedLost(_, _) =>
    case ReplayAdvance =>
    case ReplayExecute(_) =>
    case ReplayResume(_) =>
  }
}
