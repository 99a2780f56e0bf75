/** What a run's status says about its steps, in every state a run can reach. */
module RunStatusProof {
  import opened Definitions
  import opened RunState
  import opened Ladder

  ghost predicate DeadEnd(tasks: Tasks, id: TaskId) {
    id in tasks && Dead(tasks[id].status) && NextAttempt(id) !in tasks
  }

  ghost predicate StatusOk(g: Graph, s: State) {
    match s.run
    case RunQueued => s.tasks == map[]
    case RunRunning => true
    case RunSucceeded => forall k :: k in g ==> SettledRow(s.tasks, k)
    case RunFailed => exists id :: DeadEnd(s.tasks, id)
    case RunCanceled => forall id :: id in s.tasks ==> !Live(s.tasks[id].status)
  }

  /** New rows only continue a row that was live until now. */
  ghost predicate Continues(t: Tasks, t': Tasks) {
    forall id :: id in t' && id !in t ==>
      id.attempt >= 1 && TaskId(id.step, id.attempt - 1) in t && Live(t[TaskId(id.step, id.attempt - 1)].status)
  }

  lemma DeadEndStays(g: Graph, t: Tasks, t': Tasks, id: TaskId)
    requires Evolves(g, t, t') && Continues(t, t') && DeadEnd(t, id)
    ensures DeadEnd(t', id)
  {
    hide FirstAttempt, LaterAttempt;
    assert TaskId(NextAttempt(id).step, NextAttempt(id).attempt - 1) == id;
  }

  lemma NoneLiveStays(g: Graph, t: Tasks, t': Tasks)
    requires Evolves(g, t, t') && Continues(t, t') && forall id :: id in t ==> !Live(t[id].status)
    ensures forall id :: id in t' ==> id in t && !Live(t'[id].status)
  {
    hide FirstAttempt, LaterAttempt;
  }

  lemma StatusKeptByContinuing(g: Graph, s: State, s': State)
    requires StatusOk(g, s) && s'.run == s.run
    requires Evolves(g, s.tasks, s'.tasks) && Continues(s.tasks, s'.tasks)
    ensures StatusOk(g, s')
  {
    hide Evolves, Continues, SettledRow, DeadEnd;
    match s.run
    case RunQueued => NoneLiveStays(g, s.tasks, s'.tasks);
    case RunRunning =>
    case RunSucceeded =>
      forall k | k in g
        ensures SettledRow(s'.tasks, k)
      {
        SettledStays(g, s.tasks, s'.tasks, k);
      }
    case RunFailed =>
      var id :| DeadEnd(s.tasks, id);
      DeadEndStays(g, s.tasks, s'.tasks, id);
    case RunCanceled => NoneLiveStays(g, s.tasks, s'.tasks);
  }

  lemma EndContinues(s: State, id: TaskId, row: Row, retries: int)
    requires id in s.tasks && Live(s.tasks[id].status)
    ensures Continues(s.tasks, EndTx(s, id, row, retries).tasks)
    ensures EndTx(s, id, row, retries).run == s.run
  {
    assert TaskId(NextAttempt(id).step, NextAttempt(id).attempt - 1) == id;
  }

  lemma EndingContinues(g: Graph, s: State, e: Event)
    requires Enabled(s, e) && Ending(e)
    ensures Continues(s.tasks, ApplyEnding(g, s, e).tasks)
    ensures ApplyEnding(g, s, e).run == s.run
  {
    hide ApplyEnding, EndTx;
    ShapeOfEnding(g, s, e);
    if Wins(s, e) {
      EndContinues(Leaving(s, e), e.id, FinalRow(s, e), RetriesSeen(g, e));
    }
  }

  lemma StartingContinues(g: Graph, s: State, e: Event)
    requires Starting(e)
    ensures Continues(s.tasks, ApplyStarting(g, s, e).tasks)
    ensures ApplyStarting(g, s, e).run == s.run
  {
    hide BuildContext;
  }

  lemma ParkingContinues(g: Graph, s: State, e: Event)
    requires Enabled(s, e) && Parking(e)
    ensures Continues(s.tasks, ApplyParking(s, e).tasks)
    ensures ApplyParking(s, e).run == s.run
  {
  }

  lemma DeadIsDeadEnd(g: Graph, tasks: Tasks)
    requires RowsOk(g, tasks)
    ensures AnyDead(g, tasks) ==> exists id :: DeadEnd(tasks, id)
  {
    if k :| k in g && LatestDead(tasks, k) {
      assert DeadEnd(tasks, TaskId(k, Top(tasks, k)));
    }
  }

  lemma AllSettledRows(g: Graph, tasks: Tasks)
    requires RowsOk(g, tasks)
    ensures AllSettled(g, tasks) <==> forall k :: k in g ==> SettledRow(tasks, k)
  {
    forall k | k in g
      ensures LatestSettled(tasks, k) <==> SettledRow(tasks, k)
    {
      SettledIsLatest(tasks, k);
    }
  }

  lemma AdvanceStatus(w: World, g: Graph, s: State)
    requires RowsOk(g, s.tasks) && StatusOk(g, s)
    ensures StatusOk(g, AdvanceTx(w, g, s))
  {
    hide RowsOk, FirstRows, AnyDead, AllSettled, SettledRow, DeadEnd;
    DeadIsDeadEnd(g, s.tasks);
    AllSettledRows(g, s.tasks);
  }

  lemma WorkContinues(w: World, g: Graph, s: State, e: Event)
    requires Enabled(s, e) && !Control(e)
    ensures Continues(s.tasks, Apply(w, g, s, e).tasks)
    ensures Apply(w, g, s, e).run == s.run
  {
    hide ApplyControl, ApplyStarting, ApplyEnding, ApplyParking, ApplyFault;
    if Starting(e) {
      StartingContinues(g, s, e);
    } else if Ending(e) {
      EndingContinues(g, s, e);
    } else if Parking(e) {
      ParkingContinues(g, s, e);
    } else {
      FaultKeepsRows(s, e);
    }
  }

  lemma StatusKept(w: World, g: Graph, s: State, e: Event)
    requires RowsOk(g, s.tasks) && StatusOk(g, s) && Enabled(s, e)
    ensures StatusOk(g, Apply(w, g, s, e))
  {
    hide RowsOk, Evolves, Continues, AdvanceTx, ApplyStarting, ApplyEnding, ApplyParking, ApplyFault;
    if Control(e) {
      match e
      case Advance => AdvanceStatus(w, g, s.(advances := s.advances - 1));
      case CancelRun =>
      case RetryRun =>
    } else {
      StepEvolves(w, g, s, e);
      WorkContinues(w, g, s, e);
      StatusKeptByContinuing(g, s, Apply(w, g, s, e));
    }
  }

  // ----- the count of RetryRun calls -----

  lemma StartingCallsNone(g: Graph, s: State, e: Event)
    requires Starting(e)
    ensures ApplyStarting(g, s, e).retryCalls == s.retryCalls
  {
    hide BuildContext;
  }

  lemma EndCallsNone(s: State, id: TaskId, row: Row, retries: int)
    ensures EndTx(s, id, row, retries).retryCalls == s.retryCalls
  {
    hide Pow2;
  }

  lemma EndingCallsNone(g: Graph, s: State, e: Event)
    requires Enabled(s, e) && Ending(e)
    ensures ApplyEnding(g, s, e).retryCalls == s.retryCalls
  {
    hide ApplyEnding, EndTx;
    ShapeOfEnding(g, s, e);
    if Wins(s, e) {
      EndCallsNone(Leaving(s, e), e.id, FinalRow(s, e), RetriesSeen(g, e));
    }
  }

  lemma ParkingCallsNone(s: State, e: Event)
    requires Enabled(s, e) && Parking(e)
    ensures ApplyParking(s, e).retryCalls == s.retryCalls
  {
  }

  lemma FaultCallsNone(s: State, e: Event)
    requires Fault(e)
    ensures ApplyFault(s, e).retryCalls == s.retryCalls
  {
    match e
    case WorkerDies(_, _) =>
    case ResumerDies(_, _, _) =>
    case LoadedLost(_) =>
    case PreparedLost(_, _) =>
    case ReplayAdvance =>
    case ReplayExecute(_) =>
    case ReplayResume(_) =>
  }

  lemma RetryCallsStep(w: World, g: Graph, s: State, e: Event)
    requires Enabled(s, e)
    ensures Apply(w, g, s, e).retryCalls == s.retryCalls + if e.RetryRun? then 1 else 0
  {
    hide ApplyStarting, ApplyEnding, ApplyParking, ApplyFault, AnyDead, AllSettled, FirstRows, QueuedIn, GuardResolved,
      RedoIds;
    if Starting(e) {
      StartingCallsNone(g, s, e);
    } else if Ending(e) {
      EndingCallsNone(g, s, e);
    } else if Parking(e) {
      ParkingCallsNone(s, e);
    } else if Fault(e) {
      FaultCallsNone(s, e);
    } else {
      match e
      case Advance =>
      case CancelRun =>
      case RetryRun =>
    }
  }
}
