/**
 No lost wakeup: a run that is not over always has an advance job or a live
 task, every queued task has a job or worker that will reach its claim, and
 every timed wait has its resume job.
 */
module Wakeups {
  import opened Definitions
  import opened RunState
  import opened Ladder
  import opened Suspensions

  ghost predicate HasLive(tasks: Tasks) {
    exists id :: id in tasks && Live(tasks[id].status)
  }

  ghost predicate Awake(s: State) {
    Terminal(s.run) || s.advances > 0 || HasLive(s.tasks)
  }

  ghost predicate PreparedFor(prepared: multiset<Prepared>, id: TaskId) {
    exists p :: p in prepared && p.id == id
  }

  /** A queued row that no job and no worker in flight will ever claim. */
  ghost predicate Lost(s: State, id: TaskId) {
    && id in s.tasks && s.tasks[id].status == Queued
    && id !in s.executes && id !in s.loaded && !PreparedFor(s.prepared, id)
  }

  ghost predicate ResumerFor(resuming: multiset<Resuming>, id: TaskId) {
    exists r :: r in resuming && r.id == id && r.timer
  }

  /** A timed suspension still waiting has a resume job or a resumer. */
  ghost predicate TimerRuns(s: State, token: string)
    requires token in s.parked
  {
    var id := s.parked[token].task;
    s.parked[token].timed && id in s.tasks && s.tasks[id].status == Suspended ==>
      id in s.resumes || ResumerFor(s.resuming, id)
  }

  ghost predicate TimersSet(s: State) {
    forall token :: token in s.parked ==> TimerRuns(s, token)
  }

  // ----- a non-terminal run stays awake -----

  lemma {:induction false} ReadyBelow(g: Graph, rank: map<string, nat>, tasks: Tasks, k: string) returns (r: string)
    requires IsRank(g, rank) && RowsOk(g, tasks) && !AnyDead(g, tasks) && !HasLive(tasks)
    requires k in g && !SettledRow(tasks, k)
    ensures Ready(g, tasks, r)
    decreases rank[k]
  {
    if exists n :: n in g[k].needs && !SettledRow(tasks, n) {
      var n :| n in g[k].needs && !SettledRow(tasks, n);
      assert n in Needs(g, k);
      r := ReadyBelow(g, rank, tasks, n);
    } else {
      r := k;
      forall n | n in g[k].needs
        ensures LatestSettled(tasks, n)
      {
        SettledIsLatest(tasks, n);
      }
      assert HasRow(tasks, k) ==> TaskId(k, Top(tasks, k)).step == k;
    }
  }

  /** Acyclicity at work: nothing live, nothing dead and something unsettled
      leaves a step that is ready. */
  lemma SomeStepReady(g: Graph, tasks: Tasks)
    requires Ranked(g) && RowsOk(g, tasks) && !AnyDead(g, tasks) && !AllSettled(g, tasks) && !HasLive(tasks)
    ensures exists k :: Ready(g, tasks, k)
  {
    var rank :| IsRank(g, rank);
    var k :| k in g && !LatestSettled(tasks, k);
    SettledIsLatest(tasks, k);
    var r := ReadyBelow(g, rank, tasks, k);
  }

  lemma FirstRowsCover(w: World, g: Graph, tasks: Tasks, k: string)
    requires Ready(g, tasks, k)
    ensures TaskId(k, 1) in FirstRows(w, g, tasks)
  {
    hide FirstStatus;
    assert TaskId(k, 1) in ReadyIds(g, tasks);
  }

  lemma LiveStays(t: Tasks, rows: Tasks)
    requires forall id :: id in rows ==> id !in t
    ensures HasLive(t) ==> HasLive(t + rows)
  {
    if id :| id in t && Live(t[id].status) {
      assert id in t + rows && (t + rows)[id] == t[id];
    }
  }

  /** A pass over an idle, unfinished run adds a live row or resolves a guard. */
  lemma FirstRowsWake(w: World, g: Graph, tasks: Tasks)
    requires Ranked(g) && RowsOk(g, tasks) && !AnyDead(g, tasks) && !AllSettled(g, tasks)
    ensures HasLive(tasks + FirstRows(w, g, tasks)) || GuardResolved(FirstRows(w, g, tasks))
  {
    hide Ranked, RowsOk, AnyDead, AllSettled, Ready, FirstRows, FirstStatus;
    var rows := FirstRows(w, g, tasks);
    forall id | id in rows
      ensures id !in tasks
    {
      FirstRowsNew(w, g, tasks, id);
    }
    if HasLive(tasks) {
      LiveStays(tasks, rows);
    } else {
      SomeStepReady(g, tasks);
      var k :| Ready(g, tasks, k);
      FirstRowsCover(w, g, tasks, k);
      var id := TaskId(k, 1);
      if rows[id].status == Queued {
        assert id in tasks + rows && (tasks + rows)[id] == rows[id];
      }
    }
  }

  lemma AdvanceAwake(w: World, g: Graph, s: State)
    requires Ranked(g) && RowsOk(g, s.tasks)
    ensures Awake(AdvanceTx(w, g, s))
  {
    hide Ranked, RowsOk, AnyDead, AllSettled, FirstRows, HasLive, GuardResolved, QueuedIn;
    if !Terminal(s.run) && !AnyDead(g, s.tasks) && !AllSettled(g, s.tasks) {
      FirstRowsWake(w, g, s.tasks);
    }
  }

  lemma EndAwake(s: State, id: TaskId, row: Row, retries: int)
    requires id in s.tasks && NextAttempt(id) !in s.tasks
    ensures EndTx(s, id, row, retries).advances > 0
  {
  }

  /** The unique key (run, step, attempt) is never violated by a retry insert. */
  lemma NextAttemptIsFree(g: Graph, tasks: Tasks, id: TaskId)
    requires RowsOk(g, tasks) && id in tasks && Live(tasks[id].status)
    ensures NextAttempt(id) !in tasks
  {
  }

  lemma EndingAwake(g: Graph, s: State, e: Event)
    requires RowsOk(g, s.tasks) && Awake(s) && Enabled(s, e) && Ending(e)
    ensures Awake(ApplyEnding(g, s, e))
  {
    hide RowsOk, ApplyEnding, EndTx;
    ShapeOfEnding(g, s, e);
    if Wins(s, e) {
      NextAttemptIsFree(g, s.tasks, e.id);
      EndAwake(Leaving(s, e), e.id, FinalRow(s, e), RetriesSeen(g, e));
    }
  }

  lemma LiveMoves(t: Tasks, id: TaskId, row: Row)
    requires id in t && Live(row.status)
    ensures HasLive(t[id := row])
  {
    assert t[id := row][id] == row;
  }

  lemma StartingAwake(g: Graph, s: State, e: Event)
    requires Awake(s) && Enabled(s, e) && Starting(e)
    ensures Awake(ApplyStarting(g, s, e))
  {
    hide BuildContext, HasLive;
    match e
    case Load(_) =>
    case Prepare(_) =>
    case Claim(id, _) =>
      if id in s.tasks {
        LiveMoves(s.tasks, id, s.tasks[id].(status := Running));
      }
  }

  lemma ParkingAwake(s: State, e: Event)
    requires Awake(s) && Enabled(s, e) && Parking(e)
    ensures Awake(ApplyParking(s, e))
  {
    hide HasLive;
    match e
    case Suspend(id, _, _, _, output) =>
      if id in s.tasks {
        LiveMoves(s.tasks, id, Row(Suspended, Some(output)));
      }
    case TimerPickup(_, _) =>
    case TimerStale(_) =>
    case CallbackPickup(_, _) =>
    case Resume(_, _, _) =>
  }

  lemma FaultAwake(s: State, e: Event)
    requires Awake(s) && Fault(e)
    ensures Awake(ApplyFault(s, e))
  {
    hide HasLive;
  }

  lemma AwakeKept(w: World, g: Graph, s: State, e: Event)
    requires Ranked(g) && RowsOk(g, s.tasks) && Awake(s) && Enabled(s, e)
    ensures Awake(Apply(w, g, s, e))
  {
    hide Ranked, RowsOk, HasLive, AdvanceTx, RedoIds, ApplyStarting, ApplyEnding, ApplyParking, ApplyFault;
    if Starting(e) {
      StartingAwake(g, s, e);
    } else if Ending(e) {
      EndingAwake(g, s, e);
    } else if Parking(e) {
      ParkingAwake(s, e);
    } else if Fault(e) {
      FaultAwake(s, e);
    } else {
      match e
      case Advance => AdvanceAwake(w, g, s.(advances := s.advances - 1));
      case CancelRun =>
      case RetryRun =>
    }
  }

  // ----- a pass that would do something has its job -----

  /** A pass over these rows would fail the run, complete it or fill a step. */
  ghost predicate Actionable(g: Graph, tasks: Tasks) {
    AnyDead(g, tasks) || AllSettled(g, tasks) || exists k :: Ready(g, tasks, k)
  }

  ghost predicate AdvanceDue(g: Graph, s: State) {
    !Terminal(s.run) && Actionable(g, s.tasks) ==> s.advances > 0
  }

  /** Rows that look the same to a pass. */
  ghost predicate SameToPass(t: Tasks, t': Tasks) {
    forall k :: (HasRow(t, k) <==> HasRow(t', k)) && (LatestSettled(t, k) <==> LatestSettled(t', k))
                && (LatestDead(t, k) <==> LatestDead(t', k))
  }

  lemma SameActions(g: Graph, t: Tasks, t': Tasks)
    requires SameToPass(t, t')
    ensures Actionable(g, t) <==> Actionable(g, t')
  {
    hide HasRow, LatestSettled, LatestDead;
    assert forall k :: Ready(g, t, k) <==> Ready(g, t', k);
  }

  /** A live row that stays live looks the same. */
  lemma LiveMoveSame(tasks: Tasks, id: TaskId, row: Row)
    requires AttemptLadder(tasks) && id in tasks && Live(tasks[id].status) && Live(row.status)
    ensures SameToPass(tasks, tasks[id := row])
  {
    var t' := tasks[id := row];
    TopWins(tasks, id);
    assert TaskId(id.step, id.attempt) == id;
    forall k
      ensures HasRow(tasks, k) <==> HasRow(t', k)
      ensures LatestSettled(tasks, k) <==> LatestSettled(t', k)
      ensures LatestDead(tasks, k) <==> LatestDead(t', k)
    {
      SameTop(tasks, t', k);
      if HasRow(tasks, k) && k == id.step {
        LatestAt(tasks, k, id.attempt);
        LatestAt(t', k, id.attempt);
      }
    }
  }

  lemma SameTop(t: Tasks, t': Tasks, k: string)
    requires t.Keys == t'.Keys
    ensures HasRow(t, k) <==> HasRow(t', k)
    ensures HasRow(t, k) ==> Top(t', k) == Top(t, k)
  {
    forall id
      ensures id in t <==> id in t'
    {
      assert id in t <==> id in t.Keys;
    }
    if HasRow(t, k) {
      assert IsTop(t', k, Top(t, k));
      LatestAt(t', k, Top(t, k));
    }
  }

  lemma StartingDue(g: Graph, s: State, e: Event)
    requires RowsOk(g, s.tasks) && AdvanceDue(g, s) && Enabled(s, e) && Starting(e)
    ensures AdvanceDue(g, ApplyStarting(g, s, e))
  {
    hide BuildContext, Actionable, Grounded, AttemptLadder;
    match e
    case Load(_) =>
    case Prepare(_) =>
    case Claim(id, _) =>
      if id in s.tasks && s.tasks[id].status == Queued {
        LiveMoveSame(s.tasks, id, s.tasks[id].(status := Running));
        SameActions(g, s.tasks, s.tasks[id := s.tasks[id].(status := Running)]);
      }
  }

  lemma ParkingDue(g: Graph, s: State, e: Event)
    requires RowsOk(g, s.tasks) && AdvanceDue(g, s) && Enabled(s, e) && Parking(e)
    ensures AdvanceDue(g, ApplyParking(s, e))
  {
    hide Actionable, Grounded, AttemptLadder;
    match e
    case Suspend(id, _, token, timed, output) =>
      if id in s.tasks && s.tasks[id].status == Running && token !in s.parked {
        LiveMoveSame(s.tasks, id, Row(Suspended, Some(output)));
        SameActions(g, s.tasks, s.tasks[id := Row(Suspended, Some(output))]);
      }
    case TimerPickup(_, _) =>
    case TimerStale(_) =>
    case CallbackPickup(_, _) =>
    case Resume(_, _, _) =>
  }

  lemma EndingDue(g: Graph, s: State, e: Event)
    requires RowsOk(g, s.tasks) && AdvanceDue(g, s) && Enabled(s, e) && Ending(e)
    ensures AdvanceDue(g, ApplyEnding(g, s, e))
  {
    hide RowsOk, Actionable, ApplyEnding, EndTx;
    ShapeOfEnding(g, s, e);
    if Wins(s, e) {
      NextAttemptIsFree(g, s.tasks, e.id);
      EndAwake(Leaving(s, e), e.id, FinalRow(s, e), RetriesSeen(g, e));
    }
  }

  lemma FaultDue(g: Graph, s: State, e: Event)
    requires AdvanceDue(g, s) && Fault(e)
    ensures AdvanceDue(g, ApplyFault(s, e))
  {
    hide Actionable;
    match e
    case WorkerDies(_, _) =>
    case ResumerDies(_, _, _) =>
    case LoadedLost(_) =>
    case PreparedLost(_, _) =>
    case ReplayAdvance =>
    case ReplayExecute(_) =>
    case ReplayResume(_) =>
  }

  /** A step with a new row that is queued only, and no other step, looks different. */
  lemma FilledLatest(w: World, g: Graph, t: Tasks, k: string)
    requires !GuardResolved(FirstRows(w, g, t))
    ensures var t' := t + FirstRows(w, g, t);
      && (LatestSettled(t', k) <==> LatestSettled(t, k)) && (LatestDead(t', k) <==> LatestDead(t, k))
      && (HasRow(t', k) <==> HasRow(t, k) || Ready(g, t, k))
  {
    hide FirstRows, FirstStatus, Ready, LatestSettled, LatestDead;
    var rows := FirstRows(w, g, t);
    if Ready(g, t, k) {
      FirstRowsCover(w, g, t, k);
      ReadyLatest(w, g, t, k);
    } else {
      forall id | id in rows
        ensures id.step != k && id !in t
      {
        FirstRowsNew(w, g, t, id);
      }
      UnfilledLatest(t, rows, k);
    }
  }

  lemma UnfilledLatest(t: Tasks, rows: Tasks, k: string)
    requires forall id :: id in rows ==> id.step != k && id !in t
    ensures (HasRow(t + rows, k) <==> HasRow(t, k)) && Latest(t + rows, k) == Latest(t, k)
    ensures LatestSettled(t + rows, k) <==> LatestSettled(t, k)
    ensures LatestDead(t + rows, k) <==> LatestDead(t, k)
  {
    var t' := t + rows;
    assert forall id: TaskId :: id.step == k ==> (id in t' <==> id in t);
    if HasRow(t, k) {
      var top := TaskId(k, Top(t, k));
      assert top.step == k && IsTop(t', k, Top(t, k)) && t'[top] == t[top];
      LatestAt(t', k, Top(t, k));
    }
  }

  lemma ReadyLatest(w: World, g: Graph, t: Tasks, k: string)
    requires Ready(g, t, k) && !GuardResolved(FirstRows(w, g, t)) && TaskId(k, 1) in FirstRows(w, g, t)
    ensures var t' := t + FirstRows(w, g, t);
      && HasRow(t', k) && !LatestSettled(t', k) && !LatestDead(t', k) && !LatestSettled(t, k) && !LatestDead(t, k)
  {
    hide FirstRows, FirstStatus;
    var rows := FirstRows(w, g, t);
    var t' := t + rows;
    assert rows[TaskId(k, 1)].status == Queued;
    assert TaskId(k, 1).step == k;
    forall id | id in t' && id.step == k
      ensures id.attempt <= 1
    {
      if id in rows {
        FirstRowsNew(w, g, t, id);
      }
    }
    hide GuardResolved, Ready;
    assert IsTop(t', k, 1);
    LatestAt(t', k, 1);
    ReadyIsNew(g, t, k);
  }

  lemma ReadyIsNew(g: Graph, t: Tasks, k: string)
    requires Ready(g, t, k)
    ensures !HasRow(t, k) && !LatestSettled(t, k) && !LatestDead(t, k)
  {
  }

  /** A pass that resolves no guard leaves nothing for another pass to do. */
  lemma NothingLeftToDo(w: World, g: Graph, t: Tasks)
    requires !AnyDead(g, t) && !AllSettled(g, t) && !GuardResolved(FirstRows(w, g, t))
    ensures !Actionable(g, t + FirstRows(w, g, t))
  {
    var t' := t + FirstRows(w, g, t);
    hide FirstRows, GuardResolved, LatestSettled, LatestDead, HasRow;
    forall k
      ensures (LatestSettled(t', k) <==> LatestSettled(t, k)) && (LatestDead(t', k) <==> LatestDead(t, k))
      ensures !Ready(g, t', k)
    {
      FilledLatest(w, g, t, k);
      if k in g {
        forall n
          ensures LatestSettled(t', n) <==> LatestSettled(t, n)
        {
          FilledLatest(w, g, t, n);
        }
      }
    }
  }

  lemma SpreadDue(w: World, g: Graph, s: State)
    requires !AnyDead(g, s.tasks) && !AllSettled(g, s.tasks)
    ensures AdvanceDue(g, SpreadTx(s, FirstRows(w, g, s.tasks)))
  {
    if !GuardResolved(FirstRows(w, g, s.tasks)) {
      NothingLeftToDo(w, g, s.tasks);
    }
    hide AnyDead, AllSettled, FirstRows, GuardResolved, QueuedIn, Actionable;
  }

  lemma AdvanceKeepsDue(w: World, g: Graph, s: State)
    ensures AdvanceDue(g, AdvanceTx(w, g, s))
  {
    hide AnyDead, AllSettled, FirstRows, SpreadTx, Actionable;
    if !Terminal(s.run) && !AnyDead(g, s.tasks) && !AllSettled(g, s.tasks) {
      SpreadDue(w, g, s);
    }
  }

  lemma AdvanceDueKept(w: World, g: Graph, s: State, e: Event)
    requires RowsOk(g, s.tasks) && AdvanceDue(g, s) && Enabled(s, e)
    ensures AdvanceDue(g, Apply(w, g, s, e))
  {
    hide RowsOk, AdvanceTx, Actionable, RedoIds, ApplyStarting, ApplyEnding, ApplyParking, ApplyFault;
    if Starting(e) {
      StartingDue(g, s, e);
    } else if Ending(e) {
      EndingDue(g, s, e);
    } else if Parking(e) {
      ParkingDue(g, s, e);
    } else if Fault(e) {
      FaultDue(g, s, e);
    } else {
      match e
      case Advance => AdvanceKeepsDue(w, g, s.(advances := s.advances - 1));
      case CancelRun =>
      case RetryRun =>
    }
  }

  // ----- every queued row will be claimed -----

  /** Nothing that could dispatch a row is taken away, and new queued rows come
      with their job. */
  ghost predicate DispatchGrows(s: State, s': State) {
    && (forall id :: id in s.executes ==> id in s'.executes)
    && (forall id :: id in s.loaded ==> id in s'.loaded)
    && (forall p :: p in s.prepared ==> p in s'.prepared)
    && (forall id :: id in s'.tasks && s'.tasks[id].status == Queued ==>
          (id in s.tasks && s.tasks[id].status == Queued) || id in s'.executes)
  }

  lemma FoundGrowing(s: State, s': State, id: TaskId)
    requires !Lost(s, id) && DispatchGrows(s, s')
    ensures !Lost(s', id)
  {
    if p :| p in s.prepared && p.id == id {
      assert p in s'.prepared;
    }
  }

  lemma AdvanceDispatches(w: World, g: Graph, s: State)
    ensures DispatchGrows(s, AdvanceTx(w, g, s))
  {
    hide AnyDead, AllSettled, FirstRows, SpreadTx;
    SpreadDispatches(s, FirstRows(w, g, s.tasks));
  }

  lemma SpreadDispatches(s: State, rows: Tasks)
    ensures DispatchGrows(s, SpreadTx(s, rows))
  {
    hide GuardResolved;
    var s' := SpreadTx(s, rows);
    assert forall id :: id in QueuedIn(rows) ==> id in s'.executes;
  }

  lemma RetryDispatches(s: State)
    ensures DispatchGrows(s, RetryTx(s))
  {
    hide RedoIds;
  }

  /** A row that ends is not queued, and the attempt that follows has its job. */
  lemma EndFinds(s: State, other: TaskId, row: Row, retries: int, id: TaskId)
    requires id != other ==> !Lost(s, id)
    requires other in s.tasks && row.status != Queued && NextAttempt(other) !in s.tasks
    ensures !Lost(EndTx(s, other, row, retries), id)
  {
    hide Pow2;
    if id != other && PreparedFor(s.prepared, id) {
      assert PreparedFor(EndTx(s, other, row, retries).prepared, id);
    }
  }

  /** The worker that leaves carried no other row. */
  lemma LeavingFinds(s: State, e: Event, id: TaskId)
    requires !Lost(s, id) && Enabled(s, e) && Ending(e) && e.id != id
    ensures !Lost(Leaving(s, e), id)
  {
    if p :| p in s.prepared && p.id == id {
      assert p in Leaving(s, e).prepared;
    }
  }

  lemma LoserKeepsRow(s: State, e: Event)
    requires Ending(e) && !Wins(s, e) && Enabled(s, e)
    ensures !Lost(Leaving(s, e), e.id)
  {
  }

  lemma EndingFinds(g: Graph, s: State, e: Event, id: TaskId)
    requires RowsOk(g, s.tasks) && !Lost(s, id) && Enabled(s, e) && Ending(e)
    ensures !Lost(ApplyEnding(g, s, e), id)
  {
    hide RowsOk, ApplyEnding, EndTx, Lost;
    ShapeOfEnding(g, s, e);
    if e.id != id {
      LeavingFinds(s, e, id);
    }
    if Wins(s, e) {
      NextAttemptIsFree(g, s.tasks, e.id);
      EndFinds(Leaving(s, e), e.id, FinalRow(s, e), RetriesSeen(g, e), id);
    } else if e.id == id {
      LoserKeepsRow(s, e);
    }
  }

  lemma LoadFinds(s: State, other: TaskId, id: TaskId)
    requires !Lost(s, id)
    ensures !Lost(LoadTx(s.(executes := s.executes - multiset{other}), other), id)
  {
    if p :| p in s.prepared && p.id == id {
      assert p in LoadTx(s.(executes := s.executes - multiset{other}), other).prepared;
    }
  }

  lemma PrepareFinds(s: State, p: Prepared, id: TaskId)
    requires !Lost(s, id)
    ensures !Lost(s.(loaded := s.loaded - multiset{p.id}, prepared := s.prepared + multiset{p}), id)
  {
    var s' := s.(loaded := s.loaded - multiset{p.id}, prepared := s.prepared + multiset{p});
    assert p in s'.prepared;
    if q :| q in s.prepared && q.id == id {
      assert q in s'.prepared;
    }
  }

  lemma ClaimFinds(s: State, p: Prepared, id: TaskId)
    requires !Lost(s, id)
    ensures !Lost(ClaimTx(s.(prepared := s.prepared - multiset{p}), p.id, p.ctx), id)
  {
    var s' := ClaimTx(s.(prepared := s.prepared - multiset{p}), p.id, p.ctx);
    if id != p.id && PreparedFor(s.prepared, id) {
      var q :| q in s.prepared && q.id == id;
      assert q in s'.prepared;
    }
  }

  lemma StartingFinds(g: Graph, s: State, e: Event, id: TaskId)
    requires !Lost(s, id) && Enabled(s, e) && Starting(e)
    ensures !Lost(ApplyStarting(g, s, e), id)
  {
    hide BuildContext, Lost, LoadTx, ClaimTx;
    match e
    case Load(other) => LoadFinds(s, other, id);
    case Prepare(other) => PrepareFinds(s, Prepared(other, BuildContext(g, s.tasks, other.step)), id);
    case Claim(other, ctx) => ClaimFinds(s, Prepared(other, ctx), id);
  }

  lemma ParkingDispatches(s: State, e: Event)
    requires Enabled(s, e) && Parking(e)
    ensures DispatchGrows(s, ApplyParking(s, e))
  {
    match e
    case Suspend(_, _, _, _, _) =>
    case TimerPickup(_, _) =>
    case TimerStale(_) =>
    case CallbackPickup(_, _) =>
    case Resume(_, _, _) =>
  }

  /** A worker that dies after its claim loses nothing here; one that dies
      before it may lose its row. */
  predicate MayLose(e: Event, id: TaskId) {
    (e.LoadedLost? || e.PreparedLost?) && e.id == id
  }

  lemma FaultDispatches(s: State, e: Event)
    requires Fault(e) && !e.LoadedLost? && !e.PreparedLost?
    ensures DispatchGrows(s, ApplyFault(s, e))
  {
    match e
    case WorkerDies(_, _) =>
    case ResumerDies(_, _, _) =>
    case ReplayAdvance =>
    case ReplayExecute(_) =>
    case ReplayResume(_) =>
  }

  lemma LoadedLostFinds(s: State, other: TaskId, id: TaskId)
    requires !Lost(s, id) && id != other
    ensures !Lost(s.(loaded := s.loaded - multiset{other}), id)
  {
  }

  lemma PreparedLostFinds(s: State, p: Prepared, id: TaskId)
    requires !Lost(s, id) && id != p.id
    ensures !Lost(s.(prepared := s.prepared - multiset{p}), id)
  {
    if q :| q in s.prepared && q.id == id {
      assert q in s.prepared - multiset{p};
    }
  }

  lemma FaultFinds(s: State, e: Event, id: TaskId)
    requires !Lost(s, id) && Fault(e) && !MayLose(e, id)
    ensures !Lost(ApplyFault(s, e), id)
  {
    hide Lost, DispatchGrows;
    if e.LoadedLost? {
      LoadedLostFinds(s, e.id, id);
    } else if e.PreparedLost? {
      PreparedLostFinds(s, Prepared(e.id, e.ctx), id);
    } else {
      FaultDispatches(s, e);
      hide ApplyFault;
      FoundGrowing(s, ApplyFault(s, e), id);
    }
  }

  lemma CancelDispatches(s: State)
    ensures DispatchGrows(s, CancelTx(s))
  {
  }

  /** No other event can lose a row. */
  lemma FoundKept(w: World, g: Graph, s: State, e: Event, id: TaskId)
    requires RowsOk(g, s.tasks) && !Lost(s, id) && Enabled(s, e) && !MayLose(e, id)
    ensures !Lost(Apply(w, g, s, e), id)
  {
    hide RowsOk, Lost, DispatchGrows, AdvanceTx, CancelTx, RetryTx, ApplyStarting, ApplyEnding, ApplyParking,
      ApplyFault;
    if Starting(e) {
      StartingFinds(g, s, e, id);
    } else if Ending(e) {
      EndingFinds(g, s, e, id);
    } else if Fault(e) {
      FaultFinds(s, e, id);
    } else {
      if Parking(e) {
        ParkingDispatches(s, e);
      } else if e.Advance? {
        var s0 := s.(advances := s.advances - 1);
        AdvanceDispatches(w, g, s0);
        DispatchReads(s, s0, AdvanceTx(w, g, s0));
      } else if e.CancelRun? {
        CancelDispatches(s);
      } else {
        RetryDispatches(s);
      }
      FoundGrowing(s, Apply(w, g, s, e), id);
    }
  }

  /** Cancelling and redelivering end a loss. */
  lemma LossEnds(w: World, g: Graph, s: State, e: Event, id: TaskId)
    requires Lost(s, id) && Enabled(s, e) && (e.CancelRun? || e == ReplayExecute(id))
    ensures !Lost(Apply(w, g, s, e), id)
  {
    match e
    case CancelRun =>
    case ReplayExecute(_) =>
  }

  lemma DispatchReads(s: State, s0: State, s': State)
    requires s0 == s.(advances := s0.advances) && DispatchGrows(s0, s')
    ensures DispatchGrows(s, s')
  {
  }

  // ----- every timed wait has its timer -----

  /** Resume jobs and resumers survive, suspended rows are not new. */
  ghost predicate TimersGrow(s: State, s': State) {
    && s'.parked == s.parked
    && (forall id :: id in s.resumes ==> id in s'.resumes)
    && (forall r :: r in s.resuming ==> r in s'.resuming)
    && (forall id :: id in s'.tasks && s'.tasks[id].status == Suspended ==>
          id in s.tasks && s.tasks[id].status == Suspended)
  }

  lemma TimersKeptGrowing(s: State, s': State)
    requires TimersSet(s) && TimersGrow(s, s')
    ensures TimersSet(s')
  {
    forall token | token in s'.parked
      ensures TimerRuns(s', token)
    {
      assert TimerRuns(s, token);
      var id := s.parked[token].task;
      if s.parked[token].timed && id in s'.tasks && s'.tasks[id].status == Suspended && id !in s.resumes {
        var r :| r in s.resuming && r.id == id && r.timer;
        assert r in s'.resuming;
      }
    }
  }

  lemma WorkTimersGrow(w: World, g: Graph, s: State, e: Event)
    requires RowsOk(g, s.tasks) && Enabled(s, e) && (Starting(e) || Ending(e) || e.Advance? || e.RetryRun?)
    ensures TimersGrow(s, Apply(w, g, s, e))
  {
    hide RowsOk, AdvanceTx, RetryTx, CancelTx, ApplyStarting, ApplyEnding, ApplyParking, ApplyFault;
    if Starting(e) {
      StartingApart(g, s, e);
      StartingKeepsResumers(g, s, e);
    } else if Ending(e) {
      EndingApart(g, s, e);
      EndingKeepsResumers(g, s, e);
    } else {
      ControlKeepsResumers(w, g, s, e);
      if e.Advance? {
        AdvanceApart(w, g, s.(advances := s.advances - 1));
      } else {
        RetryApart(s);
      }
    }
  }

  lemma CancelTimersGrow(s: State)
    ensures TimersGrow(s, CancelTx(s))
  {
  }

  lemma SuspendTimers(s: State, id: TaskId, token: string, timed: bool, output: string)
    requires TimersSet(s) && ParkedOk(s.parked, s.tasks)
    ensures TimersSet(SuspendTx(s, id, token, timed, output))
  {
  }

  lemma ResumeTimers(s: State, r: Resuming)
    requires TimersSet(s)
    ensures TimersSet(ResumeTx(s.(resuming := s.resuming - multiset{r}), r.id, r.output))
  {
    var s' := ResumeTx(s.(resuming := s.resuming - multiset{r}), r.id, r.output);
    forall token | token in s'.parked
      ensures TimerRuns(s', token)
    {
      assert TimerRuns(s, token);
      var id := s.parked[token].task;
      if s.parked[token].timed && id in s'.tasks && s'.tasks[id].status == Suspended && id !in s.resumes {
        var q :| q in s.resuming && q.id == id && q.timer;
        assert q in s'.resuming;
      }
    }
  }

  /** A resume job handed over to a resumer, or dropped because nothing waits. */
  lemma HandoverTimers(s: State, s': State, id: TaskId)
    requires TimersSet(s)
    requires s'.parked == s.parked && s'.tasks == s.tasks
    requires forall other :: other in s.resumes && other != id ==> other in s'.resumes
    requires forall r :: r in s.resuming ==> r in s'.resuming || r.id == id
    requires IsParked(s.parked, id) ==> id in s'.resumes || ResumerFor(s'.resuming, id)
    ensures TimersSet(s')
  {
    forall token | token in s'.parked
      ensures TimerRuns(s', token)
    {
      assert TimerRuns(s, token);
      var other := s.parked[token].task;
      if other == id {
        assert IsParked(s.parked, id);
      } else if && s.parked[token].timed && other in s'.tasks && s'.tasks[other].status == Suspended
                && other !in s.resumes {
        var r :| r in s.resuming && r.id == other && r.timer;
        assert r in s'.resuming;
      }
    }
  }

  lemma TimersRead(s: State, s': State)
    requires TimersSet(s)
    requires s'.parked == s.parked && s'.tasks == s.tasks && s'.resumes == s.resumes && s'.resuming == s.resuming
    ensures TimersSet(s')
  {
    forall token | token in s'.parked
      ensures TimerRuns(s', token)
    {
      assert TimerRuns(s, token);
    }
  }

  lemma PickupTimers(s: State, id: TaskId, token: string)
    requires TimersSet(s) && Enabled(s, TimerPickup(id, token))
    ensures TimersSet(ApplyParking(s, TimerPickup(id, token)))
  {
    hide TimersSet;
    var s' := ApplyParking(s, TimerPickup(id, token));
    assert Resuming(id, s.parked[token].payload, true) in s'.resuming;
    HandoverTimers(s, s', id);
  }

  lemma CallbackTimers(s: State, r: Resuming)
    requires TimersSet(s)
    ensures TimersSet(s.(resuming := s.resuming + multiset{r}))
  {
    TimersKeptGrowing(s, s.(resuming := s.resuming + multiset{r}));
  }

  lemma ParkingTimers(s: State, e: Event)
    requires TimersSet(s) && ParkedOk(s.parked, s.tasks) && Enabled(s, e) && Parking(e)
    ensures TimersSet(ApplyParking(s, e))
  {
    hide TimersSet, ParkedOk, SuspendTx, ResumeTx;
    match e
    case Suspend(id, ctx, token, timed, output) =>
      var left := s.(executing := s.executing - multiset{Prepared(id, ctx)});
      TimersRead(s, left);
      SuspendTimers(left, id, token, timed, output);
    case TimerPickup(id, token) =>
      PickupTimers(s, id, token);
    case TimerStale(id) =>
      HandoverTimers(s, ApplyParking(s, e), id);
    case CallbackPickup(token, output) =>
      CallbackTimers(s, Resuming(s.parked[token].task, output, false));
    case Resume(id, output, timer) =>
      ResumeTimers(s, Resuming(id, output, timer));
  }

  lemma ReplayTimers(s: State, id: TaskId)
    requires TimersSet(s)
    ensures TimersSet(s.(resumes := s.resumes + multiset{id}))
  {
    TimersKeptGrowing(s, s.(resumes := s.resumes + multiset{id}));
  }

  lemma FaultTimers(s: State, e: Event)
    requires TimersSet(s) && Enabled(s, e) && Fault(e)
    ensures TimersSet(ApplyFault(s, e))
  {
    hide TimersSet;
    match e
    case ResumerDies(id, output, timer) => DyingResumer(s, Resuming(id, output, timer));
    case WorkerDies(_, _) => TimersRead(s, ApplyFault(s, e));
    case LoadedLost(_) => TimersRead(s, ApplyFault(s, e));
    case PreparedLost(_, _) => TimersRead(s, ApplyFault(s, e));
    case ReplayAdvance => TimersRead(s, ApplyFault(s, e));
    case ReplayExecute(_) => TimersRead(s, ApplyFault(s, e));
    case ReplayResume(id) => ReplayTimers(s, id);
  }

  /** A dead resumer's job is retried when it came from a timer; a dropped HTTP
      callback had no timer to keep. */
  lemma DyingResumer(s: State, r: Resuming)
    requires TimersSet(s) && r in s.resuming
    ensures TimersSet(s.(resuming := s.resuming - multiset{r},
                         resumes := if r.timer then s.resumes + multiset{r.id} else s.resumes))
  {
    var s' := s.(resuming := s.resuming - multiset{r},
                 resumes := if r.timer then s.resumes + multiset{r.id} else s.resumes);
    forall token | token in s'.parked
      ensures TimerRuns(s', token)
    {
      assert TimerRuns(s, token);
      var id := s.parked[token].task;
      if s.parked[token].timed && id in s'.tasks && s'.tasks[id].status == Suspended && id !in s'.resumes {
        var q :| q in s.resuming && q.id == id && q.timer;
        assert q in s'.resuming;
      }
    }
  }

  lemma TimersKept(w: World, g: Graph, s: State, e: Event)
    requires RowsOk(g, s.tasks) && BooksOk(s) && TimersSet(s) && Enabled(s, e)
    ensures TimersSet(Apply(w, g, s, e))
  {
    hide RowsOk, ParkedOk, TimersOk, ResumedOnce, TimersSet, TimersGrow,
      AdvanceTx, CancelTx, RetryTx, ApplyStarting, ApplyEnding, ApplyParking, ApplyFault;
    if Parking(e) {
      ParkingTimers(s, e);
    } else if Fault(e) {
      FaultTimers(s, e);
    } else if e.CancelRun? {
      CancelTimersGrow(s);
      TimersKeptGrowing(s, CancelTx(s));
    } else {
      WorkTimersGrow(w, g, s, e);
      TimersKeptGrowing(s, Apply(w, g, s, e));
    }
  }
}
