/**
 Suspension bookkeeping: one row per suspended task, none for a task that is
 neither suspended nor canceled, and at most one resume ever takes effect.
 */
module Suspensions {
  import opened Definitions
  import opened RunState
  import opened Ladder

  ghost predicate ParkedOk(parked: map<string, Suspension>, tasks: Tasks) {
    && (forall token :: token in parked ==>
          && parked[token].task in tasks
          && (tasks[parked[token].task].status == Suspended || tasks[parked[token].task].status == Canceled)
          && tasks[parked[token].task].output == Some(parked[token].payload))
    && (forall a, b :: a in parked && b in parked && parked[a].task == parked[b].task ==> a == b)
    && (forall id :: id in tasks && tasks[id].status == Suspended ==> IsParked(parked, id))
  }

  /** A resume job exists only for timed suspensions. */
  ghost predicate TimersOk(parked: map<string, Suspension>, tasks: Tasks, timers: set<TaskId>) {
    && (forall id :: id in timers ==> id in tasks && Progress(tasks[id].status) >= 2)
    && (forall token :: token in parked ==> (parked[token].timed <==> parked[token].task in timers))
  }

  ghost predicate ResumedOnce(resumed: multiset<TaskId>, tasks: Tasks) {
    forall id :: id in resumed ==> id in tasks && tasks[id].status == Succeeded && resumed[id] == 1
  }

  ghost predicate BooksOk(s: State) {
    ParkedOk(s.parked, s.tasks) && TimersOk(s.parked, s.tasks, s.timers) && ResumedOnce(s.resumed, s.tasks)
  }

  predicate ResumerOk(tasks: Tasks, timers: set<TaskId>, r: Resuming) {
    r.id in tasks && Progress(tasks[r.id].status) >= 2 && (r.timer ==> r.id in timers)
  }

  ghost predicate ResumersOk(s: State) {
    && (forall id :: id in s.resumes ==> id in s.timers)
    && (forall r :: r in s.resuming ==> ResumerOk(s.tasks, s.timers, r))
  }

  // ----- events that neither suspend nor end a suspension -----

  /** Rows past `running` are left alone and none is newly suspended. */
  ghost predicate SuspendedSame(t: Tasks, t': Tasks) {
    && (forall id :: id in t && Progress(t[id].status) >= 2 ==> id in t' && t'[id] == t[id])
    && (forall id :: id in t' && t'[id].status == Suspended ==> id in t && t[id].status == Suspended)
  }

  ghost predicate SameBooks(s: State, s': State) {
    s'.parked == s.parked && s'.timers == s.timers && s'.resumed == s.resumed
  }

  lemma BooksKeptApart(s: State, s': State)
    requires BooksOk(s) && SameBooks(s, s') && SuspendedSame(s.tasks, s'.tasks)
    ensures BooksOk(s')
  {
  }

  lemma EndApart(s: State, id: TaskId, row: Row, retries: int)
    requires id in s.tasks && Progress(s.tasks[id].status) < 2
    requires row.status == Succeeded || row.status == Failed
    ensures SuspendedSame(s.tasks, EndTx(s, id, row, retries).tasks)
    ensures SameBooks(s, EndTx(s, id, row, retries))
  {
    MoveApart(s.tasks, id, row);
    SameApart(s.tasks);
    if NextAttempt(id) !in s.tasks {
      OneMoreApart(s.tasks, s.tasks[id := row], NextAttempt(id));
    }
    hide SuspendedSame, Pow2;
  }

  lemma OneMoreApart(t: Tasks, t': Tasks, next: TaskId)
    requires SuspendedSame(t, t') && next !in t
    ensures SuspendedSame(t, t'[next := Row(Queued, None)])
  {
  }

  lemma SameApart(t: Tasks)
    ensures SuspendedSame(t, t)
  {
  }

  lemma EndingApart(g: Graph, s: State, e: Event)
    requires Enabled(s, e) && Ending(e)
    ensures SuspendedSame(s.tasks, ApplyEnding(g, s, e).tasks)
    ensures SameBooks(s, ApplyEnding(g, s, e))
  {
    hide ApplyEnding, EndTx, SuspendedSame;
    ShapeOfEnding(g, s, e);
    SameApart(s.tasks);
    if Wins(s, e) {
      EndApart(Leaving(s, e), e.id, FinalRow(s, e), RetriesSeen(g, e));
    }
  }

  lemma MoveApart(t: Tasks, id: TaskId, row: Row)
    requires id in t && Progress(t[id].status) < 2 && row.status != Suspended
    ensures SuspendedSame(t, t[id := row])
  {
  }

  lemma LoadApart(s: State, id: TaskId)
    ensures LoadTx(s, id).tasks == s.tasks && SameBooks(s, LoadTx(s, id))
  {
  }

  lemma ClaimApart(s: State, id: TaskId, ctx: Context)
    ensures SuspendedSame(s.tasks, ClaimTx(s, id, ctx).tasks) && SameBooks(s, ClaimTx(s, id, ctx))
  {
    hide SuspendedSame;
    SameApart(s.tasks);
    if id in s.tasks && s.tasks[id].status == Queued {
      MoveApart(s.tasks, id, s.tasks[id].(status := Running));
    }
  }

  lemma StartingApart(g: Graph, s: State, e: Event)
    requires Starting(e)
    ensures SuspendedSame(s.tasks, ApplyStarting(g, s, e).tasks)
    ensures SameBooks(s, ApplyStarting(g, s, e))
  {
    hide BuildContext, SuspendedSame, LoadTx, ClaimTx;
    SameApart(s.tasks);
    match e
    case Load(id) => LoadApart(s.(executes := s.executes - multiset{id}), id);
    case Prepare(_) =>
    case Claim(id, ctx) => ClaimApart(s.(prepared := s.prepared - multiset{Prepared(id, ctx)}), id, ctx);
  }

  lemma FaultApart(s: State, e: Event)
    requires Fault(e)
    ensures SuspendedSame(s.tasks, ApplyFault(s, e).tasks)
    ensures SameBooks(s, ApplyFault(s, e))
  {
    hide SuspendedSame;
    SameApart(s.tasks);
    FaultKeepsRows(s, e);
  }

  lemma InsertsApart(t: Tasks, rows: Tasks)
    requires forall id :: id in rows ==> id !in t && rows[id].status != Suspended
    ensures SuspendedSame(t, t + rows)
  {
  }

  lemma FirstsApart(w: World, g: Graph, t: Tasks)
    ensures SuspendedSame(t, t + FirstRows(w, g, t))
  {
    hide FirstRows, FirstStatus, Ready, SuspendedSame;
    var rows := FirstRows(w, g, t);
    forall id | id in rows
      ensures id !in t && rows[id].status != Suspended
    {
      FirstRowsNew(w, g, t, id);
    }
    InsertsApart(t, rows);
  }

  lemma SpreadBooks(s: State, rows: Tasks)
    ensures SameBooks(s, SpreadTx(s, rows)) && SpreadTx(s, rows).tasks == s.tasks + rows
  {
    hide QueuedIn, GuardResolved;
  }

  lemma AdvanceApart(w: World, g: Graph, s: State)
    ensures SuspendedSame(s.tasks, AdvanceTx(w, g, s).tasks)
    ensures SameBooks(s, AdvanceTx(w, g, s))
  {
    hide AnyDead, AllSettled, FirstRows, SpreadTx, SuspendedSame;
    FirstsApart(w, g, s.tasks);
    SameApart(s.tasks);
    SpreadBooks(s, FirstRows(w, g, s.tasks));
  }

  lemma RetryApart(s: State)
    ensures SuspendedSame(s.tasks, RetryTx(s).tasks)
    ensures SameBooks(s, RetryTx(s))
  {
    hide SuspendedSame;
    SameApart(s.tasks);
    InsertsApart(s.tasks, map id | id in RedoIds(s.tasks) :: Row(Queued, None));
  }

  // ----- events that do -----

  lemma CancelBooks(s: State)
    requires BooksOk(s)
    ensures BooksOk(CancelTx(s))
  {
  }

  lemma SuspendParked(parked: map<string, Suspension>, tasks: Tasks, token: string, p: Suspension, row: Row)
    requires ParkedOk(parked, tasks) && token !in parked
    requires p.task in tasks && tasks[p.task].status == Running && row == Row(Suspended, Some(p.payload))
    ensures ParkedOk(parked[token := p], tasks[p.task := row])
  {
    var parked' := parked[token := p];
    forall other | other in tasks && other != p.task && tasks[other].status == Suspended
      ensures IsParked(parked', other)
    {
      assert IsParked(parked, other);
      var a :| a in parked && parked[a].task == other;
      assert a in parked' && parked'[a].task == other;
    }
    assert token in parked' && parked'[token].task == p.task;
  }

  lemma SuspendTimersOk(
      parked: map<string, Suspension>, tasks: Tasks, timers: set<TaskId>, token: string, p: Suspension, row: Row)
    requires ParkedOk(parked, tasks) && TimersOk(parked, tasks, timers) && token !in parked
    requires p.task in tasks && tasks[p.task].status == Running && row.status == Suspended
    ensures TimersOk(parked[token := p], tasks[p.task := row], if p.timed then timers + {p.task} else timers)
  {
    hide IsParked;
  }

  lemma SuspendBooks(s: State, id: TaskId, token: string, timed: bool, output: string)
    requires BooksOk(s)
    ensures BooksOk(SuspendTx(s, id, token, timed, output))
  {
    if id in s.tasks && s.tasks[id].status == Running && token !in s.parked {
      var p, row := Suspension(id, timed, output), Row(Suspended, Some(output));
      SuspendParked(s.parked, s.tasks, token, p, row);
      SuspendTimersOk(s.parked, s.tasks, s.timers, token, p, row);
      hide ParkedOk, TimersOk;
    }
  }

  lemma ResumeParked(parked: map<string, Suspension>, tasks: Tasks, id: TaskId, row: Row)
    requires ParkedOk(parked, tasks) && id in tasks
    requires if tasks[id].status == Suspended then row.status == Succeeded else row == tasks[id]
    ensures ParkedOk(Unpark(parked, id), tasks[id := row])
  {
    var parked' := Unpark(parked, id);
    forall other | other in tasks && other != id && tasks[other].status == Suspended
      ensures IsParked(parked', other)
    {
      assert IsParked(parked, other);
      var a :| a in parked && parked[a].task == other;
      assert a in parked' && parked'[a].task == other;
    }
  }

  lemma ResumeBooks(s: State, id: TaskId, output: string)
    requires BooksOk(s) && id in s.tasks && Progress(s.tasks[id].status) >= 2
    ensures BooksOk(ResumeTx(s, id, output))
  {
    var row := if s.tasks[id].status == Suspended then Row(Succeeded, Some(output)) else s.tasks[id];
    ResumeParked(s.parked, s.tasks, id, row);
    assert s.tasks[id].status != Suspended ==> s.tasks[id := row] == s.tasks;
    hide ParkedOk;
  }

  lemma PickupKeepsBooks(s: State, e: Event)
    requires Enabled(s, e) && (e.TimerPickup? || e.TimerStale? || e.CallbackPickup?)
    ensures ApplyParking(s, e).tasks == s.tasks && SameBooks(s, ApplyParking(s, e))
  {
    hide SuspendTx, ResumeTx;
  }

  lemma SuspendingBooks(s: State, p: Prepared, token: string, timed: bool, output: string)
    requires BooksOk(s)
    ensures BooksOk(SuspendTx(s.(executing := s.executing - multiset{p}), p.id, token, timed, output))
  {
    hide BooksOk, SuspendTx;
    var left := s.(executing := s.executing - multiset{p});
    BooksOkOnlyReads(s, left);
    SuspendBooks(left, p.id, token, timed, output);
  }

  lemma ResumingBooks(s: State, r: Resuming)
    requires BooksOk(s) && ResumerOk(s.tasks, s.timers, r)
    ensures BooksOk(ResumeTx(s.(resuming := s.resuming - multiset{r}), r.id, r.output))
  {
    hide BooksOk, ResumeTx;
    var left := s.(resuming := s.resuming - multiset{r});
    BooksOkOnlyReads(s, left);
    ResumeBooks(left, r.id, r.output);
  }

  lemma ParkingBooks(s: State, e: Event)
    requires BooksOk(s) && ResumersOk(s) && Enabled(s, e) && Parking(e)
    ensures BooksOk(ApplyParking(s, e))
  {
    hide BooksOk, SuspendTx, ResumeTx, ResumerOk;
    if e.Suspend? {
      SuspendingBooks(s, Prepared(e.id, e.ctx), e.token, e.timed, e.output);
    } else if e.Resume? {
      ResumingBooks(s, Resuming(e.id, e.output, e.timer));
    } else {
      PickupKeepsBooks(s, e);
      hide ApplyParking;
      BooksOkOnlyReads(s, ApplyParking(s, e));
    }
  }

  lemma BooksOkOnlyReads(s: State, s': State)
    requires BooksOk(s) && SameBooks(s, s') && s'.tasks == s.tasks
    ensures BooksOk(s')
  {
  }

  lemma BooksKept(w: World, g: Graph, s: State, e: Event)
    requires BooksOk(s) && ResumersOk(s) && Enabled(s, e)
    ensures BooksOk(Apply(w, g, s, e))
  {
    hide BooksOk, ResumersOk, SuspendedSame, AdvanceTx, RetryTx, CancelTx, ApplyStarting, ApplyEnding, ApplyParking,
      ApplyFault;
    if Parking(e) {
      ParkingBooks(s, e);
    } else if e.CancelRun? {
      CancelBooks(s);
    } else {
      if Starting(e) {
        StartingApart(g, s, e);
      } else if Ending(e) {
        EndingApart(g, s, e);
      } else if Fault(e) {
        FaultApart(s, e);
      } else if e.Advance? {
        AdvanceApart(w, g, s.(advances := s.advances - 1));
      } else {
        RetryApart(s);
      }
      BooksKeptApart(s, Apply(w, g, s, e));
    }
  }

  // ----- the jobs and workers that resume -----

  ghost predicate SameResumers(s: State, s': State) {
    s'.resumes == s.resumes && s'.resuming == s.resuming && s'.timers == s.timers
  }

  lemma EndKeepsResumers(s: State, id: TaskId, row: Row, retries: int)
    ensures SameResumers(s, EndTx(s, id, row, retries))
  {
  }

  lemma EndingKeepsResumers(g: Graph, s: State, e: Event)
    requires Enabled(s, e) && Ending(e)
    ensures SameResumers(s, ApplyEnding(g, s, e))
  {
    hide ApplyEnding, EndTx;
    ShapeOfEnding(g, s, e);
    if Wins(s, e) {
      EndKeepsResumers(Leaving(s, e), e.id, FinalRow(s, e), RetriesSeen(g, e));
    }
  }

  lemma StartingKeepsResumers(g: Graph, s: State, e: Event)
    requires Starting(e)
    ensures SameResumers(s, ApplyStarting(g, s, e))
  {
    hide BuildContext;
  }

  lemma ControlKeepsResumers(w: World, g: Graph, s: State, e: Event)
    requires Enabled(s, e) && Control(e)
    ensures SameResumers(s, ApplyControl(w, g, s, e))
  {
    hide FirstRows, AnyDead, AllSettled, RedoIds;
  }

  lemma ResumersKeptApart(g: Graph, s: State, s': State)
    requires ResumersOk(s) && Evolves(g, s.tasks, s'.tasks) && SameResumers(s, s')
    ensures ResumersOk(s')
  {
  }

  lemma SuspendResumers(s: State, id: TaskId, token: string, timed: bool, output: string)
    requires ResumersOk(s)
    ensures ResumersOk(SuspendTx(s, id, token, timed, output))
  {
  }

  lemma ResumeResumers(s: State, id: TaskId, output: string)
    requires ResumersOk(s)
    ensures ResumersOk(ResumeTx(s, id, output))
  {
  }

  lemma ParkingResumers(s: State, e: Event)
    requires BooksOk(s) && ResumersOk(s) && Enabled(s, e) && Parking(e)
    ensures ResumersOk(ApplyParking(s, e))
  {
    hide SuspendTx, ResumeTx;
    if e.Suspend? {
      SuspendResumers(s.(executing := s.executing - multiset{Prepared(e.id, e.ctx)}), e.id, e.token, e.timed, e.output);
    } else if e.Resume? {
      ResumeResumers(s.(resuming := s.resuming - multiset{Resuming(e.id, e.output, e.timer)}), e.id, e.output);
    } else if e.TimerStale? {
      StaleResumers(s, e.id);
    } else {
      PickupResumers(s, e);
    }
  }

  lemma AddResumer(s: State, r: Resuming, resumes': multiset<TaskId>)
    requires ResumersOk(s) && ResumerOk(s.tasks, s.timers, r)
    requires forall id :: id in resumes' ==> id in s.resumes
    ensures ResumersOk(s.(resumes := resumes', resuming := s.resuming + multiset{r}))
  {
    hide ResumerOk;
  }

  lemma PickupResumers(s: State, e: Event)
    requires BooksOk(s) && ResumersOk(s) && Enabled(s, e)
    requires e.TimerPickup? || e.CallbackPickup?
    ensures ResumersOk(ApplyParking(s, e))
  {
    hide SuspendTx, ResumeTx, BooksOk, ResumerOk;
    match e
    case TimerPickup(id, token) =>
      var r := Resuming(id, s.parked[token].payload, true);
      PickupOk(s, token, r);
      AddResumer(s, r, s.resumes - multiset{id});
    case CallbackPickup(token, output) =>
      var r := Resuming(s.parked[token].task, output, false);
      PickupOk(s, token, r);
      AddResumer(s, r, s.resumes);
  }

  lemma StaleResumers(s: State, id: TaskId)
    requires ResumersOk(s)
    ensures ResumersOk(s.(resumes := s.resumes - multiset{id}))
  {
    hide ResumerOk;
  }

  lemma PickupOk(s: State, token: string, r: Resuming)
    requires BooksOk(s) && token in s.parked && s.parked[token].task == r.id
    requires r.timer ==> r.id in s.timers
    ensures ResumerOk(s.tasks, s.timers, r)
  {
  }

  lemma FaultResumers(s: State, e: Event)
    requires ResumersOk(s) && Enabled(s, e) && Fault(e)
    ensures ResumersOk(ApplyFault(s, e))
  {
  }

  lemma ResumersKept(w: World, g: Graph, s: State, e: Event)
    requires RowsOk(g, s.tasks) && BooksOk(s) && ResumersOk(s) && Enabled(s, e)
    ensures ResumersOk(Apply(w, g, s, e))
  {
    hide RowsOk, BooksOk, ResumersOk, Evolves, ApplyControl, ApplyStarting, ApplyEnding, ApplyParking, ApplyFault;
    if Parking(e) {
      ParkingResumers(s, e);
    } else if Fault(e) {
      FaultResumers(s, e);
    } else {
      StepEvolves(w, g, s, e);
      if Starting(e) {
        StartingKeepsResumers(g, s, e);
      } else if Ending(e) {
        EndingKeepsResumers(g, s, e);
      } else {
        ControlKeepsResumers(w, g, s, e);
      }
      ResumersKeptApart(g, s, Apply(w, g, s, e));
    }
  }
}
