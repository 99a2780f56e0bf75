/**
 Schedule independence.  `Ideal` is a recursive interpreter over the graph that
 knows nothing of rows, jobs or attempts; in every state the engine can reach,
 each settled step has exactly the outcome the interpreter gives it.
 */
module Interpreter {
  import opened Definitions
  import opened RunState
  import opened Ladder
  import opened Workers
  import opened Suspensions
  import opened RunStatusProof

  datatype Outcome = Skips | Yields(output: string)

  lemma UpstreamRanksLower(g: Graph, rank: map<string, nat>, k: string)
    requires IsRank(g, rank) && k in g
    ensures forall n :: n in Upstream(g, k) ==> n in g && rank[n] < rank[k]
  {
    forall n | n in Upstream(g, k)
      ensures n in g && rank[n] < rank[k]
    {
      RankDrops(g, rank, k, n);
    }
  }

  ghost function IdealContext(w: World, g: Graph, rank: map<string, nat>, k: string): Context
    requires IsRank(g, rank) && k in g
    decreases rank[k], 0
  {
    UpstreamRanksLower(g, rank, k);
    map n | n in Upstream(g, k) && Ideal(w, g, rank, n).Yields? :: Some(Ideal(w, g, rank, n).output)
  }

  ghost function IdealGuard(w: World, g: Graph, rank: map<string, nat>, k: string): Verdict
    requires IsRank(g, rank) && k in g
    decreases rank[k], 1
  {
    if g[k].cond == "" then Truthy
    else w.eval("!!(" + g[k].cond + ")", IdealContext(w, g, rank, k))
  }

  /** A falsy guard skips; otherwise the step yields what its executor gives on
      the outputs upstream.  A guard that errors never settles its step by
      itself; if RetryRun queues it anyway it yields like any other. */
  ghost function Ideal(w: World, g: Graph, rank: map<string, nat>, k: string): Outcome
    requires IsRank(g, rank) && k in g
    decreases rank[k], 2
  {
    if IdealGuard(w, g, rank, k) == Falsy then Skips
    else
      match w.exec(k, IdealContext(w, g, rank, k))
      case Return(output) => Yields(output)
      case Delay(output) => Yields(output)
      case Callback => Yields(w.payload(k))
  }

  /** The foreign code behaves as the world's functions say: an executor that
      succeeds returns their value, and a callback carries its payload and
      arrives for a task that waits for one.  Executors may still fail, at any
      time and in any pattern. */
  ghost predicate Consistent(w: World, s: State, e: Event) {
    match e
    case Finish(id, ctx, ok, output) => ok ==> w.exec(id.step, ctx) == Return(output)
    case Suspend(id, ctx, _, timed, output) => w.exec(id.step, ctx) == if timed then Delay(output) else Callback
    case CallbackPickup(token, output) =>
      token in s.parked ==> !s.parked[token].timed && output == w.payload(s.parked[token].task.step)
    case _ => true
  }

  ghost predicate RowFaithful(w: World, g: Graph, rank: map<string, nat>, id: TaskId, row: Row)
    requires IsRank(g, rank)
  {
    && id.step in g
    && match row.status
       case Skipped => Ideal(w, g, rank, id.step) == Skips && row.output == None
       case Succeeded => Ideal(w, g, rank, id.step).Yields? && row.output == Some(Ideal(w, g, rank, id.step).output)
       case _ => Ideal(w, g, rank, id.step).Yields?
  }

  ghost predicate RowsFaithful(w: World, g: Graph, rank: map<string, nat>, tasks: Tasks)
    requires IsRank(g, rank)
  {
    forall id :: id in tasks ==> RowFaithful(w, g, rank, id, tasks[id])
  }

  /** What a suspended task will resume with. */
  ghost predicate ParkedFaithful(w: World, g: Graph, rank: map<string, nat>, p: Suspension)
    requires IsRank(g, rank)
  {
    p.task.step in g && Ideal(w, g, rank, p.task.step) == Yields(if p.timed then p.payload else w.payload(p.task.step))
  }

  ghost predicate ResumerFaithful(w: World, g: Graph, rank: map<string, nat>, r: Resuming)
    requires IsRank(g, rank)
  {
    r.id.step in g && Ideal(w, g, rank, r.id.step) == Yields(r.output)
  }

  ghost predicate WaitsFaithful(w: World, g: Graph, rank: map<string, nat>, s: State)
    requires IsRank(g, rank)
  {
    && (forall token :: token in s.parked ==> ParkedFaithful(w, g, rank, s.parked[token]))
    && (forall r :: r in s.resuming ==> ResumerFaithful(w, g, rank, r))
  }

  // ----- the context the engine builds is the ideal one -----

  lemma EntryIdeal(w: World, g: Graph, rank: map<string, nat>, tasks: Tasks, n: string)
    requires IsRank(g, rank) && n in g && AttemptLadder(tasks) && RowsFaithful(w, g, rank, tasks)
    requires SettledRow(tasks, n)
    ensures HasRow(SucceededRows(tasks), n) <==> Ideal(w, g, rank, n).Yields?
    ensures HasRow(SucceededRows(tasks), n) ==>
              Latest(SucceededRows(tasks), n).value.output == Some(Ideal(w, g, rank, n).output)
  {
    hide AttemptLadder, Ideal;
    var id :| id in tasks && id.step == n && Settled(tasks[id].status);
    SettledEntry(tasks, id);
    assert RowFaithful(w, g, rank, id, tasks[id]);
  }

  lemma ContextIsIdeal(w: World, g: Graph, rank: map<string, nat>, tasks: Tasks, k: string)
    requires IsRank(g, rank) && k in g && AttemptLadder(tasks) && RowsFaithful(w, g, rank, tasks)
    requires forall n :: n in Upstream(g, k) ==> SettledRow(tasks, n)
    ensures BuildContext(g, tasks, k) == IdealContext(w, g, rank, k)
  {
    hide AttemptLadder, RowsFaithful, Ideal, Upstream, SettledRow;
    var c, c' := BuildContext(g, tasks, k), IdealContext(w, g, rank, k);
    UpstreamRanksLower(g, rank, k);
    forall n | n in Upstream(g, k)
      ensures n in c <==> n in c'
      ensures n in c ==> c[n] == c'[n]
    {
      EntryIdeal(w, g, rank, tasks, n);
    }
    assert c.Keys == c'.Keys;
  }

  lemma RowContextIsIdeal(w: World, g: Graph, rank: map<string, nat>, tasks: Tasks, id: TaskId)
    requires IsRank(g, rank) && RowsOk(g, tasks) && RowsFaithful(w, g, rank, tasks) && id in tasks
    ensures BuildContext(g, tasks, id.step) == IdealContext(w, g, rank, id.step)
  {
    hide RowsFaithful, Upstream, AttemptLadder, Grounded, BuildContext, IdealContext;
    forall n | n in Upstream(g, id.step)
      ensures SettledRow(tasks, n)
    {
      UpstreamSettled(g, tasks, id.step, n);
    }
    ContextIsIdeal(w, g, rank, tasks, id.step);
  }

  // ----- faithful rows stay faithful -----

  lemma FirstRowFaithful(w: World, g: Graph, rank: map<string, nat>, t: Tasks, id: TaskId)
    requires IsRank(g, rank) && RowsOk(g, t) && RowsFaithful(w, g, rank, t) && id in FirstRows(w, g, t)
    ensures RowFaithful(w, g, rank, id, FirstRows(w, g, t)[id])
  {
    hide RowsOk, RowsFaithful, FirstRows, Ready, FirstAttempt, BuildContext, IdealContext, Upstream, SettledRow;
    FirstRowsNew(w, g, t, id);
    FirstRowsGrounded(w, g, t, id);
    FirstContext(w, g, rank, t, id);
    assert Ideal(w, g, rank, id.step) == Skips <==> IdealGuard(w, g, rank, id.step) == Falsy;
    assert FirstStatus(w, g, t, id.step) == Skipped <==> IdealGuard(w, g, rank, id.step) == Falsy;
  }

  lemma FirstContext(w: World, g: Graph, rank: map<string, nat>, t: Tasks, id: TaskId)
    requires IsRank(g, rank) && RowsOk(g, t) && RowsFaithful(w, g, rank, t) && id.step in g && FirstAttempt(g, t, id)
    ensures BuildContext(g, t, id.step) == IdealContext(w, g, rank, id.step)
  {
    hide RowsFaithful, AttemptLadder, Grounded, BuildContext, IdealContext, Upstream, SettledRow;
    forall n | n in Upstream(g, id.step)
      ensures SettledRow(t, n)
    {
      ReadyUpstreamSettled(g, t, id.step, n);
    }
    ContextIsIdeal(w, g, rank, t, id.step);
  }

  lemma AdvanceFaithful(w: World, g: Graph, rank: map<string, nat>, s: State)
    requires IsRank(g, rank) && RowsOk(g, s.tasks) && RowsFaithful(w, g, rank, s.tasks)
    ensures RowsFaithful(w, g, rank, AdvanceTx(w, g, s).tasks)
  {
    hide RowsOk, RowFaithful, AnyDead, AllSettled, FirstRows, GuardResolved, QueuedIn;
    forall id | id in FirstRows(w, g, s.tasks)
      ensures RowFaithful(w, g, rank, id, FirstRows(w, g, s.tasks)[id])
    {
      FirstRowFaithful(w, g, rank, s.tasks, id);
    }
  }

  /** The row an executor's success writes. */
  lemma FinishFaithful(w: World, g: Graph, rank: map<string, nat>, s: State, p: Prepared)
    requires IsRank(g, rank) && RowsOk(g, s.tasks) && RowsFaithful(w, g, rank, s.tasks)
    requires WorkersOk(s) && ContextsOk(g, s) && p in s.executing
    requires s.tasks[p.id].status != Skipped
    ensures p.id.step in g && p.ctx == IdealContext(w, g, rank, p.id.step)
    ensures Ideal(w, g, rank, p.id.step).Yields?
  {
    hide AttemptLadder, Grounded, BuildContext, IdealContext, Ideal;
    RowContextIsIdeal(w, g, rank, s.tasks, p.id);
    assert RowFaithful(w, g, rank, p.id, s.tasks[p.id]);
  }

  lemma EndFaithful(w: World, g: Graph, rank: map<string, nat>, s: State, id: TaskId, row: Row, retries: int)
    requires IsRank(g, rank) && RowsOk(g, s.tasks) && RowsFaithful(w, g, rank, s.tasks)
    requires id in s.tasks && Progress(s.tasks[id].status) < 2
    requires row.status == Failed || (row.status == Succeeded && RowFaithful(w, g, rank, id, row))
    ensures RowsFaithful(w, g, rank, EndTx(s, id, row, retries).tasks)
  {
    hide RowsOk, Ideal;
    var t' := EndTx(s, id, row, retries).tasks;
    assert RowFaithful(w, g, rank, id, s.tasks[id]);
    forall other | other in t'
      ensures RowFaithful(w, g, rank, other, t'[other])
    {
      if other in s.tasks {
        assert RowFaithful(w, g, rank, other, s.tasks[other]);
      }
    }
  }

  lemma EndingFaithful(w: World, g: Graph, rank: map<string, nat>, s: State, e: Event)
    requires IsRank(g, rank) && RowsOk(g, s.tasks) && RowsFaithful(w, g, rank, s.tasks)
    requires WorkersOk(s) && ContextsOk(g, s) && Enabled(s, e) && Ending(e) && Consistent(w, s, e)
    ensures RowsFaithful(w, g, rank, ApplyEnding(g, s, e).tasks)
  {
    hide RowsOk, RowsFaithful, WorkersOk, ContextsOk, ApplyEnding, EndTx, IdealContext;
    ShapeOfEnding(g, s, e);
    if Wins(s, e) {
      var row := FinalRow(s, e);
      if row.status == Succeeded {
        FinishFaithful(w, g, rank, s, Prepared(e.id, e.ctx));
      }
      EndFaithful(w, g, rank, Leaving(s, e), e.id, row, RetriesSeen(g, e));
    }
  }

  lemma MoveFaithful(w: World, g: Graph, rank: map<string, nat>, t: Tasks, id: TaskId, row: Row)
    requires IsRank(g, rank) && RowsFaithful(w, g, rank, t)
    requires id in t && Live(t[id].status)
    requires Live(row.status) || (row.status == Succeeded && RowFaithful(w, g, rank, id, row))
    ensures RowsFaithful(w, g, rank, t[id := row])
  {
    hide Ideal;
    assert RowFaithful(w, g, rank, id, t[id]);
    var t' := t[id := row];
    forall other | other in t'
      ensures RowFaithful(w, g, rank, other, t'[other])
    {
      assert other == id || RowFaithful(w, g, rank, other, t[other]);
    }
  }

  lemma StartingFaithful(w: World, g: Graph, rank: map<string, nat>, s: State, e: Event)
    requires IsRank(g, rank) && RowsFaithful(w, g, rank, s.tasks) && Starting(e)
    ensures RowsFaithful(w, g, rank, ApplyStarting(g, s, e).tasks)
  {
    hide RowsFaithful, BuildContext;
    match e
    case Load(_) =>
    case Prepare(_) =>
    case Claim(id, _) =>
      if id in s.tasks && s.tasks[id].status == Queued {
        MoveFaithful(w, g, rank, s.tasks, id, s.tasks[id].(status := Running));
      }
  }

  lemma ParkingFaithful(w: World, g: Graph, rank: map<string, nat>, s: State, e: Event)
    requires IsRank(g, rank) && RowsFaithful(w, g, rank, s.tasks) && WaitsFaithful(w, g, rank, s)
    requires Enabled(s, e) && Parking(e)
    ensures RowsFaithful(w, g, rank, ApplyParking(s, e).tasks)
  {
    hide RowsFaithful, Ideal;
    match e
    case Suspend(id, _, _, _, output) =>
      if id in s.tasks && s.tasks[id].status == Running {
        MoveFaithful(w, g, rank, s.tasks, id, Row(Suspended, Some(output)));
      }
    case TimerPickup(_, _) =>
    case TimerStale(_) =>
    case CallbackPickup(_, _) =>
    case Resume(id, output, timer) =>
      if id in s.tasks && s.tasks[id].status == Suspended {
        assert ResumerFaithful(w, g, rank, Resuming(id, output, timer));
        MoveFaithful(w, g, rank, s.tasks, id, Row(Succeeded, Some(output)));
      }
  }

  lemma CancelFaithful(w: World, g: Graph, rank: map<string, nat>, s: State)
    requires IsRank(g, rank) && RowsFaithful(w, g, rank, s.tasks)
    ensures RowsFaithful(w, g, rank, CancelTx(s).tasks)
  {
    hide Ideal;
    var t' := CancelTx(s).tasks;
    forall id | id in t'
      ensures RowFaithful(w, g, rank, id, t'[id])
    {
      assert RowFaithful(w, g, rank, id, s.tasks[id]);
    }
  }

  lemma RetryFaithful(w: World, g: Graph, rank: map<string, nat>, s: State)
    requires IsRank(g, rank) && RowsOk(g, s.tasks) && RowsFaithful(w, g, rank, s.tasks)
    ensures RowsFaithful(w, g, rank, RetryTx(s).tasks)
  {
    hide RowsOk, Ideal;
    var t' := RetryTx(s).tasks;
    forall id | id in t'
      ensures RowFaithful(w, g, rank, id, t'[id])
    {
      if id in RedoIds(s.tasks) {
        var prev :| prev in s.tasks && Dead(s.tasks[prev].status) && id == NextAttempt(prev);
        assert RowFaithful(w, g, rank, prev, s.tasks[prev]);
      } else {
        assert RowFaithful(w, g, rank, id, s.tasks[id]);
      }
    }
  }

  lemma RowsFaithfulKept(w: World, g: Graph, rank: map<string, nat>, s: State, e: Event)
    requires IsRank(g, rank) && RowsOk(g, s.tasks) && RowsFaithful(w, g, rank, s.tasks)
    requires WorkersOk(s) && ContextsOk(g, s) && WaitsFaithful(w, g, rank, s)
    requires Enabled(s, e) && Consistent(w, s, e)
    ensures RowsFaithful(w, g, rank, Apply(w, g, s, e).tasks)
  {
    hide RowsOk, RowsFaithful, WorkersOk, ContextsOk, WaitsFaithful, Consistent,
      AdvanceTx, CancelTx, RetryTx, ApplyStarting, ApplyEnding, ApplyParking, ApplyFault;
    if Starting(e) {
      StartingFaithful(w, g, rank, s, e);
    } else if Ending(e) {
      EndingFaithful(w, g, rank, s, e);
    } else if Parking(e) {
      ParkingFaithful(w, g, rank, s, e);
    } else if Fault(e) {
      FaultKeepsRows(s, e);
    } else {
      match e
      case Advance => AdvanceFaithful(w, g, rank, s.(advances := s.advances - 1));
      case CancelRun => CancelFaithful(w, g, rank, s);
      case RetryRun => RetryFaithful(w, g, rank, s);
    }
  }

  // ----- and so do the waits -----

  lemma SameWaits(w: World, g: Graph, rank: map<string, nat>, s: State, s': State)
    requires IsRank(g, rank) && WaitsFaithful(w, g, rank, s)
    requires s'.parked == s.parked && s'.resuming == s.resuming
    ensures WaitsFaithful(w, g, rank, s')
  {
    hide ParkedFaithful, ResumerFaithful;
  }

  lemma SuspendWaits(
      w: World, g: Graph, rank: map<string, nat>, s: State, p: Prepared, token: string, timed: bool, output: string)
    requires IsRank(g, rank) && RowsOk(g, s.tasks) && RowsFaithful(w, g, rank, s.tasks)
    requires WorkersOk(s) && ContextsOk(g, s) && WaitsFaithful(w, g, rank, s) && p in s.executing
    requires w.exec(p.id.step, p.ctx) == if timed then Delay(output) else Callback
    ensures WaitsFaithful(w, g, rank, SuspendTx(s.(executing := s.executing - multiset{p}), p.id, token, timed, output))
  {
    hide RowsOk, RowsFaithful, WorkersOk, ContextsOk, ResumerFaithful, IdealContext;
    if p.id in s.tasks && s.tasks[p.id].status == Running {
      FinishFaithful(w, g, rank, s, p);
      assert ParkedFaithful(w, g, rank, Suspension(p.id, timed, output));
      hide ParkedFaithful;
    }
  }

  lemma PickupWaits(w: World, g: Graph, rank: map<string, nat>, s: State, e: Event)
    requires IsRank(g, rank) && WaitsFaithful(w, g, rank, s) && BooksOk(s) && ResumersOk(s)
    requires Enabled(s, e) && Consistent(w, s, e) && (e.TimerPickup? || e.CallbackPickup?)
    ensures WaitsFaithful(w, g, rank, ApplyParking(s, e))
  {
    hide ParkedOk, ResumedOnce, SuspendTx, ResumeTx, Ideal, ResumerOk;
    assert ParkedFaithful(w, g, rank, s.parked[e.token]);
    match e
    case TimerPickup(id, token) =>
      assert ResumerFaithful(w, g, rank, Resuming(id, s.parked[token].payload, true));
    case CallbackPickup(token, output) =>
      assert ResumerFaithful(w, g, rank, Resuming(s.parked[token].task, output, false));
  }

  lemma ResumeWaits(w: World, g: Graph, rank: map<string, nat>, s: State, r: Resuming)
    requires IsRank(g, rank) && WaitsFaithful(w, g, rank, s)
    ensures WaitsFaithful(w, g, rank, ResumeTx(s.(resuming := s.resuming - multiset{r}), r.id, r.output))
    ensures WaitsFaithful(w, g, rank, s.(resuming := s.resuming - multiset{r}))
  {
    hide ParkedFaithful, ResumerFaithful;
  }

  lemma ParkingWaits(w: World, g: Graph, rank: map<string, nat>, s: State, e: Event)
    requires IsRank(g, rank) && RowsOk(g, s.tasks) && RowsFaithful(w, g, rank, s.tasks)
    requires WorkersOk(s) && ContextsOk(g, s) && BooksOk(s) && ResumersOk(s) && WaitsFaithful(w, g, rank, s)
    requires Enabled(s, e) && Parking(e) && Consistent(w, s, e)
    ensures WaitsFaithful(w, g, rank, ApplyParking(s, e))
  {
    hide RowsOk, RowsFaithful, WorkersOk, ContextsOk, BooksOk, ResumersOk, WaitsFaithful, SuspendTx, ResumeTx;
    match e
    case Suspend(id, ctx, token, timed, output) => SuspendWaits(w, g, rank, s, Prepared(id, ctx), token, timed, output);
    case TimerPickup(_, _) => PickupWaits(w, g, rank, s, e);
    case TimerStale(_) => SameWaits(w, g, rank, s, ApplyParking(s, e));
    case CallbackPickup(_, _) => PickupWaits(w, g, rank, s, e);
    case Resume(id, output, timer) => ResumeWaits(w, g, rank, s, Resuming(id, output, timer));
  }

  lemma FaultWaits(w: World, g: Graph, rank: map<string, nat>, s: State, e: Event)
    requires IsRank(g, rank) && WaitsFaithful(w, g, rank, s) && Fault(e)
    ensures WaitsFaithful(w, g, rank, ApplyFault(s, e))
  {
    hide WaitsFaithful;
    match e
    case ResumerDies(id, output, timer) =>
      ResumeWaits(w, g, rank, s, Resuming(id, output, timer));
      SameWaits(w, g, rank, s.(resuming := s.resuming - multiset{Resuming(id, output, timer)}), ApplyFault(s, e));
    case WorkerDies(_, _) => SameWaits(w, g, rank, s, ApplyFault(s, e));
    case LoadedLost(_) => SameWaits(w, g, rank, s, ApplyFault(s, e));
    case PreparedLost(_, _) => SameWaits(w, g, rank, s, ApplyFault(s, e));
    case ReplayAdvance => SameWaits(w, g, rank, s, ApplyFault(s, e));
    case ReplayExecute(_) => SameWaits(w, g, rank, s, ApplyFault(s, e));
    case ReplayResume(_) => SameWaits(w, g, rank, s, ApplyFault(s, e));
  }

  lemma WaitsFaithfulKept(w: World, g: Graph, rank: map<string, nat>, s: State, e: Event)
    requires IsRank(g, rank) && RowsOk(g, s.tasks) && RowsFaithful(w, g, rank, s.tasks)
    requires WorkersOk(s) && ContextsOk(g, s) && BooksOk(s) && ResumersOk(s) && WaitsFaithful(w, g, rank, s)
    requires Enabled(s, e) && Consistent(w, s, e)
    ensures WaitsFaithful(w, g, rank, Apply(w, g, s, e))
  {
    hide RowsOk, RowsFaithful, WorkersOk, ContextsOk, BooksOk, ResumersOk, WaitsFaithful, Consistent,
      AdvanceTx, CancelTx, RetryTx, ApplyStarting, ApplyEnding, ApplyParking, ApplyFault;
    if Parking(e) {
      ParkingWaits(w, g, rank, s, e);
    } else if Fault(e) {
      FaultWaits(w, g, rank, s, e);
    } else {
      if Starting(e) {
        StartingApart(g, s, e);
        StartingKeepsResumers(g, s, e);
      } else if Ending(e) {
        EndingApart(g, s, e);
        EndingKeepsResumers(g, s, e);
      } else {
        ControlKeepsResumers(w, g, s, e);
        ControlKeepsParked(w, g, s, e);
      }
      SameWaits(w, g, rank, s, Apply(w, g, s, e));
    }
  }

  lemma ControlKeepsParked(w: World, g: Graph, s: State, e: Event)
    requires Enabled(s, e) && Control(e)
    ensures ApplyControl(w, g, s, e).parked == s.parked
  {
    hide AnyDead, AllSettled, FirstRows, SpreadTx, RedoIds;
    match e
    case Advance =>
      var s0 := s.(advances := s.advances - 1);
      SpreadBooks(s0, FirstRows(w, g, s.tasks));
    case CancelRun =>
    case RetryRun =>
  }

  // ----- when a guard that errors can be bypassed -----

  /** A step whose guard errors has a first attempt that failed without output
      and was never started; no other row looks like that.  Only RetryRun gives
      such a step another attempt, which then runs unguarded. */
  ghost predicate GuardHonest(
    w: World, g: Graph, rank: map<string, nat>, id: TaskId, row: Row, started: bool, retryCalls: nat)
    requires IsRank(g, rank)
  {
    && id.step in g
    && (IdealGuard(w, g, rank, id.step) == EvalError && id.attempt == 1 ==> row == Row(Failed, None) && !started)
    && (IdealGuard(w, g, rank, id.step) == EvalError && id.attempt >= 2 ==> retryCalls >= 1)
    && (row == Row(Failed, None) && !started ==> IdealGuard(w, g, rank, id.step) == EvalError)
    && (row.status == Running ==> started)
  }

  ghost predicate GuardsHonest(w: World, g: Graph, rank: map<string, nat>, s: State)
    requires IsRank(g, rank)
  {
    forall id :: id in s.tasks ==> GuardHonest(w, g, rank, id, s.tasks[id], id in s.invoked, s.retryCalls)
  }

  /** A live row may move, as long as it is not left looking like a guard's. */
  lemma GuardMoves(
      w: World, g: Graph, rank: map<string, nat>, id: TaskId,
      row: Row, started: bool, row': Row, started': bool, calls: nat)
    requires IsRank(g, rank) && GuardHonest(w, g, rank, id, row, started, calls) && Live(row.status)
    requires row'.status == Running || row' == Row(Failed, None) ==> started'
    ensures GuardHonest(w, g, rank, id, row', started', calls)
  {
    hide IdealGuard;
  }

  lemma MoveGuards(w: World, g: Graph, rank: map<string, nat>, s: State, id: TaskId, row: Row, s': State)
    requires IsRank(g, rank) && GuardsHonest(w, g, rank, s) && id in s.tasks && Live(s.tasks[id].status)
    requires s'.tasks == s.tasks[id := row] && s'.retryCalls == s.retryCalls
    requires forall other :: other != id ==> (other in s'.invoked <==> other in s.invoked)
    requires row.status == Running || row == Row(Failed, None) ==> id in s'.invoked
    ensures GuardsHonest(w, g, rank, s')
  {
    hide GuardHonest;
    forall other | other in s'.tasks
      ensures GuardHonest(w, g, rank, other, s'.tasks[other], other in s'.invoked, s'.retryCalls)
    {
      if other == id {
        GuardMoves(w, g, rank, id, s.tasks[id], id in s.invoked, row, id in s'.invoked, s.retryCalls);
      }
    }
  }

  lemma SameGuards(w: World, g: Graph, rank: map<string, nat>, s: State, s': State)
    requires IsRank(g, rank) && GuardsHonest(w, g, rank, s)
    requires s'.tasks == s.tasks && s'.invoked == s.invoked && s'.retryCalls == s.retryCalls
    ensures GuardsHonest(w, g, rank, s')
  {
    hide GuardHonest;
  }

  lemma NextAttemptGuarded(
      w: World, g: Graph, rank: map<string, nat>, id: TaskId, row: Row, started: bool, calls: nat, started': bool)
    requires IsRank(g, rank) && GuardHonest(w, g, rank, id, row, started, calls) && Live(row.status) && id.attempt >= 1
    ensures GuardHonest(w, g, rank, NextAttempt(id), Row(Queued, None), started', calls)
  {
    hide IdealGuard;
  }

  lemma AddGuarded(w: World, g: Graph, rank: map<string, nat>, s: State, next: TaskId, s': State)
    requires IsRank(g, rank) && GuardsHonest(w, g, rank, s)
    requires GuardHonest(w, g, rank, next, Row(Queued, None), next in s.invoked, s.retryCalls)
    requires s'.tasks == s.tasks[next := Row(Queued, None)] && s'.invoked == s.invoked && s'.retryCalls == s.retryCalls
    ensures GuardsHonest(w, g, rank, s')
  {
    hide GuardHonest;
  }

  lemma EndGuards(w: World, g: Graph, rank: map<string, nat>, s: State, id: TaskId, row: Row, retries: int)
    requires IsRank(g, rank) && GuardsHonest(w, g, rank, s) && id.attempt >= 1
    requires id in s.tasks && Live(s.tasks[id].status) && !Live(row.status)
    requires row == Row(Failed, None) ==> id in s.invoked
    ensures GuardsHonest(w, g, rank, EndTx(s, id, row, retries))
  {
    var s1, s', next := s.(tasks := s.tasks[id := row]), EndTx(s, id, row, retries), NextAttempt(id);
    assert GuardHonest(w, g, rank, id, s.tasks[id], id in s.invoked, s.retryCalls);
    hide GuardsHonest, GuardHonest, Pow2;
    MoveGuards(w, g, rank, s, id, row, s1);
    if row.status == Failed && Retrying(id, retries) {
      if next !in s.tasks {
        NextAttemptGuarded(w, g, rank, id, s.tasks[id], id in s.invoked, s.retryCalls, next in s.invoked);
        AddGuarded(w, g, rank, s1, next, s');
      }
    } else {
      SameGuards(w, g, rank, s1, s');
    }
  }

  lemma RowStartsAtOne(g: Graph, tasks: Tasks, id: TaskId)
    requires RowsOk(g, tasks) && id in tasks
    ensures id.attempt >= 1
  {
  }

  lemma FinalRowGuarded(w: World, g: Graph, rank: map<string, nat>, s: State, e: Event)
    requires IsRank(g, rank) && GuardsHonest(w, g, rank, s) && Enabled(s, e) && Ending(e) && Wins(s, e)
    ensures FinalRow(s, e) == Row(Failed, None) ==> e.id in s.invoked
  {
    if e.Reap? {
      assert s.tasks[e.id].status == Running;
      hide IdealGuard, Enabled, FinalRow;
      assert GuardHonest(w, g, rank, e.id, s.tasks[e.id], e.id in s.invoked, s.retryCalls);
    } else {
      hide GuardsHonest, Enabled;
    }
  }

  lemma LeavingSame(s: State, e: Event)
    requires Ending(e)
    ensures Leaving(s, e).tasks == s.tasks && Leaving(s, e).invoked == s.invoked
    ensures Leaving(s, e).retryCalls == s.retryCalls
  {
  }

  lemma EndingGuards(w: World, g: Graph, rank: map<string, nat>, s: State, e: Event)
    requires IsRank(g, rank) && RowsOk(g, s.tasks) && GuardsHonest(w, g, rank, s) && Enabled(s, e) && Ending(e)
    ensures GuardsHonest(w, g, rank, ApplyEnding(g, s, e))
  {
    hide RowsOk, GuardsHonest, ApplyEnding, EndTx, Leaving;
    ShapeOfEnding(g, s, e);
    LeavingSame(s, e);
    SameGuards(w, g, rank, s, Leaving(s, e));
    if Wins(s, e) {
      FinalRowGuarded(w, g, rank, s, e);
      RowStartsAtOne(g, s.tasks, e.id);
      EndGuards(w, g, rank, Leaving(s, e), e.id, FinalRow(s, e), RetriesSeen(g, e));
    }
  }

  lemma ClaimGuards(w: World, g: Graph, rank: map<string, nat>, s: State, p: Prepared)
    requires IsRank(g, rank) && GuardsHonest(w, g, rank, s)
    ensures GuardsHonest(w, g, rank, ClaimTx(s.(prepared := s.prepared - multiset{p}), p.id, p.ctx))
  {
    hide GuardsHonest;
    var s' := ClaimTx(s.(prepared := s.prepared - multiset{p}), p.id, p.ctx);
    if p.id in s.tasks && s.tasks[p.id].status == Queued {
      MoveGuards(w, g, rank, s, p.id, s.tasks[p.id].(status := Running), s');
    } else {
      SameGuards(w, g, rank, s, s');
    }
  }

  lemma StartingGuards(w: World, g: Graph, rank: map<string, nat>, s: State, e: Event)
    requires IsRank(g, rank) && GuardsHonest(w, g, rank, s) && Starting(e)
    ensures GuardsHonest(w, g, rank, ApplyStarting(g, s, e))
  {
    hide GuardsHonest, BuildContext, ClaimTx;
    match e
    case Load(_) => SameGuards(w, g, rank, s, ApplyStarting(g, s, e));
    case Prepare(_) => SameGuards(w, g, rank, s, ApplyStarting(g, s, e));
    case Claim(id, ctx) => ClaimGuards(w, g, rank, s, Prepared(id, ctx));
  }

  lemma SuspendGuards(
      w: World, g: Graph, rank: map<string, nat>, s: State, id: TaskId, token: string, timed: bool, output: string)
    requires IsRank(g, rank) && GuardsHonest(w, g, rank, s)
    ensures GuardsHonest(w, g, rank, SuspendTx(s, id, token, timed, output))
  {
    hide GuardsHonest;
    var s' := SuspendTx(s, id, token, timed, output);
    if id in s.tasks && s.tasks[id].status == Running && token !in s.parked {
      MoveGuards(w, g, rank, s, id, Row(Suspended, Some(output)), s');
    }
  }

  lemma ResumeGuards(w: World, g: Graph, rank: map<string, nat>, s: State, id: TaskId, output: string)
    requires IsRank(g, rank) && GuardsHonest(w, g, rank, s)
    ensures GuardsHonest(w, g, rank, ResumeTx(s, id, output))
  {
    hide GuardsHonest;
    var s' := ResumeTx(s, id, output);
    if id in s.tasks && s.tasks[id].status == Suspended {
      MoveGuards(w, g, rank, s, id, Row(Succeeded, Some(output)), s');
    } else {
      SameGuards(w, g, rank, s, s');
    }
  }

  lemma ParkingGuards(w: World, g: Graph, rank: map<string, nat>, s: State, e: Event)
    requires IsRank(g, rank) && GuardsHonest(w, g, rank, s) && Enabled(s, e) && Parking(e)
    ensures GuardsHonest(w, g, rank, ApplyParking(s, e))
  {
    hide GuardsHonest, SuspendTx, ResumeTx;
    match e
    case Suspend(id, ctx, token, timed, output) =>
      var left := s.(executing := s.executing - multiset{Prepared(id, ctx)});
      SameGuards(w, g, rank, s, left);
      SuspendGuards(w, g, rank, left, id, token, timed, output);
    case TimerPickup(_, _) => SameGuards(w, g, rank, s, ApplyParking(s, e));
    case TimerStale(_) => SameGuards(w, g, rank, s, ApplyParking(s, e));
    case CallbackPickup(_, _) => SameGuards(w, g, rank, s, ApplyParking(s, e));
    case Resume(id, output, timer) =>
      var left := s.(resuming := s.resuming - multiset{Resuming(id, output, timer)});
      SameGuards(w, g, rank, s, left);
      ResumeGuards(w, g, rank, left, id, output);
  }

  lemma FaultKeepsInvoked(s: State, e: Event)
    requires Fault(e)
    ensures ApplyFault(s, e).invoked == s.invoked
  {
    match e
    case WorkerDies(_, _) =>
    case ResumerDies(_, _, _) =>
    case LoadedLost(_) =>
    case PreparedLost(_, _) =>
    case ReplayAdvance =>
    case ReplayExecute(_) =>
    case ReplayResume(_) =>
  }

  lemma SpreadGuards(w: World, g: Graph, rank: map<string, nat>, s: State, rows: Tasks)
    requires IsRank(g, rank) && GuardsHonest(w, g, rank, s)
    requires forall id :: id in rows ==> GuardHonest(w, g, rank, id, rows[id], id in s.invoked, s.retryCalls)
    ensures GuardsHonest(w, g, rank, SpreadTx(s, rows))
  {
    hide GuardHonest, QueuedIn, GuardResolved;
  }

  lemma StatusGuards(w: World, g: Graph, rank: map<string, nat>, s: State, run: RunStatus)
    requires IsRank(g, rank) && GuardsHonest(w, g, rank, s)
    ensures GuardsHonest(w, g, rank, s.(run := run))
  {
    hide GuardHonest;
  }

  lemma AdvanceGuards(w: World, g: Graph, rank: map<string, nat>, s: State)
    requires IsRank(g, rank) && RowsOk(g, s.tasks) && RowsFaithful(w, g, rank, s.tasks) && WorkersOk(s)
    requires GuardsHonest(w, g, rank, s)
    ensures GuardsHonest(w, g, rank, AdvanceTx(w, g, s))
  {
    hide RowsOk, RowsFaithful, WorkersOk, AnyDead, AllSettled, FirstRows, SpreadTx, GuardsHonest, GuardHonest;
    StatusGuards(w, g, rank, s, RunFailed);
    StatusGuards(w, g, rank, s, RunSucceeded);
    forall id | id in FirstRows(w, g, s.tasks)
      ensures GuardHonest(w, g, rank, id, FirstRows(w, g, s.tasks)[id], id in s.invoked, s.retryCalls)
    {
      FirstRowGuarded(w, g, rank, s, id);
    }
    SpreadGuards(w, g, rank, s, FirstRows(w, g, s.tasks));
  }

  lemma InvokedHasRow(s: State, id: TaskId)
    requires WorkersOk(s) && id !in s.tasks
    ensures id !in s.invoked
  {
  }

  lemma FirstRowGuarded(w: World, g: Graph, rank: map<string, nat>, s: State, id: TaskId)
    requires IsRank(g, rank) && RowsOk(g, s.tasks) && RowsFaithful(w, g, rank, s.tasks) && WorkersOk(s)
    requires id in FirstRows(w, g, s.tasks)
    ensures GuardHonest(w, g, rank, id, FirstRows(w, g, s.tasks)[id], id in s.invoked, s.retryCalls)
  {
    hide RowsOk, RowsFaithful, WorkersOk, FirstRows, Ready, FirstAttempt, BuildContext, IdealContext;
    FirstRowsNew(w, g, s.tasks, id);
    FirstRowsGrounded(w, g, s.tasks, id);
    FirstContext(w, g, rank, s.tasks, id);
    InvokedHasRow(s, id);
  }

  lemma CancelGuards(w: World, g: Graph, rank: map<string, nat>, s: State)
    requires IsRank(g, rank) && GuardsHonest(w, g, rank, s)
    ensures GuardsHonest(w, g, rank, CancelTx(s))
  {
    hide GuardHonest;
    var s' := CancelTx(s);
    forall id | id in s'.tasks
      ensures GuardHonest(w, g, rank, id, s'.tasks[id], id in s'.invoked, s'.retryCalls)
    {
      assert GuardHonest(w, g, rank, id, s.tasks[id], id in s.invoked, s.retryCalls);
      if Live(s.tasks[id].status) {
        var row := s.tasks[id];
        GuardMoves(w, g, rank, id, row, id in s.invoked, CanceledRow(row), id in s.invoked, s.retryCalls);
      }
    }
  }

  lemma RetryGuards(w: World, g: Graph, rank: map<string, nat>, s: State)
    requires IsRank(g, rank) && RowsOk(g, s.tasks) && GuardsHonest(w, g, rank, s)
    ensures GuardsHonest(w, g, rank, RetryTx(s))
  {
    hide RowsOk, RedoIds, IdealGuard;
    forall id | id in RedoIds(s.tasks)
      ensures id !in s.tasks && id.attempt >= 2 && id.step in g
    {
      RedoIsLater(g, s.tasks, id);
    }
  }

  lemma GuardsHonestKept(w: World, g: Graph, rank: map<string, nat>, s: State, e: Event)
    requires IsRank(g, rank) && RowsOk(g, s.tasks) && RowsFaithful(w, g, rank, s.tasks) && WorkersOk(s)
    requires GuardsHonest(w, g, rank, s) && Enabled(s, e)
    ensures GuardsHonest(w, g, rank, Apply(w, g, s, e))
  {
    hide RowsOk, RowsFaithful, WorkersOk, GuardsHonest, AdvanceTx, CancelTx, RetryTx,
      ApplyStarting, ApplyEnding, ApplyParking, ApplyFault;
    if Starting(e) {
      StartingGuards(w, g, rank, s, e);
    } else if Ending(e) {
      EndingGuards(w, g, rank, s, e);
    } else if Parking(e) {
      ParkingGuards(w, g, rank, s, e);
    } else if Fault(e) {
      FaultKeepsRows(s, e);
      FaultCallsNone(s, e);
      FaultKeepsInvoked(s, e);
      SameGuards(w, g, rank, s, ApplyFault(s, e));
    } else {
      match e
      case Advance =>
        var s0 := s.(advances := s.advances - 1);
        SameGuards(w, g, rank, s, s0);
        WorkersOkReads(s, s0);
        AdvanceGuards(w, g, rank, s0);
      case CancelRun => CancelGuards(w, g, rank, s);
      case RetryRun => RetryGuards(w, g, rank, s);
    }
  }

  lemma WorkersOkReads(s: State, s0: State)
    requires WorkersOk(s) && s0 == s.(advances := s0.advances)
    ensures WorkersOk(s0)
  {
    hide RunsOnce;
  }

  /** A row only a guard's error leaves behind. */
  predicate GuardRow(s: State, k: string) {
    TaskId(k, 1) in s.tasks && s.tasks[TaskId(k, 1)] == Row(Failed, None) && TaskId(k, 1) !in s.invoked
  }

  /** Such a row is there exactly when the guard errored, on every step that has
      a row and was not skipped. */
  lemma GuardHeldIff(w: World, g: Graph, rank: map<string, nat>, s: State, id: TaskId)
    requires IsRank(g, rank) && RowsOk(g, s.tasks) && RowsFaithful(w, g, rank, s.tasks) && GuardsHonest(w, g, rank, s)
    requires id in s.tasks && s.tasks[id].status != Skipped
    ensures id.step in g && (IdealGuard(w, g, rank, id.step) == Truthy <==> !GuardRow(s, id.step))
  {
    hide IdealGuard, IdealContext, Grounded, IsRank;
    var first := TaskId(id.step, 1);
    assert first in s.tasks by {
      FirstIsThere(s.tasks, id);
    }
    hide AttemptLadder;
    assert GuardHonest(w, g, rank, first, s.tasks[first], first in s.invoked, s.retryCalls);
    assert RowFaithful(w, g, rank, id, s.tasks[id]);
  }

  lemma FirstIsThere(tasks: Tasks, id: TaskId)
    requires AttemptLadder(tasks) && id in tasks
    ensures TaskId(id.step, 1) in tasks
  {
    var one := 1;
    assert id == TaskId(id.step, id.attempt);
  }
}
