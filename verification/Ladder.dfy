/**
 How task rows may change.  Every event moves the `tasks` table by `Evolves`;
 everything in this module is a consequence of that relation: the attempt
 ladder, the upstream rows a row stands on, and the frozen context.
 */
module Ladder {
  import opened Definitions
  import opened RunState

  ghost predicate SettledRow(tasks: Tasks, k: string) {
    exists id :: id in tasks && id.step == k && Settled(tasks[id].status)
  }

  /** Attempts of a step are 1..n, and all below n are failed or canceled. */
  ghost predicate AttemptLadder(tasks: Tasks) {
    && (forall id :: id in tasks ==> id.attempt >= 1)
    && (forall id, b: nat :: id in tasks && 1 <= b < id.attempt ==> TaskId(id.step, b) in tasks)
    && (forall p, q :: p in tasks && q in tasks && p.step == q.step && p.attempt < q.attempt ==> Dead(tasks[p].status))
  }

  /** A row exists only above settled dependencies. */
  ghost predicate Grounded(g: Graph, tasks: Tasks) {
    forall id, n :: id in tasks && n in Needs(g, id.step) ==> SettledRow(tasks, n)
  }

  ghost predicate RowsOk(g: Graph, tasks: Tasks) {
    && (forall id :: id in tasks ==> id.step in g)
    && AttemptLadder(tasks)
    && Grounded(g, tasks)
  }

  // ----- the one relation all events obey -----

  function Progress(t: TaskStatus): nat {
    match t
    case Queued => 0
    case Running => 1
    case Suspended => 2
    case _ => 3
  }

  /** A row stays as it is, or a live row moves strictly forward. */
  predicate Forward(r: Row, r': Row) {
    r == r' || (Progress(r.status) < Progress(r'.status) && r'.status != Skipped)
  }

  ghost predicate FirstAttempt(g: Graph, t: Tasks, id: TaskId) {
    && id.attempt == 1
    && !HasRow(t, id.step)
    && (forall n :: n in Needs(g, id.step) ==> SettledRow(t, n))
  }

  ghost predicate LaterAttempt(t: Tasks, t': Tasks, id: TaskId) {
    && id.attempt >= 2
    && TaskId(id.step, id.attempt - 1) in t
    && TaskId(id.step, id.attempt - 1) in t'
    && Dead(t'[TaskId(id.step, id.attempt - 1)].status)
    && id in t' && t'[id].status == Queued
  }

  ghost predicate Evolves(g: Graph, t: Tasks, t': Tasks) {
    && (forall id :: id in t ==> id in t' && Forward(t[id], t'[id]))
    && (forall id :: id in t' && id !in t ==> id.step in g && (FirstAttempt(g, t, id) || LaterAttempt(t, t', id)))
  }

  // ----- what the relation keeps -----

  lemma TopWins(tasks: Tasks, id: TaskId)
    requires AttemptLadder(tasks) && id in tasks && !Dead(tasks[id].status)
    ensures IsTop(tasks, id.step, id.attempt)
    ensures Latest(tasks, id.step) == Some(tasks[id])
  {
    assert TaskId(id.step, id.attempt) == id;
    LatestAt(tasks, id.step, id.attempt);
  }

  lemma SettledIsLatest(tasks: Tasks, k: string)
    requires AttemptLadder(tasks)
    ensures SettledRow(tasks, k) <==> LatestSettled(tasks, k)
  {
    if SettledRow(tasks, k) {
      var id :| id in tasks && id.step == k && Settled(tasks[id].status);
      TopWins(tasks, id);
    }
    if LatestSettled(tasks, k) {
      assert TaskId(k, Top(tasks, k)).step == k;
    }
  }

  /** At most one attempt of a step is live or settled. */
  lemma OneUndeadAttempt(tasks: Tasks, p: TaskId, q: TaskId)
    requires AttemptLadder(tasks) && p in tasks && q in tasks && p.step == q.step
    requires !Dead(tasks[p].status) && !Dead(tasks[q].status)
    ensures p == q
  {
  }

  lemma SettledStays(g: Graph, t: Tasks, t': Tasks, k: string)
    requires Evolves(g, t, t') && SettledRow(t, k)
    ensures SettledRow(t', k)
  {
    var id :| id in t && id.step == k && Settled(t[id].status);
    assert t'[id] == t[id];
  }

  lemma NewIsAboveOld(g: Graph, t: Tasks, t': Tasks, p: TaskId, q: TaskId)
    requires AttemptLadder(t) && Evolves(g, t, t')
    requires p in t' && q in t' && p.step == q.step && p.attempt < q.attempt
    ensures p in t
  {
    assert TaskId(q.step, p.attempt) == p;
    if q !in t && q.attempt >= 2 {
      assert TaskId(TaskId(q.step, q.attempt - 1).step, p.attempt) == p;
    }
  }

  lemma AttemptsContiguous(g: Graph, t: Tasks, t': Tasks, id: TaskId, b: nat)
    requires AttemptLadder(t) && Evolves(g, t, t')
    requires id in t' && 1 <= b < id.attempt
    ensures TaskId(id.step, b) in t'
  {
    if id !in t {
      var prev := TaskId(id.step, id.attempt - 1);
      assert prev in t;
      assert b == prev.attempt || TaskId(prev.step, b) in t;
    }
  }

  lemma LowerAttemptsDead(g: Graph, t: Tasks, t': Tasks, p: TaskId, q: TaskId)
    requires AttemptLadder(t) && Evolves(g, t, t')
    requires p in t' && q in t' && p.step == q.step && p.attempt < q.attempt
    ensures Dead(t'[p].status)
  {
    NewIsAboveOld(g, t, t', p, q);
    if q !in t {
      var prev := TaskId(q.step, q.attempt - 1);
      assert prev in t && Dead(t'[prev].status);
    }
  }

  lemma LadderKept(g: Graph, t: Tasks, t': Tasks)
    requires AttemptLadder(t) && Evolves(g, t, t')
    ensures AttemptLadder(t')
  {
    forall id, b: nat | id in t' && 1 <= b < id.attempt
      ensures TaskId(id.step, b) in t'
    {
      AttemptsContiguous(g, t, t', id, b);
    }
    forall p, q | p in t' && q in t' && p.step == q.step && p.attempt < q.attempt
      ensures Dead(t'[p].status)
    {
      LowerAttemptsDead(g, t, t', p, q);
    }
  }

  lemma GroundedKept(g: Graph, t: Tasks, t': Tasks)
    requires Grounded(g, t) && Evolves(g, t, t')
    ensures Grounded(g, t')
  {
    forall id, n | id in t' && n in Needs(g, id.step)
      ensures SettledRow(t', n)
    {
      if id !in t && !FirstAttempt(g, t, id) {
        assert TaskId(id.step, id.attempt - 1) in t;
      }
      assert SettledRow(t, n);
      SettledStays(g, t, t', n);
    }
  }

  lemma RowsKept(g: Graph, t: Tasks, t': Tasks)
    requires RowsOk(g, t) && Evolves(g, t, t')
    ensures RowsOk(g, t')
  {
    LadderKept(g, t, t');
    GroundedKept(g, t, t');
  }

  // ----- the frozen context -----

  /** Everything upstream of a step with a row has settled. */
  lemma {:induction false} UpstreamSettledAlong(g: Graph, tasks: Tasks, p: seq<string>)
    requires RowsOk(g, tasks) && IsPath(g, p) && HasRow(tasks, p[0])
    ensures SettledRow(tasks, p[|p| - 1])
    decreases |p|
  {
    var id :| id in tasks && id.step == p[0];
    assert p[1] in Needs(g, id.step);
    assert SettledRow(tasks, p[1]);
    if |p| > 2 {
      UpstreamSettledAlong(g, tasks, p[1..]);
    }
  }

  lemma UpstreamSettled(g: Graph, tasks: Tasks, k: string, n: string)
    requires RowsOk(g, tasks) && HasRow(tasks, k) && n in Upstream(g, k)
    ensures SettledRow(tasks, n)
  {
    var p :| PathFromTo(g, p, k, n);
    UpstreamSettledAlong(g, tasks, p);
  }

  /** The same for a step that is only about to get its first row. */
  lemma ReadyUpstreamSettled(g: Graph, tasks: Tasks, k: string, n: string)
    requires RowsOk(g, tasks) && n in Upstream(g, k)
    requires forall m :: m in Needs(g, k) ==> SettledRow(tasks, m)
    ensures SettledRow(tasks, n)
  {
    UpstreamIsReachable(g, k, n);
    var m := ReachesFirst(g, k, n);
    if m != n {
      UpstreamIsReachable(g, m, n);
      UpstreamSettled(g, tasks, m, n);
    }
  }

  /** The context entry of a settled step: its one succeeded output, or nothing
      when it was skipped. */
  lemma SettledEntry(tasks: Tasks, id: TaskId)
    requires AttemptLadder(tasks) && id in tasks && Settled(tasks[id].status)
    ensures tasks[id].status == Skipped ==> !HasRow(SucceededRows(tasks), id.step)
    ensures tasks[id].status == Succeeded ==> Latest(SucceededRows(tasks), id.step) == Some(tasks[id])
  {
    var done := SucceededRows(tasks);
    if tasks[id].status == Skipped {
      if HasRow(done, id.step) {
        var other :| other in done && other.step == id.step;
        OneUndeadAttempt(tasks, id, other);
      }
    } else {
      assert TaskId(id.step, id.attempt) in done;
      forall other | other in done && other.step == id.step
        ensures other.attempt <= id.attempt
      {
        OneUndeadAttempt(tasks, id, other);
      }
      LatestAt(done, id.step, id.attempt);
    }
  }

  lemma SettledSame(g: Graph, t: Tasks, t': Tasks, id: TaskId)
    requires Evolves(g, t, t') && id in t && Settled(t[id].status)
    ensures id in t' && t'[id] == t[id]
  {
  }

  lemma EntryFrozen(g: Graph, t: Tasks, t': Tasks, n: string)
    requires RowsOk(g, t) && Evolves(g, t, t') && SettledRow(t, n)
    ensures HasRow(SucceededRows(t), n) <==> HasRow(SucceededRows(t'), n)
    ensures HasRow(SucceededRows(t), n) ==> Latest(SucceededRows(t), n) == Latest(SucceededRows(t'), n)
  {
    hide Evolves, AttemptLadder, Grounded, HasRow, SucceededRows;
    var id :| id in t && id.step == n && Settled(t[id].status);
    LadderKept(g, t, t');
    SettledSame(g, t, t', id);
    SettledEntry(t, id);
    SettledEntry(t', id);
    LatestIffRow(SucceededRows(t), n);
    LatestIffRow(SucceededRows(t'), n);
  }

  lemma LatestIffRow(tasks: Tasks, k: string)
    ensures HasRow(tasks, k) <==> Latest(tasks, k).Some?
  {
  }

  lemma SameEntries(g: Graph, t: Tasks, t': Tasks, k: string)
    requires forall n :: n in Upstream(g, k) ==>
               && (HasRow(SucceededRows(t), n) <==> HasRow(SucceededRows(t'), n))
               && (HasRow(SucceededRows(t), n) ==> Latest(SucceededRows(t), n) == Latest(SucceededRows(t'), n))
    ensures BuildContext(g, t, k) == BuildContext(g, t', k)
  {
    var done, done' := SucceededRows(t), SucceededRows(t');
    LatestRowsExist(done);
    hide Upstream, HasRow, SucceededRows, Latest;
    assert forall n :: n in BuildContext(g, t, k) <==> n in Upstream(g, k) && HasRow(done, n);
    assert forall n :: n in BuildContext(g, t', k) <==> n in Upstream(g, k) && HasRow(done', n);
  }

  lemma LatestRowsExist(tasks: Tasks)
    ensures forall k :: HasRow(tasks, k) ==> Latest(tasks, k).Some?
  {
  }

  /** A context whose upstream has settled never changes again. */
  lemma ContextFrozen(g: Graph, t: Tasks, t': Tasks, k: string)
    requires RowsOk(g, t) && Evolves(g, t, t')
    requires forall n :: n in Upstream(g, k) ==> SettledRow(t, n)
    ensures BuildContext(g, t, k) == BuildContext(g, t', k)
  {
    hide RowsOk, Evolves, Upstream, HasRow, SucceededRows, Latest, SettledRow, BuildContext;
    forall n | n in Upstream(g, k)
      ensures HasRow(SucceededRows(t), n) <==> HasRow(SucceededRows(t'), n)
      ensures HasRow(SucceededRows(t), n) ==> Latest(SucceededRows(t), n) == Latest(SucceededRows(t'), n)
    {
      EntryFrozen(g, t, t', n);
    }
    SameEntries(g, t, t', k);
  }

  // ----- every transaction obeys the relation -----

  lemma FirstRowsNew(w: World, g: Graph, t: Tasks, id: TaskId)
    requires id in FirstRows(w, g, t)
    ensures id !in t && Ready(g, t, id.step) && id == TaskId(id.step, 1)
    ensures FirstRows(w, g, t)[id] == Row(FirstStatus(w, g, t, id.step), None)
    ensures FirstRows(w, g, t)[id].status in {Queued, Skipped, Failed}
  {
    hide BuildContext;
  }

  lemma AdvanceEvolves(w: World, g: Graph, s: State)
    requires RowsOk(g, s.tasks)
    ensures Evolves(g, s.tasks, AdvanceTx(w, g, s).tasks)
  {
    hide Evolves, RowsOk, AnyDead, AllSettled, FirstRows, FirstAttempt;
    var rows := FirstRows(w, g, s.tasks);
    forall id | id in rows
      ensures id !in s.tasks && id.step in g && FirstAttempt(g, s.tasks, id)
    {
      FirstRowsGrounded(w, g, s.tasks, id);
    }
    FirstsEvolve(g, s.tasks, rows);
    EvolvesSame(g, s.tasks);
  }

  lemma FirstRowsGrounded(w: World, g: Graph, t: Tasks, id: TaskId)
    requires RowsOk(g, t) && id in FirstRows(w, g, t)
    ensures id !in t && id.step in g && FirstAttempt(g, t, id)
  {
    hide FirstRows, FirstStatus, LatestSettled, SettledRow;
    FirstRowsNew(w, g, t, id);
    forall n | n in Needs(g, id.step)
      ensures SettledRow(t, n)
    {
      SettledIsLatest(t, n);
    }
  }

  lemma FirstsEvolve(g: Graph, t: Tasks, rows: Tasks)
    requires forall id :: id in rows ==> id !in t && id.step in g && FirstAttempt(g, t, id)
    ensures Evolves(g, t, t + rows)
  {
  }

  lemma EndEvolves(g: Graph, s: State, id: TaskId, row: Row, retries: int)
    requires RowsOk(g, s.tasks) && id in s.tasks
    requires Progress(s.tasks[id].status) < Progress(row.status) && row.status != Skipped
    ensures Evolves(g, s.tasks, EndTx(s, id, row, retries).tasks)
  {
    if row.status == Failed && Retrying(id, retries) {
      if NextAttempt(id) in s.tasks {
        EvolvesSame(g, s.tasks);
      } else {
        RetryingEvolves(g, s.tasks, id, row);
      }
    } else {
      MoveEvolves(g, s.tasks, id, row);
    }
    hide Evolves, RowsOk;
  }

  lemma RetryingEvolves(g: Graph, t: Tasks, id: TaskId, row: Row)
    requires id in t && id.step in g && id.attempt >= 1 && NextAttempt(id) !in t
    requires Progress(t[id].status) < Progress(row.status) && row.status == Failed
    ensures Evolves(g, t, t[id := row][NextAttempt(id) := Row(Queued, None)])
  {
    var t' := t[id := row][NextAttempt(id) := Row(Queued, None)];
    assert TaskId(id.step, id.attempt) == id;
    assert LaterAttempt(t, t', NextAttempt(id));
    hide LaterAttempt, FirstAttempt;
  }

  lemma CancelEvolves(g: Graph, s: State)
    ensures Evolves(g, s.tasks, CancelTx(s).tasks)
  {
  }

  lemma RedoIsLater(g: Graph, t: Tasks, id: TaskId)
    requires RowsOk(g, t) && id in RedoIds(t)
    ensures id !in t && id.step in g && id.attempt >= 2
    ensures TaskId(id.step, id.attempt - 1) in t && Dead(t[TaskId(id.step, id.attempt - 1)].status)
  {
    var prev :| prev in t && IsTop(t, prev.step, prev.attempt) && Dead(t[prev].status) && id == NextAttempt(prev);
    assert TaskId(id.step, id.attempt - 1) == prev;
  }

  lemma RetryEvolves(g: Graph, s: State)
    requires RowsOk(g, s.tasks)
    ensures Evolves(g, s.tasks, RetryTx(s).tasks)
  {
    var t, t' := s.tasks, RetryTx(s).tasks;
    if s.run == RunFailed || s.run == RunCanceled {
      forall id | id in RedoIds(t)
        ensures id !in t
      {
        RedoIsLater(g, t, id);
      }
      forall id | id in t' && id !in t
        ensures id.step in g && LaterAttempt(t, t', id)
      {
        RedoIsLater(g, t, id);
      }
    }
  }

  /** The state such an event acts on: its worker has left. */
  function Leaving(s: State, e: Event): (left: State)
    requires Ending(e)
  {
    match e
    case FailLoaded(id, _) => s.(loaded := s.loaded - multiset{id})
    case FailPrepared(id, ctx) => s.(prepared := s.prepared - multiset{Prepared(id, ctx)})
    case Finish(id, ctx, _, _) => s.(executing := s.executing - multiset{Prepared(id, ctx)})
    case Reap(_) => s
  }

  /** Whether its guarded update finds the row still queued or running. */
  predicate Wins(s: State, e: Event)
    requires Ending(e)
  {
    e.id in s.tasks && (s.tasks[e.id].status == Queued || s.tasks[e.id].status == Running)
  }

  function FinalRow(s: State, e: Event): (row: Row)
    requires Ending(e) && Wins(s, e)
    ensures row.status == Succeeded || row.status == Failed
  {
    match e
    case FailLoaded(_, _) => Row(Failed, Some(NO_OUTPUT))
    case FailPrepared(_, _) => Row(Failed, Some(NO_OUTPUT))
    case Finish(_, _, ok, output) => Row(if ok then Succeeded else Failed, Some(output))
    case Reap(id) => s.tasks[id].(status := Failed)
  }

  function RetriesSeen(g: Graph, e: Event): int
    requires Ending(e)
  {
    if e.FailLoaded? && !e.knowsRetries then 0 else Retries(g, e.id.step)
  }

  /** All four are EndTx behind the same guard. */
  lemma ShapeOfEnding(g: Graph, s: State, e: Event)
    requires Enabled(s, e) && Ending(e)
    ensures ApplyEnding(g, s, e) ==
            if Wins(s, e) then EndTx(Leaving(s, e), e.id, FinalRow(s, e), RetriesSeen(g, e)) else Leaving(s, e)
  {
    hide EndTx;
  }

  lemma EndingEvolves(g: Graph, s: State, e: Event)
    requires RowsOk(g, s.tasks) && Enabled(s, e) && Ending(e)
    ensures Evolves(g, s.tasks, ApplyEnding(g, s, e).tasks)
  {
    hide RowsOk, Evolves, EndTx, ApplyEnding;
    ShapeOfEnding(g, s, e);
    if Wins(s, e) {
      EndEvolves(g, Leaving(s, e), e.id, FinalRow(s, e), RetriesSeen(g, e));
    } else {
      EvolvesSame(g, s.tasks);
    }
  }

  lemma EvolvesSame(g: Graph, t: Tasks)
    ensures Evolves(g, t, t)
  {
  }

  /** Moving one live row forward, keeping or replacing its output. */
  lemma MoveEvolves(g: Graph, t: Tasks, id: TaskId, row: Row)
    requires id in t && Progress(t[id].status) < Progress(row.status) && row.status != Skipped
    ensures Evolves(g, t, t[id := row])
  {
  }

  lemma StartingEvolves(g: Graph, s: State, e: Event)
    requires Enabled(s, e) && Starting(e)
    ensures Evolves(g, s.tasks, ApplyStarting(g, s, e).tasks)
  {
    hide Evolves, BuildContext;
    EvolvesSame(g, s.tasks);
    if e.Claim? && e.id in s.tasks && s.tasks[e.id].status == Queued {
      MoveEvolves(g, s.tasks, e.id, s.tasks[e.id].(status := Running));
    }
  }

  lemma ParkingEvolves(g: Graph, s: State, e: Event)
    requires Enabled(s, e) && Parking(e)
    ensures Evolves(g, s.tasks, ApplyParking(s, e).tasks)
  {
    hide Evolves;
    EvolvesSame(g, s.tasks);
    if e.Suspend? && e.id in s.tasks && s.tasks[e.id].status == Running {
      MoveEvolves(g, s.tasks, e.id, Row(Suspended, Some(e.output)));
    } else if e.Resume? && e.id in s.tasks && s.tasks[e.id].status == Suspended {
      MoveEvolves(g, s.tasks, e.id, Row(Succeeded, Some(e.output)));
    }
  }

  lemma FaultKeepsRows(s: State, e: Event)
    requires Fault(e)
    ensures ApplyFault(s, e).tasks == s.tasks
    ensures ApplyFault(s, e).run == s.run
  {
    match e
    case WorkerDies(_, _) =>
    case ResumerDies(_, _, _) =>
    case LoadedLost(_) =>
    case PreparedLost(_, _) =>
    case ReplayAdvance =>
    case ReplayExecute(_) =>
    case ReplayResume(_) =>
  }

  /** Every event moves the task rows by `Evolves`. */
  lemma StepEvolves(w: World, g: Graph, s: State, e: Event)
    requires RowsOk(g, s.tasks) && Enabled(s, e)
    ensures Evolves(g, s.tasks, Apply(w, g, s, e).tasks)
  {
    hide Evolves, RowsOk, ApplyStarting, ApplyEnding, ApplyParking, ApplyFault, AdvanceTx, CancelTx, RetryTx;
    if Starting(e) {
      StartingEvolves(g, s, e);
    } else if Ending(e) {
      EndingEvolves(g, s, e);
    } else if Parking(e) {
      ParkingEvolves(g, s, e);
    } else if Fault(e) {
      FaultKeepsRows(s, e);
      EvolvesSame(g, s.tasks);
    } else {
      match e
      case Advance => AdvanceEvolves(w, g, s.(advances := s.advances - 1));
      case CancelRun => CancelEvolves(g, s);
      case RetryRun => RetryEvolves(g, s);
    }
  }
}
