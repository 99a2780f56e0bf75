/**
 Between RetryRun calls a run does a bounded amount of work.  `Weight` is a
 natural number that every engine event lowers; redeliveries, callbacks and a
 dead resumer may raise it by a constant.
 */
module Termination {
  import opened Definitions
  import opened RunState
  import opened Ladder
  import opened Wakeups

  const UNIT := 20

  function StatusWeight(t: TaskStatus): nat {
    match t
    case Queued => 16
    case Running => 12
    case Suspended => 8
    case _ => 0
  }

  function AttemptsLeft(retries: nat, attempt: nat): nat {
    if attempt <= retries + 1 then retries + 1 - attempt else 0
  }

  /** What a step can still cost: its automatic attempts and the latest row. */
  ghost function Potential(g: Graph, tasks: Tasks, k: string): nat {
    var retries := if Retries(g, k) >= 0 then Retries(g, k) else 0;
    if HasRow(tasks, k)
    then UNIT * AttemptsLeft(retries, Top(tasks, k)) + StatusWeight(tasks[TaskId(k, Top(tasks, k))].status)
    else UNIT * (retries + 2)
  }

  ghost function Total(g: Graph, tasks: Tasks, order: seq<string>): nat {
    if order == [] then 0 else Potential(g, tasks, order[0]) + Total(g, tasks, order[1..])
  }

  ghost function JobWeight(s: State): nat {
    s.advances + 4 * |s.executes| + 3 * |s.loaded| + 2 * |s.prepared| + |s.executing| + 2 * |s.resumes| + |s.resuming|
  }

  ghost function Weight(g: Graph, order: seq<string>, s: State): nat {
    Total(g, s.tasks, order) + (if Terminal(s.run) then 0 else 1) + JobWeight(s)
  }

  /** What events from outside the engine may add. */
  function Injects(e: Event): nat {
    match e
    case CallbackPickup(_, _) => 1
    case ResumerDies(_, _, _) => 1
    case ReplayAdvance => 1
    case ReplayExecute(_) => 4
    case ReplayResume(_) => 2
    case _ => 0
  }

  predicate External(e: Event) {
    Injects(e) > 0 || e.RetryRun?
  }

  // ----- sums over the steps -----

  lemma {:induction false} TotalLowers(g: Graph, t: Tasks, t': Tasks, order: seq<string>)
    requires forall k :: k in order ==> Potential(g, t', k) <= Potential(g, t, k)
    ensures Total(g, t', order) <= Total(g, t, order)
  {
    hide Potential;
    if order != [] {
      TotalLowers(g, t, t', order[1..]);
    }
  }

  lemma {:induction false} TotalDrops(g: Graph, t: Tasks, t': Tasks, order: seq<string>, k: string, drop: nat)
    requires forall j :: j in order ==> Potential(g, t', j) <= Potential(g, t, j)
    requires k in order && Potential(g, t', k) + drop <= Potential(g, t, k)
    ensures Total(g, t', order) + drop <= Total(g, t, order)
  {
    hide Potential;
    if order[0] == k {
      TotalLowers(g, t, t', order[1..]);
    } else {
      TotalDrops(g, t, t', order[1..], k, drop);
    }
  }

  function Count(order: seq<string>, ids: set<TaskId>): nat {
    if order == [] then 0 else (if TaskId(order[0], 1) in ids then 1 else 0) + Count(order[1..], ids)
  }

  lemma {:induction false} TotalDropsByCount(
      g: Graph, t: Tasks, t': Tasks, order: seq<string>, ids: set<TaskId>, drop: nat)
    requires forall k :: k in order ==>
               Potential(g, t', k) + (if TaskId(k, 1) in ids then drop else 0) <= Potential(g, t, k)
    ensures Total(g, t', order) + drop * Count(order, ids) <= Total(g, t, order)
  {
    hide Potential;
    if order != [] {
      TotalDropsByCount(g, t, t', order[1..], ids, drop);
      assert order[0] in order;
      assert drop * Count(order, ids) ==
        (if TaskId(order[0], 1) in ids then drop else 0) + drop * Count(order[1..], ids);
    }
  }

  lemma {:induction false} CountSmaller(order: seq<string>, ids: set<TaskId>, ids': set<TaskId>)
    requires ids' <= ids
    ensures Count(order, ids') <= Count(order, ids)
  {
    if order != [] {
      CountSmaller(order[1..], ids, ids');
    }
  }

  lemma {:induction false} CountCovers(order: seq<string>, ids: set<TaskId>)
    requires forall id :: id in ids ==> id.attempt == 1 && id.step in order
    ensures |ids| <= Count(order, ids)
  {
    if order == [] {
      assert ids == {};
    } else {
      var first := TaskId(order[0], 1);
      var rest := ids - {first};
      forall id | id in rest
        ensures id.step in order[1..]
      {
        assert id.step != order[0] by {
          assert id == TaskId(id.step, id.attempt);
        }
      }
      CountCovers(order[1..], rest);
      CountSmaller(order[1..], ids, rest);
    }
  }

  // ----- one row moves -----

  lemma PotentialAt(g: Graph, t: Tasks, k: string, n: nat)
    requires IsTop(t, k, n) && Retries(g, k) >= 0
    ensures Potential(g, t, k) == UNIT * AttemptsLeft(Retries(g, k), n) + StatusWeight(t[TaskId(k, n)].status)
  {
    LatestAt(t, k, n);
  }

  lemma PotentialFrame(g: Graph, t: Tasks, t': Tasks, k: string)
    requires forall id: TaskId :: id.step == k ==> (id in t <==> id in t')
    requires forall id: TaskId :: id.step == k && id in t ==> t'[id] == t[id]
    ensures Potential(g, t', k) == Potential(g, t, k)
  {
    if HasRow(t, k) {
      var n := Top(t, k);
      assert TaskId(k, n).step == k;
      assert IsTop(t', k, n);
      LatestAt(t', k, n);
    } else {
      assert !HasRow(t', k);
    }
  }

  lemma MoveDrops(g: Graph, order: seq<string>, t: Tasks, id: TaskId, row: Row)
    requires RowsOk(g, t) && Runnable(g) && id in t && Live(t[id].status) && id.step in order
    requires StatusWeight(row.status) <= StatusWeight(t[id].status)
    ensures Total(g, t[id := row], order) + (StatusWeight(t[id].status) - StatusWeight(row.status)) <=
            Total(g, t, order)
  {
    hide Potential, Total, Grounded;
    var t' := t[id := row];
    forall k | k in order && k != id.step
      ensures Potential(g, t', k) == Potential(g, t, k)
    {
      PotentialFrame(g, t, t', k);
    }
    TopWins(t, id);
    assert TaskId(id.step, id.attempt) == id;
    assert IsTop(t', id.step, id.attempt);
    PotentialAt(g, t, id.step, id.attempt);
    PotentialAt(g, t', id.step, id.attempt);
    TotalDrops(g, t, t', order, id.step, StatusWeight(t[id].status) - StatusWeight(row.status));
  }

  /** A failure inside the budget: one attempt fewer to come. */
  lemma RetryDrops(g: Graph, order: seq<string>, t: Tasks, id: TaskId, row: Row)
    requires RowsOk(g, t) && Runnable(g) && id in t && Live(t[id].status) && id.step in order
    requires row.status == Failed && id.attempt <= Retries(g, id.step)
    ensures Total(g, t[id := row][NextAttempt(id) := Row(Queued, None)], order) + 12 <= Total(g, t, order)
  {
    hide Potential, Total, Grounded;
    var next := NextAttempt(id);
    var t' := t[id := row][next := Row(Queued, None)];
    forall k | k in order && k != id.step
      ensures Potential(g, t', k) == Potential(g, t, k)
    {
      PotentialFrame(g, t, t', k);
    }
    TopWins(t, id);
    assert TaskId(id.step, id.attempt) == id;
    assert TaskId(id.step, id.attempt + 1) == next;
    assert IsTop(t', id.step, id.attempt + 1);
    PotentialAt(g, t, id.step, id.attempt);
    PotentialAt(g, t', id.step, id.attempt + 1);
    TotalDrops(g, t, t', order, id.step, 12);
  }

  // ----- the events, group by group -----

  lemma Taken<T>(m: multiset<T>, x: T)
    requires x in m
    ensures |m - multiset{x}| == |m| - 1
  {
    assert m == (m - multiset{x}) + multiset{x};
  }

  lemma Given<T>(m: multiset<T>, x: T)
    ensures |m + multiset{x}| == |m| + 1
  {
  }

  lemma ExecuteWeighs(g: Graph, order: seq<string>, s: State, x: TaskId)
    ensures Weight(g, order, s.(executes := s.executes + multiset{x})) == Weight(g, order, s) + 4
    ensures x in s.executes ==> Weight(g, order, s.(executes := s.executes - multiset{x})) == Weight(g, order, s) - 4
  {
    hide Total;
    Given(s.executes, x);
    if x in s.executes {
      Taken(s.executes, x);
    }
  }

  lemma LoadedWeighs(g: Graph, order: seq<string>, s: State, x: TaskId)
    ensures Weight(g, order, s.(loaded := s.loaded + multiset{x})) == Weight(g, order, s) + 3
    ensures x in s.loaded ==> Weight(g, order, s.(loaded := s.loaded - multiset{x})) == Weight(g, order, s) - 3
  {
    hide Total;
    Given(s.loaded, x);
    if x in s.loaded {
      Taken(s.loaded, x);
    }
  }

  lemma PreparedWeighs(g: Graph, order: seq<string>, s: State, x: Prepared)
    ensures Weight(g, order, s.(prepared := s.prepared + multiset{x})) == Weight(g, order, s) + 2
    ensures x in s.prepared ==> Weight(g, order, s.(prepared := s.prepared - multiset{x})) == Weight(g, order, s) - 2
  {
    hide Total;
    Given(s.prepared, x);
    if x in s.prepared {
      Taken(s.prepared, x);
    }
  }

  lemma ExecutingWeighs(g: Graph, order: seq<string>, s: State, x: Prepared)
    ensures Weight(g, order, s.(executing := s.executing + multiset{x})) == Weight(g, order, s) + 1
    ensures x in s.executing ==> Weight(g, order, s.(executing := s.executing - multiset{x})) == Weight(g, order, s) - 1
  {
    hide Total;
    Given(s.executing, x);
    if x in s.executing {
      Taken(s.executing, x);
    }
  }

  lemma ResumeWeighs(g: Graph, order: seq<string>, s: State, x: TaskId)
    ensures Weight(g, order, s.(resumes := s.resumes + multiset{x})) == Weight(g, order, s) + 2
    ensures x in s.resumes ==> Weight(g, order, s.(resumes := s.resumes - multiset{x})) == Weight(g, order, s) - 2
  {
    hide Total;
    Given(s.resumes, x);
    if x in s.resumes {
      Taken(s.resumes, x);
    }
  }

  lemma ResumingWeighs(g: Graph, order: seq<string>, s: State, x: Resuming)
    ensures Weight(g, order, s.(resuming := s.resuming + multiset{x})) == Weight(g, order, s) + 1
    ensures x in s.resuming ==> Weight(g, order, s.(resuming := s.resuming - multiset{x})) == Weight(g, order, s) - 1
  {
    hide Total;
    Given(s.resuming, x);
    if x in s.resuming {
      Taken(s.resuming, x);
    }
  }

  lemma EndLowers(g: Graph, order: seq<string>, s: State, id: TaskId, row: Row, retries: int)
    requires Runnable(g) && RowsOk(g, s.tasks) && id.step in order
    requires id in s.tasks && Live(s.tasks[id].status) && Progress(s.tasks[id].status) < 2
    requires row.status == Succeeded || row.status == Failed
    requires retries <= Retries(g, id.step)
    ensures Weight(g, order, EndTx(s, id, row, retries)) < Weight(g, order, s)
  {
    hide Runnable, RowsOk, Total;
    NextAttemptIsFree(g, s.tasks, id);
    if row.status == Failed && Retrying(id, retries) {
      RetryDrops(g, order, s.tasks, id, row);
    } else {
      MoveDrops(g, order, s.tasks, id, row);
    }
  }

  lemma LeavingLowers(g: Graph, order: seq<string>, s: State, e: Event)
    requires Enabled(s, e) && Ending(e)
    ensures e.Reap? ==> Leaving(s, e) == s
    ensures !e.Reap? ==> Weight(g, order, Leaving(s, e)) < Weight(g, order, s)
  {
    hide Weight;
    match e
    case FailLoaded(id, _) => LoadedWeighs(g, order, s, id);
    case FailPrepared(id, ctx) => PreparedWeighs(g, order, s, Prepared(id, ctx));
    case Finish(id, ctx, _, _) => ExecutingWeighs(g, order, s, Prepared(id, ctx));
    case Reap(_) =>
  }

  lemma EndingLowers(g: Graph, order: seq<string>, s: State, e: Event)
    requires Runnable(g) && RowsOk(g, s.tasks) && (forall k :: k in g ==> k in order)
    requires Enabled(s, e) && Ending(e)
    ensures Weight(g, order, ApplyEnding(g, s, e)) < Weight(g, order, s)
  {
    hide ApplyEnding, EndTx, Weight, AttemptLadder, Grounded, Ranked;
    ShapeOfEnding(g, s, e);
    LeavingLowers(g, order, s, e);
    if Wins(s, e) {
      EndLowers(g, order, Leaving(s, e), e.id, FinalRow(s, e), RetriesSeen(g, e));
    }
  }

  lemma LoadLowers(g: Graph, order: seq<string>, s: State, id: TaskId)
    requires id in s.executes
    ensures Weight(g, order, LoadTx(s.(executes := s.executes - multiset{id}), id)) < Weight(g, order, s)
  {
    hide Weight;
    var s1 := s.(executes := s.executes - multiset{id});
    ExecuteWeighs(g, order, s, id);
    LoadedWeighs(g, order, s1, id);
  }

  lemma PrepareLowers(g: Graph, order: seq<string>, s: State, p: Prepared)
    requires p.id in s.loaded
    ensures Weight(g, order, s.(loaded := s.loaded - multiset{p.id}, prepared := s.prepared + multiset{p})) <
            Weight(g, order, s)
  {
    hide Weight;
    var s1 := s.(loaded := s.loaded - multiset{p.id});
    LoadedWeighs(g, order, s, p.id);
    PreparedWeighs(g, order, s1, p);
  }

  lemma RowWeighs(g: Graph, order: seq<string>, s: State, t': Tasks, drop: nat)
    requires Total(g, t', order) + drop <= Total(g, s.tasks, order)
    ensures Weight(g, order, s.(tasks := t')) + drop <= Weight(g, order, s)
  {
    hide Total;
  }

  lemma ClaimLowers(g: Graph, order: seq<string>, s: State, p: Prepared)
    requires Runnable(g) && RowsOk(g, s.tasks) && (forall k :: k in g ==> k in order) && p in s.prepared
    ensures Weight(g, order, ClaimTx(s.(prepared := s.prepared - multiset{p}), p.id, p.ctx)) < Weight(g, order, s)
  {
    hide Weight, Total, AttemptLadder, Grounded, Ranked;
    var s1 := s.(prepared := s.prepared - multiset{p});
    PreparedWeighs(g, order, s, p);
    if p.id in s.tasks && s.tasks[p.id].status == Queued {
      var t' := s.tasks[p.id := s.tasks[p.id].(status := Running)];
      MoveDrops(g, order, s.tasks, p.id, s.tasks[p.id].(status := Running));
      RowWeighs(g, order, s1, t', 4);
      ExecutingWeighs(g, order, s1.(tasks := t'), p);
      HistoryWeighsNothing(g, order, s1.(tasks := t', executing := s1.executing + multiset{p}),
                           ClaimTx(s1, p.id, p.ctx));
    }
  }

  /** History fields carry no weight. */
  lemma HistoryWeighsNothing(g: Graph, order: seq<string>, s: State, s': State)
    requires s' == s.(parked := s'.parked, invoked := s'.invoked, resumed := s'.resumed, timers := s'.timers)
    ensures Weight(g, order, s') == Weight(g, order, s)
  {
  }

  lemma StartingLowers(g: Graph, order: seq<string>, s: State, e: Event)
    requires Runnable(g) && RowsOk(g, s.tasks) && (forall k :: k in g ==> k in order)
    requires Enabled(s, e) && Starting(e)
    ensures Weight(g, order, ApplyStarting(g, s, e)) < Weight(g, order, s)
  {
    hide Weight, BuildContext, Runnable, RowsOk, LoadTx, ClaimTx;
    match e
    case Load(id) => LoadLowers(g, order, s, id);
    case Prepare(id) => PrepareLowers(g, order, s, Prepared(id, BuildContext(g, s.tasks, id.step)));
    case Claim(id, ctx) => ClaimLowers(g, order, s, Prepared(id, ctx));
  }

  lemma SuspendLowers(g: Graph, order: seq<string>, s: State, id: TaskId, token: string, timed: bool, output: string)
    requires Runnable(g) && RowsOk(g, s.tasks) && (forall k :: k in g ==> k in order)
    ensures Weight(g, order, SuspendTx(s, id, token, timed, output)) <= Weight(g, order, s)
  {
    hide Total, AttemptLadder, Grounded, Ranked;
    if id in s.tasks && s.tasks[id].status == Running && token !in s.parked {
      MoveDrops(g, order, s.tasks, id, Row(Suspended, Some(output)));
    }
  }

  lemma ResumeLowers(g: Graph, order: seq<string>, s: State, id: TaskId, output: string)
    requires Runnable(g) && RowsOk(g, s.tasks) && (forall k :: k in g ==> k in order)
    ensures Weight(g, order, ResumeTx(s, id, output)) <= Weight(g, order, s)
    ensures id in s.tasks && s.tasks[id].status == Suspended ==>
              Weight(g, order, ResumeTx(s, id, output)) < Weight(g, order, s)
  {
    hide Total, AttemptLadder, Grounded, Ranked;
    if id in s.tasks && s.tasks[id].status == Suspended {
      MoveDrops(g, order, s.tasks, id, Row(Succeeded, Some(output)));
    }
  }

  lemma TimerLowers(g: Graph, order: seq<string>, s: State, r: Resuming)
    requires r.id in s.resumes
    ensures Weight(g, order, s.(resumes := s.resumes - multiset{r.id}, resuming := s.resuming + multiset{r})) <
            Weight(g, order, s)
  {
    hide Weight;
    ResumeWeighs(g, order, s, r.id);
    ResumingWeighs(g, order, s.(resumes := s.resumes - multiset{r.id}), r);
  }

  lemma ParkingLowers(g: Graph, order: seq<string>, s: State, e: Event)
    requires Runnable(g) && RowsOk(g, s.tasks) && (forall k :: k in g ==> k in order)
    requires Enabled(s, e) && Parking(e)
    ensures e.CallbackPickup? ==> Weight(g, order, ApplyParking(s, e)) == Weight(g, order, s) + 1
    ensures !e.CallbackPickup? ==> Weight(g, order, ApplyParking(s, e)) < Weight(g, order, s)
  {
    hide Runnable, RowsOk, Weight, SuspendTx, ResumeTx;
    match e
    case Suspend(id, ctx, token, timed, output) =>
      ExecutingWeighs(g, order, s, Prepared(id, ctx));
      SuspendLowers(g, order, s.(executing := s.executing - multiset{Prepared(id, ctx)}), id, token, timed, output);
    case TimerPickup(id, token) => TimerLowers(g, order, s, Resuming(id, s.parked[token].payload, true));
    case TimerStale(id) => ResumeWeighs(g, order, s, id);
    case CallbackPickup(token, output) => ResumingWeighs(g, order, s, Resuming(s.parked[token].task, output, false));
    case Resume(id, output, timer) =>
      ResumingWeighs(g, order, s, Resuming(id, output, timer));
      ResumeLowers(g, order, s.(resuming := s.resuming - multiset{Resuming(id, output, timer)}), id, output);
  }

  lemma FaultLowers(g: Graph, order: seq<string>, s: State, e: Event)
    requires Enabled(s, e) && Fault(e)
    ensures Weight(g, order, ApplyFault(s, e)) <= Weight(g, order, s) + Injects(e)
    ensures Injects(e) == 0 ==> Weight(g, order, ApplyFault(s, e)) < Weight(g, order, s)
  {
    hide Weight;
    match e
    case WorkerDies(id, ctx) => ExecutingWeighs(g, order, s, Prepared(id, ctx));
    case ResumerDies(id, output, timer) =>
      ResumingWeighs(g, order, s, Resuming(id, output, timer));
      ResumeWeighs(g, order, s.(resuming := s.resuming - multiset{Resuming(id, output, timer)}), id);
    case LoadedLost(id) => LoadedWeighs(g, order, s, id);
    case PreparedLost(id, ctx) => PreparedWeighs(g, order, s, Prepared(id, ctx));
    case ReplayAdvance => AdvanceWeighs(g, order, s);
    case ReplayExecute(id) => ExecuteWeighs(g, order, s, id);
    case ReplayResume(id) => ResumeWeighs(g, order, s, id);
  }

  lemma AdvanceWeighs(g: Graph, order: seq<string>, s: State)
    ensures Weight(g, order, s.(advances := s.advances + 1)) == Weight(g, order, s) + 1
    ensures s.advances > 0 ==> Weight(g, order, s.(advances := s.advances - 1)) == Weight(g, order, s) - 1
  {
  }

  lemma CancelLowers(g: Graph, order: seq<string>, s: State)
    requires !Terminal(s.run)
    ensures Weight(g, order, CancelTx(s)) < Weight(g, order, s)
  {
    hide Total;
    var t' := CancelTx(s).tasks;
    forall k | k in order
      ensures Potential(g, t', k) <= Potential(g, s.tasks, k)
    {
      CanceledPotential(g, s, k);
    }
    hide Potential;
    TotalLowers(g, s.tasks, t', order);
  }

  lemma CanceledPotential(g: Graph, s: State, k: string)
    requires !Terminal(s.run)
    ensures Potential(g, CancelTx(s).tasks, k) <= Potential(g, s.tasks, k)
  {
    var t, t' := s.tasks, CancelTx(s).tasks;
    if HasRow(t, k) {
      assert TaskId(k, Top(t, k)).step == k;
      assert IsTop(t', k, Top(t, k));
      LatestAt(t', k, Top(t, k));
    } else {
      assert !HasRow(t', k);
    }
  }

  // ----- advance -----

  lemma ReadyPotential(w: World, g: Graph, t: Tasks, k: string)
    requires Runnable(g) && Ready(g, t, k)
    ensures Potential(g, t + FirstRows(w, g, t), k) + 5 <= Potential(g, t, k)
  {
    hide FirstRows, FirstStatus, Ready, Ranked, Potential;
    var rows := FirstRows(w, g, t);
    var t' := t + rows;
    FirstRowsCover(w, g, t, k);
    forall id | id in t' && id.step == k
      ensures id.attempt <= 1
    {
      if id in rows {
        FirstRowsNew(w, g, t, id);
      } else {
        assert !HasRow(t, k) by {
          ReadyHasNoRow(g, t, k);
        }
      }
    }
    assert IsTop(t', k, 1);
    ReadyHasNoRow(g, t, k);
    PotentialAt(g, t', k, 1);
    PotentialMissing(g, t, k);
  }

  lemma ReadyHasNoRow(g: Graph, t: Tasks, k: string)
    requires Ready(g, t, k)
    ensures k in g && !HasRow(t, k)
  {
  }

  lemma PotentialMissing(g: Graph, t: Tasks, k: string)
    requires !HasRow(t, k) && Retries(g, k) >= 0
    ensures Potential(g, t, k) == UNIT * (Retries(g, k) + 2)
  {
  }

  lemma UnreadyPotential(w: World, g: Graph, t: Tasks, k: string)
    requires TaskId(k, 1) !in FirstRows(w, g, t)
    ensures Potential(g, t + FirstRows(w, g, t), k) == Potential(g, t, k)
  {
    hide FirstRows, FirstStatus, Ready, Potential;
    var rows := FirstRows(w, g, t);
    forall id | id in rows
      ensures id.step != k && id !in t
    {
      FirstRowsNew(w, g, t, id);
    }
    PotentialFrame(g, t, t + rows, k);
  }

  lemma AdvanceTotal(w: World, g: Graph, order: seq<string>, t: Tasks)
    requires Runnable(g) && (forall k :: k in g ==> k in order)
    ensures var rows := FirstRows(w, g, t);
      Total(g, t + rows, order) + 4 * |QueuedIn(rows)| + (if GuardResolved(rows) then 1 else 0) <= Total(g, t, order)
  {
    hide Runnable, FirstRows, FirstStatus, Ready, Potential, Total;
    var rows := FirstRows(w, g, t);
    forall id | id in rows
      ensures id.attempt == 1 && id.step in order && Ready(g, t, id.step)
    {
      FirstRowsNew(w, g, t, id);
      ReadyHasNoRow(g, t, id.step);
    }
    forall k | k in order
      ensures Potential(g, t + rows, k) + (if TaskId(k, 1) in rows.Keys then 5 else 0) <= Potential(g, t, k)
    {
      if TaskId(k, 1) in rows {
        assert TaskId(k, 1).step == k;
        ReadyPotential(w, g, t, k);
      } else {
        UnreadyPotential(w, g, t, k);
      }
    }
    TotalDropsByCount(g, t, t + rows, order, rows.Keys, 5);
    CountCovers(order, rows.Keys);
    FewerQueued(rows);
  }

  lemma FewerQueued(rows: Tasks)
    ensures 4 * |QueuedIn(rows)| + (if GuardResolved(rows) then 1 else 0) <= 5 * |rows.Keys|
  {
    FewerElements(QueuedIn(rows), rows.Keys);
    if GuardResolved(rows) {
      var id :| id in rows && rows[id].status != Queued;
      assert id in rows.Keys;
    }
  }

  lemma ManyGiven<T>(m: multiset<T>, q: set<T>)
    ensures |m + multiset(q)| == |m| + |q|
  {
  }

  lemma DispatchWeighs(g: Graph, order: seq<string>, s: State, s': State, t': Tasks, q: set<TaskId>, more: nat)
    requires s' ==
             s.(run := RunRunning, tasks := t', executes := s.executes + multiset(q), advances := s.advances + more)
    requires !Terminal(s.run) && Total(g, t', order) + 4 * |q| + more <= Total(g, s.tasks, order)
    ensures Weight(g, order, s') <= Weight(g, order, s)
  {
    hide Total;
    ManyGiven(s.executes, q);
  }

  lemma StatusWeighs(g: Graph, order: seq<string>, s: State, run: RunStatus)
    requires Terminal(run)
    ensures Weight(g, order, s.(run := run)) <= Weight(g, order, s)
  {
    hide Total;
  }

  lemma AdvanceLowers(w: World, g: Graph, order: seq<string>, s: State)
    requires Runnable(g) && (forall k :: k in g ==> k in order)
    ensures Weight(g, order, AdvanceTx(w, g, s)) <= Weight(g, order, s)
  {
    hide Runnable, AnyDead, AllSettled, FirstRows, GuardResolved, QueuedIn, Total, Weight;
    if !Terminal(s.run) {
      StatusWeighs(g, order, s, RunFailed);
      StatusWeighs(g, order, s, RunSucceeded);
      if !AnyDead(g, s.tasks) && !AllSettled(g, s.tasks) {
        var rows := FirstRows(w, g, s.tasks);
        AdvanceTotal(w, g, order, s.tasks);
        var more := if GuardResolved(rows) then 1 else 0;
        DispatchWeighs(g, order, s, AdvanceTx(w, g, s), s.tasks + rows, QueuedIn(rows), more);
      }
    }
  }

  /** The bound, one event at a time. */
  lemma StepLowers(w: World, g: Graph, order: seq<string>, s: State, e: Event)
    requires Runnable(g) && RowsOk(g, s.tasks) && (forall k :: k in g ==> k in order)
    requires Enabled(s, e) && !e.RetryRun?
    ensures Weight(g, order, Apply(w, g, s, e)) + (if External(e) then 0 else 1) <= Weight(g, order, s) + Injects(e)
  {
    hide Runnable, RowsOk, AdvanceTx, CancelTx, Weight, ApplyStarting, ApplyEnding, ApplyParking, ApplyFault;
    if Starting(e) {
      StartingLowers(g, order, s, e);
    } else if Ending(e) {
      EndingLowers(g, order, s, e);
    } else if Parking(e) {
      ParkingLowers(g, order, s, e);
    } else if Fault(e) {
      FaultLowers(g, order, s, e);
    } else if e.Advance? {
      AdvanceLowers(w, g, order, s.(advances := s.advances - 1));
      AdvanceWeighs(g, order, s);
    } else {
      CancelLowers(g, order, s);
    }
  }

  /** A fresh run starts with at most 240 units per step, and two more. */
  lemma {:induction false} StartTotal(g: Graph, order: seq<string>)
    requires Runnable(g) && forall k :: k in order ==> k in g
    ensures Total(g, map[], order) <= 240 * |order|
  {
    if order != [] {
      StartTotal(g, order[1..]);
      assert !HasRow(map[], order[0]);
      PotentialMissing(g, map[], order[0]);
    }
  }

  lemma StartWeight(g: Graph, order: seq<string>)
    requires Runnable(g) && forall k :: k in order ==> k in g
    ensures Weight(g, order, START) <= 240 * |order| + 2
  {
    StartTotal(g, order);
  }
}
