/**
 How a run turns out.  Exactly which events end the attempts of a step; that a
 failed or canceled run has such an event, unanswered, in its history; and that a
 run that comes to rest without one has succeeded with what the interpreter
 computes.
 */
module Outcomes {
  import opened Definitions
  import opened RunState
  import opened Ladder
  import opened RunStatusProof
  import opened Wakeups
  import opened Histories
  import opened Liveness
  import opened Determinism
  import opened Effects

  // ----- why a row dies -----

  predicate DeadIn(tasks: Tasks, id: TaskId) {
    id in tasks && Dead(tasks[id].status)
  }

  /** The events that fail or cancel a row: a failing finish, an early failure or a
      reap that finds it queued or running, a cancel that finds it live, or an
      advance that finds its step ready and its guard in error. */
  ghost predicate Kills(w: World, g: Graph, s: State, e: Event, id: TaskId) {
    || (Ending(e) && e.id == id && Wins(s, e) && (e.Finish? ==> !e.ok))
    || (e.CancelRun? && id in s.tasks && Live(s.tasks[id].status))
    || (e.Advance? && GuardKills(w, g, s, id))
  }

  ghost predicate GuardKills(w: World, g: Graph, s: State, id: TaskId) {
    && !Terminal(s.run) && !AnyDead(g, s.tasks) && id.attempt == 1 && Ready(g, s.tasks, id.step)
    && GuardValue(w, g, id.step, BuildContext(g, s.tasks, id.step)) == EvalError
  }

  lemma EndKills(s: State, other: TaskId, row: Row, retries: int, id: TaskId)
    requires other in s.tasks && Live(s.tasks[other].status) && !Live(row.status) && NextAttempt(other) !in s.tasks
    requires !DeadIn(s.tasks, id)
    ensures DeadIn(EndTx(s, other, row, retries).tasks, id) <==> id == other && Dead(row.status)
  {
    hide Pow2;
  }

  lemma FinalIsDead(s: State, e: Event)
    requires Ending(e) && Wins(s, e)
    ensures Dead(FinalRow(s, e).status) <==> (e.Finish? ==> !e.ok)
  {
  }

  lemma EndingKills(g: Graph, s: State, e: Event, id: TaskId)
    requires RowsOk(g, s.tasks) && Enabled(s, e) && Ending(e) && !DeadIn(s.tasks, id)
    ensures DeadIn(ApplyEnding(g, s, e).tasks, id) <==> e.id == id && Wins(s, e) && (e.Finish? ==> !e.ok)
  {
    hide RowsOk, ApplyEnding, EndTx, FinalRow;
    ShapeOfEnding(g, s, e);
    if Wins(s, e) {
      NextAttemptIsFree(g, s.tasks, e.id);
      FinalIsDead(s, e);
      EndKills(Leaving(s, e), e.id, FinalRow(s, e), RetriesSeen(g, e), id);
    }
  }

  lemma StartingKillsNone(g: Graph, s: State, e: Event, id: TaskId)
    requires Starting(e) && !DeadIn(s.tasks, id)
    ensures !DeadIn(ApplyStarting(g, s, e).tasks, id)
  {
    hide BuildContext;
    match e
    case Load(_) =>
    case Prepare(_) =>
    case Claim(_, _) =>
  }

  lemma ParkingKillsNone(s: State, e: Event, id: TaskId)
    requires Parking(e) && Enabled(s, e) && !DeadIn(s.tasks, id)
    ensures !DeadIn(ApplyParking(s, e).tasks, id)
  {
    match e
    case Suspend(_, _, _, _, _) =>
    case TimerPickup(_, _) =>
    case TimerStale(_) =>
    case CallbackPickup(_, _) =>
    case Resume(_, _, _) =>
  }

  lemma CancelKills(s: State, id: TaskId)
    requires !Terminal(s.run) && !DeadIn(s.tasks, id)
    ensures DeadIn(CancelTx(s).tasks, id) <==> id in s.tasks && Live(s.tasks[id].status)
  {
  }

  lemma ReadyIsUnsettled(g: Graph, tasks: Tasks, k: string)
    requires Ready(g, tasks, k)
    ensures k in g && !HasRow(tasks, k) && !AllSettled(g, tasks)
  {
    assert !LatestSettled(tasks, k);
  }

  lemma FirstRowDies(w: World, g: Graph, tasks: Tasks, id: TaskId)
    ensures DeadIn(FirstRows(w, g, tasks), id) <==>
            (&& id.attempt == 1 && Ready(g, tasks, id.step)
             && GuardValue(w, g, id.step, BuildContext(g, tasks, id.step)) == EvalError)
  {
    hide FirstRows, Ready, BuildContext;
    assert id == TaskId(id.step, id.attempt);
    if id in FirstRows(w, g, tasks) {
      FirstRowsNew(w, g, tasks, id);
      ReadyIsUnsettled(g, tasks, id.step);
    } else if id.attempt == 1 && Ready(g, tasks, id.step) {
      FirstRowsCover(w, g, tasks, id.step);
    }
  }

  lemma AdvanceKills(w: World, g: Graph, s: State, id: TaskId)
    requires !DeadIn(s.tasks, id)
    ensures DeadIn(AdvanceTx(w, g, s).tasks, id) <==> GuardKills(w, g, s, id)
  {
    FirstRowDies(w, g, s.tasks, id);
    if Ready(g, s.tasks, id.step) {
      ReadyIsUnsettled(g, s.tasks, id.step);
    }
    hide AnyDead, AllSettled, FirstRows, QueuedIn, GuardResolved, Ready, BuildContext, GuardValue;
  }

  lemma RetryKillsNone(s: State, id: TaskId)
    requires !DeadIn(s.tasks, id)
    ensures !DeadIn(RetryTx(s).tasks, id)
  {
    hide RedoIds;
  }

  /** Exactly these events make a row dead. */
  lemma KillsIff(w: World, g: Graph, s: State, e: Event, id: TaskId)
    requires RowsOk(g, s.tasks) && Enabled(s, e) && !DeadIn(s.tasks, id)
    ensures Kills(w, g, s, e, id) <==> DeadIn(Apply(w, g, s, e).tasks, id)
  {
    hide RowsOk, AdvanceTx, CancelTx, RetryTx, ApplyStarting, ApplyEnding, ApplyParking, ApplyFault, DeadIn, GuardKills,
      Wins;
    if Starting(e) {
      StartingKillsNone(g, s, e, id);
    } else if Ending(e) {
      EndingKills(g, s, e, id);
    } else if Parking(e) {
      ParkingKillsNone(s, e, id);
    } else if Fault(e) {
      FaultKeepsRows(s, e);
    } else if e.Advance? {
      var s0 := s.(advances := s.advances - 1);
      AdvanceKills(w, g, s0, id);
      GuardKillsReads(w, g, s, s0, id);
    } else if e.RetryRun? {
      RetryKillsNone(s, id);
    } else {
      CancelKills(s, id);
    }
  }

  lemma GuardKillsReads(w: World, g: Graph, s: State, s0: State, id: TaskId)
    requires s0 == s.(advances := s0.advances)
    ensures GuardKills(w, g, s, id) <==> GuardKills(w, g, s0, id)
  {
    hide AnyDead, Ready, BuildContext, GuardValue;
  }

  // ----- what ends the attempts of a step -----

  /** A killing that no automatic retry follows. */
  ghost predicate Fatal(w: World, g: Graph, s: State, e: Event, id: TaskId) {
    Kills(w, g, s, e, id) && (Ending(e) ==> !Retrying(id, RetriesSeen(g, e)))
  }

  lemma EndContinued(s: State, id: TaskId, row: Row, retries: int)
    requires id in s.tasks && NextAttempt(id) !in s.tasks && row.status == Failed
    ensures NextAttempt(id) in EndTx(s, id, row, retries).tasks <==> Retrying(id, retries)
  {
    hide Pow2;
  }

  lemma EndingContinued(g: Graph, s: State, e: Event)
    requires RowsOk(g, s.tasks) && Enabled(s, e) && Ending(e) && Wins(s, e) && (e.Finish? ==> !e.ok)
    ensures NextAttempt(e.id) in ApplyEnding(g, s, e).tasks <==> Retrying(e.id, RetriesSeen(g, e))
  {
    hide RowsOk, ApplyEnding, EndTx, FinalRow, RetriesSeen;
    ShapeOfEnding(g, s, e);
    NextAttemptIsFree(g, s.tasks, e.id);
    FinalIsDead(s, e);
    EndContinued(Leaving(s, e), e.id, FinalRow(s, e), RetriesSeen(g, e));
  }

  lemma AdvanceEnds(w: World, g: Graph, s: State, id: TaskId)
    requires GuardKills(w, g, s, id)
    ensures NextAttempt(id) !in AdvanceTx(w, g, s).tasks
  {
    ReadyIsUnsettled(g, s.tasks, id.step);
    assert NextAttempt(id).step == id.step;
    if NextAttempt(id) in FirstRows(w, g, s.tasks) {
      FirstRowsNew(w, g, s.tasks, NextAttempt(id));
    }
    hide AnyDead, AllSettled, FirstRows, QueuedIn, GuardResolved, Ready, BuildContext, GuardValue;
  }

  lemma CancelEnds(g: Graph, s: State, id: TaskId)
    requires RowsOk(g, s.tasks) && !Terminal(s.run) && id in s.tasks && Live(s.tasks[id].status)
    ensures NextAttempt(id) !in CancelTx(s).tasks
  {
    NextAttemptIsFree(g, s.tasks, id);
    hide RowsOk;
  }

  lemma KillContinued(w: World, g: Graph, s: State, e: Event, id: TaskId)
    requires RowsOk(g, s.tasks) && Enabled(s, e) && Kills(w, g, s, e, id)
    ensures NextAttempt(id) in Apply(w, g, s, e).tasks <==> Ending(e) && Retrying(id, RetriesSeen(g, e))
  {
    hide RowsOk, AdvanceTx, CancelTx, ApplyEnding, GuardKills, Wins, RetriesSeen;
    if Ending(e) {
      EndingContinued(g, s, e);
    } else if e.CancelRun? {
      CancelEnds(g, s, id);
    } else {
      var s0 := s.(advances := s.advances - 1);
      GuardKillsReads(w, g, s, s0, id);
      AdvanceEnds(w, g, s0, id);
    }
  }

  /** Exactly these events end the attempts of a step. */
  lemma FatalIff(w: World, g: Graph, s: State, e: Event, id: TaskId)
    requires RowsOk(g, s.tasks) && Enabled(s, e) && !DeadIn(s.tasks, id)
    ensures Fatal(w, g, s, e, id) <==> DeadEnd(Apply(w, g, s, e).tasks, id)
  {
    hide RowsOk, Enabled, Apply, Kills, RetriesSeen;
    KillsIff(w, g, s, e, id);
    if Kills(w, g, s, e, id) {
      KillContinued(w, g, s, e, id);
    }
  }

  // ----- causes -----

  ghost predicate FatalAt(w: World, g: Graph, states: seq<State>, events: seq<Event>, n: nat, id: TaskId)
    requires n < |events| && |states| == |events| + 1
  {
    !DeadIn(states[n].tasks, id) && Fatal(w, g, states[n], events[n], id)
  }

  /** No RetryRun came between event `n` and state `j`. */
  ghost predicate Unanswered(events: seq<Event>, n: nat, j: nat)
    requires j <= |events|
  {
    forall m :: n < m < j ==> !events[m].RetryRun?
  }

  /** Every dead row died by one event before. */
  lemma {:induction false} DiedAt(w: World, g: Graph, states: seq<State>, events: seq<Event>, j: nat, id: TaskId)
    returns (n: nat)
    requires RunHistory(w, g, states, events) && j < |states| && DeadIn(states[j].tasks, id)
    ensures n < j && !DeadIn(states[n].tasks, id) && DeadIn(states[n + 1].tasks, id)
  {
    hide Runnable, Next;
    n := j - 1;
    if DeadIn(states[n].tasks, id) {
      n := DiedAt(w, g, states, events, n, id);
    }
  }

  lemma HistoryLink(w: World, g: Graph, states: seq<State>, events: seq<Event>, i: nat)
    requires RunHistory(w, g, states, events) && i < |events|
    ensures Enabled(states[i], events[i]) && states[i + 1] == Apply(w, g, states[i], events[i])
  {
    hide Apply, Enabled, Next;
    LinkAt(w, g, states, events, i);
  }

  lemma DeadEndIsTop(g: Graph, tasks: Tasks, id: TaskId)
    requires RowsOk(g, tasks) && DeadEnd(tasks, id)
    ensures IsTop(tasks, id.step, id.attempt)
  {
    assert TaskId(id.step, id.attempt) == id;
    forall q | q in tasks && q.step == id.step
      ensures q.attempt <= id.attempt
    {
      NoAttemptAbove(tasks, id, q);
    }
  }

  /** RetryRun gives every dead row a next attempt. */
  lemma RetryAnswers(w: World, g: Graph, s: State, id: TaskId)
    requires RowsOk(g, s.tasks) && Enabled(s, RetryRun) && DeadIn(s.tasks, id)
    ensures NextAttempt(id) in Apply(w, g, s, RetryRun).tasks
  {
    RetryAccepted(s);
    RetryApplies(w, g, s);
    if NextAttempt(id) !in s.tasks {
      DeadEndIsTop(g, s.tasks, id);
      assert NextAttempt(id) in RedoIds(s.tasks);
    }
    hide RowsOk, RedoIds, Apply, Enabled;
  }

  lemma DeadEndUnanswered(
      w: World, g: Graph, states: seq<State>, events: seq<Event>, n: nat, m: nat, j: nat, id: TaskId)
    requires RunHistory(w, g, states, events) && n < m < j < |states| && DeadEnd(states[j].tasks, id)
    requires DeadIn(states[n + 1].tasks, id)
    ensures !events[m].RetryRun?
  {
    hide RunHistory, Apply, Enabled, Sound, RowsOk;
    HistoryLength(w, g, states, events);
    if events[m].RetryRun? {
      HistoryLink(w, g, states, events, m);
      AlwaysSound(w, g, states, events, m);
      SoundRows(g, states[m]);
      TerminalRowsFinal(w, g, states, events, n + 1, m, id);
      RetryAnswers(w, g, states[m], id);
      RowsForwardAlong(w, g, states, events, m + 1, j);
    }
  }

  /** A step whose attempts have ended was ended by a fatal event, still unanswered. */
  lemma DeadEndHasCause(w: World, g: Graph, states: seq<State>, events: seq<Event>, j: nat, id: TaskId) returns (n: nat)
    requires RunHistory(w, g, states, events) && j < |states| && DeadEnd(states[j].tasks, id)
    ensures n < j && FatalAt(w, g, states, events, n, id) && DeadEnd(states[n + 1].tasks, id)
    ensures Unanswered(events, n, j)
  {
    hide RunHistory, Apply, Enabled, Fatal, Sound, RowsOk;
    HistoryLength(w, g, states, events);
    n := DiedAt(w, g, states, events, j, id);
    HistoryLink(w, g, states, events, n);
    AlwaysSound(w, g, states, events, n);
    SoundRows(g, states[n]);
    RowsForwardAlong(w, g, states, events, n + 1, j);
    FatalIff(w, g, states[n], events[n], id);
    forall m | n < m < j
      ensures !events[m].RetryRun?
    {
      DeadEndUnanswered(w, g, states, events, n, m, j, id);
    }
  }

  lemma {:induction false} FewerRetryRuns(events: seq<Event>, n: nat, j: nat)
    requires n <= j <= |events|
    ensures RetryRuns(events, n) <= RetryRuns(events, j)
    decreases j
  {
    if n < j {
      FewerRetryRuns(events, n, j - 1);
    }
  }

  /** The automatic retries are used: without RetryRun, a step whose attempts were
      ended by a failure that knew the step has exactly 1 + retries of them. */
  lemma RetriesAreUsed(w: World, g: Graph, states: seq<State>, events: seq<Event>, n: nat, j: nat, id: TaskId)
    requires RunHistory(w, g, states, events) && n < j < |states| && RetryRuns(events, j) == 0
    requires Ending(events[n]) && !(events[n].FailLoaded? && !events[n].knowsRetries) && events[n].id == id
    requires !DeadIn(states[n].tasks, id) && DeadIn(states[n + 1].tasks, id)
    requires TaskId(id.step, id.attempt + 1) !in states[n + 1].tasks
    ensures id.step in g && id.attempt == 1 + g[id.step].retries
    ensures forall a: nat :: TaskId(id.step, a) in states[j].tasks <==> 1 <= a <= 1 + g[id.step].retries
  {
    hide RunHistory, Apply, Enabled, Sound, RowsOk, DeadIn;
    HistoryLength(w, g, states, events);
    HistoryLink(w, g, states, events, n);
    AlwaysSound(w, g, states, events, n);
    SoundRows(g, states[n]);
    EndedBeyondBudget(w, g, states[n], events[n]);
    FewerRetryRuns(events, n + 1, j);
    BudgetAlways(w, g, states, events, n + 1, id.step, 0);
    DeadHasRow(states[n + 1].tasks, id);
    RowsForwardAlong(w, g, states, events, n + 1, j);
    BudgetAlways(w, g, states, events, j, id.step, 0);
    AttemptsFormLadder(w, g, states, events, j, id.step);
    TopBetween(states[j].tasks, id, 1 + g[id.step].retries);
  }

  lemma DeadHasRow(tasks: Tasks, id: TaskId)
    requires DeadIn(tasks, id)
    ensures id in tasks
  {
  }

  lemma TopBetween(tasks: Tasks, id: TaskId, n: nat)
    requires id in tasks && id.attempt == n && forall q :: q in tasks && q.step == id.step ==> q.attempt <= n
    ensures HasRow(tasks, id.step) && Top(tasks, id.step) == n
  {
    assert TaskId(id.step, id.attempt) == id;
    LatestAt(tasks, id.step, n);
  }

  lemma EndedBeyondBudget(w: World, g: Graph, s: State, e: Event)
    requires RowsOk(g, s.tasks) && Enabled(s, e) && Ending(e) && !(e.FailLoaded? && !e.knowsRetries)
    requires !DeadIn(s.tasks, e.id) && DeadIn(Apply(w, g, s, e).tasks, e.id)
    requires TaskId(e.id.step, e.id.attempt + 1) !in Apply(w, g, s, e).tasks
    ensures e.id.step in g && e.id.attempt >= 1 + g[e.id.step].retries
  {
    EndDoes(w, g, s, e);
    assert e.id in s.tasks ==> e.id.step in g;
    hide RowsOk, Apply, Enabled;
  }

  /** A failed run has an event in its history that ended the attempts of a step,
      answered neither by an automatic retry nor by a RetryRun since. */
  lemma FailureHasCause(w: World, g: Graph, states: seq<State>, events: seq<Event>, j: nat) returns (n: nat, id: TaskId)
    requires RunHistory(w, g, states, events) && j < |states| && states[j].run == RunFailed
    ensures n < j && FatalAt(w, g, states, events, n, id) && Unanswered(events, n, j)
    ensures DeadEnd(states[n + 1].tasks, id) && DeadEnd(states[j].tasks, id)
  {
    hide RunHistory, DeadEnd, Sound;
    HistoryLength(w, g, states, events);
    AlwaysSound(w, g, states, events, j);
    SoundStatus(g, states[j]);
    id :| DeadEnd(states[j].tasks, id);
    n := DeadEndHasCause(w, g, states, events, j, id);
  }

  lemma CanceledBy(w: World, g: Graph, s: State, e: Event)
    requires Enabled(s, e) && Apply(w, g, s, e).run == RunCanceled && s.run != RunCanceled
    ensures e.CancelRun?
  {
    hide ApplyStarting, ApplyEnding, ApplyParking, ApplyFault, FirstRows, AnyDead, AllSettled, RedoIds, QueuedIn,
      GuardResolved;
    if !Control(e) {
      hide Apply;
      WorkContinues(w, g, s, e);
    } else {
      match e
      case Advance =>
      case CancelRun =>
      case RetryRun =>
    }
  }

  lemma RetrySetsRunning(w: World, g: Graph, s: State)
    requires Enabled(s, RetryRun)
    ensures Apply(w, g, s, RetryRun).run == RunRunning
  {
    hide RedoIds;
  }

  /** A canceled run was canceled, and not retried since. */
  lemma {:induction false} CancellationHasCause(w: World, g: Graph, states: seq<State>, events: seq<Event>, j: nat)
    returns (n: nat)
    requires RunHistory(w, g, states, events) && j < |states| && states[j].run == RunCanceled
    ensures n < j && events[n].CancelRun? && Unanswered(events, n, j)
  {
    hide Runnable, Next, Apply, Enabled;
    n := j - 1;
    LinkAt(w, g, states, events, n);
    if states[n].run == RunCanceled {
      if events[n].RetryRun? {
        RetrySetsRunning(w, g, states[n]);
      }
      n := CancellationHasCause(w, g, states, events, n);
    } else {
      CanceledBy(w, g, states[n], events[n]);
    }
  }

  // ----- success -----

  /** Whatever ended the attempts of a step or canceled the run has been answered by
      a RetryRun since; attempts may also have failed and been retried. */
  ghost predicate NothingUnanswered(w: World, g: Graph, states: seq<State>, events: seq<Event>, i: nat)
    requires i <= |events| && |states| == |events| + 1
  {
    && (forall n, id :: 0 <= n < i && Unanswered(events, n, i) ==> !FatalAt(w, g, states, events, n, id))
    && (forall n :: 0 <= n < i && Unanswered(events, n, i) ==> !events[n].CancelRun?)
  }

  /** A consistent run at rest with nothing unanswered, no lost row and no task that
      waits for a callback has succeeded, with the interpreter's row for every step. */
  lemma RestIsSuccess(w: World, g: Graph, rank: map<string, nat>, states: seq<State>, events: seq<Event>, i: nat)
    requires RunHistory(w, g, states, events) && IsRank(g, rank) && i < |states|
    requires ConsistentUpTo(w, states, events, i) && NothingUnanswered(w, g, states, events, i) && AtRest(states[i])
    requires forall id :: !WaitsForCallback(states[i], id) && !LostBefore(states, events, i, id)
    ensures states[i].run == RunSucceeded
    ensures forall k :: k in g ==> Latest(states[i].tasks, k) == Some(IdealRow(w, g, rank, k))
  {
    hide RunHistory, IsRank, ConsistentUpTo, AtRest, WaitsForCallback, LostBefore, FatalAt, Unanswered, IdealRow,
      Latest,
      LatestSettled, DeadEnd;
    HistoryLength(w, g, states, events);
    RestingRun(w, g, states, events, i);
    if states[i].run == RunFailed {
      var n, id := FailureHasCause(w, g, states, events, i);
      assert false;
    } else if states[i].run == RunCanceled {
      var n := CancellationHasCause(w, g, states, events, i);
      assert false;
    }
    StatusSound(w, g, states, events, i);
    forall k | k in g
      ensures Latest(states[i].tasks, k) == Some(IdealRow(w, g, rank, k))
    {
      SettledMatchesInterpreter(w, g, rank, states, events, i, k);
    }
  }
}
