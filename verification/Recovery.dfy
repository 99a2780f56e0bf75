/**
 Getting to success.  A healthy run can be carried on to success by the engine
 and executors that return; and from every history whatever, cancelling and
 retrying where needed leads to one.
 */
module Recovery {
  import opened Definitions
  import opened RunState
  import opened Ladder
  import opened RunStatusProof
  import opened Workers
  import opened Suspensions
  import opened Wakeups
  import opened Termination
  import opened Interpreter
  import opened Histories
  import opened Liveness
  import opened Determinism
  import opened Outcomes
  import opened Passes
  import opened RunStore

  // ----- healthy runs -----

  ghost predicate Staffed(executing: multiset<Prepared>, tasks: Tasks) {
    forall id :: id in tasks && tasks[id].status == Running ==> exists p :: p in executing && p.id == id
  }

  /** No step's attempts have come to an end, no row is lost, and every running row
      has its worker.  Attempts may have failed and been retried. */
  ghost predicate Healthy(s: State) {
    && (forall id :: !DeadEnd(s.tasks, id) && !Lost(s, id))
    && s.run != RunFailed && s.run != RunCanceled
    && Staffed(s.executing, s.tasks)
  }

  lemma StartIsHealthy()
    ensures Healthy(START)
  {
    assert forall id :: !Lost(START, id);
  }

  lemma HealthyRows(s: State)
    requires Healthy(s)
    ensures forall id :: !DeadEnd(s.tasks, id) && !Lost(s, id)
    ensures s.run != RunFailed && s.run != RunCanceled
    ensures Staffed(s.executing, s.tasks)
  {
    hide DeadEnd, Lost, Staffed;
  }

  /** What the engine, executors that return, and the callers they wait for do. */
  ghost predicate GoodStep(w: World, s: State, e: Event) {
    match e
    case Advance => true
    case Load(_) => true
    case Prepare(_) => true
    case Claim(_, _) => true
    case Finish(id, ctx, ok, output) =>
      ok && id in s.tasks && s.tasks[id].status == Running && w.exec(id.step, ctx) == Return(output)
    case Suspend(id, ctx, token, timed, output) =>
      && id in s.tasks && s.tasks[id].status == Running && token !in s.parked
      && w.exec(id.step, ctx) == if timed then Delay(output) else Callback
    case TimerPickup(_, _) => true
    case CallbackPickup(token, output) =>
      token in s.parked && !s.parked[token].timed && output == w.payload(s.parked[token].task.step)
    case Resume(_, _, _) => true
    case _ => false
  }

  lemma GoodIsConsistent(w: World, s: State, e: Event)
    requires GoodStep(w, s, e)
    ensures Consistent(w, s, e) && !e.RetryRun? && !e.CancelRun? && forall id :: !MayLose(e, id)
    ensures Ending(e) ==> e.Finish? && e.ok
    ensures !Fault(e) && (External(e) ==> e.CallbackPickup?)
  {
    match e
    case Advance =>
    case Load(_) =>
    case Prepare(_) =>
    case Claim(_, _) =>
    case Finish(_, _, _, _) =>
    case Suspend(_, _, _, _, _) =>
    case TimerPickup(_, _) =>
    case CallbackPickup(_, _) =>
    case Resume(_, _, _) =>
  }

  // ----- finding the next step -----

  lemma {:induction false} LongerThanAll(tokens: set<string>) returns (n: nat)
    ensures forall t :: t in tokens ==> |t| < n
    decreases |tokens|
  {
    n := 0;
    if t :| t in tokens {
      var m := LongerThanAll(tokens - {t});
      n := if m > |t| then m else |t| + 1;
    }
  }

  lemma FreshToken(parked: map<string, Suspension>) returns (token: string)
    ensures token !in parked
  {
    var n := LongerThanAll(parked.Keys);
    token := seq(n, _ => 'x');
    assert |token| == n;
  }

  lemma CanReturn(w: World, s: State, p: Prepared, output: string)
    requires p in s.executing && p.id in s.tasks && s.tasks[p.id].status == Running
    requires w.exec(p.id.step, p.ctx) == Return(output)
    ensures Enabled(s, Finish(p.id, p.ctx, true, output)) && GoodStep(w, s, Finish(p.id, p.ctx, true, output))
  {
  }

  lemma CanSuspend(w: World, s: State, p: Prepared, timed: bool, output: string, token: string)
    requires p in s.executing && p.id in s.tasks && s.tasks[p.id].status == Running && token !in s.parked
    requires w.exec(p.id.step, p.ctx) == if timed then Delay(output) else Callback
    ensures Enabled(s, Suspend(p.id, p.ctx, token, timed, output))
    ensures GoodStep(w, s, Suspend(p.id, p.ctx, token, timed, output))
  {
  }

  lemma WorkerOf(s: State, id: TaskId) returns (p: Prepared)
    requires Healthy(s) && id in s.tasks && s.tasks[id].status == Running
    ensures p in s.executing && p.id == id
  {
    hide DeadEnd, Lost;
    p :| p in s.executing && p.id == id;
  }

  /** A worker whose executor is running can end well. */
  lemma RunningCanEnd(w: World, s: State, id: TaskId) returns (e: Event)
    requires Healthy(s) && id in s.tasks && s.tasks[id].status == Running
    ensures Enabled(s, e) && GoodStep(w, s, e) && !e.CallbackPickup?
  {
    var p := WorkerOf(s, id);
    hide Healthy, Enabled, GoodStep;
    var token := FreshToken(s.parked);
    match w.exec(id.step, p.ctx)
    case Return(output) =>
      CanReturn(w, s, p, output);
      e := Finish(p.id, p.ctx, true, output);
    case Delay(output) =>
      CanSuspend(w, s, p, true, output, token);
      e := Suspend(p.id, p.ctx, token, true, output);
    case Callback =>
      CanSuspend(w, s, p, false, "", token);
      e := Suspend(p.id, p.ctx, token, false, "");
  }

  lemma QueuedCanStart(w: World, s: State, id: TaskId) returns (e: Event)
    requires id in s.tasks && s.tasks[id].status == Queued && !Lost(s, id)
    ensures Enabled(s, e) && GoodStep(w, s, e) && !e.CallbackPickup?
  {
    if id in s.executes {
      e := Load(id);
    } else if id in s.loaded {
      e := Prepare(id);
    } else {
      var p :| p in s.prepared && p.id == id;
      e := Claim(p.id, p.ctx);
    }
  }

  lemma SuspendedCanResume(w: World, s: State, id: TaskId) returns (e: Event)
    requires BooksOk(s) && TimersSet(s) && id in s.tasks && s.tasks[id].status == Suspended
    ensures Enabled(s, e) && GoodStep(w, s, e)
    ensures e.CallbackPickup? ==> e.token in s.parked && s.parked[e.token].task == id
  {
    hide TimersOk, ResumedOnce;
    assert IsParked(s.parked, id);
    var token :| token in s.parked && s.parked[token].task == id;
    assert TimerRuns(s, token);
    if !s.parked[token].timed {
      e := CallbackPickup(token, w.payload(id.step));
    } else if id in s.resumes {
      e := TimerPickup(id, token);
    } else {
      var r :| r in s.resuming && r.id == id && r.timer;
      e := Resume(r.id, r.output, r.timer);
    }
  }

  /** A healthy run that is not over has a good step; a callback only for a task
      that is suspended. */
  lemma HealthyCanStep(w: World, g: Graph, s: State) returns (e: Event)
    requires Sound(g, s) && Healthy(s) && NotStranded(s) && s.run != RunSucceeded
    ensures Enabled(s, e) && GoodStep(w, s, e)
    ensures e.CallbackPickup? ==> e.token in s.parked && Waiting(s, s.parked[e.token].task)
  {
    HealthyRows(s);
    hide Sound, Healthy, Lost, DeadEnd, Staffed, Enabled, GoodStep, TimersSet, BooksOk;
    if s.advances > 0 {
      e := Advance;
      CanAdvance(w, s);
    } else {
      var id :| id in s.tasks && Live(s.tasks[id].status);
      if s.tasks[id].status == Queued {
        e := QueuedCanStart(w, s, id);
      } else if s.tasks[id].status == Running {
        e := RunningCanEnd(w, s, id);
      } else {
        SoundBooks(g, s);
        e := SuspendedCanResume(w, s, id);
      }
    }
  }

  lemma CanAdvance(w: World, s: State)
    requires s.advances > 0
    ensures Enabled(s, Advance) && GoodStep(w, s, Advance)
  {
  }

  predicate Waiting(s: State, id: TaskId) {
    id in s.tasks && s.tasks[id].status == Suspended
  }

  // ----- good steps keep a run healthy, unless a guard errors -----

  /** A good step other than an advance kills no row. */
  lemma GoodKillsNone(w: World, g: Graph, s: State, e: Event, id: TaskId)
    requires RowsOk(g, s.tasks) && Enabled(s, e) && GoodStep(w, s, e) && !e.Advance? && !DeadIn(s.tasks, id)
    ensures !DeadIn(Apply(w, g, s, e).tasks, id)
  {
    hide RowsOk, GoodStep, DeadIn, Apply, Enabled, Wins;
    GoodIsConsistent(w, s, e);
    KillsIff(w, g, s, e, id);
  }

  /** An advance kills only rows it adds. */
  lemma AdvanceKillsNew(w: World, g: Graph, s: State, id: TaskId)
    requires DeadIn(AdvanceTx(w, g, s).tasks, id) && !DeadIn(s.tasks, id)
    ensures !Terminal(s.run) && !AnyDead(g, s.tasks) && !AllSettled(g, s.tasks) && FirstRows(w, g, s.tasks) != map[]
  {
    hide AnyDead, AllSettled, FirstRows, QueuedIn, GuardResolved;
    assert id in FirstRows(w, g, s.tasks);
  }

  /** Where guards do not error an advance kills no row. */
  lemma AdvanceKillsNone(w: World, g: Graph, rank: map<string, nat>, s: State, id: TaskId)
    requires IsRank(g, rank) && NoGuardErrors(w, g, rank) && RowsOk(g, s.tasks) && RowsFaithful(w, g, rank, s.tasks)
    requires !DeadIn(s.tasks, id)
    ensures !DeadIn(AdvanceTx(w, g, s).tasks, id)
  {
    hide IsRank, RowsOk, RowsFaithful, AnyDead, AllSettled, FirstRows, QueuedIn, GuardResolved, Ready, IdealContext,
      BuildContext, IdealGuard;
    if id in FirstRows(w, g, s.tasks) {
      FirstStatusIdeal(w, g, rank, s.tasks, id);
    }
  }

  ghost predicate NoGuardErrors(w: World, g: Graph, rank: map<string, nat>)
    requires IsRank(g, rank)
  {
    forall k :: k in g ==> IdealGuard(w, g, rank, k) != EvalError
  }

  lemma FirstStatusIdeal(w: World, g: Graph, rank: map<string, nat>, t: Tasks, id: TaskId)
    requires IsRank(g, rank) && RowsOk(g, t) && RowsFaithful(w, g, rank, t) && id in FirstRows(w, g, t)
    ensures id.step in g
    ensures FirstRows(w, g, t)[id].status == Failed ==> IdealGuard(w, g, rank, id.step) == EvalError
    ensures FirstRows(w, g, t)[id].status != Canceled
  {
    hide RowsOk, RowsFaithful, FirstRows, Ready, FirstAttempt, BuildContext, IdealContext;
    FirstRowsNew(w, g, t, id);
    FirstRowsGrounded(w, g, t, id);
    FirstContext(w, g, rank, t, id);
  }

  /** A step's attempts come to an end only where a row is killed. */
  lemma NoNewDeadEnd(w: World, g: Graph, s: State, e: Event, id: TaskId)
    requires RowsOk(g, s.tasks) && Enabled(s, e) && !DeadEnd(s.tasks, id)
    requires !DeadIn(s.tasks, id) ==> !DeadIn(Apply(w, g, s, e).tasks, id)
    ensures !DeadEnd(Apply(w, g, s, e).tasks, id)
  {
    StepEvolves(w, g, s, e);
    hide RowsOk, Apply, Enabled, FirstAttempt, LaterAttempt;
  }

  lemma NoneEndedNoneFailed(g: Graph, tasks: Tasks)
    requires RowsOk(g, tasks) && forall id :: !DeadEnd(tasks, id)
    ensures !AnyDead(g, tasks)
  {
    DeadIsDeadEnd(g, tasks);
  }

  lemma GoodKeepsRun(w: World, g: Graph, s: State, e: Event)
    requires RowsOk(g, s.tasks) && Enabled(s, e) && GoodStep(w, s, e) && forall id :: !DeadEnd(s.tasks, id)
    requires s.run != RunFailed && s.run != RunCanceled
    ensures Apply(w, g, s, e).run != RunFailed && Apply(w, g, s, e).run != RunCanceled
  {
    GoodIsConsistent(w, s, e);
    NoneEndedNoneFailed(g, s.tasks);
    hide RowsOk, GoodStep, DeadEnd, AnyDead, AllSettled, FirstRows, QueuedIn, GuardResolved;
    if !Control(e) {
      hide Apply, Enabled;
      WorkContinues(w, g, s, e);
    } else {
      hide ApplyStarting, ApplyEnding, ApplyParking, ApplyFault;
      match e
      case Advance =>
    }
  }

  // Workers of running rows.

  /** No row starts running and no worker leaves. */
  lemma StaffKept(s: State, s': State)
    requires Staffed(s.executing, s.tasks)
    requires forall p :: p in s.executing ==> p in s'.executing
    requires forall id :: id in s'.tasks && s'.tasks[id].status == Running ==>
               id in s.tasks && s.tasks[id].status == Running
    ensures Staffed(s'.executing, s'.tasks)
  {
    forall id | id in s'.tasks && s'.tasks[id].status == Running
      ensures exists p :: p in s'.executing && p.id == id
    {
      var p :| p in s.executing && p.id == id;
      assert p in s'.executing;
    }
  }

  /** A worker leaves with its row. */
  lemma StaffLeaves(executing: multiset<Prepared>, tasks: Tasks, p: Prepared, tasks': Tasks)
    requires Staffed(executing, tasks) && p in executing
    requires forall id :: id in tasks' && tasks'[id].status == Running ==>
               id != p.id && id in tasks && tasks[id].status == Running
    ensures Staffed(executing - multiset{p}, tasks')
  {
    forall id | id in tasks' && tasks'[id].status == Running
      ensures exists q :: q in executing - multiset{p} && q.id == id
    {
      var q :| q in executing && q.id == id;
      assert q in executing - multiset{p};
    }
  }

  lemma ClaimStaffs(s: State, p: Prepared)
    requires Staffed(s.executing, s.tasks)
    ensures var s' := ClaimTx(s.(prepared := s.prepared - multiset{p}), p.id, p.ctx); Staffed(s'.executing, s'.tasks)
  {
    var s' := ClaimTx(s.(prepared := s.prepared - multiset{p}), p.id, p.ctx);
    forall id | id in s'.tasks && s'.tasks[id].status == Running
      ensures exists q :: q in s'.executing && q.id == id
    {
      if id in s.tasks && s.tasks[id].status == Running {
        var q :| q in s.executing && q.id == id;
        assert q in s'.executing;
      } else {
        assert p in s'.executing && p.id == id;
      }
    }
  }

  lemma FinishStaffs(g: Graph, s: State, p: Prepared, output: string)
    requires Staffed(s.executing, s.tasks) && p in s.executing && p.id in s.tasks && s.tasks[p.id].status == Running
    ensures var s' := ApplyEnding(g, s, Finish(p.id, p.ctx, true, output)); Staffed(s'.executing, s'.tasks)
  {
    hide Staffed, Pow2;
    StaffLeaves(s.executing, s.tasks, p, s.tasks[p.id := Row(Succeeded, Some(output))]);
  }

  lemma SuspendStaffs(s: State, p: Prepared, token: string, timed: bool, output: string)
    requires Staffed(s.executing, s.tasks) && p in s.executing && p.id in s.tasks && s.tasks[p.id].status == Running
    requires token !in s.parked
    ensures var s' := SuspendTx(s.(executing := s.executing - multiset{p}), p.id, token, timed, output);
            Staffed(s'.executing, s'.tasks)
  {
    hide Staffed;
    StaffLeaves(s.executing, s.tasks, p, s.tasks[p.id := Row(Suspended, Some(output))]);
  }

  lemma AdvanceStaffs(w: World, g: Graph, s: State)
    requires Staffed(s.executing, s.tasks)
    ensures Staffed(AdvanceTx(w, g, s).executing, AdvanceTx(w, g, s).tasks)
  {
    hide Staffed, AnyDead, AllSettled, FirstRows, QueuedIn, GuardResolved, FirstStatus, Ready;
    forall id | id in FirstRows(w, g, s.tasks)
      ensures FirstRows(w, g, s.tasks)[id].status != Running
    {
      FirstRowsNew(w, g, s.tasks, id);
    }
    StaffKept(s, AdvanceTx(w, g, s));
  }

  lemma OtherStaffs(g: Graph, s: State, e: Event)
    requires Staffed(s.executing, s.tasks) && Enabled(s, e)
    requires e.Load? || e.Prepare?
    ensures Staffed(ApplyStarting(g, s, e).executing, ApplyStarting(g, s, e).tasks)
  {
    hide Staffed, BuildContext;
    StaffKept(s, ApplyStarting(g, s, e));
  }

  lemma ResumeStaffs(s: State, e: Event)
    requires Staffed(s.executing, s.tasks) && Enabled(s, e) && (e.TimerPickup? || e.CallbackPickup? || e.Resume?)
    ensures Staffed(ApplyParking(s, e).executing, ApplyParking(s, e).tasks)
  {
    hide Staffed, SuspendTx;
    StaffKept(s, ApplyParking(s, e));
  }

  lemma GoodStaffs(w: World, g: Graph, s: State, e: Event)
    requires Staffed(s.executing, s.tasks) && Enabled(s, e) && GoodStep(w, s, e)
    ensures Staffed(Apply(w, g, s, e).executing, Apply(w, g, s, e).tasks)
  {
    hide Staffed, AdvanceTx, ClaimTx, LoadTx, SuspendTx, ResumeTx, ApplyEnding, BuildContext;
    match e
    case Advance => AdvanceStaffs(w, g, s.(advances := s.advances - 1));
    case Load(_) => OtherStaffs(g, s, e);
    case Prepare(_) => OtherStaffs(g, s, e);
    case Claim(id, ctx) => ClaimStaffs(s, Prepared(id, ctx));
    case Finish(id, ctx, ok, output) => FinishStaffs(g, s, Prepared(id, ctx), output);
    case Suspend(id, ctx, token, timed, output) => SuspendStaffs(s, Prepared(id, ctx), token, timed, output);
    case TimerPickup(_, _) => ResumeStaffs(s, e);
    case CallbackPickup(_, _) => ResumeStaffs(s, e);
    case Resume(_, _, _) => ResumeStaffs(s, e);
  }

  /** Health is lost only where some row is killed. */
  lemma HealthyKept(w: World, g: Graph, s: State, e: Event)
    requires Sound(g, s) && Healthy(s) && Enabled(s, e) && GoodStep(w, s, e)
    requires forall id :: !DeadIn(s.tasks, id) ==> !DeadIn(Apply(w, g, s, e).tasks, id)
    ensures Healthy(Apply(w, g, s, e))
  {
    hide Sound, RowsOk, Enabled, GoodStep, Apply, DeadIn, DeadEnd, Lost, Staffed, MayLose;
    var s' := Apply(w, g, s, e);
    HealthyRows(s);
    SoundRows(g, s);
    GoodIsConsistent(w, s, e);
    GoodKeepsRun(w, g, s, e);
    GoodStaffs(w, g, s, e);
    forall id
      ensures !DeadEnd(s'.tasks, id) && !Lost(s', id)
    {
      NoNewDeadEnd(w, g, s, e, id);
      FoundKept(w, g, s, e, id);
    }
  }

  // ----- one step on -----

  lemma MissingShrinks(w: World, g: Graph, s: State, e: Event)
    requires RowsOk(g, s.tasks) && Enabled(s, e)
    ensures Missing(g, Apply(w, g, s, e).tasks) <= Missing(g, s.tasks)
  {
    var s' := Apply(w, g, s, e);
    StepEvolves(w, g, s, e);
    hide RowsOk, Apply, Enabled, FirstAttempt, LaterAttempt;
    forall k | HasRow(s.tasks, k)
      ensures HasRow(s'.tasks, k)
    {
      var id :| id in s.tasks && id.step == k;
      assert id in s'.tasks;
    }
  }

  lemma FewerMissing(w: World, g: Graph, s: State, e: Event)
    requires RowsOk(g, s.tasks) && Enabled(s, e)
    ensures |Missing(g, Apply(w, g, s, e).tasks)| <= |Missing(g, s.tasks)|
  {
    hide RowsOk, Apply, Enabled, Missing;
    MissingShrinks(w, g, s, e);
    FewerElements(Missing(g, Apply(w, g, s, e).tasks), Missing(g, s.tasks));
  }

  /** An advance that kills a row has filled a step that had none. */
  lemma KillingFills(w: World, g: Graph, s: State, id: TaskId)
    requires s.advances > 0 && DeadIn(Apply(w, g, s, Advance).tasks, id) && !DeadIn(s.tasks, id)
    ensures |Missing(g, Apply(w, g, s, Advance).tasks)| < |Missing(g, s.tasks)|
  {
    var s0 := s.(advances := s.advances - 1);
    hide AnyDead, AllSettled, FirstRows, QueuedIn, GuardResolved, Missing;
    AdvanceKillsNew(w, g, s0, id);
    FilledIsNotMissing(w, g, s.tasks);
  }

  /** A good step lowers the weight, and keeps a run healthy or fills a step. */
  lemma GoodStepOn(w: World, g: Graph, order: seq<string>, s: State, e: Event)
    requires Runnable(g) && Enumerates(order, g) && Sound(g, s) && Healthy(s)
    requires Enabled(s, e) && GoodStep(w, s, e) && !e.CallbackPickup?
    ensures Weight(g, order, Apply(w, g, s, e)) < Weight(g, order, s)
    ensures |Missing(g, Apply(w, g, s, e).tasks)| <= |Missing(g, s.tasks)|
    ensures Healthy(Apply(w, g, s, e)) || |Missing(g, Apply(w, g, s, e).tasks)| < |Missing(g, s.tasks)|
  {
    hide Runnable, Sound, RowsOk, Healthy, GoodStep, Apply, Weight, Missing, DeadIn;
    GoodIsConsistent(w, s, e);
    SoundRows(g, s);
    StepLowers(w, g, order, s, e);
    FewerMissing(w, g, s, e);
    if id :| !DeadIn(s.tasks, id) && DeadIn(Apply(w, g, s, e).tasks, id) {
      if !e.Advance? {
        GoodKillsNone(w, g, s, e, id);
      }
      KillingFills(w, g, s, id);
    } else {
      HealthyKept(w, g, s, e);
    }
  }

  lemma GoodStepHealthy(w: World, g: Graph, rank: map<string, nat>, s: State, e: Event)
    requires IsRank(g, rank) && NoGuardErrors(w, g, rank) && Sound(g, s) && Faithful(w, g, rank, s) && Healthy(s)
    requires Enabled(s, e) && GoodStep(w, s, e)
    ensures Healthy(Apply(w, g, s, e))
  {
    hide IsRank, NoGuardErrors, Sound, RowsOk, Faithful, Healthy, GoodStep, Apply, DeadIn;
    SoundRows(g, s);
    forall id | !DeadIn(s.tasks, id)
      ensures !DeadIn(Apply(w, g, s, e).tasks, id)
    {
      if e.Advance? {
        GuardedAdvance(w, g, rank, s, id);
      } else {
        GoodKillsNone(w, g, s, e, id);
      }
    }
    HealthyKept(w, g, s, e);
  }

  lemma GuardedAdvance(w: World, g: Graph, rank: map<string, nat>, s: State, id: TaskId)
    requires IsRank(g, rank) && NoGuardErrors(w, g, rank) && Sound(g, s) && Faithful(w, g, rank, s)
    requires Enabled(s, Advance) && !DeadIn(s.tasks, id)
    ensures !DeadIn(Apply(w, g, s, Advance).tasks, id)
  {
    hide IsRank, NoGuardErrors, RowsOk, StatusOk, WorkersOk, ContextsOk, BooksOk, ResumersOk, RowsFaithful,
      WaitsFaithful, GuardsHonest, AdvanceTx, DeadIn;
    AdvanceKillsNone(w, g, rank, s.(advances := s.advances - 1), id);
  }

  // ----- extending histories -----

  /** A consistent history that continues another one. */
  ghost predicate Continued(
    w: World, g: Graph, states: seq<State>, events: seq<Event>, longer: seq<State>, more: seq<Event>)
  {
    && RunHistory(w, g, longer, more) && |longer| == |more| + 1 && ConsistentUpTo(w, longer, more, |more|)
    && states <= longer && events <= more
  }

  lemma OneMore(w: World, g: Graph, states: seq<State>, events: seq<Event>, e: Event)
    returns (longer: seq<State>, more: seq<Event>)
    requires RunHistory(w, g, states, events) && ConsistentUpTo(w, states, events, |events|)
    requires Enabled(states[|events|], e) && Consistent(w, states[|events|], e)
    ensures Continued(w, g, states, events, longer, more) && |more| == |events| + 1 && more[|events|] == e
    ensures longer[|more|] == Apply(w, g, states[|events|], e)
    ensures !e.CancelRun? && !e.RetryRun? ==> Unforced(events, more)
  {
    hide RunHistory, Enabled, Apply, Consistent, START;
    HistoryLength(w, g, states, events);
    var s' := Apply(w, g, states[|events|], e);
    Extended(w, g, states, events, e, s');
    longer, more := states + [s'], events + [e];
    forall n | 0 <= n < |more|
      ensures Consistent(w, longer[n], more[n])
    {
      if n < |events| {
        assert longer[n] == states[n] && more[n] == events[n];
      }
    }
  }

  lemma ContinuedTwice(
      w: World, g: Graph, states: seq<State>, events: seq<Event>, states1: seq<State>, events1: seq<Event>,
      states2: seq<State>, events2: seq<Event>)
    requires Continued(w, g, states, events, states1, events1) && Continued(w, g, states1, events1, states2, events2)
    ensures Continued(w, g, states, events, states2, events2)
  {
    hide RunHistory, ConsistentUpTo;
    PrefixOfPrefix(states, states1, states2);
    PrefixOfPrefix(events, events1, events2);
  }

  /** Only the engine, executors and callers took part in what is new. */
  ghost predicate Unforced(events: seq<Event>, more: seq<Event>) {
    forall n :: |events| <= n < |more| ==> !more[n].CancelRun? && !more[n].RetryRun?
  }

  lemma UnforcedTwice(events: seq<Event>, events1: seq<Event>, events2: seq<Event>)
    requires events1 <= events2 && Unforced(events, events1) && Unforced(events1, events2)
    ensures Unforced(events, events2)
  {
    forall n | |events| <= n < |events2|
      ensures !events2[n].CancelRun? && !events2[n].RetryRun?
    {
      if n < |events1| {
        assert events2[n] == events1[n];
      }
    }
  }

  /** A callback arrives, and its task resumes. */
  lemma CallbackLands(w: World, g: Graph, order: seq<string>, s: State, token: string, output: string)
    returns (s1: State, e': Event)
    requires Runnable(g) && Enumerates(order, g) && Sound(g, s) && Healthy(s)
    requires GoodStep(w, s, CallbackPickup(token, output)) && token in s.parked && Waiting(s, s.parked[token].task)
    ensures var e := CallbackPickup(token, output);
      Enabled(s, e) && Consistent(w, s, e) && s1 == Apply(w, g, s, e)
    ensures e'.Resume? && Enabled(s1, e') && Consistent(w, s1, e')
    ensures var s2 := Apply(w, g, s1, e');
      && Healthy(s2) && Weight(g, order, s2) < Weight(g, order, s)
      && |Missing(g, s2.tasks)| <= |Missing(g, s.tasks)|
  {
    var id := s.parked[token].task;
    var e := CallbackPickup(token, output);
    e' := Resume(id, output, false);
    CallbackIsTwoEvents(w, g, s, token, output);
    GoodIsConsistent(w, s, e);
    hide Runnable, Sound, RowsOk, Healthy, Enabled, Apply, Weight, Missing, ResumeTx, Consistent;
    s1 := Apply(w, g, s, e);
    QuietStepOn(w, g, s, e);
    SoundKept(w, g, s, e);
    GoodIsConsistent(w, s1, e');
    QuietStepOn(w, g, s1, e');
    SoundRows(g, s);
    ResumeLowers(g, order, s, id, output);
  }

  lemma CallbackOn(
      w: World, g: Graph, order: seq<string>, states: seq<State>, events: seq<Event>, token: string, output: string)
    returns (longer: seq<State>, more: seq<Event>)
    requires RunHistory(w, g, states, events) && ConsistentUpTo(w, states, events, |events|) && Enumerates(order, g)
    requires Healthy(states[|events|]) && GoodStep(w, states[|events|], CallbackPickup(token, output))
    requires token in states[|events|].parked && Waiting(states[|events|], states[|events|].parked[token].task)
    ensures Continued(w, g, states, events, longer, more) && Unforced(events, more)
    ensures Healthy(longer[|more|]) && Weight(g, order, longer[|more|]) < Weight(g, order, states[|events|])
    ensures |Missing(g, longer[|more|].tasks)| <= |Missing(g, states[|events|].tasks)|
  {
    hide RunHistory, ConsistentUpTo, Runnable, Sound, Healthy, Enabled, Apply, Weight, Missing, START, Continued,
      Unforced, Consistent, GoodStep, Enumerates, Waiting;
    HistoryLength(w, g, states, events);
    AlwaysSound(w, g, states, events, |events|);
    var s1, e' := CallbackLands(w, g, order, states[|events|], token, output);
    longer, more := TwoMore(w, g, states, events, CallbackPickup(token, output), s1, e');
  }

  lemma TwoMore(w: World, g: Graph, states: seq<State>, events: seq<Event>, e: Event, s1: State, e': Event)
    returns (longer: seq<State>, more: seq<Event>)
    requires RunHistory(w, g, states, events) && ConsistentUpTo(w, states, events, |events|)
    requires e.CallbackPickup? && Enabled(states[|events|], e) && Consistent(w, states[|events|], e)
    requires s1 == Apply(w, g, states[|events|], e) && e'.Resume? && Enabled(s1, e') && Consistent(w, s1, e')
    ensures Continued(w, g, states, events, longer, more) && Unforced(events, more)
    ensures longer[|more|] == Apply(w, g, s1, e')
  {
    hide RunHistory, ConsistentUpTo, Enabled, Apply, START, Continued, Unforced, Consistent;
    HistoryLength(w, g, states, events);
    var states1, events1 := OneMore(w, g, states, events, e);
    ContinuedLength(w, g, states, events, states1, events1);
    longer, more := OneMore(w, g, states1, events1, e');
    ContinuedLength(w, g, states1, events1, longer, more);
    ContinuedTwice(w, g, states, events, states1, events1, longer, more);
    UnforcedTwice(events, events1, more);
  }

  lemma ContinuedLength(
      w: World, g: Graph, states: seq<State>, events: seq<Event>, longer: seq<State>, more: seq<Event>)
    requires Continued(w, g, states, events, longer, more)
    ensures RunHistory(w, g, longer, more) && |longer| == |more| + 1 && ConsistentUpTo(w, longer, more, |more|)
    ensures states <= longer && events <= more
  {
    hide RunHistory, ConsistentUpTo;
  }

  lemma QuietStepOn(w: World, g: Graph, s: State, e: Event)
    requires Sound(g, s) && Healthy(s) && Enabled(s, e) && GoodStep(w, s, e) && (e.CallbackPickup? || e.Resume?)
    ensures Healthy(Apply(w, g, s, e)) && |Missing(g, Apply(w, g, s, e).tasks)| <= |Missing(g, s.tasks)|
  {
    hide Sound, RowsOk, Healthy, Enabled, GoodStep, Apply, Missing, DeadIn;
    SoundRows(g, s);
    FewerMissing(w, g, s, e);
    forall id | !DeadIn(s.tasks, id)
      ensures !DeadIn(Apply(w, g, s, e).tasks, id)
    {
      GoodKillsNone(w, g, s, e, id);
    }
    HealthyKept(w, g, s, e);
  }

  /** From a healthy state that is not success, one step on: still healthy and
      lighter, or with a step filled that had no row; healthy if no guard errors. */
  lemma Onward(w: World, g: Graph, rank: map<string, nat>, order: seq<string>, states: seq<State>, events: seq<Event>)
    returns (longer: seq<State>, more: seq<Event>)
    requires RunHistory(w, g, states, events) && ConsistentUpTo(w, states, events, |events|)
    requires IsRank(g, rank) && Enumerates(order, g)
    requires Healthy(states[|events|]) && states[|events|].run != RunSucceeded
    ensures Continued(w, g, states, events, longer, more) && Unforced(events, more)
    ensures Weight(g, order, longer[|more|]) < Weight(g, order, states[|events|])
    ensures |Missing(g, longer[|more|].tasks)| <= |Missing(g, states[|events|].tasks)|
    ensures Healthy(longer[|more|]) || |Missing(g, longer[|more|].tasks)| < |Missing(g, states[|events|].tasks)|
    ensures NoGuardErrors(w, g, rank) ==> Healthy(longer[|more|])
  {
    var n, s := |events|, states[|events|];
    hide RunHistory, ConsistentUpTo, IsRank, Runnable, Sound, Faithful, Healthy, Enabled, Apply, Weight, Missing, START,
      NotStranded, GoodStep, NoGuardErrors, Continued, Unforced, Consistent, Enumerates, Waiting;
    HistoryLength(w, g, states, events);
    AlwaysSound(w, g, states, events, n);
    NeverStranded(w, g, states, events, n);
    var e := HealthyCanStep(w, g, s);
    if e.CallbackPickup? {
      longer, more := CallbackOn(w, g, order, states, events, e.token, e.output);
    } else {
      longer, more := GoodOn(w, g, rank, order, states, events, e);
    }
  }

  lemma GoodOn(
      w: World, g: Graph, rank: map<string, nat>, order: seq<string>, states: seq<State>, events: seq<Event>, e: Event)
    returns (longer: seq<State>, more: seq<Event>)
    requires RunHistory(w, g, states, events) && ConsistentUpTo(w, states, events, |events|)
    requires IsRank(g, rank) && Enumerates(order, g) && Healthy(states[|events|])
    requires Enabled(states[|events|], e) && GoodStep(w, states[|events|], e) && !e.CallbackPickup?
    ensures Continued(w, g, states, events, longer, more) && Unforced(events, more)
    ensures Weight(g, order, longer[|more|]) < Weight(g, order, states[|events|])
    ensures |Missing(g, longer[|more|].tasks)| <= |Missing(g, states[|events|].tasks)|
    ensures Healthy(longer[|more|]) || |Missing(g, longer[|more|].tasks)| < |Missing(g, states[|events|].tasks)|
    ensures NoGuardErrors(w, g, rank) ==> Healthy(longer[|more|])
  {
    var n, s := |events|, states[|events|];
    hide RunHistory, ConsistentUpTo, IsRank, Runnable, Sound, Faithful, Healthy, Enabled, Apply, Weight, Missing, START,
      GoodStep, NoGuardErrors, Continued, Unforced, Consistent, Enumerates;
    HistoryLength(w, g, states, events);
    AlwaysSound(w, g, states, events, n);
    GoodIsConsistent(w, s, e);
    GoodStepOn(w, g, order, s, e);
    longer, more := OneMore(w, g, states, events, e);
    if NoGuardErrors(w, g, rank) {
      AlwaysFaithful(w, g, rank, states, events, n);
      GoodStepHealthy(w, g, rank, s, e);
    }
  }

  // ----- to success -----

  ghost predicate Succeeds(w: World, g: Graph, rank: map<string, nat>, s: State)
    requires IsRank(g, rank)
  {
    s.run == RunSucceeded && forall k :: k in g ==> Latest(s.tasks, k) == Some(IdealRow(w, g, rank, k))
  }

  lemma SucceededIdeal(w: World, g: Graph, rank: map<string, nat>, states: seq<State>, events: seq<Event>)
    requires RunHistory(w, g, states, events) && IsRank(g, rank) && ConsistentUpTo(w, states, events, |events|)
    requires states[|events|].run == RunSucceeded
    ensures Succeeds(w, g, rank, states[|events|])
  {
    hide RunHistory, IsRank, ConsistentUpTo, IdealRow, Latest, LatestSettled;
    HistoryLength(w, g, states, events);
    StatusSound(w, g, states, events, |events|);
    forall k | k in g
      ensures Latest(states[|events|].tasks, k) == Some(IdealRow(w, g, rank, k))
    {
      SettledMatchesInterpreter(w, g, rank, states, events, |events|, k);
    }
  }

  lemma ContinuedItself(w: World, g: Graph, states: seq<State>, events: seq<Event>)
    requires RunHistory(w, g, states, events) && ConsistentUpTo(w, states, events, |events|)
    ensures Continued(w, g, states, events, states, events) && Unforced(events, events)
  {
    hide ConsistentUpTo;
  }

  /** Where guards do not error, every healthy history can be carried on, by the
      engine, executors that return and the callers they wait for, to a success
      with the interpreter's row for every step. */
  lemma {:induction false} CanSucceed(
      w: World, g: Graph, rank: map<string, nat>, order: seq<string>, states: seq<State>, events: seq<Event>)
    returns (longer: seq<State>, more: seq<Event>)
    requires RunHistory(w, g, states, events) && ConsistentUpTo(w, states, events, |events|)
    requires IsRank(g, rank) && Enumerates(order, g) && NoGuardErrors(w, g, rank) && Healthy(states[|events|])
    ensures Continued(w, g, states, events, longer, more) && Unforced(events, more)
    ensures Succeeds(w, g, rank, longer[|more|])
    decreases Weight(g, order, states[|events|])
  {
    hide RunHistory, ConsistentUpTo, IsRank, Healthy, Weight, Missing, START, NoGuardErrors, Succeeds, Continued,
      Unforced;
    HistoryLength(w, g, states, events);
    if states[|events|].run == RunSucceeded {
      longer, more := states, events;
      ContinuedItself(w, g, states, events);
      SucceededIdeal(w, g, rank, states, events);
    } else {
      var states1, events1 := Onward(w, g, rank, order, states, events);
      ContinuedLength(w, g, states, events, states1, events1);
      longer, more := CanSucceed(w, g, rank, order, states1, events1);
      ContinuedLength(w, g, states1, events1, longer, more);
      ContinuedTwice(w, g, states, events, states1, events1, longer, more);
      UnforcedTwice(events, events1, more);
    }
  }

  /** In particular a run that has just been started. */
  lemma FreshRunCanSucceed(w: World, g: Graph, rank: map<string, nat>)
    returns (states: seq<State>, events: seq<Event>)
    requires Runnable(g) && IsRank(g, rank) && NoGuardErrors(w, g, rank)
    ensures Continued(w, g, [START], [], states, events) && Unforced([], events)
    ensures Succeeds(w, g, rank, states[|events|])
  {
    hide RunHistory, Healthy, NoGuardErrors, IsRank, Runnable, START, Succeeds, Continued;
    StartHistory(w, g);
    StartIsHealthy();
    var order := Listed(g.Keys);
    states, events := CanSucceed(w, g, rank, order, [START], []);
  }

  // ----- from any history -----

  /** Retrying a canceled run leaves it healthy. */
  lemma RetryHeals(g: Graph, s: State)
    requires RowsOk(g, s.tasks) && StatusOk(g, s) && s.run == RunCanceled
    ensures Healthy(RetryTx(s))
  {
    assert forall id :: id in s.tasks ==> !Live(s.tasks[id].status);
    hide RowsOk, StatusOk, DeadEnd, Lost, RetryTx, Staffed;
    var s' := RetryTx(s);
    forall id
      ensures !DeadEnd(s'.tasks, id) && !Lost(s', id)
    {
      RedoneOrNot(g, s, id);
    }
    RetryStaffs(s);
  }

  lemma RetryStaffs(s: State)
    requires s.run == RunCanceled && forall p :: p in s.tasks ==> !Live(s.tasks[p].status)
    ensures RetryTx(s).run == RunRunning && Staffed(RetryTx(s).executing, RetryTx(s).tasks)
  {
    hide RedoIds;
  }

  lemma RedoneOrNot(g: Graph, s: State, id: TaskId)
    requires RowsOk(g, s.tasks) && s.run == RunCanceled && forall p :: p in s.tasks ==> !Live(s.tasks[p].status)
    ensures !DeadEnd(RetryTx(s).tasks, id) && !Lost(RetryTx(s), id)
  {
    var s' := RetryTx(s);
    if DeadEnd(s.tasks, id) {
      DeadEndIsTop(g, s.tasks, id);
      assert NextAttempt(id) in RedoIds(s.tasks);
    }
    hide RowsOk, RedoIds;
  }

  lemma CanCancel(w: World, g: Graph, s: State)
    requires !Terminal(s.run)
    ensures Enabled(s, CancelRun) && Consistent(w, s, CancelRun) && Apply(w, g, s, CancelRun).run == RunCanceled
  {
  }

  lemma CanRetry(w: World, g: Graph, s: State)
    requires s.run == RunFailed || s.run == RunCanceled
    ensures Enabled(s, RetryRun) && Consistent(w, s, RetryRun) && Apply(w, g, s, RetryRun) == RetryTx(s)
    ensures RetryTx(s).run == RunRunning
  {
    hide RedoIds;
  }

  /** Cancelling and retrying fill no step. */
  lemma ForcedFillsNone(w: World, g: Graph, s: State, e: Event)
    requires RowsOk(g, s.tasks) && Enabled(s, e) && (e.CancelRun? || e.RetryRun?)
    ensures Missing(g, Apply(w, g, s, e).tasks) == Missing(g, s.tasks)
  {
    MissingShrinks(w, g, s, e);
    if e.RetryRun? {
      RetryApplies(w, g, s);
      hide Enabled, Apply, RowsOk;
      forall k | HasRow(RetryTx(s).tasks, k)
        ensures HasRow(s.tasks, k)
      {
        RetriedHadRow(s, k);
      }
    } else {
      hide RowsOk, ApplyStarting, ApplyEnding, ApplyParking, ApplyFault;
    }
  }

  lemma RetriedHadRow(s: State, k: string)
    requires HasRow(RetryTx(s).tasks, k)
    ensures HasRow(s.tasks, k)
  {
    var id :| id in RetryTx(s).tasks && id.step == k;
    if id !in s.tasks {
      var prev := RedoFollows(s.tasks, id);
    }
  }

  /** One forced step. */
  lemma Force(w: World, g: Graph, states: seq<State>, events: seq<Event>, e: Event)
    returns (longer: seq<State>, more: seq<Event>)
    requires RunHistory(w, g, states, events) && ConsistentUpTo(w, states, events, |events|)
    requires Enabled(states[|events|], e) && Consistent(w, states[|events|], e) && (e.CancelRun? || e.RetryRun?)
    ensures Continued(w, g, states, events, longer, more) && longer[|more|] == Apply(w, g, states[|events|], e)
    ensures Missing(g, longer[|more|].tasks) == Missing(g, states[|events|].tasks)
  {
    hide RunHistory, ConsistentUpTo, Enabled, Apply, Consistent, START, Sound, RowsOk, Missing, Continued;
    HistoryLength(w, g, states, events);
    AlwaysSound(w, g, states, events, |events|);
    SoundRows(g, states[|events|]);
    ForcedFillsNone(w, g, states[|events|], e);
    longer, more := OneMore(w, g, states, events, e);
  }

  /** Every history can be carried on to a canceled run, or has succeeded. */
  lemma ToCanceled(w: World, g: Graph, states: seq<State>, events: seq<Event>)
    returns (longer: seq<State>, more: seq<Event>)
    requires RunHistory(w, g, states, events) && ConsistentUpTo(w, states, events, |events|)
    requires states[|events|].run != RunSucceeded
    ensures Continued(w, g, states, events, longer, more) && longer[|more|].run == RunCanceled
    ensures Missing(g, longer[|more|].tasks) == Missing(g, states[|events|].tasks)
  {
    hide RunHistory, ConsistentUpTo, Enabled, Apply, Consistent, START, Missing, Continued, RetryTx;
    HistoryLength(w, g, states, events);
    var s := states[|events|];
    if s.run == RunCanceled {
      longer, more := states, events;
      ContinuedItself(w, g, states, events);
    } else if s.run == RunFailed {
      CanRetry(w, g, s);
      var states1, events1 := Force(w, g, states, events, RetryRun);
      ContinuedLength(w, g, states, events, states1, events1);
      CanCancel(w, g, states1[|events1|]);
      longer, more := Force(w, g, states1, events1, CancelRun);
      ContinuedTwice(w, g, states, events, states1, events1, longer, more);
    } else {
      CanCancel(w, g, s);
      longer, more := Force(w, g, states, events, CancelRun);
    }
  }

  /** Cancelling and retrying heals any run that has not succeeded. */
  lemma Heal(w: World, g: Graph, states: seq<State>, events: seq<Event>)
    returns (longer: seq<State>, more: seq<Event>)
    requires RunHistory(w, g, states, events) && ConsistentUpTo(w, states, events, |events|)
    requires states[|events|].run != RunSucceeded
    ensures Continued(w, g, states, events, longer, more) && Healthy(longer[|more|])
    ensures Missing(g, longer[|more|].tasks) == Missing(g, states[|events|].tasks)
  {
    hide RunHistory, ConsistentUpTo, Enabled, Apply, Consistent, START, Missing, Continued, RetryTx, Healthy, RowsOk,
      StatusOk, Sound;
    var states1, events1 := ToCanceled(w, g, states, events);
    ContinuedLength(w, g, states, events, states1, events1);
    AlwaysSound(w, g, states1, events1, |events1|);
    SoundRows(g, states1[|events1|]);
    SoundStatus(g, states1[|events1|]);
    CanRetry(w, g, states1[|events1|]);
    RetryHeals(g, states1[|events1|]);
    longer, more := Force(w, g, states1, events1, RetryRun);
    ContinuedTwice(w, g, states, events, states1, events1, longer, more);
  }

  lemma {:induction false} HealthyCanBeSaved(
      w: World, g: Graph, rank: map<string, nat>, order: seq<string>, states: seq<State>, events: seq<Event>)
    returns (longer: seq<State>, more: seq<Event>)
    requires RunHistory(w, g, states, events) && ConsistentUpTo(w, states, events, |events|)
    requires IsRank(g, rank) && Enumerates(order, g) && Healthy(states[|events|])
    ensures Continued(w, g, states, events, longer, more) && Succeeds(w, g, rank, longer[|more|])
    decreases |Missing(g, states[|events|].tasks)|, Weight(g, order, states[|events|])
  {
    hide RunHistory, ConsistentUpTo, IsRank, Healthy, Weight, Missing, START, NoGuardErrors, Succeeds, Continued,
      Unforced;
    HistoryLength(w, g, states, events);
    if states[|events|].run == RunSucceeded {
      longer, more := states, events;
      ContinuedItself(w, g, states, events);
      SucceededIdeal(w, g, rank, states, events);
      return;
    }
    var states1, events1 := Onward(w, g, rank, order, states, events);
    ContinuedLength(w, g, states, events, states1, events1);
    if !Healthy(states1[|events1|]) && states1[|events1|].run != RunSucceeded {
      var states2, events2 := Heal(w, g, states1, events1);
      ContinuedTwice(w, g, states, events, states1, events1, states2, events2);
      states1, events1 := states2, events2;
      ContinuedLength(w, g, states, events, states1, events1);
    }
    if states1[|events1|].run == RunSucceeded {
      longer, more := states1, events1;
      SucceededIdeal(w, g, rank, longer, more);
    } else {
      longer, more := HealthyCanBeSaved(w, g, rank, order, states1, events1);
      ContinuedTwice(w, g, states, events, states1, events1, longer, more);
    }
  }

  lemma {:induction false} Listed(keys: set<string>) returns (order: seq<string>)
    ensures forall k :: k in keys <==> k in order
    decreases |keys|
  {
    order := [];
    if k :| k in keys {
      var rest := Listed(keys - {k});
      order := [k] + rest;
    }
  }

  /** Every run can be saved: every consistent history, whatever was lost, failed,
      canceled or left waiting in it, continues to a success with the interpreter's
      row for every step. */
  lemma EveryRunCanBeSaved(w: World, g: Graph, rank: map<string, nat>, states: seq<State>, events: seq<Event>)
    returns (longer: seq<State>, more: seq<Event>)
    requires RunHistory(w, g, states, events) && IsRank(g, rank) && ConsistentUpTo(w, states, events, |events|)
    ensures Continued(w, g, states, events, longer, more) && Succeeds(w, g, rank, longer[|more|])
  {
    hide RunHistory, ConsistentUpTo, IsRank, Healthy, Missing, START, Succeeds, Continued;
    HistoryLength(w, g, states, events);
    if states[|events|].run == RunSucceeded {
      longer, more := states, events;
      ContinuedItself(w, g, states, events);
      SucceededIdeal(w, g, rank, states, events);
    } else {
      var order := Listed(g.Keys);
      var states1, events1 := Heal(w, g, states, events);
      ContinuedLength(w, g, states, events, states1, events1);
      longer, more := HealthyCanBeSaved(w, g, rank, order, states1, events1);
      ContinuedTwice(w, g, states, events, states1, events1, longer, more);
    }
  }
}
