/**
 Workers in flight: an executor runs at most once per attempt, and every worker
 holds the one context its step will ever have.
 */
module Workers {
  import opened Definitions
  import opened RunState
  import opened Ladder

  /** An executor is running for a row at most once, and was never started for
      a row that is still queued. */
  ghost predicate RunsOnce(executing: multiset<Prepared>, invoked: multiset<TaskId>, tasks: Tasks) {
    && (forall p :: p in executing ==> p.id in invoked && executing[p] == 1)
    && (forall p, q :: p in executing && q in executing && p.id == q.id ==> p == q)
    && (forall id :: id in invoked ==> id in tasks && tasks[id].status != Queued && invoked[id] == 1)
  }

  ghost predicate WorkersOk(s: State) {
    && (forall id :: id in s.loaded ==> id in s.tasks)
    && (forall p :: p in s.prepared ==> p.id in s.tasks)
    && RunsOnce(s.executing, s.invoked, s.tasks)
  }

  ghost predicate ContextsOk(g: Graph, s: State) {
    && (forall p :: p in s.prepared ==> p.ctx == BuildContext(g, s.tasks, p.id.step))
    && (forall p :: p in s.executing ==> p.ctx == BuildContext(g, s.tasks, p.id.step))
  }

  /** No worker is added and no executor started. */
  ghost predicate Shrinks(s: State, s': State) {
    && (forall id :: s'.loaded[id] <= s.loaded[id])
    && (forall p :: s'.prepared[p] <= s.prepared[p])
    && (forall p :: s'.executing[p] <= s.executing[p])
    && s'.invoked == s.invoked
  }

  lemma ShrunkWorkers(s: State, s': State)
    requires Shrinks(s, s')
    ensures forall p :: p in s'.prepared || p in s'.executing ==> p in s.prepared || p in s.executing
  {
  }

  lemma EndKeepsWorkers(s: State, id: TaskId, row: Row, retries: int)
    ensures EndTx(s, id, row, retries).loaded == s.loaded
    ensures EndTx(s, id, row, retries).prepared == s.prepared
    ensures EndTx(s, id, row, retries).executing == s.executing
    ensures EndTx(s, id, row, retries).invoked == s.invoked
  {
  }

  lemma EndingShrinks(g: Graph, s: State, e: Event)
    requires Enabled(s, e) && Ending(e)
    ensures Shrinks(s, ApplyEnding(g, s, e))
  {
    hide ApplyEnding, EndTx;
    ShapeOfEnding(g, s, e);
    if Wins(s, e) {
      EndKeepsWorkers(Leaving(s, e), e.id, FinalRow(s, e), RetriesSeen(g, e));
    }
  }

  lemma ControlShrinks(w: World, g: Graph, s: State, e: Event)
    requires Enabled(s, e) && Control(e)
    ensures Shrinks(s, ApplyControl(w, g, s, e))
  {
    hide FirstRows, AnyDead, AllSettled, RedoIds;
  }

  lemma ParkingShrinks(s: State, e: Event)
    requires Enabled(s, e) && Parking(e)
    ensures Shrinks(s, ApplyParking(s, e))
  {
  }

  lemma FaultShrinks(s: State, e: Event)
    requires Fault(e)
    ensures Shrinks(s, ApplyFault(s, e))
  {
  }

  lemma OthersShrink(w: World, g: Graph, s: State, e: Event)
    requires Enabled(s, e) && !Starting(e)
    ensures Shrinks(s, Apply(w, g, s, e))
  {
    hide Shrinks, ApplyControl, ApplyEnding, ApplyParking, ApplyFault;
    if Control(e) {
      ControlShrinks(w, g, s, e);
    } else if Ending(e) {
      EndingShrinks(g, s, e);
    } else if Parking(e) {
      ParkingShrinks(s, e);
    } else {
      FaultShrinks(s, e);
    }
  }

  lemma WorkersKeptShrinking(g: Graph, s: State, s': State)
    requires WorkersOk(s) && Evolves(g, s.tasks, s'.tasks) && Shrinks(s, s')
    ensures WorkersOk(s')
  {
  }

  lemma ClaimRunsOnce(executing: multiset<Prepared>, invoked: multiset<TaskId>, tasks: Tasks, p: Prepared, row: Row)
    requires RunsOnce(executing, invoked, tasks)
    requires p.id in tasks && tasks[p.id].status == Queued && row.status == Running
    ensures RunsOnce(executing + multiset{p}, invoked + multiset{p.id}, tasks[p.id := row])
  {
    assert p.id !in invoked;
    assert forall q :: q in executing ==> q.id != p.id;
  }

  lemma ClaimKeepsWorkers(s: State, p: Prepared)
    requires WorkersOk(s) && p in s.prepared
    ensures WorkersOk(ClaimTx(s.(prepared := s.prepared - multiset{p}), p.id, p.ctx))
  {
    hide RunsOnce;
    if s.tasks[p.id].status == Queued {
      ClaimRunsOnce(s.executing, s.invoked, s.tasks, p, s.tasks[p.id].(status := Running));
    }
  }

  lemma LoadKeepsWorkers(s: State, id: TaskId)
    requires WorkersOk(s)
    ensures WorkersOk(LoadTx(s.(executes := s.executes - multiset{id}), id))
  {
  }

  lemma PrepareKeepsWorkers(s: State, p: Prepared)
    requires WorkersOk(s) && p.id in s.loaded
    ensures WorkersOk(s.(loaded := s.loaded - multiset{p.id}, prepared := s.prepared + multiset{p}))
  {
  }

  lemma WorkersKeptStarting(g: Graph, s: State, e: Event)
    requires WorkersOk(s) && Enabled(s, e) && Starting(e)
    ensures WorkersOk(ApplyStarting(g, s, e))
  {
    hide BuildContext, WorkersOk, ClaimTx, LoadTx;
    match e
    case Load(id) => LoadKeepsWorkers(s, id);
    case Prepare(id) => PrepareKeepsWorkers(s, Prepared(id, BuildContext(g, s.tasks, id.step)));
    case Claim(id, ctx) => ClaimKeepsWorkers(s, Prepared(id, ctx));
  }

  lemma WorkersKept(w: World, g: Graph, s: State, e: Event)
    requires RowsOk(g, s.tasks) && WorkersOk(s) && Enabled(s, e)
    ensures WorkersOk(Apply(w, g, s, e))
  {
    hide RowsOk, WorkersOk, ContextsOk, Evolves, Shrinks, ApplyControl, ApplyStarting, ApplyEnding, ApplyParking,
      ApplyFault;
    if Starting(e) {
      WorkersKeptStarting(g, s, e);
    } else {
      StepEvolves(w, g, s, e);
      OthersShrink(w, g, s, e);
      WorkersKeptShrinking(g, s, Apply(w, g, s, e));
    }
  }

  /** A step with a row sees one context forever. */
  lemma RowContextFrozen(g: Graph, t: Tasks, t': Tasks, id: TaskId)
    requires RowsOk(g, t) && Evolves(g, t, t') && id in t
    ensures BuildContext(g, t, id.step) == BuildContext(g, t', id.step)
  {
    hide RowsOk, Evolves, BuildContext, Upstream;
    forall n | n in Upstream(g, id.step)
      ensures SettledRow(t, n)
    {
      UpstreamSettled(g, t, id.step, n);
    }
    ContextFrozen(g, t, t', id.step);
  }

  lemma WorkerContextFrozen(g: Graph, s: State, s': State, p: Prepared)
    requires RowsOk(g, s.tasks) && WorkersOk(s) && ContextsOk(g, s) && Evolves(g, s.tasks, s'.tasks)
    requires p in s.prepared || p in s.executing
    ensures p.ctx == BuildContext(g, s'.tasks, p.id.step)
  {
    hide RowsOk, Evolves, BuildContext;
    RowContextFrozen(g, s.tasks, s'.tasks, p.id);
  }

  lemma ContextsKeptShrinking(g: Graph, s: State, s': State)
    requires RowsOk(g, s.tasks) && WorkersOk(s) && ContextsOk(g, s)
    requires Evolves(g, s.tasks, s'.tasks)
    requires forall p :: p in s'.prepared || p in s'.executing ==> p in s.prepared || p in s.executing
    ensures ContextsOk(g, s')
  {
    hide RowsOk, WorkersOk, Evolves, BuildContext;
    forall p | p in s'.prepared || p in s'.executing
      ensures p.ctx == BuildContext(g, s'.tasks, p.id.step)
    {
      WorkerContextFrozen(g, s, s', p);
    }
  }

  lemma LoadKeepsContexts(g: Graph, s: State, id: TaskId)
    requires ContextsOk(g, s)
    ensures ContextsOk(g, LoadTx(s.(executes := s.executes - multiset{id}), id))
  {
    hide BuildContext;
  }

  lemma PrepareKeepsContexts(g: Graph, s: State, p: Prepared)
    requires ContextsOk(g, s) && p.ctx == BuildContext(g, s.tasks, p.id.step)
    ensures ContextsOk(g, s.(loaded := s.loaded - multiset{p.id}, prepared := s.prepared + multiset{p}))
  {
    hide BuildContext;
  }

  lemma ClaimKeepsContexts(g: Graph, s: State, p: Prepared, s': State)
    requires RowsOk(g, s.tasks) && WorkersOk(s) && ContextsOk(g, s) && p in s.prepared
    requires s' == ClaimTx(s.(prepared := s.prepared - multiset{p}), p.id, p.ctx) && Evolves(g, s.tasks, s'.tasks)
    ensures ContextsOk(g, s')
  {
    assert forall q :: q in s'.prepared || q in s'.executing ==> q in s.prepared || q in s.executing;
    hide RowsOk, WorkersOk, ContextsOk, Evolves, BuildContext, ClaimTx;
    ContextsKeptShrinking(g, s, s');
  }

  lemma ContextsKeptStarting(g: Graph, s: State, e: Event)
    requires RowsOk(g, s.tasks) && WorkersOk(s) && ContextsOk(g, s) && Enabled(s, e) && Starting(e)
    ensures ContextsOk(g, ApplyStarting(g, s, e))
  {
    hide RowsOk, WorkersOk, ContextsOk, Evolves, BuildContext, LoadTx, ClaimTx;
    StartingEvolves(g, s, e);
    match e
    case Load(id) => LoadKeepsContexts(g, s, id);
    case Prepare(id) => PrepareKeepsContexts(g, s, Prepared(id, BuildContext(g, s.tasks, id.step)));
    case Claim(id, ctx) => ClaimKeepsContexts(g, s, Prepared(id, ctx), ApplyStarting(g, s, e));
  }

  lemma ContextsKept(w: World, g: Graph, s: State, e: Event)
    requires RowsOk(g, s.tasks) && WorkersOk(s) && ContextsOk(g, s) && Enabled(s, e)
    ensures ContextsOk(g, Apply(w, g, s, e))
  {
    hide RowsOk, WorkersOk, ContextsOk, Evolves, Shrinks, ApplyControl, ApplyStarting, ApplyEnding, ApplyParking,
      ApplyFault;
    if Starting(e) {
      ContextsKeptStarting(g, s, e);
    } else {
      StepEvolves(w, g, s, e);
      OthersShrink(w, g, s, e);
      ShrunkWorkers(s, Apply(w, g, s, e));
      ContextsKeptShrinking(g, s, Apply(w, g, s, e));
    }
  }
}
