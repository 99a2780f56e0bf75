/**
 The rows and jobs of one run, and each committed transaction of the engine as
 a function on them.  These functions are the specification: the methods of
 RunStore compute them step by step, and the other modules prove what they keep.

 One run suffices because no transaction of the engine touches two runs.
 Timestamps, error texts and task inputs are left out of the rows.
 */
module RunState {
  import opened Definitions

  datatype RunStatus = RunQueued | RunRunning | RunSucceeded | RunFailed | RunCanceled

  predicate Terminal(r: RunStatus) {
    r == RunSucceeded || r == RunFailed || r == RunCanceled
  }

  datatype TaskStatus = Queued | Running | Suspended | Succeeded | Failed | Skipped | Canceled

  predicate Live(t: TaskStatus) {
    t == Queued || t == Running || t == Suspended
  }

  predicate Dead(t: TaskStatus) {
    t == Failed || t == Canceled
  }

  predicate Settled(t: TaskStatus) {
    t == Succeeded || t == Skipped
  }

  /** A task row is identified by its unique (run, step, attempt). */
  datatype TaskId = TaskId(step: string, attempt: nat)
  datatype Row = Row(status: TaskStatus, output: Option<string>)
  type Tasks = map<TaskId, Row>

  /** A `suspensions` row; the table's key is the unique resume token. */
  datatype Suspension = Suspension(task: TaskId, timed: bool, payload: string)

  /** The expression context below `steps`: outputs by step key.  The run input
      and the secrets are fixed for a run. */
  type Context = map<string, Option<string>>

  datatype Verdict = Truthy | Falsy | EvalError

  /** What an executor does when it does not fail: return, ask for a timed wait
      that ends with this output, or wait for an external callback. */
  datatype Effect = Return(output: string) | Delay(output: string) | Callback

  /** The foreign code, as fixed functions. */
  datatype World = World(
    eval: (string, Context) -> Verdict,
    exec: (string, Context) -> Effect,
    payload: string -> string)

  datatype Prepared = Prepared(id: TaskId, ctx: Context)
  datatype Resuming = Resuming(id: TaskId, output: string, timer: bool)

  datatype State = State(
    run: RunStatus,
    tasks: Tasks,
    parked: map<string, Suspension>,
    // pending jobs: advance_run, execute_task, resume_task
    advances: nat,
    executes: multiset<TaskId>,
    resumes: multiset<TaskId>,
    // workers in flight, by how far they got
    loaded: multiset<TaskId>,
    prepared: multiset<Prepared>,
    executing: multiset<Prepared>,
    resuming: multiset<Resuming>,
    // history
    invoked: multiset<TaskId>,
    resumed: multiset<TaskId>,
    timers: set<TaskId>,
    backoffs: map<TaskId, nat>,
    retryCalls: nat)

  /** StartRunOpts: a queued run and its first advance job. */
  const START: State := State(
    RunQueued, map[], map[], 1, multiset{}, multiset{}, multiset{}, multiset{}, multiset{}, multiset{},
    multiset{}, multiset{}, {}, map[], 0)

  // ----- the latest attempt of a step -----

  ghost predicate HasRow(tasks: Tasks, k: string) {
    exists id :: id in tasks && id.step == k
  }

  ghost predicate IsTop(tasks: Tasks, k: string, n: nat) {
    TaskId(k, n) in tasks && forall id :: id in tasks && id.step == k ==> id.attempt <= n
  }

  lemma {:induction false} Greatest(s: set<nat>) returns (n: nat)
    requires s != {}
    ensures n in s
    ensures forall a :: a in s ==> a <= n
    decreases |s|
  {
    n :| n in s;
    var rest := s - {n};
    if rest != {} {
      var m := Greatest(rest);
      assert forall a :: a in s ==> a == n || a in rest;
      n := if n <= m then m else n;
    } else {
      assert s == {n};
    }
  }

  lemma TopExists(tasks: Tasks, k: string)
    requires HasRow(tasks, k)
    ensures exists n :: IsTop(tasks, k, n)
  {
    var attempts := set id | id in tasks && id.step == k :: id.attempt;
    var row :| row in tasks && row.step == k;
    assert row.attempt in attempts;
    var n := Greatest(attempts);
    var top :| top in tasks && top.step == k && top.attempt == n;
    assert top == TaskId(k, n);
    forall id | id in tasks && id.step == k
      ensures id.attempt <= n
    {
      assert id.attempt in attempts;
    }
    assert IsTop(tasks, k, n);
  }

  ghost function Top(tasks: Tasks, k: string): (n: nat)
    requires HasRow(tasks, k)
    ensures IsTop(tasks, k, n)
  {
    TopExists(tasks, k);
    var n :| IsTop(tasks, k, n);
    n
  }

  /** The row with the greatest attempt, as `distinct on ... attempt desc` picks it. */
  ghost function Latest(tasks: Tasks, k: string): Option<Row> {
    if HasRow(tasks, k) then Some(tasks[TaskId(k, Top(tasks, k))]) else None
  }

  lemma LatestAt(tasks: Tasks, k: string, n: nat)
    requires IsTop(tasks, k, n)
    ensures HasRow(tasks, k) && Top(tasks, k) == n
    ensures Latest(tasks, k) == Some(tasks[TaskId(k, n)])
  {
  }

  ghost predicate LatestSettled(tasks: Tasks, k: string) {
    var r := Latest(tasks, k);
    r.Some? && Settled(r.value.status)
  }

  ghost predicate LatestDead(tasks: Tasks, k: string) {
    var r := Latest(tasks, k);
    r.Some? && Dead(r.value.status)
  }

  // ----- the frozen context -----

  ghost function SucceededRows(tasks: Tasks): Tasks {
    map id | id in tasks && tasks[id].status == Succeeded :: tasks[id]
  }

  /** buildRunContext: latest succeeded outputs of the transitive needs. */
  ghost function BuildContext(g: Graph, tasks: Tasks, k: string): Context {
    var done := SucceededRows(tasks);
    map n | n in Upstream(g, k) && HasRow(done, n) :: Latest(done, n).value.output
  }

  // ----- advance_run -----

  ghost predicate AnyDead(g: Graph, tasks: Tasks) {
    exists k :: k in g && LatestDead(tasks, k)
  }

  ghost predicate AllSettled(g: Graph, tasks: Tasks) {
    forall k :: k in g ==> LatestSettled(tasks, k)
  }

  ghost predicate Ready(g: Graph, tasks: Tasks, k: string) {
    k in g && !HasRow(tasks, k) && forall n :: n in g[k].needs ==> LatestSettled(tasks, n)
  }

  ghost function ReadyIds(g: Graph, tasks: Tasks): (r: set<TaskId>) {
    set k | k in g && Ready(g, tasks, k) :: TaskId(k, 1)
  }

  /** How the guard of a ready step resolves. */
  ghost function FirstStatus(w: World, g: Graph, tasks: Tasks, k: string): TaskStatus
    requires k in g
  {
    if g[k].cond == "" then Queued
    else
      match w.eval("!!(" + g[k].cond + ")", BuildContext(g, tasks, k))
      case Truthy => Queued
      case Falsy => Skipped
      case EvalError => Failed
  }

  ghost function FirstRows(w: World, g: Graph, tasks: Tasks): Tasks {
    map id | id in ReadyIds(g, tasks) && id.step in g :: Row(FirstStatus(w, g, tasks, id.step), None)
  }

  function QueuedIn(rows: Tasks): set<TaskId> {
    set id | id in rows && rows[id].status == Queued
  }

  /** Some guard ended its step without a job; only a further advance helps. */
  ghost predicate GuardResolved(rows: Tasks) {
    exists id :: id in rows && rows[id].status != Queued
  }

  /** Insert first rows, with a job for every queued one. */
  ghost function SpreadTx(s: State, rows: Tasks): State {
    s.(run := RunRunning,
       tasks := s.tasks + rows,
       executes := s.executes + multiset(QueuedIn(rows)),
       advances := s.advances + if GuardResolved(rows) then 1 else 0)
  }

  ghost function AdvanceTx(w: World, g: Graph, s: State): State {
    if Terminal(s.run) then s
    else if AnyDead(g, s.tasks) then s.(run := RunFailed)
    else if AllSettled(g, s.tasks) then s.(run := RunSucceeded)
    else SpreadTx(s, FirstRows(w, g, s.tasks))
  }

  // ----- execute_task -----

  function LoadTx(s: State, id: TaskId): State {
    if id in s.tasks && s.tasks[id].status == Queued
    then s.(loaded := s.loaded + multiset{id})
    else s
  }

  function Pow2(n: nat): nat {
    if n == 0 then 1 else 2 * Pow2(n - 1)
  }

  /** A failure of this attempt is inside the automatic budget. */
  predicate Retrying(id: TaskId, retries: int) {
    id.attempt <= retries
  }

  function NextAttempt(id: TaskId): TaskId {
    TaskId(id.step, id.attempt + 1)
  }

  /** A row turned terminal, with the next attempt when it failed inside its
      budget, and the advance job: the common end of finishTask and reapTask.  A
      unique-key violation would roll the transaction back. */
  function EndTx(s: State, id: TaskId, row: Row, retries: int): State {
    if row.status == Failed && Retrying(id, retries) then
      if NextAttempt(id) in s.tasks then s
      else
        s.(tasks := s.tasks[id := row][NextAttempt(id) := Row(Queued, None)],
           executes := s.executes + multiset{NextAttempt(id)},
           backoffs := s.backoffs[NextAttempt(id) := Pow2(id.attempt)],
           advances := s.advances + 1)
    else
      s.(tasks := s.tasks[id := row], advances := s.advances + 1)
  }

  function FinishTx(s: State, id: TaskId, status: TaskStatus, output: string, retries: int): State {
    if id in s.tasks && (s.tasks[id].status == Queued || s.tasks[id].status == Running)
    then EndTx(s, id, Row(status, Some(output)), retries)
    else s
  }

  /** The guarded claim; the executor runs only behind it. */
  function ClaimTx(s: State, id: TaskId, ctx: Context): State {
    if id in s.tasks && s.tasks[id].status == Queued then
      s.(tasks := s.tasks[id := s.tasks[id].(status := Running)],
         executing := s.executing + multiset{Prepared(id, ctx)},
         invoked := s.invoked + multiset{id})
    else s
  }

  function SuspendTx(s: State, id: TaskId, token: string, timed: bool, output: string): State {
    if id in s.tasks && s.tasks[id].status == Running && token !in s.parked then
      s.(tasks := s.tasks[id := Row(Suspended, Some(output))],
         parked := s.parked[token := Suspension(id, timed, output)],
         resumes := if timed then s.resumes + multiset{id} else s.resumes,
         timers := if timed then s.timers + {id} else s.timers)
    else s
  }

  // ----- resume -----

  ghost predicate IsParked(parked: map<string, Suspension>, id: TaskId) {
    exists token :: token in parked && parked[token].task == id
  }

  function Unpark(parked: map<string, Suspension>, id: TaskId): map<string, Suspension> {
    map token | token in parked && parked[token].task != id :: parked[token]
  }

  function ResumeTx(s: State, id: TaskId, output: string): State {
    var cleared := s.(parked := Unpark(s.parked, id));
    if id !in s.tasks then s
    else if s.tasks[id].status == Suspended then
      cleared.(tasks := s.tasks[id := Row(Succeeded, Some(output))],
               resumed := s.resumed + multiset{id},
               advances := s.advances + 1)
    else cleared
  }

  // ----- the reaper -----

  function ReapTx(s: State, id: TaskId, retries: int): State {
    if id in s.tasks && s.tasks[id].status == Running
    then EndTx(s, id, s.tasks[id].(status := Failed), retries)
    else s
  }

  // ----- cancel and retry -----

  function CanceledRow(r: Row): Row {
    if Live(r.status) then r.(status := Canceled) else r
  }

  function CancelTx(s: State): State {
    if Terminal(s.run) then s
    else s.(run := RunCanceled, tasks := map id | id in s.tasks :: CanceledRow(s.tasks[id]))
  }

  /** The attempts RetryRun queues: one past every dead latest attempt. */
  ghost function RedoIds(tasks: Tasks): set<TaskId> {
    set id | id in tasks && IsTop(tasks, id.step, id.attempt) && Dead(tasks[id].status) :: NextAttempt(id)
  }

  ghost function RetryTx(s: State): State {
    if s.run != RunFailed && s.run != RunCanceled then s
    else
      var redo := RedoIds(s.tasks);
      s.(run := RunRunning,
         tasks := s.tasks + map id | id in redo :: Row(Queued, None),
         executes := s.executes + multiset(redo),
         advances := s.advances + 1,
         retryCalls := s.retryCalls + 1)
  }

  // ----- events: one committed transaction, pickup or fault each -----

  datatype Event =
    | Advance
    | Load(id: TaskId)
    | Prepare(id: TaskId)
    | FailLoaded(id: TaskId, knowsRetries: bool)
    | FailPrepared(id: TaskId, ctx: Context)
    | Claim(id: TaskId, ctx: Context)
    | Finish(id: TaskId, ctx: Context, ok: bool, output: string)
    | Suspend(id: TaskId, ctx: Context, token: string, timed: bool, output: string)
    | TimerPickup(id: TaskId, token: string)
    | TimerStale(id: TaskId)
    | CallbackPickup(token: string, output: string)
    | Resume(id: TaskId, output: string, timer: bool)
    | Reap(id: TaskId)
    | CancelRun
    | RetryRun
    // faults and redeliveries
    | WorkerDies(id: TaskId, ctx: Context)
    | ResumerDies(id: TaskId, output: string, timer: bool)
    | LoadedLost(id: TaskId)
    | PreparedLost(id: TaskId, ctx: Context)
    | ReplayAdvance
    | ReplayExecute(id: TaskId)
    | ReplayResume(id: TaskId)

  /** Whether an event can occur in a state. */
  ghost predicate Enabled(s: State, e: Event) {
    match e
    case Advance => s.advances > 0
    case Load(id) => id in s.executes
    case Prepare(id) => id in s.loaded
    case FailLoaded(id, _) => id in s.loaded
    case FailPrepared(id, ctx) => Prepared(id, ctx) in s.prepared
    case Claim(id, ctx) => Prepared(id, ctx) in s.prepared
    case Finish(id, ctx, _, _) => Prepared(id, ctx) in s.executing
    case Suspend(id, ctx, _, _, _) => Prepared(id, ctx) in s.executing
    case TimerPickup(id, token) => id in s.resumes && token in s.parked && s.parked[token].task == id
    case TimerStale(id) => id in s.resumes && !IsParked(s.parked, id)
    case CallbackPickup(token, _) => token in s.parked
    case Resume(id, output, timer) => Resuming(id, output, timer) in s.resuming
    case Reap(id) => id in s.tasks && s.tasks[id].status == Running
    case CancelRun => !Terminal(s.run)
    case RetryRun => s.run == RunFailed || s.run == RunCanceled
    case WorkerDies(id, ctx) => Prepared(id, ctx) in s.executing
    case ResumerDies(id, output, timer) => Resuming(id, output, timer) in s.resuming
    case LoadedLost(id) => id in s.loaded
    case PreparedLost(id, ctx) => Prepared(id, ctx) in s.prepared
    case ReplayAdvance => true
    case ReplayExecute(id) => id in s.tasks
    case ReplayResume(id) => id in s.timers
  }

  const NO_OUTPUT := "null"

  // Events come in five groups.

  predicate Control(e: Event) {
    e.Advance? || e.CancelRun? || e.RetryRun?
  }

  predicate Starting(e: Event) {
    e.Load? || e.Prepare? || e.Claim?
  }

  /** Events that can make a row terminal through finishTask or reapTask. */
  predicate Ending(e: Event) {
    e.FailLoaded? || e.FailPrepared? || e.Finish? || e.Reap?
  }

  predicate Parking(e: Event) {
    e.Suspend? || e.TimerPickup? || e.TimerStale? || e.CallbackPickup? || e.Resume?
  }

  predicate Fault(e: Event) {
    !Control(e) && !Starting(e) && !Ending(e) && !Parking(e)
  }

  ghost function ApplyControl(w: World, g: Graph, s: State, e: Event): State
    requires Control(e) && Enabled(s, e)
  {
    match e
    case Advance => AdvanceTx(w, g, s.(advances := s.advances - 1))
    case CancelRun => CancelTx(s)
    case RetryRun => RetryTx(s)
  }

  ghost function ApplyStarting(g: Graph, s: State, e: Event): State
    requires Starting(e)
  {
    match e
    case Load(id) => LoadTx(s.(executes := s.executes - multiset{id}), id)
    case Prepare(id) =>
      s.(loaded := s.loaded - multiset{id},
         prepared := s.prepared + multiset{Prepared(id, BuildContext(g, s.tasks, id.step))})
    case Claim(id, ctx) => ClaimTx(s.(prepared := s.prepared - multiset{Prepared(id, ctx)}), id, ctx)
  }

  function ApplyEnding(g: Graph, s: State, e: Event): State
    requires Ending(e)
  {
    match e
    case FailLoaded(id, knowsRetries) =>
      FinishTx(s.(loaded := s.loaded - multiset{id}), id, Failed, NO_OUTPUT,
               if knowsRetries then Retries(g, id.step) else 0)
    case FailPrepared(id, ctx) =>
      FinishTx(s.(prepared := s.prepared - multiset{Prepared(id, ctx)}), id, Failed, NO_OUTPUT, Retries(g, id.step))
    case Finish(id, ctx, ok, output) =>
      FinishTx(s.(executing := s.executing - multiset{Prepared(id, ctx)}), id,
               if ok then Succeeded else Failed, output, Retries(g, id.step))
    case Reap(id) => ReapTx(s, id, Retries(g, id.step))
  }

  ghost function ApplyParking(s: State, e: Event): State
    requires Parking(e) && Enabled(s, e)
  {
    match e
    case Suspend(id, ctx, token, timed, output) =>
      SuspendTx(s.(executing := s.executing - multiset{Prepared(id, ctx)}), id, token, timed, output)
    case TimerPickup(id, token) =>
      s.(resumes := s.resumes - multiset{id},
         resuming := s.resuming + multiset{Resuming(id, s.parked[token].payload, true)})
    case TimerStale(id) => s.(resumes := s.resumes - multiset{id})
    case CallbackPickup(token, output) =>
      s.(resuming := s.resuming + multiset{Resuming(s.parked[token].task, output, false)})
    case Resume(id, output, timer) =>
      ResumeTx(s.(resuming := s.resuming - multiset{Resuming(id, output, timer)}), id, output)
  }

  function ApplyFault(s: State, e: Event): State
    requires Fault(e)
  {
    match e
    case WorkerDies(id, ctx) => s.(executing := s.executing - multiset{Prepared(id, ctx)})
    case ResumerDies(id, output, timer) =>
      s.(resuming := s.resuming - multiset{Resuming(id, output, timer)},
         resumes := if timer then s.resumes + multiset{id} else s.resumes)
    case LoadedLost(id) => s.(loaded := s.loaded - multiset{id})
    case PreparedLost(id, ctx) => s.(prepared := s.prepared - multiset{Prepared(id, ctx)})
    case ReplayAdvance => s.(advances := s.advances + 1)
    case ReplayExecute(id) => s.(executes := s.executes + multiset{id})
    case ReplayResume(id) => s.(resumes := s.resumes + multiset{id})
  }

  /** The effect of an enabled event. */
  ghost function Apply(w: World, g: Graph, s: State, e: Event): State
    requires Enabled(s, e)
  {
    if Control(e) then ApplyControl(w, g, s, e)
    else if Starting(e) then ApplyStarting(g, s, e)
    else if Ending(e) then ApplyEnding(g, s, e)
    else if Parking(e) then ApplyParking(s, e)
    else ApplyFault(s, e)
  }

  /** One link of a history: events that cannot occur are not part of one. */
  ghost predicate Next(w: World, g: Graph, s: State, e: Event, s': State) {
    Enabled(s, e) && s' == Apply(w, g, s, e)
  }

  /** A history: the events and all the states they pass through. */
  ghost predicate History(w: World, g: Graph, states: seq<State>, events: seq<Event>) {
    && |states| == |events| + 1
    && forall i, j :: 0 <= i < j < |states| && j == i + 1 ==> Next(w, g, states[i], events[i], states[j])
  }
}
