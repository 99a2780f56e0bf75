/**
 What the transactions read before they write: the latest attempts, the frozen
 context, the outputs shown to callers, the readiness survey and the attempts
 to redo.  The loops visit rows in any order; the results do not depend on it.
 */
module Queries {
  import opened Definitions
  import opened RunState
  import opened Ladder

  // ----- queries over the tasks table -----

  /** `distinct on (step_key) ... order by step_key, attempt desc`: the greatest
      attempt of every step, whatever the order in which rows are visited. */
  method LatestAttempts(tasks: Tasks) returns (top: map<string, nat>)
    ensures forall k :: k in top <==> HasRow(tasks, k)
    ensures forall k :: k in top ==> IsTop(tasks, k, top[k])
  {
    top := map[];
    var todo := tasks.Keys;
    while todo != {}
      invariant todo <= tasks.Keys
      invariant forall k :: k in top ==> TaskId(k, top[k]) in tasks
      invariant forall id :: id in tasks && id !in todo ==> id.step in top && id.attempt <= top[id.step]
      decreases |todo|
    {
      var id :| id in todo;
      todo := todo - {id};
      assert TaskId(id.step, id.attempt) == id;
      if id.step !in top || top[id.step] < id.attempt {
        top := top[id.step := id.attempt];
      }
    }
    forall k
      ensures k in top <==> HasRow(tasks, k)
    {
      if k in top {
        assert TaskId(k, top[k]).step == k;
      }
    }
  }

  method LatestRows(tasks: Tasks) returns (latest: map<string, Row>)
    ensures forall k :: (if k in latest then Some(latest[k]) else None) == Latest(tasks, k)
  {
    hide HasRow, IsTop;
    var top := LatestAttempts(tasks);
    assert forall k :: k in top ==> TaskId(k, top[k]) in tasks by {
      forall k | k in top
        ensures TaskId(k, top[k]) in tasks
      {
        TopIsRow(tasks, k, top[k]);
      }
    }
    latest := map k | k in top :: tasks[TaskId(k, top[k])];
    forall k
      ensures (if k in latest then Some(latest[k]) else None) == Latest(tasks, k)
    {
      if k in top {
        LatestAt(tasks, k, top[k]);
      }
    }
  }

  lemma TopIsRow(tasks: Tasks, k: string, n: nat)
    requires IsTop(tasks, k, n)
    ensures TaskId(k, n) in tasks
  {
  }

  /** The frozen context: latest succeeded outputs of the transitive needs. */
  method BuildRunContext(g: Graph, tasks: Tasks, k: string) returns (ctx: Context)
    ensures ctx == BuildContext(g, tasks, k)
  {
    hide HasRow, Upstream;
    var allowed := TransitiveNeeds(g, k);
    var done := map id | id in tasks && tasks[id].status == Succeeded :: tasks[id];
    assert done == SucceededRows(tasks);
    hide SucceededRows;
    var latest := LatestRows(done);
    ctx := map[];
    var todo := latest.Keys;
    while todo != {}
      invariant todo <= latest.Keys
      invariant forall n :: n in ctx <==> n in latest && n !in todo && n in allowed
      invariant forall n :: n in ctx ==> ctx[n] == latest[n].output
      decreases |todo|
    {
      var n :| n in todo;
      todo := todo - {n};
      if n in allowed {
        ctx := ctx[n := latest[n].output];
      }
    }
    ContextFromLatest(g, tasks, k, latest, ctx);
  }

  lemma ContextFromLatest(g: Graph, tasks: Tasks, k: string, latest: map<string, Row>, ctx: Context)
    requires forall n :: (if n in latest then Some(latest[n]) else None) == Latest(SucceededRows(tasks), n)
    requires forall n :: n in ctx <==> n in latest && n in Upstream(g, k)
    requires forall n :: n in ctx ==> ctx[n] == latest[n].output
    ensures ctx == BuildContext(g, tasks, k)
  {
    hide HasRow, Upstream, SucceededRows;
    var c := BuildContext(g, tasks, k);
    forall n
      ensures n in ctx <==> n in c
      ensures n in ctx ==> ctx[n] == c[n]
    {
      assert n in latest <==> Latest(SucceededRows(tasks), n).Some?;
    }
  }

  /** The order of the rows does not matter to the outputs the API shows. */
  method StepOutputs(rows: seq<TaskId>, tasks: Tasks) returns (out: map<string, string>)
    requires AttemptLadder(tasks)
    requires forall id :: id in tasks <==> id in rows
    ensures forall k :: k in out <==> HasOutput(Latest(SucceededRows(tasks), k))
    ensures forall k :: k in out ==> OutputOf(Latest(SucceededRows(tasks), k)) == Some(out[k])
    ensures forall id, v :: id in tasks && tasks[id] == Row(Succeeded, Some(v)) && v != "" ==>
              id.step in out && out[id.step] == v
    ensures forall k :: k in out ==>
              out[k] != "" && exists id :: id in tasks && id.step == k && tasks[id] == Row(Succeeded, Some(out[k]))
  {
    out := map[];
    for i := 0 to |rows|
      invariant forall k :: k in out ==> SomeOutput(tasks, k, out[k])
      invariant forall j :: 0 <= j < i && Shown(tasks[rows[j]]) ==> rows[j].step in out
    {
      var t := tasks[rows[i]];
      if t.status == Succeeded && t.output.Some? && |t.output.value| > 0 {
        out := out[rows[i].step := t.output.value];
        assert SomeOutput(tasks, rows[i].step, t.output.value);
      }
    }
    forall id | id in tasks && Shown(tasks[id])
      ensures id.step in out
    {
      var j :| 0 <= j < |rows| && rows[j] == id;
    }
    forall k
      ensures k in out <==> HasOutput(Latest(SucceededRows(tasks), k))
      ensures k in out ==> OutputOf(Latest(SucceededRows(tasks), k)) == Some(out[k])
    {
      if k in out {
        var id :| id in tasks && id.step == k && Shown(tasks[id]) && tasks[id].output.value == out[k];
        SettledEntry(tasks, id);
        assert tasks[id] == Row(Succeeded, Some(out[k]));
      } else if HasOutput(Latest(SucceededRows(tasks), k)) {
        var id := TaskId(k, Top(SucceededRows(tasks), k));
        assert id.step == k && Shown(tasks[id]);
      }
    }
    forall id | id in tasks && Shown(tasks[id])
      ensures out[id.step] == tasks[id].output.value
    {
      SettledEntry(tasks, id);
    }
  }

  predicate Shown(r: Row) {
    r.status == Succeeded && r.output.Some? && |r.output.value| > 0
  }

  function OutputOf(r: Option<Row>): Option<string> {
    if r.Some? then r.value.output else None
  }

  predicate HasOutput(r: Option<Row>) {
    OutputOf(r).Some? && |OutputOf(r).value| > 0
  }

  ghost predicate SomeOutput(tasks: Tasks, k: string, output: string) {
    exists id :: id in tasks && id.step == k && Shown(tasks[id]) && tasks[id].output.value == output
  }

  // ----- the readiness loop -----

  ghost predicate DeadBelow(d: Definition, tasks: Tasks, i: nat)
    requires i <= |d.steps|
  {
    exists j :: 0 <= j < i && LatestDead(tasks, d.steps[j].key)
  }

  ghost predicate SettledBelow(d: Definition, tasks: Tasks, i: nat)
    requires i <= |d.steps|
  {
    forall j :: 0 <= j < i ==> LatestSettled(tasks, d.steps[j].key)
  }

  /** All needs settled, as the inner loop finds it. */
  method DepsOk(needs: seq<string>, latest: map<string, Row>, tasks: Tasks) returns (ok: bool)
    requires forall k :: (if k in latest then Some(latest[k]) else None) == Latest(tasks, k)
    ensures ok <==> forall n :: n in needs ==> LatestSettled(tasks, n)
  {
    hide Latest;
    for i := 0 to |needs|
      invariant forall j :: 0 <= j < i ==> LatestSettled(tasks, needs[j])
    {
      if !(needs[i] in latest && Settled(latest[needs[i]].status)) {
        assert Latest(tasks, needs[i]) == if needs[i] in latest then Some(latest[needs[i]]) else None;
        assert needs[i] in needs && !LatestSettled(tasks, needs[i]);
        return false;
      }
      assert Latest(tasks, needs[i]) == Some(latest[needs[i]]);
    }
    return true;
  }

  /** The ready steps among the first `i`, in definition order. */
  ghost function ReadyPrefix(d: Definition, g: Graph, tasks: Tasks, i: nat): seq<string>
    requires i <= |d.steps|
  {
    if i == 0 then []
    else
      var key := d.steps[i - 1].key;
      ReadyPrefix(d, g, tasks, i - 1) + if Ready(g, tasks, key) then [key] else []
  }

  lemma BelowStep(d: Definition, tasks: Tasks, i: nat)
    requires i < |d.steps|
    ensures DeadBelow(d, tasks, i + 1) <==> DeadBelow(d, tasks, i) || LatestDead(tasks, d.steps[i].key)
    ensures SettledBelow(d, tasks, i + 1) <==> SettledBelow(d, tasks, i) && LatestSettled(tasks, d.steps[i].key)
  {
    hide LatestDead, LatestSettled;
  }

  lemma {:induction false} ReadyPrefixDistinct(d: Definition, g: Graph, tasks: Tasks, i: nat)
    requires UniqueKeys(d) && i <= |d.steps|
    ensures var ready := ReadyPrefix(d, g, tasks, i);
      && (forall k :: k in ready <==> Ready(g, tasks, k) && exists j :: 0 <= j < i && d.steps[j].key == k)
      && (forall a, b :: 0 <= a < b < |ready| ==> ready[a] != ready[b])
  {
    hide Ready;
    if i > 0 {
      ReadyPrefixDistinct(d, g, tasks, i - 1);
    }
  }

  method Survey(d: Definition, tasks: Tasks) returns (anyFailed: bool, allSucceeded: bool, ready: seq<string>)
    requires UniqueKeys(d)
    ensures anyFailed <==> AnyDead(GraphOf(d), tasks)
    ensures allSucceeded <==> AllSettled(GraphOf(d), tasks)
    ensures !anyFailed ==> forall k :: k in ready <==> Ready(GraphOf(d), tasks, k)
    ensures !anyFailed ==> forall i, j :: 0 <= i < j < |ready| ==> ready[i] != ready[j]
  {
    ghost var g := GraphOf(d);
    hide GraphOf, Latest, LatestDead, LatestSettled, Ready, DeadBelow, SettledBelow, AnyDead, AllSettled, UniqueKeys;
    var latest := LatestRows(tasks);
    anyFailed, allSucceeded, ready := false, true, [];
    BelowZero(d, tasks);
    for i := 0 to |d.steps|
      invariant anyFailed <==> DeadBelow(d, tasks, i)
      invariant allSucceeded <==> SettledBelow(d, tasks, i)
      invariant !anyFailed ==> ready == ReadyPrefix(d, g, tasks, i)
    {
      var step := d.steps[i];
      GraphAt(d, i);
      StepFacts(g, tasks, latest, step.key);
      BelowStep(d, tasks, i);
      if step.key in latest {
        var st := latest[step.key].status;
        if st == Failed || st == Canceled {
          anyFailed := true;
          allSucceeded := false;
        } else if st == Succeeded || st == Skipped {
        } else {
          allSucceeded := false;
        }
      } else {
        allSucceeded := false;
        var depsOK := DepsOk(step.needs, latest, tasks);
        if depsOK && !anyFailed {
          ready := ready + [step.key];
        }
      }
    }
    SurveyComplete(d, tasks);
    ReadyPrefixDistinct(d, g, tasks, |d.steps|);
  }

  lemma BelowZero(d: Definition, tasks: Tasks)
    ensures !DeadBelow(d, tasks, 0) && SettledBelow(d, tasks, 0)
  {
  }

  /** What one entry of the status map says about a step. */
  lemma StepFacts(g: Graph, tasks: Tasks, latest: map<string, Row>, k: string)
    requires forall n :: (if n in latest then Some(latest[n]) else None) == Latest(tasks, n)
    requires k in g
    ensures k in latest ==>
              && (LatestDead(tasks, k) <==> Dead(latest[k].status))
              && (LatestSettled(tasks, k) <==> Settled(latest[k].status))
              && !Ready(g, tasks, k)
    ensures k !in latest ==>
              && !LatestDead(tasks, k) && !LatestSettled(tasks, k)
              && (Ready(g, tasks, k) <==> forall n :: n in g[k].needs ==> LatestSettled(tasks, n))
  {
    assert Latest(tasks, k) == if k in latest then Some(latest[k]) else None;
  }

  lemma SurveyComplete(d: Definition, tasks: Tasks)
    ensures DeadBelow(d, tasks, |d.steps|) <==> AnyDead(GraphOf(d), tasks)
    ensures SettledBelow(d, tasks, |d.steps|) <==> AllSettled(GraphOf(d), tasks)
    ensures forall k :: Ready(GraphOf(d), tasks, k) ==> exists j :: 0 <= j < |d.steps| && d.steps[j].key == k
  {
    hide LatestDead, LatestSettled;
    var g := GraphOf(d);
    forall k
      ensures k in g <==> exists j :: 0 <= j < |d.steps| && d.steps[j].key == k
    {
      assert k in g <==> k in Keys(d);
    }
    hide GraphOf;
    assert forall j :: 0 <= j < |d.steps| ==> d.steps[j].key in g;
  }

  // ----- the rows a pass and a retry insert -----

  ghost function RequeueTx(s: State, ids: set<TaskId>): State {
    s.(run := RunRunning, tasks := s.tasks + Requeued(ids), executes := s.executes + multiset(ids),
       advances := s.advances + 1, retryCalls := s.retryCalls + 1)
  }

  /** The first rows of the ready steps. */
  ghost predicate RowsFor(w: World, g: Graph, tasks: Tasks, ready: seq<string>, rows: Tasks) {
    && (forall i, j :: 0 <= i < j < |ready| ==> ready[i] != ready[j])
    && (forall k :: k in ready ==> k in g && g[k].key == k && TaskId(k, 1) !in tasks)
    && (forall id :: id in rows <==> id.attempt == 1 && id.step in ready)
    && (forall id :: id in rows && id.step in g ==> rows[id] == Row(FirstStatus(w, g, tasks, id.step), None))
  }

  ghost function Prefix(rows: Tasks, ready: seq<string>, i: nat): Tasks
    requires i <= |ready|
  {
    map id | id in rows && id.step in ready[..i] :: rows[id]
  }

  lemma PrefixEnds(w: World, g: Graph, tasks: Tasks, ready: seq<string>, rows: Tasks)
    requires RowsFor(w, g, tasks, ready, rows)
    ensures Prefix(rows, ready, 0) == map[] && multiset(QueuedIn(map[])) == multiset{} && !GuardResolved(map[])
    ensures Prefix(rows, ready, |ready|) == rows
  {
    hide FirstStatus;
    assert ready[..|ready|] == ready;
    assert QueuedIn(map[]) == {};
  }

  lemma PrefixStep(w: World, g: Graph, tasks: Tasks, ready: seq<string>, rows: Tasks, i: nat)
    requires RowsFor(w, g, tasks, ready, rows) && i < |ready|
    ensures var id := TaskId(ready[i], 1);
      && ready[i] in g && g[ready[i]].key == ready[i] && id !in tasks
      && id !in Prefix(rows, ready, i)
      && Prefix(rows, ready, i + 1) == Prefix(rows, ready, i)[id := Row(FirstStatus(w, g, tasks, ready[i]), None)]
  {
    hide FirstStatus;
    var id := TaskId(ready[i], 1);
    var p, p' := Prefix(rows, ready, i), Prefix(rows, ready, i + 1);
    assert id.step == ready[i] && id.step in ready;
    forall other | other in rows
      ensures other in p' <==> other in p || other == id
    {
      assert other.step in ready[..i + 1] <==> other.step in ready[..i] || other.step == ready[i];
    }
    assert p'.Keys == p.Keys + {id};
  }

  lemma OneMoreRow(tasks: Tasks, jobs: multiset<TaskId>, rows: Tasks, id: TaskId, row: Row)
    requires id !in rows
    ensures (tasks + rows)[id := row] == tasks + rows[id := row]
    ensures var jobs' := jobs + multiset(QueuedIn(rows));
            jobs + multiset(QueuedIn(rows[id := row])) == if row.status == Queued then jobs' + multiset{id} else jobs'
    ensures GuardResolved(rows[id := row]) <==> GuardResolved(rows) || row.status != Queued
  {
    var rows' := rows[id := row];
    assert QueuedIn(rows') == QueuedIn(rows) + if row.status == Queued then {id} else {};
    if GuardResolved(rows) {
      var other :| other in rows && rows[other].status != Queued;
      assert rows'[other].status != Queued;
    }
    if row.status != Queued {
      assert rows'[id].status != Queued;
    }
  }

  lemma ReadyRows(w: World, g: Graph, tasks: Tasks, ready: seq<string>)
    requires forall k :: k in ready <==> Ready(g, tasks, k)
    requires forall i, j :: 0 <= i < j < |ready| ==> ready[i] != ready[j]
    requires forall k :: k in g ==> g[k].key == k
    ensures RowsFor(w, g, tasks, ready, FirstRows(w, g, tasks))
  {
    hide FirstStatus, LatestSettled;
    forall k | k in ready
      ensures TaskId(k, 1) !in tasks
    {
      assert TaskId(k, 1).step == k;
    }
    forall id: TaskId
      ensures id in FirstRows(w, g, tasks) <==> id.attempt == 1 && id.step in ready
    {
      assert id == TaskId(id.step, id.attempt);
    }
  }

  /** A latest attempt that is failed or canceled. */
  ghost predicate DeadTop(tasks: Tasks, id: TaskId) {
    id in tasks && IsTop(tasks, id.step, id.attempt) && Dead(tasks[id].status)
  }

  /** The attempts to redo: every latest one that is failed or canceled. */
  method CollectRedos(tasks: Tasks) returns (redos: seq<TaskId>)
    ensures forall id :: id in redos <==> DeadTop(tasks, id)
    ensures forall i, j :: 0 <= i < j < |redos| ==> redos[i] != redos[j]
  {
    var top := LatestAttempts(tasks);
    forall id | DeadTop(tasks, id)
      ensures id.step in top && id == TaskId(id.step, top[id.step])
    {
    }
    assert forall k :: k in top ==> TaskId(k, top[k]) in tasks;
    assert forall k :: k in top ==> (DeadTop(tasks, TaskId(k, top[k])) <==> Dead(tasks[TaskId(k, top[k])].status));
    hide DeadTop, HasRow, IsTop;
    redos := [];
    var todo := top.Keys;
    while todo != {}
      invariant todo <= top.Keys
      invariant forall id :: id in redos <==> id.step !in todo && DeadTop(tasks, id)
      invariant forall i, j :: 0 <= i < j < |redos| ==> redos[i] != redos[j]
      decreases |todo|
    {
      var k :| k in todo;
      var id := TaskId(k, top[k]);
      assert id !in redos;
      if tasks[id].status == Failed || tasks[id].status == Canceled {
        redos := redos + [id];
      }
      todo := todo - {k};
    }
  }

  ghost function RequeuedIds(redos: seq<TaskId>, n: nat): set<TaskId>
    requires n <= |redos|
  {
    set i | 0 <= i < n :: NextAttempt(redos[i])
  }

  ghost function Requeued(ids: set<TaskId>): Tasks {
    map id | id in ids :: Row(Queued, None)
  }

  lemma RequeuedNone(redos: seq<TaskId>)
    ensures RequeuedIds(redos, 0) == {} && Requeued({}) == map[]
  {
  }

  lemma RequeuedOneMore(redos: seq<TaskId>, i: nat)
    requires i < |redos| && forall a, b :: 0 <= a < b < |redos| ==> redos[a] != redos[b]
    ensures NextAttempt(redos[i]) !in RequeuedIds(redos, i)
    ensures RequeuedIds(redos, i + 1) == RequeuedIds(redos, i) + {NextAttempt(redos[i])}
  {
    forall j | 0 <= j < i
      ensures NextAttempt(redos[j]) != NextAttempt(redos[i])
    {
      assert redos[j] != redos[i];
    }
  }

  lemma OneMoreRequeued(tasks: Tasks, jobs: multiset<TaskId>, ids: set<TaskId>, next: TaskId)
    requires next !in ids
    ensures tasks + Requeued(ids + {next}) == (tasks + Requeued(ids))[next := Row(Queued, None)]
    ensures jobs + multiset(ids + {next}) == jobs + multiset(ids) + multiset{next}
  {
  }

  lemma RetryRequeues(s: State, redos: seq<TaskId>)
    requires s.run == RunFailed || s.run == RunCanceled
    requires forall id :: id in redos <==> DeadTop(s.tasks, id)
    ensures RetryTx(s) == RequeueTx(s, RequeuedIds(redos, |redos|))
  {
    RequeuedIsRedo(s.tasks, redos);
    hide RedoIds, RequeuedIds, DeadTop;
  }

  lemma RequeuedIsRedo(tasks: Tasks, redos: seq<TaskId>)
    requires forall id :: id in redos <==> DeadTop(tasks, id)
    ensures RequeuedIds(redos, |redos|) == RedoIds(tasks)
  {
    hide IsTop;
    var ids := RequeuedIds(redos, |redos|);
    forall id | id in ids
      ensures id in RedoIds(tasks)
    {
      var i :| 0 <= i < |redos| && id == NextAttempt(redos[i]);
      assert redos[i] in redos;
    }
    forall id | id in RedoIds(tasks)
      ensures id in ids
    {
      var prev :|
        prev in tasks && IsTop(tasks, prev.step, prev.attempt) && Dead(tasks[prev].status) && id == NextAttempt(prev);
      assert DeadTop(tasks, prev);
      var i :| 0 <= i < |redos| && redos[i] == prev;
      assert NextAttempt(redos[i]) in ids;
    }
  }
}
