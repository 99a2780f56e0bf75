/** Retry budget: how many attempts a step can have and how long it can wait. */
module Budget {
  import opened Definitions
  import opened RunState
  import opened Ladder

  ghost predicate AttemptsOk(g: Graph, tasks: Tasks, retryCalls: nat) {
    forall id :: id in tasks ==> id.attempt <= 1 + Retries(g, id.step) + retryCalls
  }

  /** Only the automatic retries of the attempts 1..retries were delayed. */
  ghost predicate BackoffsOk(g: Graph, backoffs: map<TaskId, nat>) {
    forall id :: id in backoffs ==>
      && 2 <= id.attempt <= Retries(g, id.step) + 1
      && backoffs[id] == Pow2(id.attempt - 1)
  }

  ghost predicate BudgetOk(g: Graph, s: State) {
    AttemptsOk(g, s.tasks, s.retryCalls) && BackoffsOk(g, s.backoffs)
  }

  lemma EndBudget(g: Graph, s: State, id: TaskId, row: Row, retries: int)
    requires BudgetOk(g, s) && id in s.tasks && id.attempt >= 1
    requires retries <= Retries(g, id.step)
    ensures BudgetOk(g, EndTx(s, id, row, retries))
  {
    hide Pow2;
  }

  lemma EndingBudget(g: Graph, s: State, e: Event)
    requires Runnable(g) && RowsOk(g, s.tasks) && BudgetOk(g, s) && Enabled(s, e) && Ending(e)
    ensures BudgetOk(g, ApplyEnding(g, s, e))
  {
    hide ApplyEnding, EndTx, AttemptsOk, BackoffsOk, AttemptLadder, Grounded, Ranked;
    ShapeOfEnding(g, s, e);
    if Wins(s, e) {
      assert e.id.attempt >= 1 by {
        RowsStartAtOne(g, s.tasks);
      }
      EndBudget(g, Leaving(s, e), e.id, FinalRow(s, e), RetriesSeen(g, e));
    }
  }

  lemma RowsStartAtOne(g: Graph, tasks: Tasks)
    requires RowsOk(g, tasks)
    ensures forall id :: id in tasks ==> id.attempt >= 1
  {
  }

  lemma InsertBudget(g: Graph, t: Tasks, rows: Tasks, calls: nat, calls': nat)
    requires AttemptsOk(g, t, calls) && calls <= calls'
    requires forall id :: id in rows ==> id.attempt <= 1 + Retries(g, id.step) + calls'
    ensures AttemptsOk(g, t + rows, calls')
  {
  }

  lemma AdvanceBudget(w: World, g: Graph, s: State)
    requires Runnable(g) && BudgetOk(g, s)
    ensures BudgetOk(g, AdvanceTx(w, g, s))
  {
    hide AnyDead, AllSettled, FirstRows, Ready, FirstStatus, QueuedIn, GuardResolved, AttemptsOk, BackoffsOk, Ranked;
    var rows := FirstRows(w, g, s.tasks);
    forall id | id in rows
      ensures id.attempt <= 1 + Retries(g, id.step) + s.retryCalls
    {
      FirstRowsNew(w, g, s.tasks, id);
    }
    InsertBudget(g, s.tasks, rows, s.retryCalls, s.retryCalls);
  }

  lemma RetryBudget(g: Graph, s: State)
    requires BudgetOk(g, s)
    ensures BudgetOk(g, RetryTx(s))
  {
    hide BackoffsOk;
    if s.run == RunFailed || s.run == RunCanceled {
      var rows := map id | id in RedoIds(s.tasks) :: Row(Queued, None);
      forall id | id in rows
        ensures id.attempt <= 1 + Retries(g, id.step) + s.retryCalls + 1
      {
        var prev :| prev in s.tasks && id == NextAttempt(prev);
      }
      InsertBudget(g, s.tasks, rows, s.retryCalls, s.retryCalls + 1);
    }
  }

  /** Rows may change as long as none is added. */
  ghost predicate NoNewRows(s: State, s': State) {
    && (forall id :: id in s'.tasks ==> id in s.tasks)
    && s'.backoffs == s.backoffs
    && s'.retryCalls == s.retryCalls
  }

  lemma NoNewRowsBudget(g: Graph, s: State, s': State)
    requires BudgetOk(g, s) && NoNewRows(s, s')
    ensures BudgetOk(g, s')
  {
    hide Pow2;
  }

  lemma StartingAddsNoRows(g: Graph, s: State, e: Event)
    requires Starting(e)
    ensures NoNewRows(s, ApplyStarting(g, s, e))
  {
    hide BuildContext;
    match e
    case Load(_) =>
    case Prepare(_) =>
    case Claim(_, _) =>
  }

  lemma ParkingAddsNoRows(s: State, e: Event)
    requires Enabled(s, e) && Parking(e)
    ensures NoNewRows(s, ApplyParking(s, e))
  {
    match e
    case Suspend(_, _, _, _, _) =>
    case TimerPickup(_, _) =>
    case TimerStale(_) =>
    case CallbackPickup(_, _) =>
    case Resume(_, _, _) =>
  }

  lemma FaultAddsNoRows(s: State, e: Event)
    requires Fault(e)
    ensures NoNewRows(s, ApplyFault(s, e))
  {
    match e
    case WorkerDies(_, _) =>
    case ResumerDies(_, _, _) =>
    case LoadedLost(_) =>
    case PreparedLost(_, _) =>
    case ReplayAdvance =>
    case ReplayExecute(_) =>
    case ReplayResume(_) =>
  }

  lemma CancelAddsNoRows(s: State)
    ensures NoNewRows(s, CancelTx(s))
  {
  }

  lemma BudgetKept(w: World, g: Graph, s: State, e: Event)
    requires Runnable(g) && RowsOk(g, s.tasks) && BudgetOk(g, s) && Enabled(s, e)
    ensures BudgetOk(g, Apply(w, g, s, e))
  {
    hide Runnable, RowsOk, AttemptsOk, BackoffsOk, NoNewRows, AdvanceTx, CancelTx, RetryTx,
      ApplyStarting, ApplyEnding, ApplyParking, ApplyFault;
    if Ending(e) {
      EndingBudget(g, s, e);
    } else if e.Advance? {
      AdvanceBudget(w, g, s.(advances := s.advances - 1));
    } else if e.RetryRun? {
      RetryBudget(g, s);
    } else {
      if Starting(e) {
        StartingAddsNoRows(g, s, e);
      } else if Parking(e) {
        ParkingAddsNoRows(s, e);
      } else if Fault(e) {
        FaultAddsNoRows(s, e);
      } else {
        CancelAddsNoRows(s);
      }
      NoNewRowsBudget(g, s, Apply(w, g, s, e));
    }
  }

  // ----- what the budget comes to -----

  const NANOS_PER_SECOND := 1_000_000_000
  const INT64_LIMIT := 0x8000_0000_0000_0000

  lemma {:induction false} Pow2Grows(a: nat, b: nat)
    requires a <= b
    ensures Pow2(a) <= Pow2(b)
    decreases b
  {
    if a < b {
      Pow2Grows(a, b - 1);
    }
  }

  lemma Pow2Ten()
    ensures Pow2(10) == 1024 && Pow2(11) == 2048
  {
    assert Pow2(4) == 16;
    assert Pow2(8) == 256;
  }

  /** Seconds spent waiting before the attempts 1..n of a step. */
  function TotalBackoff(backoffs: map<TaskId, nat>, k: string, n: nat): nat {
    if n == 0 then 0
    else TotalBackoff(backoffs, k, n - 1) + if TaskId(k, n) in backoffs then backoffs[TaskId(k, n)] else 0
  }

  lemma {:induction false} TotalBackoffBound(g: Graph, backoffs: map<TaskId, nat>, k: string, n: nat)
    requires BackoffsOk(g, backoffs) && Retries(g, k) >= 0
    ensures n == 0 ==> TotalBackoff(backoffs, k, n) == 0
    ensures 1 <= n <= Retries(g, k) + 1 ==> TotalBackoff(backoffs, k, n) <= Pow2(n) - 2
    ensures n >= Retries(g, k) + 1 ==> TotalBackoff(backoffs, k, n) <= Pow2(Retries(g, k) + 1) - 2
  {
    if n > 0 {
      TotalBackoffBound(g, backoffs, k, n - 1);
    }
  }

  /** One backoff is at most 1024s, a step's backoffs together at most 2046s, and
      the nanosecond product fits 64 bits. */
  lemma BackoffLimits(g: Graph, s: State, k: string, n: nat)
    requires Runnable(g) && BudgetOk(g, s) && k in g
    ensures forall id :: id in s.backoffs && id.step == k ==> s.backoffs[id] <= 1024
    ensures TotalBackoff(s.backoffs, k, n) <= 2046
    ensures forall id :: id in s.backoffs && id.step == k ==> s.backoffs[id] * NANOS_PER_SECOND < INT64_LIMIT
  {
    Pow2Ten();
    forall id | id in s.backoffs && id.step == k
      ensures s.backoffs[id] <= 1024
    {
      Pow2Grows(id.attempt - 1, 10);
    }
    TotalBackoffBound(g, s.backoffs, k, n);
    Pow2Grows(Retries(g, k) + 1, 11);
    if 1 <= n <= Retries(g, k) + 1 {
      Pow2Grows(n, 11);
    }
  }
}
