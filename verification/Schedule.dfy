/**
 The cron sweep: which activation a sweep fires, which activations a series of
 sweeps can miss, and why every one of them starts exactly one run.  Instants
 are nanoseconds; activations lie on whole seconds.
 */
module Schedule {
  import opened Definitions
  import opened Starts

  const SECOND := 1_000_000_000
  const MINUTE := 60 * SECOND
  const SCHEDULER_INTERVAL := 30 * SECOND
  const LOOKBACK := 90 * SECOND

  /** A parsed schedule: the first activation strictly after an instant. */
  type Next = int -> Option<int>

  ghost predicate Activation(next: Next, a: int) {
    next(a - 1) == Some(a)
  }

  /** What a schedule with fixed activations promises of `Next`. */
  ghost predicate Fixed(next: Next) {
    && (forall t :: next(t).Some? ==> t < next(t).value && next(t).value % SECOND == 0)
    && (forall t, u :: next(t).Some? && t <= u < next(t).value ==> next(u) == next(t))
    && (forall t, u :: next(t).None? && t <= u ==> next(u).None?)
  }

  /** Five-field expressions name minutes, so activations are a minute apart. */
  ghost predicate ByMinute(next: Next) {
    Fixed(next) && forall t :: next(t).Some? && next(next(t).value).Some? ==>
      next(next(t).value).value - next(t).value >= MINUTE
  }

  lemma NextIsActivation(next: Next, t: int)
    requires Fixed(next) && next(t).Some?
    ensures Activation(next, next(t).value)
  {
  }

  /** Nothing is active strictly between `t` and the next activation. */
  lemma NextIsFirst(next: Next, t: int, b: int)
    requires Fixed(next) && Activation(next, b) && t < b
    ensures next(t).Some? && next(t).value <= b
  {
  }

  /** `a` is the greatest activation in the window (now - lookback, now]. */
  ghost predicate IsLatest(next: Next, now: int, lookback: int, a: int) {
    && Activation(next, a) && now - lookback < a <= now
    && forall b :: Activation(next, b) && now - lookback < b <= now ==> b <= a
  }

  /** All a schedule of any kind promises: activations lie strictly ahead. */
  ghost predicate Advances(next: Next) {
    forall t :: next(t).Some? ==> t < next(t).value
  }

  /** The last activation up to `now` on the way from one `Next` to the next one. */
  ghost function Walk(next: Next, t: int, now: int): (r: Option<int>)
    requires Advances(next)
    ensures r.Some? ==> t < r.value <= now && (next(r.value).Some? ==> next(r.value).value > now)
    ensures r.None? ==> next(t).Some? ==> next(t).value > now
    decreases now - t
  {
    if next(t).None? || next(t).value > now then None
    else if Walk(next, next(t).value, now).None? then next(t)
    else Walk(next, next(t).value, now)
  }

  /** For fixed activations the walk ends at the greatest one of the window. */
  lemma {:induction false} WalkIsLatest(next: Next, t: int, now: int)
    requires Fixed(next)
    ensures Walk(next, t, now).Some? ==> IsLatest(next, now, now - t, Walk(next, t, now).value)
    ensures Walk(next, t, now).None? ==> forall b :: t < b <= now ==> !Activation(next, b)
    decreases now - t
  {
    forall b | Activation(next, b) && t < b
      ensures next(t).Some? && next(t).value <= b
    {
      NextIsFirst(next, t, b);
    }
    if next(t).Some? && next(t).value <= now {
      NextIsActivation(next, t);
      WalkIsLatest(next, next(t).value, now);
    }
  }

  lemma WalkIffLatest(next: Next, now: int, lookback: int, a: int)
    requires Fixed(next)
    ensures Walk(next, now - lookback, now) == Some(a) <==> IsLatest(next, now, lookback, a)
  {
    WalkIsLatest(next, now - lookback, now);
  }

  lemma WalkStep(next: Next, t: int, now: int)
    requires Advances(next)
    ensures next(t).Some? ==> t < next(t).value
    ensures Walk(next, t, now) ==
            if next(t).None? || next(t).value > now then None
            else if Walk(next, next(t).value, now).None? then next(t)
            else Walk(next, next(t).value, now)
  {
  }

  /** On any schedule the last activation of the walk; on a fixed one the greatest
      activation in (now - lookback, now]. */
  method LatestOccurrence(next: Next, now: int, lookback: int) returns (r: Option<int>)
    requires Advances(next)
    ensures r == Walk(next, now - lookback, now)
    ensures Fixed(next) && r.Some? ==> IsLatest(next, now, lookback, r.value)
    ensures Fixed(next) && r.None? ==> forall b :: now - lookback < b <= now ==> !Activation(next, b)
  {
    if Fixed(next) {
      WalkIsLatest(next, now - lookback, now);
    }
    hide Fixed, IsLatest, Walk, Advances, Activation;
    var t := now - lookback;
    var occ, found := 0, false;
    while true
      invariant found ==> t == occ && occ <= now
      invariant Walk(next, now - lookback, now) ==
                if Walk(next, t, now).Some? then Walk(next, t, now) else if found then Some(occ) else None
      decreases now - t
    {
      var n := next(t);
      WalkStep(next, t, now);
      if n.None? || n.value > now {
        break;
      }
      occ, found, t := n.value, true, n.value;
    }
    return if found then Some(occ) else None;
  }

  /** Exactly when a sweep at `t` fires the activation `a`. */
  lemma FiresIff(next: Next, t: int, lookback: int, a: int)
    requires Fixed(next) && Activation(next, a)
    ensures IsLatest(next, t, lookback, a) <==>
            a <= t < a + lookback && (next(a).Some? ==> t < next(a).value)
  {
    if next(a).Some? {
      NextIsActivation(next, a);
    }
    forall b | Activation(next, b) && b > a
      ensures next(a).Some? && next(a).value <= b
    {
      NextIsFirst(next, a, b);
    }
  }

  // ----- a series of sweeps, over all replicas -----

  ghost predicate GapsAtMost(sweeps: seq<int>, gap: int) {
    forall i, j :: 0 <= i < j < |sweeps| && j == i + 1 ==> sweeps[i] <= sweeps[j] <= sweeps[i] + gap
  }

  /** The first sweep at or after an instant. */
  lemma {:induction false} FirstAtOrAfter(sweeps: seq<int>, a: int, n: nat) returns (i: nat)
    requires n < |sweeps| && sweeps[0] < a <= sweeps[n]
    ensures 0 < i <= n && sweeps[i - 1] < a <= sweeps[i]
  {
    if sweeps[n - 1] < a {
      i := n;
    } else {
      i := FirstAtOrAfter(sweeps, a, n - 1);
    }
  }

  /** With gaps of at most a minute, no activation between the first and the last
      sweep is missed. */
  lemma SweepsCover(next: Next, sweeps: seq<int>, a: int, n: nat) returns (i: nat)
    requires ByMinute(next) && GapsAtMost(sweeps, MINUTE) && Activation(next, a)
    requires n < |sweeps| && sweeps[0] < a <= sweeps[n]
    ensures i <= n && IsLatest(next, sweeps[i], LOOKBACK, a)
  {
    i := FirstAtOrAfter(sweeps, a, n);
    var h := i - 1;
    assert sweeps[i] <= sweeps[h] + MINUTE;
    MinuteAfter(next, a);
    FiresIff(next, sweeps[i], LOOKBACK, a);
  }

  lemma MinuteAfter(next: Next, a: int)
    requires ByMinute(next) && Activation(next, a)
    ensures next(a).Some? ==> next(a).value >= a + MINUTE
  {
    var t := a - 1;
    assert next(t).Some? && next(t).value == a;
  }

  /** With the scheduler's own interval two sweeps in a row fire it, so one of
      them may fail. */
  lemma SweepsCoverTwice(next: Next, sweeps: seq<int>, a: int, n: nat) returns (i: nat)
    requires ByMinute(next) && GapsAtMost(sweeps, SCHEDULER_INTERVAL) && Activation(next, a)
    requires n + 1 < |sweeps| && sweeps[0] < a <= sweeps[n]
    ensures i <= n && IsLatest(next, sweeps[i], LOOKBACK, a) && IsLatest(next, sweeps[i + 1], LOOKBACK, a)
  {
    i := FirstAtOrAfter(sweeps, a, n);
    var h, j := i - 1, i + 1;
    assert sweeps[i] <= sweeps[h] + SCHEDULER_INTERVAL;
    assert sweeps[i] <= sweeps[j] <= sweeps[i] + SCHEDULER_INTERVAL;
    MinuteAfter(next, a);
    FiresIff(next, sweeps[i], LOOKBACK, a);
    FiresIff(next, sweeps[j], LOOKBACK, a);
  }

  /** `* * * * *` */
  function EveryMinute(t: int): Option<int> {
    Some(t - t % MINUTE + MINUTE)
  }

  lemma MinuteFloor(t: int, u: int)
    ensures t - t % MINUTE <= t < t - t % MINUTE + MINUTE
    ensures (t - t % MINUTE + MINUTE) % MINUTE == 0 && (t - t % MINUTE + MINUTE) % SECOND == 0
    ensures t <= u < t - t % MINUTE + MINUTE ==> u - u % MINUTE == t - t % MINUTE
  {
  }

  lemma EveryMinuteFrom(t: int, u: int)
    ensures EveryMinute(t).Some? && t < EveryMinute(t).value && EveryMinute(t).value % SECOND == 0
    ensures EveryMinute(EveryMinute(t).value) == Some(EveryMinute(t).value + MINUTE)
    ensures t <= u < EveryMinute(t).value ==> EveryMinute(u) == EveryMinute(t)
  {
    MinuteFloor(t, u);
  }

  lemma EveryMinuteIsByMinute()
    ensures ByMinute(EveryMinute)
  {
    var next: Next := EveryMinute;
    hide EveryMinute;
    forall t
      ensures next(t).Some? && t < next(t).value && next(t).value % SECOND == 0
    {
      EveryMinuteFrom(t, t);
    }
    forall t, u | next(t).Some? && t <= u < next(t).value
      ensures next(u) == next(t)
    {
      EveryMinuteFrom(t, u);
    }
    assert Fixed(next);
    forall t | next(t).Some? && next(next(t).value).Some?
      ensures next(next(t).value).value - next(t).value >= MINUTE
    {
      EveryMinuteFrom(t, t);
    }
  }

  /** One nanosecond more than a minute between two sweeps already loses an
      activation: the newer one hides it although it is inside the window. */
  lemma WiderGapMisses()
    ensures ByMinute(EveryMinute) && Activation(EveryMinute, 0)
    ensures var sweeps := [-1, MINUTE];
      && GapsAtMost(sweeps, MINUTE + 1) && sweeps[0] < 0 <= sweeps[1]
      && forall i :: 0 <= i < |sweeps| ==> !IsLatest(EveryMinute, sweeps[i], LOOKBACK, 0)
  {
    assert EveryMinute(-1) == Some(0) && EveryMinute(0) == Some(MINUTE);
    EveryMinuteIsByMinute();
    hide EveryMinute;
    FiresIff(EveryMinute, -1, LOOKBACK, 0);
    FiresIff(EveryMinute, MINUTE, LOOKBACK, 0);
  }

  // ----- one run per activation -----

  /** A schedule trigger as a sweep reads it; `next` is absent when the cron
      expression does not parse. */
  datatype Trigger = Trigger(id: Uuid, workspace: Uuid, workflow: Uuid, next: Option<Next>)

  function Unix(a: int): int {
    a / SECOND
  }

  function Fire(st: Trigger, a: int, deployed: bool): Call {
    Call(st.workspace, st.workflow, CronKey(st.id, Unix(a)), deployed)
  }

  ghost predicate HasRun(t: Table, st: Trigger, a: int, id: nat) {
    Matches(t, id, st.workspace, Scoped(st.workflow, CronKey(st.id, Unix(a))))
  }

  /** Sweep `i` fired whatever was due: its call is among the committed ones. */
  ghost predicate Fired(st: Trigger, next: Next, now: int, calls: seq<Call>) {
    forall a :: IsLatest(next, now, LOOKBACK, a) ==> Fire(st, a, true) in calls
  }

  lemma FiredHasRun(t: Table, st: Trigger, a: int, calls: seq<Call>) returns (id: nat)
    requires Valid(t) && Fire(st, a, true) in calls
    ensures HasRun(Committed(t, calls), st, a, id)
  {
    hide After, Scoped;
    var n :| 0 <= n < |calls| && calls[n] == Fire(st, a, true);
    KeyedCallMatches(t, calls, n);
    id := Answer(t, calls, n).id;
    MatchStays(t, calls, n + 1, |calls|, id, st.workspace, Scoped(st.workflow, CronKey(st.id, Unix(a))));
  }

  lemma OneRunPerActivation(t: Table, st: Trigger, a: int, b: int, calls: seq<Call>, i: nat, j: nat)
    requires Valid(t) && a % SECOND == 0 && b % SECOND == 0
    requires HasRun(Committed(t, calls), st, a, i) && HasRun(Committed(t, calls), st, b, j)
    ensures i == j <==> a == b
  {
    hide Committed, CronKey, Scoped;
    if a == b {
      AtMostOneRun(t, calls, st.workspace, st.workflow, CronKey(st.id, Unix(a)), i, j);
    } else if i == j {
      CronKeysInjective(st.workflow, st.id, Unix(a), st.workflow, st.id, Unix(b));
    }
  }

  /** The activation has one run, with one initial job. */
  ghost predicate RunOnce(t: Table, st: Trigger, a: int) {
    exists id :: HasRun(t, st, a, id) && t.jobs[id] == 1 && forall other :: HasRun(t, st, a, other) ==> other == id
  }

  lemma FiredRunsOnce(t: Table, st: Trigger, a: int, calls: seq<Call>)
    requires Valid(t) && Fire(st, a, true) in calls
    ensures RunOnce(Committed(t, calls), st, a)
  {
    hide Committed, Scoped, CronKey;
    var id := FiredHasRun(t, st, a, calls);
    forall other | HasRun(Committed(t, calls), st, a, other)
      ensures other == id && Committed(t, calls).jobs[id] == 1
    {
      AtMostOneRun(t, calls, st.workspace, st.workflow, CronKey(st.id, Unix(a)), other, id);
    }
  }

  /** Exactly once: sweeps at most a minute apart whose fires succeed, among any
      other calls, give every activation they span one run and one initial job. */
  lemma ExactlyOneRun(t: Table, st: Trigger, next: Next, sweeps: seq<int>, calls: seq<Call>, a: int, n: nat)
    requires Valid(t) && ByMinute(next) && GapsAtMost(sweeps, MINUTE) && Activation(next, a)
    requires n < |sweeps| && sweeps[0] < a <= sweeps[n]
    requires forall i :: 0 <= i < |sweeps| ==> Fired(st, next, sweeps[i], calls)
    ensures RunOnce(Committed(t, calls), st, a)
  {
    hide Valid, ByMinute, GapsAtMost, Committed, CronKey, RunOnce;
    var i := SweepsCover(next, sweeps, a, n);
    assert Fired(st, next, sweeps[i], calls);
    FiredRunsOnce(t, st, a, calls);
  }

  /** At the scheduler's interval any number of sweeps may fail, as long as of any
      two in a row one succeeds. */
  lemma ExactlyOneRunDespiteFailures(
      t: Table, st: Trigger, next: Next, sweeps: seq<int>, calls: seq<Call>, a: int, n: nat)
    requires Valid(t) && ByMinute(next) && GapsAtMost(sweeps, SCHEDULER_INTERVAL) && Activation(next, a)
    requires n + 1 < |sweeps| && sweeps[0] < a <= sweeps[n]
    requires forall i, j :: 0 <= i < j < |sweeps| && j == i + 1 ==>
               Fired(st, next, sweeps[i], calls) || Fired(st, next, sweeps[j], calls)
    ensures RunOnce(Committed(t, calls), st, a)
  {
    hide Valid, ByMinute, GapsAtMost, Committed, CronKey, IsLatest, RunOnce;
    var i := SweepsCoverTwice(next, sweeps, a, n);
    var j := i + 1;
    assert Fired(st, next, sweeps[i], calls) || Fired(st, next, sweeps[j], calls);
    FiredRunsOnce(t, st, a, calls);
  }

  // ----- the sweep itself -----

  /** What one trigger adds to a sweep: the call for its due activation, if any. */
  ghost function DueCall(st: Trigger, now: int, deployed: Uuid -> bool): seq<Call> {
    if st.next.Some? && Advances(st.next.value) && Walk(st.next.value, now - LOOKBACK, now).Some?
    then [Fire(st, Walk(st.next.value, now - LOOKBACK, now).value, deployed(st.workflow))]
    else []
  }

  /** Ninety seconds from the activation on, until the next one. */
  ghost predicate DueAt(next: Next, a: int, now: int) {
    && Activation(next, a) && a <= now < a + 90_000_000_000
    && (next(a).Some? ==> now < next(a).value)
  }

  /** The start a schedule trigger asks for: a key made of the trigger and the Unix
      second of the activation. */
  ghost predicate AsksFor(st: Trigger, a: int, deployed: bool, c: Call) {
    && c.workspace == st.workspace && c.workflow == st.workflow && c.deployed == deployed
    && exists second :: second * 1_000_000_000 == a && c.key == CronKey(st.id, second)
  }

  lemma FireAsks(st: Trigger, a: int, b: int, deployed: bool, other: bool)
    requires a % SECOND == 0 && b % SECOND == 0
    ensures AsksFor(st, a, deployed, Fire(st, b, other)) <==> a == b && deployed == other
  {
    hide CronKey;
    assert Unix(a) * 1_000_000_000 == a && Unix(b) * 1_000_000_000 == b;
    if second :| second * 1_000_000_000 == a && CronKey(st.id, second) == CronKey(st.id, Unix(b)) {
      CronKeysInjective(st.workflow, st.id, second, st.workflow, st.id, Unix(b));
    }
  }

  /** A trigger with fixed activations is asked for at most one start, and that is
      for the activation due now. */
  lemma DueIff(st: Trigger, next: Next, now: int, deployed: Uuid -> bool, a: int)
    requires st.next == Some(next) && Fixed(next) && Activation(next, a)
    ensures (exists c :: c in DueCall(st, now, deployed) && AsksFor(st, a, deployed(st.workflow), c))
            <==> DueAt(next, a, now)
  {
    hide AsksFor, CronKey;
    WalkIsLatest(next, now - LOOKBACK, now);
    FiresIff(next, now, LOOKBACK, a);
    assert a % SECOND == 0;
    var w := Walk(next, now - LOOKBACK, now);
    if w.Some? {
      var call := Fire(st, w.value, deployed(st.workflow));
      assert DueCall(st, now, deployed) == [call];
      FireAsks(st, a, w.value, deployed(st.workflow), deployed(st.workflow));
      assert call in DueCall(st, now, deployed);
    }
  }

  /** Every start asked for is that of an activation. */
  lemma DueHasActivation(st: Trigger, next: Next, now: int, deployed: Uuid -> bool, c: Call)
    requires st.next == Some(next) && Fixed(next) && c in DueCall(st, now, deployed)
    ensures exists a :: DueAt(next, a, now) && AsksFor(st, a, deployed(st.workflow), c)
  {
    hide AsksFor, CronKey;
    WalkIsLatest(next, now - LOOKBACK, now);
    var a := Walk(next, now - LOOKBACK, now).value;
    FiresIff(next, now, LOOKBACK, a);
    FireAsks(st, a, a, deployed(st.workflow), deployed(st.workflow));
  }

  /** One call for every due trigger, in their order. */
  ghost function DueCalls(triggers: seq<Trigger>, now: int, deployed: Uuid -> bool): seq<Call> {
    if triggers == [] then []
    else
      var last := |triggers| - 1;
      DueCalls(triggers[..last], now, deployed) + DueCall(triggers[last], now, deployed)
  }

  lemma {:induction false} DueIsCalled(triggers: seq<Trigger>, now: int, deployed: Uuid -> bool, k: nat)
    requires k < |triggers|
    ensures forall c :: c in DueCall(triggers[k], now, deployed) ==> c in DueCalls(triggers, now, deployed)
  {
    hide DueCall;
    var last := |triggers| - 1;
    if k < last {
      DueIsCalled(triggers[..last], now, deployed, k);
    }
  }

  lemma {:induction false} CalledWasDue(triggers: seq<Trigger>, now: int, deployed: Uuid -> bool, c: Call)
    requires c in DueCalls(triggers, now, deployed)
    ensures exists k :: 0 <= k < |triggers| && c in DueCall(triggers[k], now, deployed)
  {
    hide DueCall;
    var last := |triggers| - 1;
    if c in DueCalls(triggers[..last], now, deployed) {
      CalledWasDue(triggers[..last], now, deployed, c);
    } else {
      assert c in DueCall(triggers[last], now, deployed);
    }
  }

  ghost predicate AskedBy(st: Trigger, a: int, now: int, deployed: Uuid -> bool, c: Call) {
    st.next.Some? && DueAt(st.next.value, a, now) && AsksFor(st, a, deployed(st.workflow), c)
  }

  lemma OneAsked(st: Trigger, a: int, deployed: bool, b: Call, c: Call)
    requires AsksFor(st, a, deployed, b) && AsksFor(st, a, deployed, c)
    ensures b == c
  {
  }

  /** The starts a sweep asks for are those of the activations due now, one for every
      trigger that has one, and no others. */
  lemma SweepAsks(triggers: seq<Trigger>, now: int, deployed: Uuid -> bool, c: Call)
    requires forall k :: 0 <= k < |triggers| && triggers[k].next.Some? ==> Fixed(triggers[k].next.value)
    ensures c in DueCalls(triggers, now, deployed) <==>
            exists k, a :: 0 <= k < |triggers| && AskedBy(triggers[k], a, now, deployed, c)
  {
    hide DueAt, AsksFor, DueCalls, Fixed, Walk;
    if c in DueCalls(triggers, now, deployed) {
      CalledWasDue(triggers, now, deployed, c);
      var k :| 0 <= k < |triggers| && c in DueCall(triggers[k], now, deployed);
      DueHasActivation(triggers[k], triggers[k].next.value, now, deployed, c);
      var a :| DueAt(triggers[k].next.value, a, now) && AsksFor(triggers[k], a, deployed(triggers[k].workflow), c);
      assert AskedBy(triggers[k], a, now, deployed, c);
    }
    hide DueCall;
    forall k, a | 0 <= k < |triggers| && AskedBy(triggers[k], a, now, deployed, c)
      ensures c in DueCalls(triggers, now, deployed)
    {
      var st := triggers[k];
      DueIsActive(st.next.value, a, now);
      DueIff(st, st.next.value, now, deployed, a);
      var b :| b in DueCall(st, now, deployed) && AsksFor(st, a, deployed(st.workflow), b);
      OneAsked(st, a, deployed(st.workflow), b, c);
      DueIsCalled(triggers, now, deployed, k);
    }
  }

  lemma DueIsActive(next: Next, a: int, now: int)
    requires DueAt(next, a, now)
    ensures Activation(next, a)
  {
  }

  /** What is due for a trigger with fixed activations is what the theorems ask for. */
  lemma DueIsFired(triggers: seq<Trigger>, now: int, deployed: Uuid -> bool, k: nat)
    requires k < |triggers| && triggers[k].next.Some? && Fixed(triggers[k].next.value) && deployed(triggers[k].workflow)
    ensures Fired(triggers[k], triggers[k].next.value, now, DueCalls(triggers, now, deployed))
  {
    hide CronKey, DueCalls;
    DueIsCalled(triggers, now, deployed, k);
    var st := triggers[k];
    forall a | IsLatest(st.next.value, now, LOOKBACK, a)
      ensures Fire(st, a, true) in DueCalls(triggers, now, deployed)
    {
      WalkIffLatest(st.next.value, now, LOOKBACK, a);
      assert Fire(st, a, true) in DueCall(st, now, deployed);
    }
  }

  lemma CommitNothing(t: Table)
    ensures Committed(t, []) == t
  {
  }

  lemma CommitOne(t: Table, calls: seq<Call>, c: Call)
    ensures Committed(t, calls + [c]) == StartTx(Committed(t, calls), c).0
  {
    hide StartTx;
    CommittedTwice(t, calls, [c]);
    assert [c][0] == c && After(Committed(t, calls), [c], 0) == Committed(t, calls);
  }

  lemma DueStep(triggers: seq<Trigger>, now: int, deployed: Uuid -> bool, k: nat)
    requires k < |triggers|
    ensures var calls := DueCalls(triggers[..k], now, deployed);
      && DueCalls(triggers[..k + 1], now, deployed) == calls + DueCall(triggers[k], now, deployed)
      && calls + [] == calls
  {
    assert triggers[..k + 1][..k] == triggers[..k];
  }

  /** A sweep commits exactly the due calls; a trigger that cannot be parsed or
      started does not stop the others. */
  method SweepSchedules(table: RunTable, triggers: seq<Trigger>, now: int, deployed: Uuid -> bool)
    requires Valid(table.Contents())
    requires forall i :: 0 <= i < |triggers| && triggers[i].next.Some? ==> Advances(triggers[i].next.value)
    modifies table
    ensures Valid(table.Contents())
    ensures table.Contents() == Committed(old(table.Contents()), DueCalls(triggers, now, deployed))
  {
    hide Valid, StartTx, CronKey, Walk, IsLatest, Fixed, Advances, Committed;
    ghost var t := table.Contents();
    CommitNothing(t);
    for k := 0 to |triggers|
      invariant Valid(table.Contents())
      invariant table.Contents() == Committed(t, DueCalls(triggers[..k], now, deployed))
    {
      var st := triggers[k];
      DueStep(triggers, now, deployed, k);
      if st.next.Some? {
        var occ := LatestOccurrence(st.next.value, now, LOOKBACK);
        if occ.Some? {
          var c := Fire(st, occ.value, deployed(st.workflow));
          CommitOne(t, DueCalls(triggers[..k], now, deployed), c);
          var r := table.StartRunOpts(c);
        }
      }
    }
    assert triggers[..|triggers|] == triggers;
  }

  // ----- a series of sweeps -----

  ghost function SeriesCalls(triggers: seq<Trigger>, sweeps: seq<int>, deployed: Uuid -> bool): seq<Call> {
    if sweeps == [] then []
    else
      var last := |sweeps| - 1;
      SeriesCalls(triggers, sweeps[..last], deployed) + DueCalls(triggers, sweeps[last], deployed)
  }

  lemma {:induction false} SweepInSeries(triggers: seq<Trigger>, sweeps: seq<int>, deployed: Uuid -> bool, i: nat)
    requires i < |sweeps|
    ensures forall c :: c in DueCalls(triggers, sweeps[i], deployed) ==> c in SeriesCalls(triggers, sweeps, deployed)
  {
    hide DueCalls;
    var last := |sweeps| - 1;
    if i < last {
      SweepInSeries(triggers, sweeps[..last], deployed, i);
    }
  }

  /** Every trigger with a five-field schedule and a deployed workflow has exactly
      one run for every activation a series of sweeps at most a minute apart spans. */
  lemma SeriesRunsOnce(
      t: Table, triggers: seq<Trigger>, sweeps: seq<int>, deployed: Uuid -> bool, k: nat, a: int, n: nat)
    requires Valid(t) && GapsAtMost(sweeps, MINUTE) && n < |sweeps| && sweeps[0] < a <= sweeps[n] && k < |triggers|
    requires triggers[k].next.Some? && ByMinute(triggers[k].next.value) && deployed(triggers[k].workflow)
    requires Activation(triggers[k].next.value, a)
    ensures RunOnce(Committed(t, SeriesCalls(triggers, sweeps, deployed)), triggers[k], a)
  {
    var st, calls := triggers[k], SeriesCalls(triggers, sweeps, deployed);
    forall i | 0 <= i < |sweeps|
      ensures Fired(st, st.next.value, sweeps[i], calls)
    {
      DueIsFired(triggers, sweeps[i], deployed, k);
      SweepInSeries(triggers, sweeps, deployed, i);
    }
    hide Valid, Committed, RunOnce, Fired, GapsAtMost, ByMinute, Activation;
    ExactlyOneRun(t, st, st.next.value, sweeps, calls, a, n);
  }

  /** The scheduler's ticks: a sweep at each, on one table. */
  method RunScheduler(table: RunTable, triggers: seq<Trigger>, sweeps: seq<int>, deployed: Uuid -> bool)
    requires Valid(table.Contents())
    requires forall i :: 0 <= i < |triggers| && triggers[i].next.Some? ==> Advances(triggers[i].next.value)
    modifies table
    ensures Valid(table.Contents())
    ensures table.Contents() == Committed(old(table.Contents()), SeriesCalls(triggers, sweeps, deployed))
    ensures GapsAtMost(sweeps, MINUTE) ==>
              forall k, a :: 0 <= k < |triggers| && Spanned(triggers[k], sweeps, deployed, a) ==>
                RunOnce(table.Contents(), triggers[k], a)
  {
    hide Valid, Committed, DueCalls, RunOnce, Advances, GapsAtMost;
    ghost var t := table.Contents();
    CommitNothing(t);
    for i := 0 to |sweeps|
      invariant Valid(table.Contents())
      invariant table.Contents() == Committed(t, SeriesCalls(triggers, sweeps[..i], deployed))
    {
      assert sweeps[..i + 1][..i] == sweeps[..i];
      CommittedTwice(t, SeriesCalls(triggers, sweeps[..i], deployed), DueCalls(triggers, sweeps[i], deployed));
      SweepSchedules(table, triggers, sweeps[i], deployed);
    }
    assert sweeps[..|sweeps|] == sweeps;
    if GapsAtMost(sweeps, MINUTE) {
      forall k, a | 0 <= k < |triggers| && Spanned(triggers[k], sweeps, deployed, a)
        ensures RunOnce(table.Contents(), triggers[k], a)
      {
        SeriesRunsOnce(t, triggers, sweeps, deployed, k, a, |sweeps| - 1);
      }
    }
  }

  /** An activation between the first and the last sweep, of a trigger that can run. */
  ghost predicate Spanned(st: Trigger, sweeps: seq<int>, deployed: Uuid -> bool, a: int) {
    && st.next.Some? && ByMinute(st.next.value) && deployed(st.workflow) && Activation(st.next.value, a)
    && sweeps != [] && sweeps[0] < a <= sweeps[|sweeps| - 1]
  }
}
