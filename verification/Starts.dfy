/**
 Starting runs: the `runs` table, its unique index on (workspace, idempotency
 key), and the keys callers, webhooks and the scheduler put into it.
 */
module Starts {
  import opened Definitions

  /** A canonical UUID: 36 characters of hex digits and dashes, never a colon. */
  predicate IsUuid(s: string) {
    |s| == 36 && ':' !in s
  }

  const NIL_UUID := "00000000-0000-0000-0000-000000000000"

  type Uuid = s: string | IsUuid(s) witness NIL_UUID

  datatype RunRow = RunRow(workspace: Uuid, workflow: Uuid, key: Option<string>)

  /** The runs by id, the initial advance jobs ever inserted, and the next id. */
  datatype Table = Table(runs: map<nat, RunRow>, jobs: multiset<nat>, next: nat)

  const EMPTY := Table(map[], multiset{}, 0)

  /** One StartRunOpts call; `deployed` is what the version lookup finds. */
  datatype Call = Call(workspace: Uuid, workflow: Uuid, key: string, deployed: bool)

  datatype Started = Created(id: nat) | Existing(id: nat) | NoVersion | KeyTaken

  function Scoped(workflow: Uuid, key: string): string {
    workflow + ":" + key
  }

  predicate Matches(t: Table, id: nat, workspace: Uuid, key: string) {
    id in t.runs && t.runs[id].workspace == workspace && t.runs[id].key == Some(key)
  }

  function Insert(t: Table, row: RunRow): Table {
    Table(t.runs[t.next := row], t.jobs + multiset{t.next}, t.next + 1)
  }

  // ----- what the table keeps -----

  ghost predicate Valid(t: Table) {
    && (forall id :: id in t.runs ==> id < t.next)
    && (forall id :: t.jobs[id] == if id in t.runs then 1 else 0)
    && UniqueIndex(t)
    && (forall id :: id in t.runs && t.runs[id].key.Some? ==> ScopedToItself(t.runs[id]))
  }

  /** unique (workspace_id, idempotency_key), with nulls distinct. */
  ghost predicate UniqueIndex(t: Table) {
    forall i, j, workspace, key :: Matches(t, i, workspace, key) && Matches(t, j, workspace, key) ==> i == j
  }

  ghost predicate ScopedToItself(row: RunRow)
    requires row.key.Some?
  {
    exists key :: row.key.value == Scoped(row.workflow, key)
  }

  /** Fixed-length workflow ids make the scoped key injective. */
  lemma ScopedInjective(w: Uuid, k: string, w': Uuid, k': string)
    requires Scoped(w, k) == Scoped(w', k')
    ensures w == w' && k == k'
  {
    assert Scoped(w, k)[..36] == w && Scoped(w', k')[..36] == w';
    assert Scoped(w, k)[37..] == k && Scoped(w', k')[37..] == k';
  }

  // ----- the transaction -----

  /** The run that holds a key, if any. */
  ghost function Holder(t: Table, workspace: Uuid, key: string): (r: Option<nat>)
    ensures r.Some? ==> Matches(t, r.value, workspace, key)
    ensures r.None? ==> forall id :: !Matches(t, id, workspace, key)
  {
    if exists id :: Matches(t, id, workspace, key) then
      var id :| Matches(t, id, workspace, key);
      Some(id)
    else None
  }

  /** The table after a call, and its answer. */
  ghost function StartTx(t: Table, c: Call): (Table, Started) {
    if !c.deployed then (t, NoVersion)
    else if c.key == "" then (Insert(t, RunRow(c.workspace, c.workflow, None)), Created(t.next))
    else
      match Holder(t, c.workspace, Scoped(c.workflow, c.key))
      case Some(id) => (t, if t.runs[id].workflow == c.workflow then Existing(id) else KeyTaken)
      case None => (Insert(t, RunRow(c.workspace, c.workflow, Some(Scoped(c.workflow, c.key)))), Created(t.next))
  }

  class RunTable {
    var runs: map<nat, RunRow>
    var jobs: multiset<nat>
    var next: nat

    ghost function Contents(): Table
      reads this
    {
      Table(runs, jobs, next)
    }

    constructor ()
      ensures Contents() == EMPTY && Valid(Contents())
    {
      runs, jobs, next := map[], multiset{}, 0;
      new;
      EmptyIsValid();
    }

    method InsertRun(row: RunRow) returns (id: nat)
      modifies this
      ensures id == old(next) && Contents() == Insert(old(Contents()), row)
    {
      id := next;
      runs := runs[id := row];
      jobs := jobs + multiset{id};
      next := next + 1;
    }

    /** The replay path: look the key up among the rows. */
    method FindKey(workspace: Uuid, key: string) returns (found: Option<nat>)
      requires Valid(Contents())
      ensures found == Holder(Contents(), workspace, key)
    {
      var todo := runs.Keys;
      while todo != {}
        invariant todo <= runs.Keys
        invariant forall id :: Matches(Contents(), id, workspace, key) ==> id in todo
        decreases |todo|
      {
        var id :| id in todo;
        todo := todo - {id};
        if runs[id].workspace == workspace && runs[id].key == Some(key) {
          assert Matches(Contents(), id, workspace, key);
          return Some(id);
        }
      }
      return None;
    }

    method StartRunOpts(c: Call) returns (r: Started)
      requires Valid(Contents())
      modifies this
      ensures Contents() == StartTx(old(Contents()), c).0 && r == StartTx(old(Contents()), c).1
      ensures Valid(Contents()) && r != KeyTaken
      // no version: nothing happens
      ensures !c.deployed ==> r == NoVersion && runs == old(runs) && jobs == old(jobs)
      // no key: one new run without a key, and its job
      ensures c.deployed && c.key == "" ==>
                && r.Created? && r.id !in old(runs) && jobs == old(jobs) + multiset{r.id}
                && runs == old(runs)[r.id := RunRow(c.workspace, c.workflow, None)]
      // a key: its run if there is one, or one new run that holds it, and its job
      ensures c.deployed && c.key != "" ==>
                var key := c.workflow + ":" + c.key;
                if exists id :: id in old(runs) && old(runs)[id] == RunRow(c.workspace, c.workflow, Some(key)) then
                  && r.Existing? && r.id in old(runs)
                  && old(runs)[r.id] == RunRow(c.workspace, c.workflow, Some(key))
                  && runs == old(runs) && jobs == old(jobs)
                else
                  && r.Created? && r.id !in old(runs) && jobs == old(jobs) + multiset{r.id}
                  && runs == old(runs)[r.id := RunRow(c.workspace, c.workflow, Some(key))]
    {
      StartKeeps(Contents(), c);
      NextIsFree(Contents());
      HolderIsOwn(Contents(), c);
      hide Valid;
      if !c.deployed {
        return NoVersion;
      }
      if c.key == "" {
        var id := InsertRun(RunRow(c.workspace, c.workflow, None));
        return Created(id);
      }
      var key := Scoped(c.workflow, c.key);
      var found := FindKey(c.workspace, key);
      if found.Some? {
        if runs[found.value].workflow != c.workflow {
          return KeyTaken;
        }
        return Existing(found.value);
      }
      var id := InsertRun(RunRow(c.workspace, c.workflow, Some(key)));
      return Created(id);
    }
  }

  lemma NextIsFree(t: Table)
    requires Valid(t)
    ensures t.next !in t.runs
  {
  }

  /** Whoever holds a call's scoped key is a run of its workflow. */
  lemma HolderIsOwn(t: Table, c: Call)
    requires Valid(t)
    ensures var key := Scoped(c.workflow, c.key); forall id :: Matches(t, id, c.workspace, key) <==>
              id in t.runs && t.runs[id] == RunRow(c.workspace, c.workflow, Some(key))
  {
    var key := Scoped(c.workflow, c.key);
    forall id | Matches(t, id, c.workspace, key)
      ensures t.runs[id].workflow == c.workflow
    {
      var other :| key == Scoped(t.runs[id].workflow, other);
      ScopedInjective(c.workflow, c.key, t.runs[id].workflow, other);
    }
  }

  lemma InsertKeeps(t: Table, row: RunRow)
    requires Valid(t)
    requires row.key.Some? ==> ScopedToItself(row) && forall id :: !Matches(t, id, row.workspace, row.key.value)
    ensures Valid(Insert(t, row))
  {
    var t' := Insert(t, row);
    forall i, j, workspace, key | Matches(t', i, workspace, key) && Matches(t', j, workspace, key)
      ensures i == j
    {
      assert i != t.next ==> Matches(t, i, workspace, key);
      assert j != t.next ==> Matches(t, j, workspace, key);
    }
  }

  /** Every call keeps the table valid, and none finds its key on another workflow. */
  lemma StartKeeps(t: Table, c: Call)
    requires Valid(t)
    ensures Valid(StartTx(t, c).0) && StartTx(t, c).1 != KeyTaken
  {
    hide UniqueIndex, Scoped;
    if c.deployed {
      if c.key == "" {
        InsertKeeps(t, RunRow(c.workspace, c.workflow, None));
      } else {
        var key := Scoped(c.workflow, c.key);
        match Holder(t, c.workspace, key)
        case Some(id) =>
          assert ScopedToItself(t.runs[id]);
          var other :| key == Scoped(t.runs[id].workflow, other);
          ScopedInjective(c.workflow, c.key, t.runs[id].workflow, other);
        case None =>
          var row := RunRow(c.workspace, c.workflow, Some(key));
          assert ScopedToItself(row);
          InsertKeeps(t, row);
      }
    }
  }

  // ----- any sequence of calls -----

  /** The table after the first `n` calls, in the order they commit. */
  ghost function After(t: Table, calls: seq<Call>, n: nat): Table
    requires n <= |calls|
  {
    if n == 0 then t else StartTx(After(t, calls, n - 1), calls[n - 1]).0
  }

  ghost function Committed(t: Table, calls: seq<Call>): Table {
    After(t, calls, |calls|)
  }

  ghost function Answer(t: Table, calls: seq<Call>, n: nat): Started
    requires n < |calls|
  {
    StartTx(After(t, calls, n), calls[n]).1
  }

  lemma EmptyIsValid()
    ensures Valid(EMPTY)
  {
    assert forall id, workspace, key :: !Matches(EMPTY, id, workspace, key);
  }

  lemma {:induction false} AfterIsValid(t: Table, calls: seq<Call>, n: nat)
    requires Valid(t) && n <= |calls|
    ensures Valid(After(t, calls, n))
  {
    if n > 0 {
      AfterIsValid(t, calls, n - 1);
      StartKeeps(After(t, calls, n - 1), calls[n - 1]);
    }
  }

  lemma {:induction false} AfterReads(t: Table, calls: seq<Call>, more: seq<Call>, n: nat)
    requires n <= |calls|
    ensures After(t, calls + more, n) == After(t, calls, n)
  {
    if n > 0 {
      AfterReads(t, calls, more, n - 1);
    }
  }

  lemma {:induction false} AfterGoesOn(t: Table, calls: seq<Call>, more: seq<Call>, n: nat)
    requires n <= |more|
    ensures After(t, calls + more, |calls| + n) == After(Committed(t, calls), more, n)
  {
    if n == 0 {
      AfterReads(t, calls, more, |calls|);
    } else {
      AfterGoesOn(t, calls, more, n - 1);
      assert (calls + more)[|calls| + n - 1] == more[n - 1];
    }
  }

  /** Calls committed one batch after the other. */
  lemma CommittedTwice(t: Table, calls: seq<Call>, more: seq<Call>)
    ensures Committed(t, calls + more) == Committed(Committed(t, calls), more)
  {
    AfterGoesOn(t, calls, more, |more|);
  }

  /** Rows are never changed or removed. */
  lemma {:induction false} MatchStays(t: Table, calls: seq<Call>, n: nat, m: nat, id: nat, workspace: Uuid, key: string)
    requires Valid(t) && n <= m <= |calls| && Matches(After(t, calls, n), id, workspace, key)
    ensures Matches(After(t, calls, m), id, workspace, key)
    decreases m
  {
    if n < m {
      MatchStays(t, calls, n, m - 1, id, workspace, key);
      AfterIsValid(t, calls, m - 1);
    }
  }

  /** A keyed call leaves its run in the table. */
  lemma KeyedCallMatches(t: Table, calls: seq<Call>, n: nat)
    requires Valid(t) && n < |calls| && calls[n].deployed && calls[n].key != ""
    ensures Answer(t, calls, n).Created? || Answer(t, calls, n).Existing?
    ensures var c := calls[n];
            Matches(After(t, calls, n + 1), Answer(t, calls, n).id, c.workspace, Scoped(c.workflow, c.key))
  {
    AfterIsValid(t, calls, n);
    StartKeeps(After(t, calls, n), calls[n]);
  }

  /** Every start without a key gets a run of its own. */
  lemma UnkeyedCallsDiffer(t: Table, calls: seq<Call>, i: nat, j: nat)
    requires Valid(t) && i < j < |calls|
    requires calls[i].deployed && calls[i].key == "" && calls[j].deployed && calls[j].key == ""
    ensures Answer(t, calls, i).Created? && Answer(t, calls, j).Created?
    ensures Answer(t, calls, i).id != Answer(t, calls, j).id
    ensures var row, id := RunRow(calls[i].workspace, calls[i].workflow, None), Answer(t, calls, i).id;
            id in Committed(t, calls).runs && Committed(t, calls).runs[id] == row && Committed(t, calls).jobs[id] == 1
  {
    AfterIsValid(t, calls, i);
    AfterIsValid(t, calls, j);
    AfterIsValid(t, calls, |calls|);
    var id := Answer(t, calls, i).id;
    assert id in After(t, calls, i + 1).runs;
    RowStays(t, calls, i + 1, j, id);
    RowStays(t, calls, i + 1, |calls|, id);
  }

  lemma {:induction false} RowStays(t: Table, calls: seq<Call>, n: nat, m: nat, id: nat)
    requires Valid(t) && n <= m <= |calls| && id in After(t, calls, n).runs
    ensures id in After(t, calls, m).runs && After(t, calls, m).runs[id] == After(t, calls, n).runs[id]
    decreases m
  {
    if n < m {
      RowStays(t, calls, n, m - 1, id);
      AfterIsValid(t, calls, m - 1);
    }
  }

  /** All calls for one (workspace, workflow, key) return one run, and only the
      first of them creates it. */
  lemma CallsShareRun(t: Table, calls: seq<Call>, i: nat, j: nat)
    requires Valid(t) && i < j < |calls| && calls[i].deployed && calls[j].deployed && calls[i].key != ""
    requires calls[i].workspace == calls[j].workspace
    requires calls[i].workflow == calls[j].workflow && calls[i].key == calls[j].key
    ensures Answer(t, calls, i).Created? || Answer(t, calls, i).Existing?
    ensures Answer(t, calls, j) == Existing(Answer(t, calls, i).id)
  {
    hide After;
    var c := calls[i];
    var key := Scoped(c.workflow, c.key);
    KeyedCallMatches(t, calls, i);
    MatchStays(t, calls, i + 1, j, Answer(t, calls, i).id, c.workspace, key);
    AfterIsValid(t, calls, j);
    StartKeeps(After(t, calls, j), calls[j]);
  }

  /** Over any calls, a (workspace, workflow, non-empty key) has at most one run,
      and that run got exactly one initial advance job. */
  lemma AtMostOneRun(t: Table, calls: seq<Call>, workspace: Uuid, workflow: Uuid, key: string, i: nat, j: nat)
    requires Valid(t)
    requires Matches(Committed(t, calls), i, workspace, Scoped(workflow, key))
    requires Matches(Committed(t, calls), j, workspace, Scoped(workflow, key))
    ensures var t' := Committed(t, calls); i == j && t'.runs[i].workflow == workflow && t'.jobs[i] == 1
  {
    hide After, Scoped;
    AfterIsValid(t, calls, |calls|);
    var row := Committed(t, calls).runs[i];
    var other :| row.key.value == Scoped(row.workflow, other);
    ScopedInjective(workflow, key, row.workflow, other);
  }

  // ----- the keys of webhooks and schedules -----

  function HookKey(trigger: Uuid, caller: string): string {
    if caller == "" then "" else "hook:" + trigger + ":" + caller
  }

  function Digit(d: nat): char
    requires d < 10
  {
    ['0', '1', '2', '3', '4', '5', '6', '7', '8', '9'][d]
  }

  function Digits(n: nat): string {
    (if n < 10 then [] else Digits(n / 10)) + [Digit(n % 10)]
  }

  /** %d */
  function Decimal(n: int): string {
    if n < 0 then "-" + Digits(-n) else Digits(n)
  }

  function CronKey(trigger: Uuid, unix: int): string {
    "cron:" + trigger + ":" + Decimal(unix)
  }

  function DigitsValue(s: string): nat {
    if s == "" then 0
    else
      var c := s[|s| - 1];
      10 * DigitsValue(s[..|s| - 1]) + if '0' <= c <= '9' then (c - '0') as nat else 0
  }

  lemma {:induction false} DigitsRoundTrip(n: nat)
    ensures DigitsValue(Digits(n)) == n
    ensures |Digits(n)| > 0 && forall c :: c in Digits(n) ==> '0' <= c <= '9'
  {
    hide DigitsValue, Digit;
    if n < 10 {
      LastDigit("", n);
      assert DigitsValue("") == 0 by {
        NoDigits();
      }
    } else {
      DigitsRoundTrip(n / 10);
      LastDigit(Digits(n / 10), n % 10);
    }
  }

  lemma NoDigits()
    ensures DigitsValue("") == 0
  {
  }

  lemma LastDigit(s: string, d: nat)
    requires d < 10
    ensures DigitsValue(s + [Digit(d)]) == 10 * DigitsValue(s) + d && '0' <= Digit(d) <= '9'
  {
    assert (s + [Digit(d)])[..|s|] == s;
  }

  lemma DecimalInjective(m: int, n: int)
    requires Decimal(m) == Decimal(n)
    ensures m == n
  {
    hide Decimal, DigitsValue;
    DecimalReads(m);
    DecimalReads(n);
  }

  /** Tag, trigger and rest can be read back off either kind of key. */
  lemma KeyParts(tag: string, trigger: Uuid, rest: string)
    requires |tag| == 5
    ensures var key := tag + trigger + ":" + rest;
      key[..5] == tag && key[5..41] == trigger && key[41] == ':' && key[42..] == rest
  {
  }

  /** How the stored keys are laid out. */
  lemma ScopedReads(w: Uuid, key: string)
    ensures Scoped(w, key)[..36] == w && Scoped(w, key)[36] == ':' && Scoped(w, key)[37..] == key
  {
  }

  lemma HookKeyReads(t: Uuid, caller: string)
    ensures HookKey(t, "") == ""
    ensures caller != "" ==>
              var key := HookKey(t, caller);
              |key| >= 42 && key[..5] == "hook:" && key[5..41] == t && key[41] == ':' && key[42..] == caller
  {
    KeyParts("hook:", t, caller);
  }

  lemma CronKeyReads(t: Uuid, n: int)
    ensures var key := CronKey(t, n);
      && |key| > 42 && key[..5] == "cron:" && key[5..41] == t && key[41] == ':'
      && (n >= 0 ==> DigitsValue(key[42..]) == n && (n > 0 ==> key[42] != '0'))
      && (n < 0 ==> key[42] == '-' && DigitsValue(key[43..]) == -n)
      && (forall c :: c in key[42..] ==> c == '-' || '0' <= c <= '9')
  {
    KeyParts("cron:", t, Decimal(n));
    DecimalReads(n);
    var key := CronKey(t, n);
    hide CronKey, Decimal, DigitsValue;
    assert key[42..] == Decimal(n);
    assert |Decimal(n)| > 0 ==> key[42] == key[42..][0];
    assert |Decimal(n)| > 0 ==> key[43..] == key[42..][1..];
  }

  lemma DecimalReads(n: int)
    ensures |Decimal(n)| > 0
    ensures n >= 0 ==> DigitsValue(Decimal(n)) == n && Decimal(n)[0] != '-' && (n > 0 ==> Decimal(n)[0] != '0')
    ensures n < 0 ==> Decimal(n)[0] == '-' && DigitsValue(Decimal(n)[1..]) == -n
    ensures forall c :: c in Decimal(n) ==> c == '-' || '0' <= c <= '9'
  {
    var m := if n < 0 then -n else n;
    DigitsRoundTrip(m);
    NoLeadingZero(m);
    hide Digits, DigitsValue;
    assert Digits(m)[0] in Digits(m);
    assert n < 0 ==> Decimal(n)[1..] == Digits(-n);
  }

  lemma {:induction false} NoLeadingZero(n: nat)
    ensures |Digits(n)| > 0 && (n > 0 ==> Digits(n)[0] != '0')
  {
    if n >= 10 {
      NoLeadingZero(n / 10);
    }
  }

  /** The stored key determines workflow, trigger and caller key. */
  lemma HookKeysInjective(w: Uuid, t: Uuid, k: string, w': Uuid, t': Uuid, k': string)
    requires k != "" && k' != "" && Scoped(w, HookKey(t, k)) == Scoped(w', HookKey(t', k'))
    ensures w == w' && t == t' && k == k'
  {
    ScopedInjective(w, HookKey(t, k), w', HookKey(t', k'));
    KeyParts("hook:", t, k);
    KeyParts("hook:", t', k');
  }

  lemma CronKeysInjective(w: Uuid, t: Uuid, n: int, w': Uuid, t': Uuid, n': int)
    requires Scoped(w, CronKey(t, n)) == Scoped(w', CronKey(t', n'))
    ensures w == w' && t == t' && n == n'
  {
    ScopedInjective(w, CronKey(t, n), w', CronKey(t', n'));
    KeyParts("cron:", t, Decimal(n));
    KeyParts("cron:", t', Decimal(n'));
    DecimalInjective(n, n');
  }

  /** Raw API keys carry no tag: exactly one that spells out a schedule's or a
      webhook's key meets it, on the same workflow. */
  lemma RawKeyMeetsIff(w: Uuid, raw: string, w': Uuid, t: Uuid, n: int, caller: string)
    ensures Scoped(w, raw) == Scoped(w', CronKey(t, n)) <==> w == w' && raw == CronKey(t, n)
    ensures Scoped(w, raw) == Scoped(w', HookKey(t, caller)) <==> w == w' && raw == HookKey(t, caller)
  {
    if Scoped(w, raw) == Scoped(w', CronKey(t, n)) {
      ScopedInjective(w, raw, w', CronKey(t, n));
    }
    if Scoped(w, raw) == Scoped(w', HookKey(t, caller)) {
      ScopedInjective(w, raw, w', HookKey(t, caller));
    }
  }

  lemma HookIsNotCron(w: Uuid, t: Uuid, k: string, w': Uuid, t': Uuid, n: int)
    ensures Scoped(w, HookKey(t, k)) != Scoped(w', CronKey(t', n))
  {
    assert CronKey(t', n)[0] == 'c';
    assert k != "" ==> HookKey(t, k)[0] == 'h';
    if Scoped(w, HookKey(t, k)) == Scoped(w', CronKey(t', n)) {
      ScopedInjective(w, HookKey(t, k), w', CronKey(t', n));
    }
  }
}
