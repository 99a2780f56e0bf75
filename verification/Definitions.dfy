/**
 The workflow definition: steps, the `needs` graph between them, and the graph
 facts the engine relies on.  The two depth-first searches of the source are
 methods over a mutable search object; the paths, ranks and closures they
 compute are specified here independently of how they are searched for.
 */
module Definitions {

  datatype Option<+T> = None | Some(value: T)

  /** A subset has fewer elements, unless it is the whole. */
  lemma {:induction false} FewerElements<T>(a: set<T>, b: set<T>)
    requires a <= b
    ensures |a| <= |b|
    ensures a != b ==> |a| < |b|
  {
    if x :| x in a {
      FewerElements(a - {x}, b - {x});
    } else if y :| y in b {
      assert |b| > 0;
    }
  }

  datatype Step = Step(
    key: string,
    kind: string,
    needs: seq<string>,
    cond: string,
    config: map<string, string>,
    retries: int,
    timeout: int)

  datatype Definition = Definition(name: string, steps: seq<Step>)

  /** Step `i` carries the key and no step before it does. */
  ghost predicate FirstWith(steps: seq<Step>, key: string, i: int) {
    0 <= i < |steps| && steps[i].key == key && forall j :: 0 <= j < i ==> steps[j].key != key
  }

  /** The first step carrying `key`, if any. */
  function StepOf(steps: seq<Step>, key: string): (r: Option<Step>)
    ensures r.Some? ==> r.value in steps && r.value.key == key
    ensures r.None? <==> forall i :: 0 <= i < |steps| ==> steps[i].key != key
  {
    if steps == [] then None
    else if steps[0].key == key then Some(steps[0])
    else StepOf(steps[1..], key)
  }

  lemma {:induction false} StepIsFirst(steps: seq<Step>, key: string)
    ensures StepOf(steps, key).Some? ==> exists i :: FirstWith(steps, key, i) && steps[i] == StepOf(steps, key).value
  {
    if steps != [] && steps[0].key == key {
      assert FirstWith(steps, key, 0);
    } else if StepOf(steps, key).Some? {
      StepIsFirst(steps[1..], key);
      var i :| FirstWith(steps[1..], key, i) && steps[1..][i] == StepOf(steps[1..], key).value;
      FirstBehind(steps, key, i);
    }
  }

  lemma FirstBehind(steps: seq<Step>, key: string, i: int)
    requires steps != [] && steps[0].key != key && FirstWith(steps[1..], key, i)
    ensures FirstWith(steps, key, i + 1) && steps[i + 1] == steps[1..][i]
  {
    forall j | 0 < j <= i
      ensures steps[j].key != key
    {
      assert steps[j] == steps[1..][j - 1];
    }
  }

  method FindStep(d: Definition, key: string) returns (r: Option<Step>)
    ensures r == StepOf(d.steps, key)
    ensures r.None? <==> key !in Keys(d)
    ensures r.Some? ==> exists i :: FirstWith(d.steps, key, i) && d.steps[i] == r.value
  {
    StepIsFirst(d.steps, key);
    for i := 0 to |d.steps|
      invariant StepOf(d.steps, key) == StepOf(d.steps[i..], key)
    {
      if d.steps[i].key == key {
        return Some(d.steps[i]);
      }
    }
    return None;
  }

  function Keys(d: Definition): set<string> {
    set i | 0 <= i < |d.steps| :: d.steps[i].key
  }

  /** What `Definition.Step` answers, as a table: key to the first step with it. */
  type Graph = map<string, Step>

  function GraphOf(d: Definition): (g: Graph)
    ensures g.Keys == Keys(d)
    ensures forall k :: k in g ==> g[k].key == k
    ensures forall k :: (if k in g then Some(g[k]) else None) == StepOf(d.steps, k)
  {
    map k | k in Keys(d) :: StepOf(d.steps, k).value
  }

  /** Direct dependencies; a key that names no step has none. */
  function Needs(g: Graph, key: string): seq<string> {
    if key in g then g[key].needs else []
  }

  /** The retry setting the workers read; 0 when the step is unknown. */
  function Retries(g: Graph, key: string): int {
    if key in g then g[key].retries else 0
  }

  /** Steps by position agree with the table when keys are unique. */
  lemma GraphAt(d: Definition, i: nat)
    requires UniqueKeys(d) && i < |d.steps|
    ensures d.steps[i].key in GraphOf(d) && GraphOf(d)[d.steps[i].key] == d.steps[i]
  {
    StepOfUnique(d.steps, i);
  }

  ghost predicate UniqueKeys(d: Definition) {
    forall i, j :: 0 <= i < j < |d.steps| ==> d.steps[i].key != d.steps[j].key
  }

  lemma {:induction false} StepOfUnique(steps: seq<Step>, i: nat)
    requires i < |steps|
    requires forall a, b :: 0 <= a < b < |steps| ==> steps[a].key != steps[b].key
    ensures StepOf(steps, steps[i].key) == Some(steps[i])
  {
    if i > 0 {
      StepOfUnique(steps[1..], i - 1);
    }
  }

  // ----- paths, cycles and ranks -----

  ghost predicate IsPath(g: Graph, p: seq<string>) {
    && |p| >= 2
    && forall i, j :: 0 <= i < j < |p| && j == i + 1 ==> p[j] in Needs(g, p[i])
  }

  ghost predicate PathFromTo(g: Graph, p: seq<string>, a: string, b: string) {
    IsPath(g, p) && p[0] == a && p[|p| - 1] == b
  }

  /** `b` lies one or more `needs` edges upstream of `a`. */
  ghost predicate Reaches(g: Graph, a: string, b: string) {
    exists p :: PathFromTo(g, p, a, b)
  }

  ghost predicate HasCycle(g: Graph) {
    exists k :: Reaches(g, k, k)
  }

  ghost predicate NeedsClosed(g: Graph) {
    forall k, n :: k in g && n in Needs(g, k) ==> n in g
  }

  /** A rank that drops along every `needs` edge. */
  ghost predicate IsRank(g: Graph, rank: map<string, nat>) {
    && g.Keys <= rank.Keys
    && forall k, n :: k in g && n in Needs(g, k) ==> n in g && rank[n] < rank[k]
  }

  lemma EdgeReaches(g: Graph, a: string, b: string)
    requires b in Needs(g, a)
    ensures Reaches(g, a, b)
  {
    assert PathFromTo(g, [a, b], a, b);
  }

  lemma ReachesTransitive(g: Graph, a: string, b: string, c: string)
    requires Reaches(g, a, b) && Reaches(g, b, c)
    ensures Reaches(g, a, c)
  {
    var p :| PathFromTo(g, p, a, b);
    var q :| PathFromTo(g, q, b, c);
    var r := p + q[1..];
    forall i, j | 0 <= i < j < |r| && j == i + 1
      ensures r[j] in Needs(g, r[i])
    {
      if i >= |p| - 1 {
        assert r[i] == q[i - |p| + 1] && r[j] == q[j - |p| + 1];
      }
    }
    assert PathFromTo(g, r, a, c);
  }

  /** The first edge of a path, and what is left of it. */
  lemma ReachesFirst(g: Graph, a: string, c: string) returns (b: string)
    requires Reaches(g, a, c)
    ensures b in Needs(g, a)
    ensures b == c || Reaches(g, b, c)
  {
    var p :| PathFromTo(g, p, a, c);
    b := p[1];
    if |p| > 2 {
      assert PathFromTo(g, p[1..], b, c);
    }
  }

  lemma {:induction false} RankDropsAlong(g: Graph, rank: map<string, nat>, p: seq<string>)
    requires IsRank(g, rank) && IsPath(g, p) && p[0] in g
    ensures p[|p| - 1] in g && rank[p[|p| - 1]] < rank[p[0]]
    decreases |p|
  {
    assert p[1] in Needs(g, p[0]);
    if |p| > 2 {
      RankDropsAlong(g, rank, p[1..]);
    }
  }

  lemma RankDrops(g: Graph, rank: map<string, nat>, a: string, b: string)
    requires IsRank(g, rank) && a in g && Reaches(g, a, b)
    ensures b in g && rank[b] < rank[a]
  {
    var p :| PathFromTo(g, p, a, b);
    RankDropsAlong(g, rank, p);
  }

  lemma RankedIsAcyclic(g: Graph, rank: map<string, nat>)
    requires IsRank(g, rank)
    ensures !HasCycle(g)
  {
    if k :| Reaches(g, k, k) {
      var n := ReachesFirst(g, k, k);
      assert k in g;
      RankDrops(g, rank, k, k);
    }
  }

  ghost predicate Ranked(g: Graph) {
    exists rank :: IsRank(g, rank)
  }

  lemma RankedHasNoCycle(g: Graph)
    ensures Ranked(g) ==> !HasCycle(g)
  {
    if rank :| IsRank(g, rank) {
      RankedIsAcyclic(g, rank);
    }
  }

  // ----- the transitive `needs` closure -----

  function Mentioned(g: Graph): set<string> {
    set k, j | k in g && 0 <= j < |g[k].needs| :: g[k].needs[j]
  }

  lemma NeedsAreMentioned(g: Graph, a: string, b: string)
    requires b in Needs(g, a)
    ensures b in Mentioned(g)
  {
  }

  /** Every key one or more edges upstream of `key`. */
  ghost function Upstream(g: Graph, key: string): set<string> {
    set n | n in Mentioned(g) && Reaches(g, key, n)
  }

  lemma UpstreamIsReachable(g: Graph, key: string, n: string)
    ensures n in Upstream(g, key) <==> Reaches(g, key, n)
  {
    if Reaches(g, key, n) {
      var p :| PathFromTo(g, p, key, n);
      assert p[|p| - 1] in Needs(g, p[|p| - 2]);
      NeedsAreMentioned(g, p[|p| - 2], n);
    }
  }

  lemma {:induction false} ClosedSetHoldsPath(g: Graph, seen: set<string>, p: seq<string>)
    requires IsPath(g, p)
    requires forall n :: n in Needs(g, p[0]) ==> n in seen
    requires forall m, n :: m in seen && n in Needs(g, m) ==> n in seen
    ensures p[|p| - 1] in seen
    decreases |p|
  {
    assert p[1] in Needs(g, p[0]);
    if |p| > 2 {
      ClosedSetHoldsPath(g, seen, p[1..]);
    }
  }

  lemma ClosedSetHoldsUpstream(g: Graph, seen: set<string>, key: string)
    requires forall n :: n in Needs(g, key) ==> n in seen
    requires forall m, n :: m in seen && n in Needs(g, m) ==> n in seen
    ensures Upstream(g, key) <= seen
  {
    forall n | n in Upstream(g, key)
      ensures n in seen
    {
      var p :| PathFromTo(g, p, key, n);
      ClosedSetHoldsPath(g, seen, p);
    }
  }

  /** The search behind TransitiveNeeds: `seen` only ever grows. */
  class NeedsSearch {
    const g: Graph
    var seen: set<string>

    constructor (g: Graph)
      ensures this.g == g && seen == {}
    {
      this.g := g;
      seen := {};
    }

    method Visit(key: string)
      requires seen <= Mentioned(g)
      modifies this
      ensures old(seen) <= seen <= Mentioned(g)
      ensures forall n :: n in Needs(g, key) ==> n in seen
      ensures forall m, n :: m in seen - old(seen) && n in Needs(g, m) ==> n in seen
      ensures forall n :: n in seen - old(seen) ==> Reaches(g, key, n)
      decreases Mentioned(g) - seen
    {
      if key !in g {
        return;
      }
      var needs := g[key].needs;
      for i := 0 to |needs|
        invariant old(seen) <= seen <= Mentioned(g)
        invariant forall j :: 0 <= j < i ==> needs[j] in seen
        invariant forall m, n :: m in seen - old(seen) && n in Needs(g, m) ==> n in seen
        invariant forall n :: n in seen - old(seen) ==> Reaches(g, key, n)
      {
        var n := needs[i];
        if n !in seen {
          NeedsAreMentioned(g, key, n);
          EdgeReaches(g, key, n);
          ghost var before := seen;
          seen := seen + {n};
          Visit(n);
          forall m | m in seen - before
            ensures Reaches(g, key, m)
          {
            if m != n {
              ReachesTransitive(g, key, n, m);
            }
          }
        }
      }
    }
  }

  method TransitiveNeeds(g: Graph, key: string) returns (r: set<string>)
    ensures r == Upstream(g, key)
  {
    var search := new NeedsSearch(g);
    search.Visit(key);
    r := search.seen;
    ClosedSetHoldsUpstream(g, r, key);
    forall n | n in r
      ensures n in Upstream(g, key)
    {
      UpstreamIsReachable(g, key, n);
    }
  }

  /** A key is in its own closure exactly when a cycle runs through it, so never
      in a definition that validates. */
  lemma UpstreamOfItself(g: Graph, key: string)
    ensures key in Upstream(g, key) <==> Reaches(g, key, key)
    ensures !HasCycle(g) ==> key !in Upstream(g, key)
  {
    UpstreamIsReachable(g, key, key);
  }

  // ----- the three-colour cycle check -----

  datatype Color = Gray | Black

  /** Each key needs the next one. */
  ghost predicate Chain(g: Graph, stack: seq<string>) {
    forall i, j :: 0 <= i < j < |stack| && j == i + 1 ==> stack[j] in Needs(g, stack[i])
  }

  lemma ChainGrows(g: Graph, stack: seq<string>, key: string)
    ensures Chain(g, stack + [key]) <==> Chain(g, stack) && (stack != [] ==> key in Needs(g, stack[|stack| - 1]))
    ensures forall k :: k in stack + [key] <==> k in stack || k == key
  {
    var deeper := stack + [key];
    assert forall i :: 0 <= i < |stack| ==> deeper[i] == stack[i];
    if Chain(g, deeper) && stack != [] {
      var i, j := |stack| - 1, |stack|;
      assert deeper[j] in Needs(g, deeper[i]);
    }
  }

  /** `color` holds visited keys only; an absent key is white.  The ghost `rank`
      numbers black keys in the order they finish. */
  class CycleSearch {
    const g: Graph
    var color: map<string, Color>
    ghost var rank: map<string, nat>
    ghost var clock: nat

    constructor (g: Graph)
      ensures this.g == g && color == map[]
      ensures Valid() && OnStack([])
    {
      this.g := g;
      color := map[];
      rank := map[];
      clock := 0;
    }

    /** Exactly the black keys are ranked, each above all it needs. */
    ghost predicate Valid()
      reads this
    {
      && color.Keys <= g.Keys
      && (forall k :: k in rank <==> k in color && color[k] == Black)
      && (forall k :: k in rank ==> rank[k] < clock)
      && (forall k, n :: k in rank && n in Needs(g, k) ==> n in rank && rank[n] < rank[k])
    }

    ghost predicate OnStack(stack: seq<string>)
      reads this
    {
      && (forall k :: k in stack <==> k in color && color[k] == Gray)
      && Chain(g, stack)
    }

    lemma BackEdgeClosesCycle(stack: seq<string>, key: string)
      requires OnStack(stack) && key in stack
      requires key in Needs(g, stack[|stack| - 1])
      ensures HasCycle(g)
    {
      var j :| 0 <= j < |stack| && stack[j] == key;
      var p := stack[j..] + [key];
      forall a, b | 0 <= a < b < |p| && b == a + 1
        ensures p[b] in Needs(g, p[a])
      {
        assert p[a] == stack[j + a];
        if b < |p| - 1 {
          assert p[b] == stack[j + b];
        }
      }
      assert PathFromTo(g, p, key, key);
      assert Reaches(g, key, key);
    }

    method Visit(key: string, ghost stack: seq<string>) returns (ok: bool)
      requires Valid() && NeedsClosed(g) && key in g
      requires OnStack(stack)
      requires stack != [] ==> key in Needs(g, stack[|stack| - 1])
      modifies this
      ensures Valid()
      ensures old(color).Keys <= color.Keys
      ensures forall k :: k in old(rank) ==> k in rank
      ensures ok ==> OnStack(stack) && key in rank
      ensures !ok ==> HasCycle(g)
      decreases g.Keys - color.Keys, 0
    {
      if key in color {
        if color[key] == Gray {
          assert key in stack;
          BackEdgeClosesCycle(stack, key);
          return false;
        }
        return true;
      }
      assert key in g.Keys - color.Keys;
      Push(key, stack);
      assert key !in g.Keys - color.Keys;
      ok := VisitAll(g[key].needs, stack + [key]);
      if ok {
        Blacken(key, stack);
      }
    }

    /** The first step of a visit: `key` turns grey on top of the stack. */
    method Push(key: string, ghost stack: seq<string>)
      requires Valid() && key in g && key !in color && OnStack(stack)
      requires stack != [] ==> key in Needs(g, stack[|stack| - 1])
      modifies this`color
      ensures Valid() && OnStack(stack + [key])
      ensures color.Keys == old(color).Keys + {key}
    {
      hide Chain, Needs;
      ChainGrows(g, stack, key);
      color := color[key := Gray];
    }

    /** The loop over keys, both at the roots and below a grey key. */
    method VisitAll(keys: seq<string>, ghost stack: seq<string>) returns (ok: bool)
      requires Valid() && NeedsClosed(g)
      requires forall j :: 0 <= j < |keys| ==> keys[j] in g
      requires OnStack(stack)
      requires stack != [] ==> keys == Needs(g, stack[|stack| - 1])
      modifies this
      ensures Valid()
      ensures old(color).Keys <= color.Keys
      ensures forall k :: k in old(rank) ==> k in rank
      ensures ok ==> OnStack(stack) && forall j :: 0 <= j < |keys| ==> keys[j] in rank
      ensures !ok ==> HasCycle(g)
      decreases g.Keys - color.Keys, 1
    {
      for i := 0 to |keys|
        invariant Valid() && OnStack(stack)
        invariant old(color).Keys <= color.Keys
        invariant forall k :: k in old(rank) ==> k in rank
        invariant forall j :: 0 <= j < i ==> keys[j] in rank
      {
        var fine := Visit(keys[i], stack);
        if !fine {
          return false;
        }
      }
      return true;
    }

    /** The last step of a visit: `key` leaves the stack and is ranked on top. */
    method Blacken(key: string, ghost stack: seq<string>)
      requires Valid() && key in g
      requires OnStack(stack + [key]) && key !in stack
      requires forall j :: 0 <= j < |Needs(g, key)| ==> Needs(g, key)[j] in rank
      modifies this
      ensures Valid() && OnStack(stack)
      ensures color.Keys == old(color).Keys
      ensures forall k :: k in rank <==> k in old(rank) || k == key
    {
      hide Chain, Needs;
      ChainGrows(g, stack, key);
      color := color[key := Black];
      rank := rank[key := clock];
      clock := clock + 1;
    }
  }

  /** Sound and complete: accepts exactly the graphs without a cycle, and an
      accepted graph comes with a rank. */
  method CheckAcyclic(d: Definition) returns (ok: bool)
    requires NeedsClosed(GraphOf(d))
    ensures ok <==> !HasCycle(GraphOf(d))
    ensures ok <==> Ranked(GraphOf(d))
  {
    var g := GraphOf(d);
    var search := new CycleSearch(g);
    var keys := seq(|d.steps|, i requires 0 <= i < |d.steps| => d.steps[i].key);
    assert forall k :: k in Keys(d) ==> k in keys by {
      forall k | k in Keys(d)
        ensures k in keys
      {
        var i :| 0 <= i < |d.steps| && d.steps[i].key == k;
        assert keys[i] == k;
      }
    }
    ok := search.VisitAll(keys, []);
    if ok {
      assert IsRank(g, search.rank);
    }
    RankedHasNoCycle(g);
  }

  // ----- validation -----

  datatype DefinitionError =
    | EmptyKey
    | DuplicateKey(key: string)
    | NoType(key: string)
    | UnknownType(key: string)
    | RetriesOutOfRange(key: string)
    | TimeoutOutOfRange(key: string)
    | UnknownNeed(key: string, need: string)
    | SelfNeed(key: string)
    | CycleDetected

  const MAX_RETRIES := 10
  const MAX_TIMEOUT := 600

  predicate StepAccepted(st: Step, known: Option<string -> bool>) {
    && st.key != ""
    && st.kind != ""
    && (known.Some? ==> known.value(st.kind))
    && 0 <= st.retries <= 10
    && 0 <= st.timeout <= 600
  }

  /** What a saved definition is promised to be. */
  ghost predicate Accepted(d: Definition, known: Option<string -> bool>) {
    && UniqueKeys(d)
    && (forall i :: 0 <= i < |d.steps| ==> StepAccepted(d.steps[i], known))
    && (forall i :: 0 <= i < |d.steps| ==> NeedsAccepted(d, d.steps[i]))
    && !HasCycle(GraphOf(d))
  }

  /** The violation an error reports really is in the definition. */
  ghost predicate Explains(d: Definition, known: Option<string -> bool>, e: DefinitionError) {
    match e
    case EmptyKey => exists i :: 0 <= i < |d.steps| && d.steps[i].key == ""
    case DuplicateKey(k) => exists i, j :: 0 <= i < j < |d.steps| && d.steps[i].key == k == d.steps[j].key
    case NoType(k) => exists i :: 0 <= i < |d.steps| && d.steps[i].key == k && d.steps[i].kind == ""
    case UnknownType(k) =>
      known.Some? && exists i :: 0 <= i < |d.steps| && d.steps[i].key == k && !known.value(d.steps[i].kind)
    case RetriesOutOfRange(k) =>
      exists i :: 0 <= i < |d.steps| && d.steps[i].key == k && !(0 <= d.steps[i].retries <= 10)
    case TimeoutOutOfRange(k) =>
      exists i :: 0 <= i < |d.steps| && d.steps[i].key == k && !(0 <= d.steps[i].timeout <= 600)
    case UnknownNeed(k, n) =>
      n !in Keys(d) && exists i :: 0 <= i < |d.steps| && d.steps[i].key == k && n in d.steps[i].needs
    case SelfNeed(k) => exists i :: 0 <= i < |d.steps| && d.steps[i].key == k && k in d.steps[i].needs
    case CycleDetected => HasCycle(GraphOf(d))
  }

  method ValidateSteps(d: Definition, known: Option<string -> bool>) returns (err: Option<DefinitionError>)
    ensures err.None? <==> UniqueKeys(d) && forall i :: 0 <= i < |d.steps| ==> StepAccepted(d.steps[i], known)
    ensures err.Some? ==> Explains(d, known, err.value)
  {
    var keys: set<string> := {};
    for i := 0 to |d.steps|
      invariant keys == set j | 0 <= j < i :: d.steps[j].key
      invariant forall a, b :: 0 <= a < b < i ==> d.steps[a].key != d.steps[b].key
      invariant forall j :: 0 <= j < i ==> StepAccepted(d.steps[j], known)
    {
      var s := d.steps[i];
      if s.key == "" {
        return Some(EmptyKey);
      }
      if s.key in keys {
        return Some(DuplicateKey(s.key));
      }
      keys := keys + {s.key};
      if s.kind == "" {
        return Some(NoType(s.key));
      }
      if known.Some? && !known.value(s.kind) {
        return Some(UnknownType(s.key));
      }
      if s.retries < 0 || s.retries > MAX_RETRIES {
        return Some(RetriesOutOfRange(s.key));
      }
      if s.timeout < 0 || s.timeout > MAX_TIMEOUT {
        return Some(TimeoutOutOfRange(s.key));
      }
    }
    return None;
  }

  ghost predicate NeedsAccepted(d: Definition, st: Step) {
    forall j :: 0 <= j < |st.needs| ==> st.needs[j] in Keys(d) && st.needs[j] != st.key
  }

  method ValidateNeeds(d: Definition, known: Option<string -> bool>) returns (err: Option<DefinitionError>)
    ensures err.None? <==> forall i :: 0 <= i < |d.steps| ==> NeedsAccepted(d, d.steps[i])
    ensures err.Some? ==> Explains(d, known, err.value)
  {
    var keys := Keys(d);
    for i := 0 to |d.steps|
      invariant forall a :: 0 <= a < i ==> NeedsAccepted(d, d.steps[a])
    {
      var s := d.steps[i];
      for j := 0 to |s.needs|
        invariant forall b :: 0 <= b < j ==> s.needs[b] in Keys(d) && s.needs[b] != s.key
      {
        if s.needs[j] !in keys {
          return Some(UnknownNeed(s.key, s.needs[j]));
        }
        if s.needs[j] == s.key {
          return Some(SelfNeed(s.key));
        }
      }
    }
    return None;
  }

  /** Validate accepts exactly the accepted definitions, every rejection names a
      violation that is there, and acceptance supplies a rank. */
  method Validate(d: Definition, known: Option<string -> bool>) returns (err: Option<DefinitionError>)
    ensures err.None? <==> Accepted(d, known)
    ensures err.None? ==> Runnable(GraphOf(d))
    ensures err.Some? ==> Explains(d, known, err.value)
  {
    err := ValidateSteps(d, known);
    if err.Some? {
      return;
    }
    err := ValidateNeeds(d, known);
    if err.Some? {
      return;
    }
    var g := GraphOf(d);
    forall k | k in g
      ensures exists i :: 0 <= i < |d.steps| && g[k] == d.steps[i]
    {
      assert StepOf(d.steps, k) == Some(g[k]);
    }
    var ok := CheckAcyclic(d);
    if !ok {
      return Some(CycleDetected);
    }
  }

  /** What the engine's proofs use of a validated definition. */
  ghost predicate Runnable(g: Graph) {
    && Ranked(g)
    && (forall k :: k in g ==> g[k].key == k)
    && (forall k :: k in g ==> 0 <= g[k].retries <= MAX_RETRIES)
  }
}
