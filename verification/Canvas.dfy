/**
 The canvas: nodes and edges as a projection of the definition document, and the
 way back.  What the engine reads of a document survives the round trip exactly
 when no step that shares its key with another carries needs.
 */
module Canvas {
  import opened Definitions

  datatype Position = Position(x: real, y: real)

  /** A step as the document stores it: absent fields are `None`. */
  datatype DocStep = DocStep(
    key: string,
    kind: string,
    needs: Option<seq<string>>,
    config: Option<map<string, string>>,
    retries: Option<int>,
    timeout: Option<int>,
    cond: Option<string>,
    ui: Option<Position>)

  datatype Doc = Doc(name: string, steps: seq<DocStep>)

  datatype Node = Node(
    id: string,
    position: Position,
    kind: string,
    config: map<string, string>,
    retries: Option<int>,
    timeout: Option<int>,
    cond: Option<string>)

  datatype Edge = Edge(id: string, source: string, target: string)

  function Or<T>(o: Option<T>, other: T): T {
    if o.Some? then o.value else other
  }

  // ----- document to canvas -----

  function NodeOf(s: DocStep, i: nat): Node {
    Node(s.key, Or(s.ui, Position((80 + i * 240) as real, 120.0)), s.kind, Or(s.config, map[]),
         s.retries, s.timeout, s.cond)
  }

  function NodesOf(steps: seq<DocStep>): seq<Node> {
    seq(|steps|, i requires 0 <= i < |steps| => NodeOf(steps[i], i))
  }

  function EdgeOf(s: DocStep, need: string): Edge {
    Edge(need + "->" + s.key, need, s.key)
  }

  function StepEdges(s: DocStep, needs: seq<string>): seq<Edge> {
    seq(|needs|, i requires 0 <= i < |needs| => EdgeOf(s, needs[i]))
  }

  function EdgesOf(steps: seq<DocStep>): seq<Edge> {
    if steps == [] then []
    else
      var last := steps[|steps| - 1];
      EdgesOf(steps[..|steps| - 1]) + StepEdges(last, Or(last.needs, []))
  }

  /** An edge for a need of a step, named after both ends. */
  ghost predicate NeedEdge(s: DocStep, e: Edge) {
    && s.needs.Some? && e.source in s.needs.value && e.target == s.key
    && e.id == e.source + "->" + e.target
  }

  lemma {:induction false} EdgesAreNeeds(steps: seq<DocStep>, e: Edge)
    ensures e in EdgesOf(steps) <==> exists i :: 0 <= i < |steps| && NeedEdge(steps[i], e)
  {
    if steps != [] {
      var last := |steps| - 1;
      EdgesAreNeeds(steps[..last], e);
      var needs := Or(steps[last].needs, []);
      assert e in StepEdges(steps[last], needs) <==> NeedEdge(steps[last], e) by {
        if NeedEdge(steps[last], e) {
          var j :| 0 <= j < |needs| && needs[j] == e.source;
          assert StepEdges(steps[last], needs)[j] == e;
        }
      }
    }
  }

  /** A node per step in order, where the document puts it or else in a row to the
      right, and an edge per need. */
  method DefinitionToFlow(d: Doc) returns (nodes: seq<Node>, edges: seq<Edge>)
    ensures nodes == NodesOf(d.steps) && edges == EdgesOf(d.steps)
    ensures |nodes| == |d.steps|
    ensures forall i :: 0 <= i < |nodes| ==> nodes[i].id == d.steps[i].key && nodes[i].kind == d.steps[i].kind
    ensures forall i :: 0 <= i < |nodes| && d.steps[i].ui.Some? ==> nodes[i].position == d.steps[i].ui.value
    ensures forall i :: 0 <= i < |nodes| && d.steps[i].ui.None? ==>
              nodes[i].position.x == 80.0 + 240.0 * i as real && nodes[i].position.y == 120.0
    ensures forall i, j :: 0 <= i < j < |nodes| && d.steps[i].ui.None? && d.steps[j].ui.None? ==>
              nodes[i].position.x < nodes[j].position.x
    ensures forall e :: e in edges <==> exists i :: 0 <= i < |d.steps| && NeedEdge(d.steps[i], e)
  {
    forall e
      ensures e in EdgesOf(d.steps) <==> exists i :: 0 <= i < |d.steps| && NeedEdge(d.steps[i], e)
    {
      EdgesAreNeeds(d.steps, e);
    }
    hide NeedEdge;
    nodes := NodesOf(d.steps);
    edges := [];
    for i := 0 to |d.steps|
      invariant edges == EdgesOf(d.steps[..i])
    {
      var s := d.steps[i];
      var needs := Or(s.needs, []);
      ghost var before := edges;
      for j := 0 to |needs|
        invariant edges == before + StepEdges(s, needs[..j])
      {
        edges := edges + [EdgeOf(s, needs[j])];
        assert StepEdges(s, needs[..j + 1]) == StepEdges(s, needs[..j]) + [EdgeOf(s, needs[j])];
      }
      assert needs[..|needs|] == needs;
      assert d.steps[..i + 1][..i] == d.steps[..i];
    }
    assert d.steps[..|d.steps|] == d.steps;
  }

  // ----- canvas to document -----

  /** The sources of the edges into a node, in edge order. */
  function Sources(edges: seq<Edge>, key: string): seq<string> {
    if edges == [] then []
    else
      var last := edges[|edges| - 1];
      Sources(edges[..|edges| - 1], key) + if last.target == key then [last.source] else []
  }

  /** Math.round: the nearest integer, halves up. */
  function Round(x: real): (r: real)
    ensures r == r.Floor as real && r - 0.5 <= x < r + 0.5
  {
    (x + 0.5).Floor as real
  }

  function NonEmpty<T>(s: seq<T>): Option<seq<T>> {
    if s == [] then None else Some(s)
  }

  function NonZero(n: Option<int>): Option<int> {
    if n == Some(0) then None else n
  }

  function Truthy(s: Option<string>): Option<string> {
    if s == Some("") then None else s
  }

  function StepFrom(n: Node, edges: seq<Edge>): DocStep {
    DocStep(n.id, n.kind, NonEmpty(Sources(edges, n.id)), Some(n.config),
            NonZero(n.retries), NonZero(n.timeout), Truthy(n.cond),
            Some(Position(Round(n.position.x), Round(n.position.y))))
  }

  function FlowToDefinition(name: string, nodes: seq<Node>, edges: seq<Edge>): Doc {
    Doc(name, seq(|nodes|, i requires 0 <= i < |nodes| => StepFrom(nodes[i], edges)))
  }

  /** Opening a document on the canvas and saving it. */
  function RoundTrip(d: Doc): Doc {
    FlowToDefinition(d.name, NodesOf(d.steps), EdgesOf(d.steps))
  }

  // ----- what the engine reads -----

  function EngineStep(s: DocStep): Step {
    Step(s.key, s.kind, Or(s.needs, []), Or(s.cond, ""), Or(s.config, map[]), Or(s.retries, 0), Or(s.timeout, 0))
  }

  function EngineView(d: Doc): Definition {
    Definition(d.name, seq(|d.steps|, i requires 0 <= i < |d.steps| => EngineStep(d.steps[i])))
  }

  /** The needs of all steps with a key, in order. */
  function Gathered(steps: seq<DocStep>, key: string): seq<string> {
    if steps == [] then []
    else
      var last := steps[|steps| - 1];
      Gathered(steps[..|steps| - 1], key) + if last.key == key then Or(last.needs, []) else []
  }

  lemma {:induction false} SourcesConcat(a: seq<Edge>, b: seq<Edge>, key: string)
    ensures Sources(a + b, key) == Sources(a, key) + Sources(b, key)
    decreases |b|
  {
    if b == [] {
      assert a + b == a;
    } else {
      var m := |b| - 1;
      assert (a + b)[..|a + b| - 1] == a + b[..m];
      SourcesConcat(a, b[..m], key);
    }
  }

  lemma {:induction false} SourcesOfStep(s: DocStep, needs: seq<string>, key: string)
    ensures Sources(StepEdges(s, needs), key) == if s.key == key then needs else []
  {
    if needs != [] {
      var m := |needs| - 1;
      SourcesOfStep(s, needs[..m], key);
      assert StepEdges(s, needs)[..m] == StepEdges(s, needs[..m]);
    }
  }

  lemma {:induction false} SourcesGather(steps: seq<DocStep>, key: string)
    ensures Sources(EdgesOf(steps), key) == Gathered(steps, key)
  {
    if steps != [] {
      var m := |steps| - 1;
      var needs := Or(steps[m].needs, []);
      SourcesGather(steps[..m], key);
      SourcesConcat(EdgesOf(steps[..m]), StepEdges(steps[m], needs), key);
      SourcesOfStep(steps[m], needs, key);
    }
  }

  /** No step that shares its key with another carries needs. */
  ghost predicate NeedsUnshared(steps: seq<DocStep>) {
    forall i, j :: 0 <= i < |steps| && 0 <= j < |steps| && i != j && steps[i].key == steps[j].key ==>
      Or(steps[j].needs, []) == []
  }

  lemma {:induction false} GatheredNone(steps: seq<DocStep>, key: string)
    requires forall j :: 0 <= j < |steps| && steps[j].key == key ==> Or(steps[j].needs, []) == []
    ensures Gathered(steps, key) == []
  {
    if steps != [] {
      GatheredNone(steps[..|steps| - 1], key);
    }
  }

  lemma {:induction false} GatheredOwn(steps: seq<DocStep>, i: nat)
    requires i < |steps|
    requires forall j :: 0 <= j < |steps| && j != i && steps[j].key == steps[i].key ==> Or(steps[j].needs, []) == []
    ensures Gathered(steps, steps[i].key) == Or(steps[i].needs, [])
  {
    var m := |steps| - 1;
    if i == m {
      GatheredNone(steps[..m], steps[i].key);
    } else {
      GatheredOwn(steps[..m], i);
    }
  }

  lemma {:induction false} GatheredHolds(steps: seq<DocStep>, i: nat)
    requires i < |steps|
    ensures |Gathered(steps, steps[i].key)| >= |Or(steps[i].needs, [])|
  {
    var m := |steps| - 1;
    if i < m {
      GatheredHolds(steps[..m], i);
    }
  }

  lemma {:induction false} GatheredHoldsBoth(steps: seq<DocStep>, i: nat, j: nat)
    requires i < j < |steps| && steps[i].key == steps[j].key
    ensures |Gathered(steps, steps[i].key)| >= |Or(steps[i].needs, [])| + |Or(steps[j].needs, [])|
  {
    var m := |steps| - 1;
    if j < m {
      GatheredHoldsBoth(steps[..m], i, j);
    } else {
      GatheredHolds(steps[..m], i);
    }
  }

  /** Every step gets its own needs back iff needs are not shared by key. */
  lemma GatheredIff(steps: seq<DocStep>)
    ensures NeedsUnshared(steps) <==>
            forall i :: 0 <= i < |steps| ==> Gathered(steps, steps[i].key) == Or(steps[i].needs, [])
  {
    if NeedsUnshared(steps) {
      forall i | 0 <= i < |steps|
        ensures Gathered(steps, steps[i].key) == Or(steps[i].needs, [])
      {
        GatheredOwn(steps, i);
      }
    } else {
      var i, j :|
        0 <= i < |steps| && 0 <= j < |steps| && i != j && steps[i].key == steps[j].key && Or(steps[j].needs, []) != [];
      if i < j {
        GatheredHoldsBoth(steps, i, j);
      } else {
        GatheredHoldsBoth(steps, j, i);
      }
      assert |Gathered(steps, steps[i].key)| > |Or(steps[i].needs, [])|;
    }
  }

  lemma StepBack(d: Doc, i: nat)
    requires i < |d.steps|
    ensures var s, s' := d.steps[i], RoundTrip(d).steps[i];
      && |RoundTrip(d).steps| == |d.steps|
      && EngineStep(s') == EngineStep(s).(needs := Gathered(d.steps, s.key))
      && s'.needs == NonEmpty(Gathered(d.steps, s.key))
  {
    SourcesGather(d.steps, d.steps[i].key);
  }

  /** What the engine reads comes back unchanged iff needs are not shared by key. */
  lemma EngineViewPreserved(d: Doc)
    ensures EngineView(RoundTrip(d)) == EngineView(d) <==> NeedsUnshared(d.steps)
  {
    var d' := RoundTrip(d);
    assert d'.name == d.name && |d'.steps| == |d.steps|;
    hide RoundTrip;
    forall i | 0 <= i < |d.steps|
      ensures EngineView(d').steps[i] == EngineView(d).steps[i] <==>
              Gathered(d.steps, d.steps[i].key) == Or(d.steps[i].needs, [])
    {
      StepBack(d, i);
      assert EngineView(d').steps[i] == EngineStep(d'.steps[i]);
      assert EngineView(d).steps[i] == EngineStep(d.steps[i]);
    }
    GatheredIff(d.steps);
    if NeedsUnshared(d.steps) {
      assert EngineView(d').steps == EngineView(d).steps;
    }
  }

  lemma UniqueKeysUnshared(d: Doc)
    requires UniqueKeys(EngineView(d))
    ensures NeedsUnshared(d.steps)
  {
    forall i, j | 0 <= i < |d.steps| && 0 <= j < |d.steps| && i != j
      ensures d.steps[i].key != d.steps[j].key
    {
      assert EngineView(d).steps[i].key == d.steps[i].key && EngineView(d).steps[j].key == d.steps[j].key;
    }
  }

  lemma KeysBack(d: Doc)
    ensures UniqueKeys(EngineView(RoundTrip(d))) <==> UniqueKeys(EngineView(d))
  {
    var v, v' := EngineView(d), EngineView(RoundTrip(d));
    assert |v'.steps| == |v.steps|;
    assert forall i :: 0 <= i < |v.steps| ==> v'.steps[i].key == v.steps[i].key;
  }

  /** The verdict of validation is the same before and after, for every document. */
  lemma VerdictUnchanged(d: Doc, known: Option<string -> bool>)
    ensures Accepted(EngineView(RoundTrip(d)), known) <==> Accepted(EngineView(d), known)
  {
    hide RoundTrip, EngineView, HasCycle;
    KeysBack(d);
    if UniqueKeys(EngineView(d)) {
      UniqueKeysUnshared(d);
      EngineViewPreserved(d);
    }
  }

  // ----- canonical documents -----

  predicate Whole(p: Position) {
    Round(p.x) == p.x && Round(p.y) == p.y
  }

  /** No field that says nothing, a config, and a position on the grid. */
  predicate CanonicalStep(s: DocStep) {
    && s.needs != Some([]) && s.config.Some?
    && s.retries != Some(0) && s.timeout != Some(0) && s.cond != Some("")
    && s.ui.Some? && Whole(s.ui.value)
  }

  predicate Canonical(d: Doc) {
    forall i :: 0 <= i < |d.steps| ==> CanonicalStep(d.steps[i])
  }

  lemma RoundTwice(x: real)
    ensures Round(Round(x)) == Round(x)
  {
    var n := (x + 0.5).Floor;
    assert (n as real + 0.5).Floor == n;
  }

  /** Whatever is saved from the canvas is canonical. */
  lemma SavedIsCanonical(d: Doc)
    ensures Canonical(RoundTrip(d))
  {
    forall i | 0 <= i < |d.steps|
      ensures CanonicalStep(RoundTrip(d).steps[i])
    {
      var n := NodeOf(d.steps[i], i);
      assert RoundTrip(d).steps[i] == StepFrom(n, EdgesOf(d.steps));
      RoundTwice(n.position.x);
      RoundTwice(n.position.y);
    }
  }

  /** A step is saved on the grid, at most half a unit from where the document had it
      or from its place in the row. */
  lemma SavedNearby(d: Doc, i: nat)
    requires i < |d.steps|
    ensures var saved := RoundTrip(d).steps[i].ui;
      && saved.Some? && saved.value.x.Floor as real == saved.value.x && saved.value.y.Floor as real == saved.value.y
      && (d.steps[i].ui.Some? ==>
            && saved.value.x - 0.5 <= d.steps[i].ui.value.x < saved.value.x + 0.5
            && saved.value.y - 0.5 <= d.steps[i].ui.value.y < saved.value.y + 0.5)
      && (d.steps[i].ui.None? ==> saved.value == Position(80.0 + 240.0 * i as real, 120.0))
  {
    var s := d.steps[i];
    var place := NodeOf(s, i).position;
    assert RoundTrip(d).steps[i] == StepFrom(NodeOf(s, i), EdgesOf(d.steps));
    hide RoundTrip;
    if s.ui.None? {
      var x := 80 + i * 240;
      WholeIsFixed(x);
      WholeIsFixed(120);
    }
  }

  lemma WholeIsFixed(n: int)
    ensures Round(n as real) == n as real
  {
    assert (n as real + 0.5).Floor == n;
  }

  lemma CanonicalStepBack(d: Doc, i: nat)
    requires i < |d.steps| && CanonicalStep(d.steps[i])
    ensures RoundTrip(d).steps[i] == d.steps[i] <==> Gathered(d.steps, d.steps[i].key) == Or(d.steps[i].needs, [])
  {
    var s := d.steps[i];
    SourcesGather(d.steps, s.key);
    assert RoundTrip(d).steps[i] == StepFrom(NodeOf(s, i), EdgesOf(d.steps));
  }

  /** Saving changes nothing iff the document is canonical and shares no needs. */
  lemma IdentityIff(d: Doc)
    ensures RoundTrip(d) == d <==> Canonical(d) && NeedsUnshared(d.steps)
  {
    var d' := RoundTrip(d);
    assert d'.name == d.name && |d'.steps| == |d.steps|;
    SavedIsCanonical(d);
    GatheredIff(d.steps);
    hide RoundTrip, CanonicalStep;
    if Canonical(d) {
      forall i | 0 <= i < |d.steps|
        ensures d'.steps[i] == d.steps[i] <==> Gathered(d.steps, d.steps[i].key) == Or(d.steps[i].needs, [])
      {
        CanonicalStepBack(d, i);
      }
      if NeedsUnshared(d.steps) {
        assert d'.steps == d.steps;
      }
    }
  }

  lemma UnsharedBack(d: Doc)
    ensures NeedsUnshared(RoundTrip(d).steps) <==> NeedsUnshared(d.steps)
  {
    var d' := RoundTrip(d);
    assert |d'.steps| == |d.steps|;
    forall i | 0 <= i < |d.steps|
      ensures d'.steps[i].key == d.steps[i].key
      ensures Or(d'.steps[i].needs, []) == Gathered(d.steps, d.steps[i].key)
    {
      StepBack(d, i);
    }
    hide RoundTrip;
    if NeedsUnshared(d.steps) {
      GatheredIff(d.steps);
    } else {
      var i, j :|
        && 0 <= i < |d.steps| && 0 <= j < |d.steps| && i != j
        && d.steps[i].key == d.steps[j].key && Or(d.steps[j].needs, []) != [];
      GatheredHolds(d.steps, j);
      assert Or(d'.steps[j].needs, []) != [];
    }
  }

  /** A second save changes nothing iff needs are not shared by key. */
  lemma IdempotentIff(d: Doc)
    ensures RoundTrip(RoundTrip(d)) == RoundTrip(d) <==> NeedsUnshared(d.steps)
  {
    hide RoundTrip, NeedsUnshared;
    SavedIsCanonical(d);
    IdentityIff(RoundTrip(d));
    UnsharedBack(d);
  }
}
