/** Building an engine from a definition. */
module EngineSetup {
  import opened WorkflowDef
  import opened EngineState
  import opened EngineInvariants
  import opened EngineFork
  import opened EngineFrames
  import opened EngineLoops
  import opened EngineSchedule
  import opened Engine
  import R = Reachability
  import V = Validation

  // ----- A new engine -----

  ghost predicate ValidDef(d: WorkflowDef) {
    V.HasHeader(d) && V.UniqueIds(d) && V.EdgesKnown(d) && V.Acyclic(d.edges) && V.GatesRouted(d) && V.FieldsOk(d)
  }

  function StaticIns(edges: seq<Edge>, k: Id): seq<Edge> {
    if edges == [] then []
    else
      var last := edges[|edges| - 1];
      StaticIns(edges[..|edges| - 1], k) + if last.to == k then [last] else []
  }

  ghost function GraphOf(d: WorkflowDef, bodyOf: map<Id, seq<Id>>): Graph {
    Graph(NodeMap(d.nodes), d.edges, Bodies(bodyOf))
  }

  /** Every loop has as its body exactly the nodes reachable from its entry, each once. */
  ghost predicate BodiesExact(d: WorkflowDef, bodyOf: map<Id, seq<Id>>) {
    && (forall l | l in bodyOf :: exists n :: n in d.nodes && n.kind.Loop? && n.id == l)
    && (forall n | n in d.nodes && n.kind.Loop? :: n.id in bodyOf && BodyExact(d, n, bodyOf[n.id]))
  }

  ghost predicate BodyExact(d: WorkflowDef, n: Node, body: seq<Id>)
    requires n.kind.Loop?
  {
    && n.kind.loop.Some? && Distinct(body)
    && forall v :: v in body <==> R.Reaches(d.edges, n.kind.loop.value.bodyEntry, v)
  }

  ghost predicate TemplatesExact(d: WorkflowDef, templates: set<Id>) {
    forall t :: t in templates <==>
      exists n :: n in d.nodes && n.kind.ParallelFork? && n.kind.fanOut.Some? && n.kind.fanOut.value.template == t
  }

  /** Every node pending, the edges indexed both ways, and nothing logged; the scope is left open. */
  ghost predicate FreshRun(g: Graph, s: State) {
    && s.states == (map k | k in g.nodes :: Fresh(g.nodes[k]))
    && (forall k :: Outs(s, k) == StaticOuts(g.edges, k) && Ins(s, k) == StaticIns(g.edges, k))
    && s.feedback == map[] && s.seqNo == 0 && s.events == [] && s.calls == []
  }

  /** The edges and the loop-to-entry links all go down in `rank`. */
  ghost predicate LoopsDown(d: WorkflowDef, rank: map<Id, nat>) {
    && (forall n | n in d.nodes :: n.id in rank)
    && (forall e | e in d.edges :: e.from in rank && e.to in rank && rank[e.to] < rank[e.from])
    && (forall n | n in d.nodes && n.kind.Loop? && n.kind.loop.Some? ::
          var b := n.kind.loop.value.bodyEntry;
          b in NodeIds(d) && b in rank && rank[b] < rank[n.id])
  }

  lemma {:induction false} NodeMapFacts(nodes: seq<Node>)
    requires forall i, j | 0 <= i < j < |nodes| :: nodes[i].id != nodes[j].id
    ensures forall n | n in nodes :: n.id in NodeMap(nodes) && NodeMap(nodes)[n.id] == n
    ensures forall k | k in NodeMap(nodes) :: NodeMap(nodes)[k] in nodes && NodeMap(nodes)[k].id == k
  {
    if nodes != [] {
      var rest, last := nodes[..|nodes| - 1], nodes[|nodes| - 1];
      NodeMapFacts(rest);
      assert forall n :: n in nodes <==> n in rest || n == last;
      assert forall n | n in rest :: n.id != last.id;
    }
  }

  lemma {:induction false} StaticInsStatic(edges: seq<Edge>, k: Id)
    ensures forall e :: e in StaticIns(edges, k) <==> e in edges && e.to == k
  {
    if edges != [] {
      StaticInsStatic(edges[..|edges| - 1], k);
    }
  }

  /** A valid definition whose forks are apart and whose loops go down is one the engine can run. */
  lemma EngineReady(d: WorkflowDef, bodyOf: map<Id, seq<Id>>, rank: map<Id, nat>)
    requires ValidDef(d) && BodiesExact(d, bodyOf) && LoopsDown(d, rank) && ForksApart(GraphOf(d, bodyOf))
    ensures Disciplined(GraphOf(d, bodyOf), bodyOf, rank)
  {
    GraphReady(d, bodyOf, rank);
    RanksReady(d, bodyOf, rank);
    hide GraphOk, ForksApart, ValidDef, BodiesExact, LoopsDown, V.NodeFieldsOk;
  }

  lemma GraphReady(d: WorkflowDef, bodyOf: map<Id, seq<Id>>, rank: map<Id, nat>)
    requires ValidDef(d) && BodiesExact(d, bodyOf) && LoopsDown(d, rank)
    ensures GraphOk(GraphOf(d, bodyOf))
  {
    StaticFacts(d);
    BodiesClosed(d, bodyOf);
    BodiesStatic(d, bodyOf, rank);
    hide ValidDef, BodiesExact, LoopsDown, V.NodeFieldsOk, NodeMap, NodeIds, Bodies;
  }

  lemma RanksReady(d: WorkflowDef, bodyOf: map<Id, seq<Id>>, rank: map<Id, nat>)
    requires ValidDef(d) && BodiesExact(d, bodyOf) && LoopsDown(d, rank)
    ensures forall k | k in NodeMap(d.nodes) :: k in rank && V.NodeFieldsOk(NodeMap(d.nodes)[k])
    ensures forall l | l in bodyOf :: l in NodeMap(d.nodes)
    ensures forall l, b | l in bodyOf && b in bodyOf[l] :: b in NodeMap(d.nodes) && rank[b] < rank[l]
  {
    StaticFacts(d);
    BodiesStatic(d, bodyOf, rank);
    hide ValidDef, BodiesExact, LoopsDown, V.NodeFieldsOk, NodeMap, NodeIds;
    forall l, b | l in bodyOf && b in bodyOf[l]
      ensures b in NodeMap(d.nodes) && l in rank && b in rank && rank[b] < rank[l]
    {
      BodyBelow(d, bodyOf, rank, l, b);
    }
  }

  lemma BodiesStatic(d: WorkflowDef, bodyOf: map<Id, seq<Id>>, rank: map<Id, nat>)
    requires ValidDef(d) && BodiesExact(d, bodyOf) && LoopsDown(d, rank)
    ensures forall b | b in Bodies(bodyOf) :: b in NodeIds(d)
    ensures forall l | l in bodyOf :: l in NodeIds(d)
    ensures forall k | k in NodeIds(d) :: k in rank
  {
    forall l, b | l in bodyOf && b in bodyOf[l]
      ensures b in NodeIds(d)
    {
      BodyBelow(d, bodyOf, rank, l, b);
    }
  }

  lemma StaticFacts(d: WorkflowDef)
    requires ValidDef(d)
    ensures forall k :: k in NodeIds(d) <==> k in NodeMap(d.nodes)
    ensures forall k | k in NodeMap(d.nodes) ::
              NodeMap(d.nodes)[k] in d.nodes && NodeMap(d.nodes)[k].id == k && V.NodeFieldsOk(NodeMap(d.nodes)[k])
    ensures forall e | e in d.edges :: e.from in NodeIds(d) && e.to in NodeIds(d)
  {
    NodeMapFacts(d.nodes);
  }

  lemma BodiesClosed(d: WorkflowDef, bodyOf: map<Id, seq<Id>>)
    requires BodiesExact(d, bodyOf)
    ensures forall e | e in d.edges && e.from in Bodies(bodyOf) :: e.to in Bodies(bodyOf)
  {
    forall e | e in d.edges && e.from in Bodies(bodyOf)
      ensures e.to in Bodies(bodyOf)
    {
      var l :| l in bodyOf && e.from in bodyOf[l];
      var n :| n in d.nodes && n.kind.Loop? && n.id == l;
      R.ReachesOn(d.edges, n.kind.loop.value.bodyEntry, e);
      assert e.to in bodyOf[l];
    }
  }

  lemma BodyBelow(d: WorkflowDef, bodyOf: map<Id, seq<Id>>, rank: map<Id, nat>, l: Id, b: Id)
    requires ValidDef(d) && BodiesExact(d, bodyOf) && LoopsDown(d, rank) && l in bodyOf && b in bodyOf[l]
    ensures l in NodeIds(d) && b in NodeIds(d) && l in rank && b in rank && rank[b] < rank[l]
  {
    var n :| n in d.nodes && n.kind.Loop? && n.id == l;
    assert n.id in NodeIds(d);
    var entry := n.kind.loop.value.bodyEntry;
    var p :| R.IsPath(d.edges, p) && p[0] == entry && p[|p| - 1] == b;
    R.RankAlongPath(d.edges, rank, p);
    R.ClosedContains(d.edges, NodeIds(d), p);
  }

  /** A fresh run satisfies the invariant. */
  lemma FreshInv(g: Graph, s: State)
    requires GraphOk(g) && ForksApart(g) && FreshRun(g, s)
    ensures Inv(g, s)
  {
    FreshShape(g, s);
    FreshForks(g, s);
    hide Shape, CloneId, Forks, GraphOk, ForksApart, Tame, Ins, Outs;
    assert Numbered(s) && AttemptsLeft(s) && FeedbackFits(g, s);
    assert Phases(g, s) && Allowed(g, s) && Joins(g, s) && Causal(g, s);
  }

  lemma FreshForks(g: Graph, s: State)
    requires ForksApart(g) && FreshRun(g, s)
    ensures Forks(g, s)
  {
    hide CloneId, Tame;
    forall f | IsFork(g, f) && f in s.states
      ensures ForkExpanded(g, s, f)
    {
      assert forall i: nat :: CloneId(Tpl(g, f), i) !in g.nodes;
    }
  }

  lemma FreshShape(g: Graph, s: State)
    requires GraphOk(g) && ForksApart(g) && FreshRun(g, s)
    ensures Shape(g, s)
  {
    FreshEdges(g, s);
    forall b | b in g.bodies
      ensures !Tame(g, b)
    {
      BodyIsWild(g, b);
    }
    assert forall k | k in g.nodes && k !in g.bodies :: Tame(g, k);
    hide CloneId, Tame, ForksApart, FreshRun, StaticOuts;
    assert EdgeShape(g, s);
    assert RejectShape(g, s);
  }

  lemma FreshEdges(g: Graph, s: State)
    requires GraphOk(g) && FreshRun(g, s)
    ensures NodeShape(g, s) && RejectShape(g, s) && g.nodes.Keys == s.states.Keys
    ensures forall k, e {:trigger e in Outs(s, k)} :: e in Outs(s, k) <==> e in g.edges && e.from == k
    ensures forall k, e {:trigger e in Ins(s, k)} :: e in Ins(s, k) <==> e in g.edges && e.to == k
  {
    forall k, e {:trigger e in Outs(s, k)} {:trigger e in Ins(s, k)}
      ensures e in Outs(s, k) <==> e in g.edges && e.from == k
      ensures e in Ins(s, k) <==> e in g.edges && e.to == k
    {
      StaticOutsAre(g.edges, k);
      StaticInsStatic(g.edges, k);
    }
    assert forall k :: Outs(s, k) == StaticOuts(g.edges, k);
  }

  function Look(m: map<Id, seq<Edge>>, k: Id): seq<Edge> {
    if k in m then m[k] else []
  }

  ghost predicate Indexed(outE: map<Id, seq<Edge>>, inE: map<Id, seq<Edge>>, edges: seq<Edge>) {
    && (forall k :: Look(outE, k) == StaticOuts(edges, k))
    && (forall k :: Look(inE, k) == StaticIns(edges, k))
  }

  lemma IndexStep(outE: map<Id, seq<Edge>>, inE: map<Id, seq<Edge>>, edges: seq<Edge>, i: nat)
    requires i < |edges| && Indexed(outE, inE, edges[..i])
    ensures var e := edges[i];
            Indexed(outE[e.from := Look(outE, e.from) + [e]], inE[e.to := Look(inE, e.to) + [e]], edges[..i + 1])
  {
    hide StaticOuts, StaticIns;
    var e := edges[i];
    var outE', inE' := outE[e.from := Look(outE, e.from) + [e]], inE[e.to := Look(inE, e.to) + [e]];
    forall k
      ensures Look(outE', k) == StaticOuts(edges[..i + 1], k)
      ensures Look(inE', k) == StaticIns(edges[..i + 1], k)
    {
      StaticSnoc(edges, i, k);
      assert Look(outE, k) == StaticOuts(edges[..i], k) && Look(inE, k) == StaticIns(edges[..i], k);
    }
  }

  method IndexEdges(edges: seq<Edge>) returns (outE: map<Id, seq<Edge>>, inE: map<Id, seq<Edge>>)
    ensures Indexed(outE, inE, edges)
  {
    outE, inE := map[], map[];
    for i := 0 to |edges|
      invariant Indexed(outE, inE, edges[..i])
    {
      hide Indexed;
      var e := edges[i];
      IndexStep(outE, inE, edges, i);
      outE := outE[e.from := Look(outE, e.from) + [e]];
      inE := inE[e.to := Look(inE, e.to) + [e]];
    }
    assert edges[..|edges|] == edges;
  }

  lemma StaticSnoc(edges: seq<Edge>, i: nat, k: Id)
    requires i < |edges|
    ensures StaticOuts(edges[..i + 1], k) == StaticOuts(edges[..i], k) + if edges[i].from == k then [edges[i]] else []
    ensures StaticIns(edges[..i + 1], k) == StaticIns(edges[..i], k) + if edges[i].to == k then [edges[i]] else []
  {
    assert edges[..i + 1][..i] == edges[..i];
  }

  /** Validates the definition, indexes the graph and computes the loop bodies. */
  method New(d: WorkflowDef, world: World) returns (v: V.Verdict, e: Engine?)
    ensures v.Valid? <==> ValidDef(d)
    ensures v.Valid? <==> e != null
    ensures e != null ==>
              && fresh(e) && e.def == d && e.world == world
              && e.g == GraphOf(d, e.bodyOf) && FreshRun(e.g, e.View())
              && BodiesExact(d, e.bodyOf) && TemplatesExact(d, e.templates)
  {
    hide V.Refused, V.Has;
    v := V.Validate(d);
    if v.Invalid? {
      return v, null;
    }
    var states: map<Id, NodeState> := map[];
    var templates: set<Id> := {};
    for i := 0 to |d.nodes|
      invariant states == map k | k in NodeMap(d.nodes[..i]) :: Fresh(NodeMap(d.nodes[..i])[k])
      invariant forall t :: t in templates <==> exists n :: n in d.nodes[..i] && n.kind.ParallelFork? &&
                                                  n.kind.fanOut.Some? && n.kind.fanOut.value.template == t
    {
      var n := d.nodes[i];
      assert d.nodes[..i + 1][..i] == d.nodes[..i];
      assert forall m :: m in d.nodes[..i + 1] <==> m in d.nodes[..i] || m == n;
      states := states[n.id := Fresh(n)];
      if n.kind.ParallelFork? && n.kind.fanOut.Some? {
        templates := templates + {n.kind.fanOut.value.template};
      }
    }
    assert d.nodes[..|d.nodes|] == d.nodes;
    var outE, inE := IndexEdges(d.edges);
    var bodyOf := LoopBodies(d, outE);
    e := new Engine.Create(d, world, states, outE, inE, bodyOf, templates, GraphOf(d, bodyOf));
  }

  method LoopBodies(d: WorkflowDef, outE: map<Id, seq<Edge>>) returns (bodyOf: map<Id, seq<Id>>)
    requires ValidDef(d) && forall k :: Look(outE, k) == StaticOuts(d.edges, k)
    ensures BodiesExact(d, bodyOf)
  {
    forall k
      ensures forall e :: e in Look(outE, k) <==> e in d.edges && e.from == k
    {
      StaticOutsAre(d.edges, k);
    }
    assert R.Indexes(outE, d.edges) by {
      assert forall k | k in outE :: Look(outE, k) == outE[k];
      assert forall e | e in d.edges :: e in Look(outE, e.from);
    }
    bodyOf := map[];
    for i := 0 to |d.nodes|
      invariant forall l | l in bodyOf :: exists n :: n in d.nodes[..i] && n.kind.Loop? && n.id == l
      invariant forall n | n in d.nodes[..i] && n.kind.Loop? :: n.id in bodyOf && BodyExact(d, n, bodyOf[n.id])
    {
      hide BodyExact, R.Indexes, V.Acyclic;
      var n := d.nodes[i];
      assert forall m :: m in d.nodes[..i + 1] <==> m in d.nodes[..i] || m == n;
      assert forall m | m in d.nodes[..i] :: m.id != n.id;
      if n.kind.Loop? {
        assert V.NodeFieldsOk(n);
        var body := LoopBody(d, outE, n);
        bodyOf := bodyOf[n.id := body];
      }
    }
    assert d.nodes[..|d.nodes|] == d.nodes;
  }

  method LoopBody(d: WorkflowDef, outE: map<Id, seq<Edge>>, n: Node) returns (body: seq<Id>)
    requires R.Indexes(outE, d.edges) && V.EdgesKnown(d) && n.kind.Loop? && n.kind.loop.Some?
    ensures BodyExact(d, n, body)
  {
    var entry := n.kind.loop.value.bodyEntry;
    var seen: set<Id>;
    body, seen := R.Reachable(outE, entry, {}, d.edges, NodeIds(d) + {entry});
    R.ClosureExact(d.edges, seen, entry);
    assert seen == set v | v in body;
  }

  /** The clauses on forks say nothing about loop bodies. */
  lemma ApartAnyway(d: WorkflowDef, bodyOf: map<Id, seq<Id>>)
    requires ForksApart(Graph(NodeMap(d.nodes), d.edges, {}))
    ensures ForksApart(GraphOf(d, bodyOf))
  {
    var h, g := Graph(NodeMap(d.nodes), d.edges, {}), GraphOf(d, bodyOf);
    assert forall f :: IsFork(g, f) == IsFork(h, f);
    assert forall f | IsFork(g, f) :: Tpl(g, f) == Tpl(h, f);
    hide CloneId;
  }

  /** A run of the main scheduler from a fresh start on `ctx` to `mid`. */
  ghost predicate RunsTo(g: Graph, bodyOf: map<Id, seq<Id>>, templates: set<Id>, w: World, ctx: Context, steps: Steps,
                         mid: State) {
    exists start: State ::
      && FreshRun(g, start) && ShowsContext(ctx, start.scope, {})
      && Scheduled(w, bodyOf, templates, start, steps) && mid == AfterAll(w, bodyOf, start, steps)
  }

  /** Validates a definition, builds its engine and runs it: a run of a valid definition always ends,
      and its log, calls and final statuses satisfy the invariant. */
  method Launch(d: WorkflowDef, world: World, ctx: Context, ghost rank: map<Id, nat>)
    returns (v: V.Verdict, e: Engine?, result: RunResult, ghost steps: Steps, ghost mid: State)
    requires LoopsDown(d, rank) && ForksApart(Graph(NodeMap(d.nodes), d.edges, {}))
    ensures v.Valid? <==> ValidDef(d)
    ensures v.Valid? <==> e != null
    ensures e != null ==>
              && e.g == GraphOf(d, e.bodyOf) && BodiesExact(d, e.bodyOf) && TemplatesExact(d, e.templates)
              && Inv(e.g, e.View()) && (result.BadRun? <==> ctx.BadContext?)
    ensures e != null && !result.BadRun? ==>
              && RunsTo(e.g, e.bodyOf, e.templates, world, ctx, steps, mid)
              && Inv(e.g, mid) && (forall k | k in mid.states :: !mid.states[k].status.Skipped?)
              && AtFixedPoint(e.bodyOf, e.templates, mid)
              && SkippedInSomeOrder(mid, UntakenIn(e.bodyOf, e.templates, mid),
                                    if result.Deadlocked? then Some(result.at) else None, e.View())
  {
    hide Inv, Disciplined, FreshRun, Scheduled, AfterAll, SkippedInSomeOrder, ForksApart, BodiesExact, TemplatesExact,
      ValidDef, LoopsDown, GraphOk, AtFixedPoint, GraphOf;
    result, steps, mid := BadRun, Start, State(map[], map[], map[], map[], map[], 0, [], []);
    v, e := New(d, world);
    if e == null {
      return;
    }
    ghost var first := e.View();
    LaunchReady(d, e.bodyOf, rank, first);
    result, steps, mid := e.Run(ctx, rank);
    if !result.BadRun? {
      FreshScope(e.g, first, ctx);
      Started(e.g, e.bodyOf, e.templates, world, ctx, first.(scope := ContextScope(ctx)), steps, mid);
    }
  }

  lemma Started(g: Graph, bodyOf: map<Id, seq<Id>>, templates: set<Id>, w: World, ctx: Context, start: State,
                steps: Steps, mid: State)
    requires FreshRun(g, start) && ShowsContext(ctx, start.scope, {})
    requires Scheduled(w, bodyOf, templates, start, steps) && mid == AfterAll(w, bodyOf, start, steps)
    ensures RunsTo(g, bodyOf, templates, w, ctx, steps, mid)
  {
  }

  lemma LaunchReady(d: WorkflowDef, bodyOf: map<Id, seq<Id>>, rank: map<Id, nat>, s: State)
    requires ValidDef(d) && BodiesExact(d, bodyOf) && LoopsDown(d, rank)
    requires ForksApart(Graph(NodeMap(d.nodes), d.edges, {})) && FreshRun(GraphOf(d, bodyOf), s)
    ensures Disciplined(GraphOf(d, bodyOf), bodyOf, rank) && Inv(GraphOf(d, bodyOf), s)
    ensures forall k | k in s.states :: !s.states[k].status.Skipped?
  {
    hide Inv, Disciplined, FreshRun, BodiesExact, ValidDef, LoopsDown, GraphOk, ForksApart;
    ApartAnyway(d, bodyOf);
    EngineReady(d, bodyOf, rank);
    GraphReady(d, bodyOf, rank);
    FreshInv(GraphOf(d, bodyOf), s);
    FreshUnskipped(GraphOf(d, bodyOf), s);
  }

  lemma FreshScope(g: Graph, s: State, ctx: Context)
    requires FreshRun(g, s) && !ctx.BadContext?
    ensures InitialScope(ctx, s.states) == Some(ContextScope(ctx)) && FreshRun(g, s.(scope := ContextScope(ctx)))
    ensures ShowsContext(ctx, ContextScope(ctx), {})
  {
    var t := s.(scope := ContextScope(ctx));
    assert forall k | k in s.states :: !s.states[k].status.Completed?;
    assert CompletedOutputs(s.states, s.states.Keys) == map[];
    assert ContextScope(ctx) + map[] == ContextScope(ctx);
    assert forall k :: Outs(t, k) == Outs(s, k) && Ins(t, k) == Ins(s, k);
  }

  lemma FreshUnskipped(g: Graph, s: State)
    requires FreshRun(g, s)
    ensures forall k | k in s.states :: !s.states[k].status.Skipped?
  {
  }
}
