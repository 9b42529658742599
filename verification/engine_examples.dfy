/** Concrete runs that show where the properties of runs end. */
module EngineExamples {
  // Each example is a definition that NewEngine accepts, run from any fresh start.

  import opened WorkflowDef
  import opened EngineState
  import opened EngineInvariants
  import opened EngineFrames
  import opened EngineSchedule
  import opened EngineLoops
  import opened EngineBounds
  import opened EngineLimits
  import opened EngineSetup
  import C = Confluence
  import CE = ConfluenceEngine
  import R = Reachability
  import S = SkipPass
  import V = Validation

  /** Every call succeeds, and `eval` evaluates expressions. */
  function Evaluator(eval: (Expr, Scope) -> EvalReply): World {
    World((n: Node, a: nat, i: Scope, c: nat) => AgentOk(NoOutput), (n: Node, c: nat) => Decided(true, None),
          eval, (v: Json) => "", (n: Node, a: nat, c: nat) => false)
  }

  function Yields(v: Json): World {
    Evaluator((x: Expr, sc: Scope) => Evaluated(v))
  }

  // ----- Single executions -----

  /** `t` is `s` with `id` completed and its output in the scope. */
  ghost predicate Done(s: State, t: State, id: Id, out: Json, branch: string) {
    && id in s.states
    && t.states == s.states[id := s.states[id].(status := Completed, output := Value(out), branch := branch)]
    && t.scope == s.scope[s.states[id].node.id := out]
    && t.inE == s.inE && t.outE == s.outE
  }

  lemma TransformDone(w: World, s: State, id: Id)
    requires id in s.states && s.states[id].node.kind.Transform?
             && w.eval(s.states[id].node.kind.expr, s.scope).Evaluated?
    ensures Done(s, Execute(w, s, id), id, w.eval(s.states[id].node.kind.expr, s.scope).value, s.states[id].branch)
  {
  }

  lemma ConditionDone(w: World, s: State, id: Id, branch: string)
    requires id in s.states && s.states[id].node.kind.Condition?
    requires w.eval(s.states[id].node.kind.expr, s.scope) == Evaluated(Str(branch)) && BranchTaken(Outs(s, id), branch)
    ensures Done(s, Execute(w, s, id), id, Obj(map["branch" := Str(branch)]), branch)
  {
    var s1 := Mark(s, id, Running, NoOutput, "");
    assert Outs(s1, id) == Outs(s, id);
  }

  // ----- The last pass -----

  /** A condition c with z on branch a and x on branch b; y hangs on x by an always edge. */
  function Hanging(x: Kind): WorkflowDef {
    WorkflowDef("hanging", "1",
                [Node("c", Condition("e")), Node("z", Transform("e")), Node("x", x), Node("y", Transform("e"))],
                [Edge("c", "z", Unset, "a"), Edge("c", "x", Unset, "b"), Edge("x", "y", Always, "")])
  }

  const HANGING_RANK: map<Id, nat> := map["c" := 2, "z" := 1, "x" := 1, "y" := 0]
  const HANGING_RUN := Then(Then(Start, Plain("c")), Plain("z"))

  /** A definition the engine accepts and runs. */
  ghost predicate Runnable(d: WorkflowDef, bodyOf: map<Id, seq<Id>>, rank: map<Id, nat>) {
    && ValidDef(d) && BodiesExact(d, bodyOf) && TemplatesExact(d, {}) && LoopsDown(d, rank)
    && ForksApart(GraphOf(d, bodyOf))
  }

  lemma NoForks(d: WorkflowDef, bodyOf: map<Id, seq<Id>>)
    requires V.UniqueIds(d) && forall n | n in d.nodes :: !n.kind.ParallelFork?
    ensures TemplatesExact(d, {}) && ForksApart(GraphOf(d, bodyOf))
  {
    NodeMapFacts(d.nodes);
    assert forall f :: !IsFork(GraphOf(d, bodyOf), f);
    hide CloneId;
  }

  lemma NoForksNoLoops(d: WorkflowDef)
    requires V.UniqueIds(d) && forall n | n in d.nodes :: !n.kind.ParallelFork? && !n.kind.Loop?
    ensures TemplatesExact(d, {}) && BodiesExact(d, map[]) && ForksApart(GraphOf(d, map[]))
  {
    NoForks(d, map[]);
    hide ForksApart, V.UniqueIds;
  }

  lemma HangingRunnable(x: Kind)
    requires x == Transform("e") || x == Condition("e")
    ensures Runnable(Hanging(x), map[], HANGING_RANK)
  {
    HangingIds(x);
    HangingKinds(x);
    HangingValid(x);
    HangingDown(x);
    hide Hanging, ValidDef, LoopsDown, V.UniqueIds, NodeIds, GraphOf, ForksApart, TemplatesExact, BodiesExact;
    NoForksNoLoops(Hanging(x));
  }

  lemma HangingKinds(x: Kind)
    requires x == Transform("e") || x == Condition("e")
    ensures forall n | n in Hanging(x).nodes :: !n.kind.ParallelFork? && !n.kind.Loop?
  {
  }

  lemma HangingIds(x: Kind)
    ensures var d := Hanging(x); NodeIds(d) == {"c", "z", "x", "y"} && V.UniqueIds(d)
  {
    var d := Hanging(x);
    assert d.nodes[0].id == "c" && d.nodes[1].id == "z" && d.nodes[2].id == "x" && d.nodes[3].id == "y";
  }

  lemma HangingValid(x: Kind)
    requires x == Transform("e") || x == Condition("e")
    ensures ValidDef(Hanging(x))
  {
    HangingIds(x);
    hide NodeIds, V.UniqueIds;
    assert V.Ranked(Hanging(x).edges, map["c" := 0, "z" := 1, "x" := 1, "y" := 2]);
    hide V.Ranked;
  }

  lemma HangingDown(x: Kind)
    requires x == Transform("e") || x == Condition("e")
    ensures LoopsDown(Hanging(x), HANGING_RANK)
  {
    HangingIds(x);
    hide NodeIds, V.UniqueIds;
  }


  const TO_Z := Edge("c", "z", Unset, "a")
  const TO_X := Edge("c", "x", Unset, "b")
  const TO_Y := Edge("x", "y", Always, "")

  ghost predicate HangingEdges(s: State) {
    && (forall e :: e !in Ins(s, "c")) && (forall e :: e in Ins(s, "z") <==> e == TO_Z)
    && (forall e :: e in Ins(s, "x") <==> e == TO_X) && (forall e :: e in Ins(s, "y") <==> e == TO_Y)
    && (forall e :: e in Outs(s, "c") <==> e == TO_Z || e == TO_X) && (forall e :: e in Outs(s, "x") <==> e == TO_Y)
  }

  /** The states on the way: c, if it ran, took branch a, and x and y never ran. */
  ghost predicate HangingAt(x: Kind, t: State, c: Status, z: Status) {
    && HangingEdges(t) && t.states.Keys == {"c", "z", "x", "y"}
    && t.states["c"].node == Node("c", Condition("e")) && t.states["c"].status == c
       && (c.Completed? ==> t.states["c"].branch == "a")
    && t.states["z"].node == Node("z", Transform("e")) && t.states["z"].status == z
    && t.states["x"] == Fresh(Node("x", x)) && t.states["y"] == Fresh(Node("y", Transform("e")))
  }

  lemma HangingStart(x: Kind, s: State)
    requires FreshRun(GraphOf(Hanging(x), map[]), s)
    ensures HangingAt(x, s, Pending, Pending)
  {
    HangingEdgesOf(x, s);
    HangingNodes(x);
    hide Hanging, StaticOuts, StaticIns, NodeMap, HangingEdges;
  }

  lemma HangingEdgesOf(x: Kind, s: State)
    requires FreshRun(GraphOf(Hanging(x), map[]), s)
    ensures HangingEdges(s)
  {
    var edges := Hanging(x).edges;
    hide NodeMap, StaticOuts, StaticIns;
    forall k
      ensures forall e :: e in Outs(s, k) <==> e in edges && e.from == k
      ensures forall e :: e in Ins(s, k) <==> e in edges && e.to == k
    {
      StaticOutsAre(edges, k);
      StaticInsStatic(edges, k);
    }
  }

  lemma HangingNodes(x: Kind)
    ensures NodeMap(Hanging(x).nodes) == map["c" := Node("c", Condition("e")), "z" := Node("z", Transform("e")),
                                             "x" := Node("x", x),
                                              "y" := Node("y", Transform("e"))]
  {
    var c, z, x', y := Node("c", Condition("e")), Node("z", Transform("e")), Node("x", x), Node("y", Transform("e"));
    assert [c, z, x', y][..3] == [c, z, x'] && [c, z, x'][..2] == [c, z] && [c, z][..1] == [c] && [c][..0] == [];
    assert NodeMap([c]) == map["c" := c];
    assert NodeMap([c, z]) == map["c" := c, "z" := z];
    assert NodeMap([c, z, x']) == map["c" := c, "z" := z, "x" := x'];
  }

  lemma SameHanging(s: State, t: State)
    requires t.inE == s.inE && t.outE == s.outE
    ensures HangingEdges(t) == HangingEdges(s)
  {
    assert forall k :: Ins(t, k) == Ins(s, k) && Outs(t, k) == Outs(s, k);
  }

  lemma HangingFirst(x: Kind, w: World, s: State)
    requires HangingAt(x, s, Pending, Pending) && w == Yields(Str("a"))
    ensures Ready(s, "c") && !s.states["c"].node.kind.Loop? && HangingAt(x, Execute(w, s, "c"), Completed, Pending)
  {
    assert TO_Z in Outs(s, "c");
    ConditionDone(w, s, "c", "a");
    SameHanging(s, Execute(w, s, "c"));
    hide Execute, HangingEdges;
  }

  lemma HangingSecond(x: Kind, w: World, s: State)
    requires HangingAt(x, s, Completed, Pending) && w == Yields(Str("a"))
    ensures Ready(s, "z") && !s.states["z"].node.kind.Loop? && HangingAt(x, Execute(w, s, "z"), Completed, Completed)
  {
    TransformDone(w, s, "z");
    SameHanging(s, Execute(w, s, "z"));
    hide Execute, HangingEdges;
  }

  lemma HangingSteps(x: Kind, s: State)
    requires HangingAt(x, s, Pending, Pending)
    ensures var w := Yields(Str("a"));
            && Scheduled(w, map[], {}, s, HANGING_RUN) && HangingAt(x, AfterAll(w, map[], s, HANGING_RUN), Completed,
                                                                    Completed)
  {
    var w := Yields(Str("a"));
    HangingFirst(x, w, s);
    var s1 := Execute(w, s, "c");
    HangingSecond(x, w, s1);
    hide HangingAt, HangingEdges, Yields, Execute, InEdgesAllow;
    assert AfterAll(w, map[], s, Then(Start, Plain("c"))) == s1;
    assert Scheduled(w, map[], {}, s, Then(Start, Plain("c")));
  }

  lemma HangingRuns(x: Kind, s: State)
    requires FreshRun(GraphOf(Hanging(x), map[]), s)
    ensures var w := Yields(Str("a"));
            && Scheduled(w, map[], {}, s, HANGING_RUN) && HangingAt(x, AfterAll(w, map[], s, HANGING_RUN), Completed,
                                                                    Completed)
  {
    hide HangingAt, Scheduled, AfterAll, GraphOf, FreshRun;
    HangingStart(x, s);
    HangingSteps(x, s);
  }

  lemma HangingStops(x: Kind, t: State)
    requires HangingAt(x, t, Completed, Completed) && !x.Join?
    ensures AtFixedPoint(map[], {}, t) && UntakenIn(map[], {}, t) == {"x", "y"}
  {
    assert TO_X in Ins(t, "x") && TO_Y in Ins(t, "y");
    assert !EdgeHolds(t, TO_X) && !Ready(t, "x") && !Ready(t, "y");
    assert forall id :: id in t.states ==> id in {"c", "z", "x", "y"};
    hide HangingEdges, InEdgesAllow;
  }

  ghost predicate DeadlocksAt(t: State, order: seq<Id>, at: Id) {
    (forall id | id in order :: id in t.states) && S.SkipAll(t, order).Deadlock? && S.SkipAll(t, order).at == at
  }

  ghost predicate SkipsAll(t: State, order: seq<Id>) {
    (forall id | id in order :: id in t.states) && S.SkipAll(t, order).AllSkipped?
  }

  /** Map order decides: c took branch a, so x on branch b never ran, and y hangs on x. Visiting x first
      deadlocks at y, visiting y first skips both, and the run succeeds. */
  lemma OrderMattersExample(s: State)
    requires FreshRun(GraphOf(Hanging(Transform("e")), map[]), s)
    ensures Runnable(Hanging(Transform("e")), map[], HANGING_RANK)
    ensures var w := Yields(Str("a"));
            var t := AfterAll(w, map[], s, HANGING_RUN);
            && Scheduled(w, map[], {}, s, HANGING_RUN) && AtFixedPoint(map[], {}, t)
               && UntakenIn(map[], {}, t) == {"x", "y"}
            && DeadlocksAt(t, ["x", "y"], "y") && SkipsAll(t, ["y", "x"])
  {
    var x := Transform("e");
    var t := AfterAll(Yields(Str("a")), map[], s, HANGING_RUN);
    HangingRunnable(x);
    HangingRuns(x, s);
    HangingStops(x, t);
    hide Runnable, FreshRun, GraphOf, Hanging, Scheduled, AfterAll, AtFixedPoint, UntakenIn, DeadlocksAt, SkipsAll;
    SkipsBoth(t);
  }

  lemma SkipsBoth(t: State)
    requires HangingAt(Transform("e"), t, Completed, Completed)
    ensures DeadlocksAt(t, ["x", "y"], "y") && SkipsAll(t, ["y", "x"])
  {
    assert TO_Y in Ins(t, "y") && TO_X in Ins(t, "x");
    assert !AnyActiveIn(t, "x") && !AnyActiveIn(t, "y");
    S.SkipEffect(t, "x", "y");
    S.SkipEffect(t, "y", "x");
    var sy := Mark(t, "y", Skipped, NoOutput, "");
    hide AnyActiveIn;
    assert ["x", "y"][1..] == ["y"] && ["y", "x"][1..] == ["x"] && ["x"][1..] == [];
    assert S.SkipAll(sy, ["x"]).AllSkipped?;
  }

  /** When x is itself a condition no order saves the run: a condition that never ran still counts as
      leading to its fallback, and y is reported as deadlocked whatever comes first. */
  lemma FallbackExample(s: State)
    requires FreshRun(GraphOf(Hanging(Condition("e")), map[]), s)
    ensures Runnable(Hanging(Condition("e")), map[], HANGING_RANK)
    ensures var w := Yields(Str("a"));
            var t := AfterAll(w, map[], s, HANGING_RUN);
            && Scheduled(w, map[], {}, s, HANGING_RUN) && AtFixedPoint(map[], {}, t)
               && UntakenIn(map[], {}, t) == {"x", "y"}
            && forall order | S.Visits(order, {"x", "y"}) :: DeadlocksAt(t, order, "y")
  {
    var x := Condition("e");
    var t := AfterAll(Yields(Str("a")), map[], s, HANGING_RUN);
    HangingRunnable(x);
    HangingRuns(x, s);
    HangingStops(x, t);
    hide Runnable, FreshRun, GraphOf, Hanging, Scheduled, AfterAll, AtFixedPoint, UntakenIn, DeadlocksAt;
    forall order | S.Visits(order, {"x", "y"})
      ensures DeadlocksAt(t, order, "y")
    {
      NeverSkipsBoth(t, order);
    }
  }

  lemma NeverSkipsBoth(t: State, order: seq<Id>)
    requires HangingAt(Condition("e"), t, Completed, Completed)
    requires S.Visits(order, {"x", "y"})
    ensures DeadlocksAt(t, order, "y")
  {
    assert forall id | id in order :: id in t.states;
    assert TO_Y in Outs(t, "x") && TO_Y in Ins(t, "y") && EdgeHolds(t, TO_Y) && TO_X in Ins(t, "x");
    assert AnyActiveIn(t, "y") && !AnyActiveIn(t, "x");
    S.SkipEffect(t, "x", "y");
    hide EdgeHolds, AnyActiveIn, HangingEdges;
    assert "x" in order && "y" in order && order[0] in order;
    if order[0] != "y" {
      assert |order| > 1 && order[1] in order && order[1] == "y";
      var tx := Mark(t, "x", Skipped, NoOutput, "");
      assert order[1..][0] == "y";
      assert S.SkipAll(tx, order[1..]) == S.Deadlock(tx, "y");
      assert S.SkipAll(t, order) == S.SkipAll(tx, order[1..]);
    }
  }

  // ----- Two loops around one node -----

  function LoopNode(l: Id): Node {
    Node(l, Loop(Some(LoopSpec("b", "true", 1))))
  }

  const B := Node("b", Transform("e"))

  /** Two loops with one entry, each of one iteration. */
  function Shared(): WorkflowDef {
    WorkflowDef("shared", "1", [LoopNode("l"), LoopNode("m"), B], [])
  }

  const SHARED_BODIES: map<Id, seq<Id>> := map["l" := ["b"], "m" := ["b"]]
  const SHARED_RANK: map<Id, nat> := map["l" := 1, "m" := 1, "b" := 0]

  ghost function SharedNest(): Nest {
    Nest(GraphOf(Shared(), SHARED_BODIES), SHARED_BODIES, SHARED_RANK, 1)
  }

  function OneRound(l: Id): Step {
    Looped(l, Round(NoRound, Then(Start, Plain("b"))))
  }

  const SHARED_RUN := Then(Then(Start, OneRound("l")), OneRound("m"))

  lemma SharedRunnable()
    ensures Runnable(Shared(), SHARED_BODIES, SHARED_RANK)
  {
    SharedIds();
    SharedValid();
    SharedBodiesExact();
    SharedDown();
    hide Shared, ValidDef, LoopsDown, V.UniqueIds, NodeIds, GraphOf, ForksApart, TemplatesExact, BodiesExact;
    NoForks(Shared(), SHARED_BODIES);
  }

  lemma SharedIds()
    ensures var d := Shared();
            && NodeIds(d) == {"l", "m", "b"} && V.UniqueIds(d) && (forall n | n in d.nodes :: !n.kind.ParallelFork?)
            && NodeMap(d.nodes) == map["l" := LoopNode("l"), "m" := LoopNode("m"), "b" := B]
  {
    var d, l, m := Shared(), LoopNode("l"), LoopNode("m");
    assert d.nodes[0] == l && d.nodes[1] == m && d.nodes[2] == B;
    assert [l, m, B][..2] == [l, m] && [l, m][..1] == [l] && [l][..0] == [];
    assert NodeMap([l]) == map["l" := l];
    assert NodeMap([l, m]) == map["l" := l, "m" := m];
  }

  lemma SharedValid()
    ensures ValidDef(Shared())
  {
    SharedIds();
    hide NodeIds, NodeMap, V.UniqueIds;
    assert V.Ranked(Shared().edges, map[]);
  }

  lemma SharedDown()
    ensures LoopsDown(Shared(), SHARED_RANK)
  {
    SharedIds();
    hide NodeIds, NodeMap, V.UniqueIds;
  }

  lemma SharedBodiesExact()
    ensures BodiesExact(Shared(), SHARED_BODIES)
  {
    forall v
      ensures R.Reaches([], "b", v) <==> v == "b"
    {
      if v == "b" {
        assert R.IsPath([], ["b"]);
      }
    }
    assert LoopNode("l") in Shared().nodes && LoopNode("m") in Shared().nodes;
    hide R.Reaches, NodeMap;
  }

  ghost predicate SharedAt(t: State) {
    && (forall k :: Ins(t, k) == []) && t.states.Keys == {"l", "m", "b"}
    && t.states["l"].node == LoopNode("l") && t.states["m"].node == LoopNode("m") && t.states["b"].node == B
  }

  /** `t` is `s` after a change to `l` and `b`. */
  ghost predicate OnlyLoop(s: State, t: State, l: Id) {
    t.inE == s.inE && forall k | k in s.states && k != l && k != "b" :: k in t.states && t.states[k] == s.states[k]
  }

  lemma SharedStart(s: State)
    requires FreshRun(GraphOf(Shared(), SHARED_BODIES), s)
    ensures SharedAt(s) && s.states["l"].status.Pending? && s.states["m"].status.Pending?
  {
    SharedIds();
    assert Shared().edges == [];
    hide Shared, NodeMap;
    assert forall k :: Ins(s, k) == StaticIns([], k);
  }

  lemma BodyReset(w: World, s: State, l: Id)
    requires SharedAt(s) && l in {"l", "m"} && s.states[l].status.Pending?
    ensures Ready(s, l)
    ensures var s1 := Mark(s, l, Running, NoOutput, "");
            var r := ResetAll(s1, ["b"]);
            && SharedAt(r) && OnlyLoop(s, r, l) && r.states[l] == s.states[l].(status := Running)
               && r.states["b"] == Fresh(B)
  {
    var s1 := Mark(s, l, Running, NoOutput, "");
    assert ["b"][..0] == [];
    assert ResetBody(s1, ["b"], 0) == s1;
    assert forall k :: Ins(ResetAll(s1, ["b"]), k) == Ins(s, k);
  }

  lemma BodyRuns(w: World, s: State, l: Id)
    requires SharedAt(s) && l in {"l", "m"} && s.states["b"] == Fresh(B) && w == Yields(Bool(true))
    ensures Ready(s, "b")
    ensures var t := Execute(w, s, "b");
            SharedAt(t) && OnlyLoop(s, t, l) && t.states[l] == s.states[l] && t.states["b"].status.Completed?
  {
    TransformDone(w, s, "b");
    assert forall k :: Ins(Execute(w, s, "b"), k) == Ins(s, k);
    hide Execute;
  }

  lemma LoopCloses(w: World, t: State, l: Id)
    requires SharedAt(t) && l in {"l", "m"} && t.states["b"].status.Completed? && w == Yields(Bool(true))
    ensures Ended(w, SHARED_BODIES, t, l, OneRound(l).rounds) && !Ready(t, "b")
    ensures var u := Settled(w, LoopOutcome(w, SHARED_BODIES, t, l, 1), l); SharedAt(u) && OnlyLoop(t, u, l)
  {
    assert Count(OneRound(l).rounds) == 1;
    assert FirstStuck(t, ["b"]) == None by {
      assert ["b"][1..] == [];
    }
    assert LoopOutcome(w, SHARED_BODIES, t, l, 1) == Outcome(Finish(t, l, Single("iterations", Num(1))), None);
    assert forall k :: Ins(Finish(t, l, Single("iterations", Num(1))), k) == Ins(t, k);
  }

  /** The round as a tree. */
  lemma RoundIs(w: World, s: State, l: Id, r: State, t: State)
    requires l in SHARED_BODIES && r == ResetAll(s, ["b"]) && Ready(r, "b") && !r.states["b"].node.kind.Loop?
    requires t == Execute(w, r, "b") && !Ready(t, "b")
    ensures var rounds := OneRound(l).rounds;
            ValidRounds(w, SHARED_BODIES, s, l, rounds) && AfterRounds(w, SHARED_BODIES, s, l, rounds) == t
  {
    hide Execute, ResetAll, InEdgesAllow;
    var steps := Then(Start, Plain("b"));
    assert BodyOf(SHARED_BODIES, l) == ["b"];
    assert AfterAll(w, SHARED_BODIES, r, Start) == r;
    assert AfterAll(w, SHARED_BODIES, r, steps) == t;
    assert AfterRounds(w, SHARED_BODIES, s, l, NoRound) == s;
    assert ValidAll(w, SHARED_BODIES, r, ["b"], Start);
    assert ValidAll(w, SHARED_BODIES, r, ["b"], steps);
  }

  lemma LoopDone(w: World, s: State, l: Id)
    requires SharedAt(s) && l in {"l", "m"} && s.states[l].status.Pending? && w == Yields(Bool(true))
    ensures ValidStep(w, SHARED_BODIES, s, OneRound(l))
    ensures var t := After(w, SHARED_BODIES, s, OneRound(l)); SharedAt(t) && OnlyLoop(s, t, l)
  {
    var s1 := Mark(s, l, Running, NoOutput, "");
    BodyReset(w, s, l);
    var r := ResetAll(s1, ["b"]);
    BodyRuns(w, r, l);
    var t := Execute(w, r, "b");
    LoopCloses(w, t, l);
    RoundIs(w, s1, l, r, t);
    OnlyLoopTwice(s, r, t, l);
    OnlyLoopTwice(s, t, Settled(w, LoopOutcome(w, SHARED_BODIES, t, l, 1), l), l);
    hide Execute, ResetAll, LoopOutcome, Yields, InEdgesAllow, Ended, Settled, ValidRounds, AfterRounds, OnlyLoop, Mark,
      SharedAt;
    assert Count(OneRound(l).rounds) == 1;
  }

  lemma OnlyLoopTwice(s: State, r: State, t: State, l: Id)
    requires OnlyLoop(s, r, l) && OnlyLoop(r, t, l)
    ensures OnlyLoop(s, t, l)
  {
  }

  lemma SharedSteps(w: World, s: State)
    requires SharedAt(s) && s.states["l"].status.Pending? && s.states["m"].status.Pending? && w == Yields(Bool(true))
    ensures ValidStep(w, SHARED_BODIES, s, OneRound("l"))
    ensures ValidStep(w, SHARED_BODIES, After(w, SHARED_BODIES, s, OneRound("l")), OneRound("m"))
  {
    LoopDone(w, s, "l");
    var s1 := After(w, SHARED_BODIES, s, OneRound("l"));
    hide ValidStep, After, Yields;
    assert s1.states["m"] == s.states["m"];
    LoopDone(w, s1, "m");
  }

  lemma SharedRuns(s: State)
    requires FreshRun(GraphOf(Shared(), SHARED_BODIES), s)
    ensures Scheduled(Yields(Bool(true)), SHARED_BODIES, {}, s, SHARED_RUN)
  {
    var w := Yields(Bool(true));
    SharedStart(s);
    hide FreshRun, ValidStep, After, Yields, GraphOf;
    SharedSteps(w, s);
    hide SharedAt, OneRound;
    MainLoops();
    assert AfterAll(w, SHARED_BODIES, s, Start) == s;
    assert AfterAll(w, SHARED_BODIES, s, Then(Start, OneRound("l"))) == After(w, SHARED_BODIES, s, OneRound("l"));
  }

  lemma MainLoops()
    ensures OneRound("l").id == "l" && OneRound("m").id == "m"
    ensures !IsLoopBody(SHARED_BODIES, "l") && !IsLoopBody(SHARED_BODIES, "m")
  {
  }

  lemma SharedOwners()
    ensures var e := SharedNest(); Owners(e, "b") == {"l", "m"} && Owners(e, "l") == {} && Owners(e, "m") == {}
  {
    hide GraphOf;
  }

  lemma SharedAttempts()
    ensures var e := SharedNest();
            && Attempts(e, "l") == 1 && Attempts(e, "m") == 1 && Attempts(e, "b") == 1 && Iter(e, "l") == 1
               && Iter(e, "m") == 1
  {
    SharedIds();
    hide Shared, NodeMap, NodeIds, V.UniqueIds;
  }

  lemma SharedLimits()
    requires Climbs(SharedNest())
    ensures Product(SharedNest(), "b") == 1 && Allowance(SharedNest(), "b") == 2
  {
    hide Owners, Attempts, Iter, Sum, SharedNest, Climbs;
    SharedOwners();
    SharedAttempts();
    var e := SharedNest();
    assert Allowance(e, "l") == 1 && Allowance(e, "m") == 1 && Product(e, "l") == 1 && Product(e, "m") == 1;
    var sum := map l | l in Owners(e, "b") :: Iter(e, l) * Allowance(e, l);
    assert sum == map["l" := 1, "m" := 1];
    SumSplit(sum, "l");
    SumOne(sum - {"l"}, "m");
  }

  /** The product is no bound when two bodies share a node: each loop has one iteration, each node one
      attempt, and the shared node starts twice, as often as its allowance says. */
  lemma SharedBodyExample(s: State)
    requires FreshRun(GraphOf(Shared(), SHARED_BODIES), s)
    ensures Runnable(Shared(), SHARED_BODIES, SHARED_RANK) && NestOk(SharedNest()) && Climbs(SharedNest())
    ensures RunOf(SharedNest(), Yields(Bool(true)), {}, s, SHARED_RUN)
    ensures Starts(AfterAll(Yields(Bool(true)), SHARED_BODIES, s, SHARED_RUN).events, "b") == 2
    ensures Product(SharedNest(), "b") == 1 && Allowance(SharedNest(), "b") == 2
  {
    hide FreshRun, Scheduled, AfterAll, Runnable, NestOk, Climbs, Allowance, Product, Starts, Shared, GraphOf;
    SharedRuns(s);
    SharedRunnable();
    SharedNestOk();
    OwnersHigher(SharedNest());
    SharedLimits();
    RunCounts(SharedNest(), Yields(Bool(true)), {}, s, SHARED_RUN, "b");
  }

  lemma SharedNestOk()
    ensures NestOk(SharedNest())
  {
    SharedRunnable();
    hide ValidDef, BodiesExact, LoopsDown, ForksApart, GraphOf;
    EngineReady(Shared(), SHARED_BODIES, SHARED_RANK);
    hide Disciplined;
  }

  // ----- A racing read -----

  /** Two nodes without edges; every expression asks whether a has written its output yet. */
  function Racing(): WorkflowDef {
    WorkflowDef("racing", "1", [Node("a", Transform("e")), B], [])
  }

  function AsksForA(): World {
    Evaluator((x: Expr, sc: Scope) => Evaluated(Bool("a" in sc)))
  }

  function Mentioned(x: Expr): set<string> {
    {"a"}
  }

  lemma RacingIds()
    ensures var d := Racing();
            && NodeIds(d) == {"a", "b"} && V.UniqueIds(d)
               && (forall n | n in d.nodes :: !n.kind.ParallelFork? && !n.kind.Loop?)
            && NodeMap(d.nodes) == map["a" := Node("a", Transform("e")), "b" := B]
  {
    var d, a := Racing(), Node("a", Transform("e"));
    assert d.nodes[0] == a && d.nodes[1] == B;
    assert [a, B][..1] == [a] && [a][..0] == [];
    assert NodeMap([a]) == map["a" := a];
  }

  lemma RacingReady()
    ensures ValidDef(Racing()) && CE.LoopFreeRun(GraphOf(Racing(), map[]), map[], {})
  {
    RacingIds();
    assert V.Ranked(Racing().edges, map[]);
    hide NodeMap, NodeIds, V.UniqueIds;
    NoForksNoLoops(Racing());
    hide Racing, ValidDef, BodiesExact, TemplatesExact, ForksApart, CE.LoopFreeRun, GraphOf, Disciplined;
    var rank := CE.LoopFreeReady(Racing(), map[], {});
  }

  lemma RacingWorld()
    ensures C.Steady(AsksForA()) && C.Reading(AsksForA(), Mentioned)
    ensures !C.ReadsAncestors(GraphOf(Racing(), map[]), Mentioned)
  {
    var g := GraphOf(Racing(), map[]);
    RacingIds();
    assert g.edges == [];
    hide Racing, NodeMap, NodeIds, V.UniqueIds;
    assert forall a: Scope, b: Scope | C.AgreeOn(a, b, {"a"}) :: "a" in a <==> "a" in b;
    assert !C.IsTemplate(g, "b") && "a" in Mentioned("e") && C.Written(g, "a");
    assert !C.Before(g, "a", "b");
  }

  ghost predicate RacingAt(s: State) {
    && (forall k :: Ins(s, k) == []) && s.states.Keys == {"a", "b"}
    && s.states["a"].node == Node("a", Transform("e")) && s.states["b"].node == B
  }

  lemma RacingStart(s: State)
    requires FreshRun(GraphOf(Racing(), map[]), s)
    ensures RacingAt(s) && s.states["a"].status.Pending? && s.states["b"].status.Pending?
  {
    RacingIds();
    assert Racing().edges == [];
    hide Racing, NodeMap, NodeIds, V.UniqueIds;
    assert forall k :: Ins(s, k) == StaticIns([], k);
  }

  lemma RacingStep(s: State, id: Id)
    requires RacingAt(s) && id in {"a", "b"} && s.states[id].status.Pending?
    ensures Ready(s, id) && !s.states[id].node.kind.Loop?
    ensures var t := Execute(AsksForA(), s, id);
            RacingAt(t) && Done(s, t, id, Bool("a" in s.scope), s.states[id].branch)
  {
    TransformDone(AsksForA(), s, id);
    assert forall k :: Ins(Execute(AsksForA(), s, id), k) == Ins(s, k);
    hide Execute;
  }

  lemma RacingOrder(s: State, i: Id, j: Id) returns (t: State)
    requires RacingAt(s) && {i, j} == {"a", "b"} && s.states["a"].status.Pending? && s.states["b"].status.Pending?
             && s.scope == map[]
    ensures Follows(AsksForA(), map[], {}, s, [i, j], t) && AtFixedPoint(map[], {}, t)
    ensures "b" in t.states && t.states["b"].output == Value(Bool(j == "b"))
  {
    RacingStep(s, i);
    var s1 := Execute(AsksForA(), s, i);
    RacingStep(s1, j);
    t := Execute(AsksForA(), s1, j);
    hide Execute, AsksForA, InEdgesAllow;
    FollowsNone(AsksForA(), map[], {}, s);
    FollowsSnoc(AsksForA(), map[], {}, s, [], s, i);
    FollowsSnoc(AsksForA(), map[], {}, s, [i], s1, j);
    assert [] + [i] == [i] && [i] + [j] == [i, j];
  }

  /** Without the condition that expressions mention only what settled before, two orders of one run
      can end differently: here b tells whether a ran first. */
  lemma RacingRead(s: State) returns (t: State, u: State)
    requires FreshRun(GraphOf(Racing(), map[]), s) && s.scope == map[]
    ensures ValidDef(Racing()) && CE.LoopFreeRun(GraphOf(Racing(), map[]), map[], {})
    ensures C.Steady(AsksForA()) && C.Reading(AsksForA(), Mentioned)
            && !C.ReadsAncestors(GraphOf(Racing(), map[]), Mentioned)
    ensures Follows(AsksForA(), map[], {}, s, ["a", "b"], t) && AtFixedPoint(map[], {}, t)
    ensures Follows(AsksForA(), map[], {}, s, ["b", "a"], u) && AtFixedPoint(map[], {}, u)
    ensures "b" in t.states && "b" in u.states && t.states["b"].output != u.states["b"].output
  {
    hide GraphOf, ValidDef, CE.LoopFreeRun, C.Steady, C.Reading, C.ReadsAncestors, Follows, AtFixedPoint;
    RacingReady();
    RacingWorld();
    RacingStart(s);
    hide FreshRun, RacingAt;
    t := RacingOrder(s, "a", "b");
    u := RacingOrder(s, "b", "a");
  }
}
