/** A numbering of the nodes of a run, and the outcome of the last pass. */
module EngineOrder {
  import opened WorkflowDef
  import opened EngineState
  import opened EngineInvariants
  import opened EngineSteps
  import opened EngineFork
  import opened EngineFrames
  import opened EngineLoops
  import opened EngineOrigin
  import opened EngineSchedule
  import opened EngineSetup
  import S = SkipPass
  import V = Validation

  // ----- The edges around clones -----

  function FirstClone(g: Graph, f: Id): Edge
    requires IsFork(g, f)
  {
    Edge(f, CloneId(Tpl(g, f), 0), Always, "")
  }

  /** An in-edge of a clone comes from its fork. When the template is a join and the fork feeds no join of
      the definition, the first clone also collects the later ones. */
  ghost predicate IntoClone(g: Graph, k: Id, e: Edge) {
    exists f, i: nat :: IsFork(g, f) && k == CloneId(Tpl(g, f), i) &&
      (e.from == f || (i == 0 && exists m: nat :: e.from == CloneId(Tpl(g, f), m)))
  }

  /** The out-edges of a fork are those of the definition, and then those to its clones, the first one first. */
  ghost predicate ForkOuts(g: Graph, s: State, f: Id)
    requires IsFork(g, f)
  {
    && (forall e | e in Outs(s, f) :: e in StaticOuts(g.edges, f) || exists i: nat :: e.to == CloneId(Tpl(g, f), i))
    && (Outs(s, f) == StaticOuts(g.edges, f) || StaticOuts(g.edges, f) + [FirstClone(g, f)] <= Outs(s, f))
  }

  ghost predicate CloneOk(g: Graph, s: State) {
    && (forall f | IsFork(g, f) :: ForkOuts(g, s, f))
    && (forall k, e | k !in g.nodes && e in Ins(s, k) :: IntoClone(g, k, e))
  }

  lemma {:induction false} FirstJoinNext(states: map<Id, NodeState>, a: seq<Edge>, e: Edge)
    requires FirstJoin(states, a).None? && e.to in states && states[e.to].node.kind.Join?
    ensures FirstJoin(states, a + [e]) == Some(e.to)
  {
    if a != [] {
      FirstJoinNext(states, a[1..], e);
      assert (a + [e])[1..] == a[1..] + [e];
    }
  }

  /** The join that an expansion feeds is a static node or the fork's first clone. */
  lemma JoinIsFirst(g: Graph, s: State, f: Id)
    requires GraphOk(g) && ForksApart(g) && Shape(g, s) && CloneOk(g, s) && IsFork(g, f)
    ensures var join := FirstJoin(s.states, Outs(s, f));
            join.None? || join.value in g.nodes || join == Some(CloneId(Tpl(g, f), 0))
  {
    var join := FirstJoin(s.states, Outs(s, f));
    assert ForkOuts(g, s, f);
    hide CloneId, FirstJoin, Shape, CloneOk, ForksApart, GraphOk;
    if join.Some? && join.value !in g.nodes {
      JoinIsClone(g, s, f);
    }
  }

  lemma JoinIsClone(g: Graph, s: State, f: Id)
    requires GraphOk(g) && ForksApart(g) && Shape(g, s) && IsFork(g, f) && ForkOuts(g, s, f)
    requires FirstJoin(s.states, Outs(s, f)).Some? && FirstJoin(s.states, Outs(s, f)).value !in g.nodes
    ensures FirstJoin(s.states, Outs(s, f)).value == CloneId(Tpl(g, f), 0)
  {
    var join := FirstJoin(s.states, Outs(s, f));
    FirstIsJoin(s.states, Outs(s, f));
    var e :| e in Outs(s, f) && e.to == join.value;
    hide CloneId, FirstJoin, Shape, ForksApart, FirstClone;
    StaticOutsAre(g.edges, f);
    assert e !in StaticOuts(g.edges, f) by {
      hide ForkOuts;
    }
    hide GraphOk;
    var i: nat :| e.to == CloneId(Tpl(g, f), i);
    assert FirstClone(g, f) in StaticOuts(g.edges, f) + [FirstClone(g, f)];
    CloneKind(g, s, f, i);
    JoinAfterStatic(g, s, f);
  }

  lemma JoinAfterStatic(g: Graph, s: State, f: Id)
    requires GraphOk(g) && IsFork(g, f) && StaticOuts(g.edges, f) + [FirstClone(g, f)] <= Outs(s, f)
    requires CloneId(Tpl(g, f), 0) in s.states && s.states[CloneId(Tpl(g, f), 0)].node.kind.Join?
    ensures var join := FirstJoin(s.states, Outs(s, f));
            join.Some? && (join.value in g.nodes || join.value == CloneId(Tpl(g, f), 0))
  {
    var outs := StaticOuts(g.edges, f);
    hide CloneId, FirstJoin;
    if FirstJoin(s.states, outs).Some? {
      FirstJoinPrefix(s.states, outs, Outs(s, f));
      StaticJoin(g, s, f);
    } else {
      FirstJoinNext(s.states, outs, FirstClone(g, f));
      FirstJoinPrefix(s.states, outs + [FirstClone(g, f)], Outs(s, f));
    }
  }

  lemma StaticJoin(g: Graph, s: State, f: Id)
    requires GraphOk(g) && FirstJoin(s.states, StaticOuts(g.edges, f)).Some?
    ensures FirstJoin(s.states, StaticOuts(g.edges, f)).value in g.nodes
  {
    FirstIsJoin(s.states, StaticOuts(g.edges, f));
    StaticOutsAre(g.edges, f);
  }

  /** The first clone is of the same kind as any other. */
  lemma CloneKind(g: Graph, s: State, f: Id, i: nat)
    requires ForksApart(g) && Shape(g, s) && IsFork(g, f) && CloneId(Tpl(g, f), i) in s.states
             && FirstClone(g, f) in Outs(s, f)
    ensures CloneId(Tpl(g, f), 0) in s.states
    ensures s.states[CloneId(Tpl(g, f), 0)].node.kind == s.states[CloneId(Tpl(g, f), i)].node.kind
  {
    ShapeParts(g, s);
    hide CloneId, NodeShape;
    assert FirstClone(g, f).to in s.states;
    OneKind(g, s, f, i);
    OneKind(g, s, f, 0);
  }

  lemma ShapeParts(g: Graph, s: State)
    requires Shape(g, s)
    ensures NodeShape(g, s) && EdgeShape(g, s)
  {
  }

  lemma OneKind(g: Graph, s: State, f: Id, i: nat)
    requires ForksApart(g) && NodeShape(g, s) && IsFork(g, f) && CloneId(Tpl(g, f), i) in s.states
    ensures Tpl(g, f) in g.nodes && s.states[CloneId(Tpl(g, f), i)].node.kind == g.nodes[Tpl(g, f)].kind
  {
    var k := CloneId(Tpl(g, f), i);
    assert k !in g.nodes;
    var h :| IsFork(g, h) && CloneOf(g, k, h) && LikeTemplate(g, s.states[k].node, h);
    var j: nat :| k == CloneId(Tpl(g, h), j);
    OtherFork(g, f, i, h, j);
  }

  // ----- Expanding a fork -----

  lemma AddedIns(s: State, e: Edge)
    ensures forall k :: Ins(AddEdge(s, e), k) == if k == e.to then Ins(s, k) + [e] else Ins(s, k)
    ensures forall k :: Outs(AddEdge(s, e), k) == if k == e.from then Outs(s, k) + [e] else Outs(s, k)
  {
  }

  /** `t` has the edges of `s` and those of the clone `c` of `f`. */
  ghost predicate ClonedEdges(s: State, t: State, f: Id, c: Id, join: Option<Id>) {
    && (forall k, e | e in Ins(t, k) && e !in Ins(s, k) ::
          (k == c && e.from == f) || (join == Some(k) && e.from == c))
    && (forall k | k != f && k != c :: Outs(t, k) == Outs(s, k))
    && (f != c ==> Outs(t, f) == Outs(s, f) + [Edge(f, c, Always, "")])
  }

  lemma CloneAdds(g: Graph, s: State, t: State, f: Id, i: nat, join: Option<Id>)
    requires ForksApart(g) && CloneOk(g, s) && IsFork(g, f)
    requires join.None? || join.value in g.nodes || join == Some(CloneId(Tpl(g, f), 0))
    requires ClonedEdges(s, t, f, CloneId(Tpl(g, f), i), join)
    requires i > 0 ==> Outs(s, f) != StaticOuts(g.edges, f)
    ensures CloneOk(g, t) && Outs(t, f) != StaticOuts(g.edges, f)
  {
    var c := CloneId(Tpl(g, f), i);
    assert c !in g.nodes;
    hide CloneId, ForksApart;
    assert ForkOuts(g, s, f);
    forall h | IsFork(g, h)
      ensures ForkOuts(g, t, h)
    {
      assert ForkOuts(g, s, h);
    }
    hide ClonedEdges;
    forall k, e | k !in g.nodes && e in Ins(t, k)
      ensures IntoClone(g, k, e)
    {
      if e in Ins(s, k) {
        assert IntoClone(g, k, e);
      } else {
        NewIns(s, t, f, c, join, k, e);
        IntoOwn(g, f, i, k, e);
      }
    }
  }

  lemma NewIns(s: State, t: State, f: Id, c: Id, join: Option<Id>, k: Id, e: Edge)
    requires ClonedEdges(s, t, f, c, join) && e in Ins(t, k) && e !in Ins(s, k)
    ensures (k == c && e.from == f) || (join == Some(k) && e.from == c)
  {
  }

  lemma IntoOwn(g: Graph, f: Id, i: nat, k: Id, e: Edge)
    requires IsFork(g, f)
    requires (k == CloneId(Tpl(g, f), i) && e.from == f)
             || (k == CloneId(Tpl(g, f), 0) && e.from == CloneId(Tpl(g, f), i))
    ensures IntoClone(g, k, e)
  {
    hide CloneId;
  }

  lemma {:induction false} ClonesAdd(g: Graph, s: State, f: Id, tpl: Node, join: Option<Id>, items: seq<Json>, n: nat)
    requires ForksApart(g) && CloneOk(g, s) && IsFork(g, f) && n <= |items|
    requires join.None? || join.value in g.nodes || join == Some(CloneId(Tpl(g, f), 0))
    ensures var t := AddClones(s, f, tpl, Tpl(g, f), join, items, n);
            CloneOk(g, t) && (n > 0 ==> Outs(t, f) != StaticOuts(g.edges, f))
  {
    hide CloneId, CloneOk;
    if n > 0 {
      var t := AddClones(s, f, tpl, Tpl(g, f), join, items, n - 1);
      ClonesAdd(g, s, f, tpl, join, items, n - 1);
      OneClone(g, t, f, tpl, join, items[n - 1], n - 1);
    }
  }

  lemma OneClone(g: Graph, s: State, f: Id, tpl: Node, join: Option<Id>, item: Json, i: nat)
    requires ForksApart(g) && CloneOk(g, s) && IsFork(g, f) && (i > 0 ==> Outs(s, f) != StaticOuts(g.edges, f))
    requires join.None? || join.value in g.nodes || join == Some(CloneId(Tpl(g, f), 0))
    ensures var t := AddClone(s, f, tpl, Tpl(g, f), join, item, i);
            CloneOk(g, t) && Outs(t, f) != StaticOuts(g.edges, f)
  {
    AddedClone(s, f, tpl, Tpl(g, f), join, item, i);
    hide CloneId, ForksApart, CloneOk, AddClone;
    CloneAdds(g, s, AddClone(s, f, tpl, Tpl(g, f), join, item, i), f, i, join);
  }

  lemma AddedClone(s: State, f: Id, tpl: Node, template: Id, join: Option<Id>, item: Json, i: nat)
    ensures ClonedEdges(s, AddClone(s, f, tpl, template, join, item, i), f, CloneId(template, i), join)
  {
    var c := CloneId(template, i);
    hide CloneId, AddEdge, Put;
    var s1 := Put(s, c, Fresh(tpl.(id := c)));
    var a := AddEdge(s1, Edge(f, c, Always, ""));
    var s2 := a.(scope := s.scope[c := item]);
    assert s1.inE == s.inE && s1.outE == s.outE by {
      SameEdges(s, c, Fresh(tpl.(id := c)));
    }
    LinkedOnce(s, s1, a, Edge(f, c, Always, ""));
    if join.Some? {
      var b := Edge(c, join.value, Always, "");
      LinkedOnce(a, s2, AddEdge(s2, b), b);
      LinkedTwice(s, a, AddEdge(s2, b), f, c, join);
    }
  }

  lemma SameEdges(s: State, c: Id, ns: NodeState)
    ensures Put(s, c, ns).inE == s.inE && Put(s, c, ns).outE == s.outE
  {
  }

  /** `t` has one edge more. */
  ghost predicate OneMore(s: State, t: State, e: Edge) {
    && (forall k :: Ins(t, k) == if k == e.to then Ins(s, k) + [e] else Ins(s, k))
    && (forall k :: Outs(t, k) == if k == e.from then Outs(s, k) + [e] else Outs(s, k))
  }

  lemma LinkedOnce(s: State, s1: State, t: State, e: Edge)
    requires s1.inE == s.inE && s1.outE == s.outE && t == AddEdge(s1, e)
    ensures OneMore(s, t, e)
    ensures forall f, c | e == Edge(f, c, Always, "") :: ClonedEdges(s, t, f, c, None)
  {
    AddedIns(s1, e);
    assert forall k :: Ins(s1, k) == Ins(s, k) && Outs(s1, k) == Outs(s, k);
    hide AddEdge;
  }

  lemma LinkedTwice(s: State, a: State, t: State, f: Id, c: Id, join: Option<Id>)
    requires join.Some? && OneMore(s, a, Edge(f, c, Always, "")) && OneMore(a, t, Edge(c, join.value, Always, ""))
    ensures ClonedEdges(s, t, f, c, join)
  {
    forall k, e | e in Ins(t, k) && e !in Ins(s, k)
      ensures (k == c && e.from == f) || (join == Some(k) && e.from == c)
    {
      assert Ins(t, k) == if k == join.value then Ins(a, k) + [Edge(c, join.value, Always, "")] else Ins(a, k);
      assert Ins(a, k) == if k == c then Ins(s, k) + [Edge(f, c, Always, "")] else Ins(s, k);
    }
  }

  // ----- Whole runs -----

  lemma SameClones(g: Graph, s: State, t: State)
    requires CloneOk(g, s) && t.inE == s.inE && t.outE == s.outE
    ensures CloneOk(g, t)
  {
    assert forall k :: Ins(t, k) == Ins(s, k) && Outs(t, k) == Outs(s, k);
    hide CloneId;
    forall f | IsFork(g, f)
      ensures ForkOuts(g, t, f)
    {
      assert ForkOuts(g, s, f);
    }
  }

  lemma OwnClonesOk(g: Graph, s: State, t: State, id: Id)
    requires CloneOk(g, s) && OwnStep(s, t, id)
    ensures CloneOk(g, t)
  {
    SameClones(g, s, t);
  }

  lemma ForkClones(g: Graph, w: World, s: State, id: Id)
    requires GraphOk(g) && ForksApart(g) && Shape(g, s) && CloneOk(g, s) && IsFork(g, id) && id in s.states
    requires s.states[id].node == g.nodes[id]
    ensures CloneOk(g, Execute(w, s, id))
  {
    var s1 := Mark(s, id, Running, NoOutput, "");
    MarkOwn(s, id, Running, NoOutput, "");
    OwnOrigin(g, s, s1, id);
    OwnClonesOk(g, s, s1, id);
    ForkComputes(g, w, s, s1, id);
    hide Shape, CloneOk, Finish, AddClones, FailOrRetry, CloneId, Mark, Execute, FirstJoin;
    var reply := w.eval(g.nodes[id].kind.fanOut.value.itemsExpr, s1.scope);
    if reply.Evaluated? && reply.value.Arr? && Tpl(g, id) in s1.states {
      var items := reply.value.elems;
      var tpl, join := s1.states[Tpl(g, id)].node, FirstJoin(s1.states, Outs(s1, id));
      var grown := AddClones(s1, id, tpl, Tpl(g, id), join, items, |items|);
      JoinIsFirst(g, s1, id);
      ClonesAdd(g, s1, id, tpl, join, items, |items|);
      FinishLast(grown, id, Single("count", Num(|items|)));
      SameClones(g, grown, Finish(grown, id, Single("count", Num(|items|))));
    } else {
      var msg :| Execute(w, s, id) == FailOrRetry(w, s1, id, msg);
      FailureClones(g, w, s, s1, id, msg);
    }
  }

  lemma FailureClones(g: Graph, w: World, s: State, s1: State, id: Id, msg: string)
    requires id in s.states && s1 == Mark(s, id, Running, NoOutput, "") && CloneOk(g, s1)
    ensures CloneOk(g, FailOrRetry(w, s1, id, msg))
  {
    FailureOwn(w, s1, id, msg);
    hide FailOrRetry, CloneOk;
    OwnClonesOk(g, s1, FailOrRetry(w, s1, id, msg), id);
  }

  lemma PlainClones(g: Graph, w: World, s: State, id: Id)
    requires GraphOk(g) && ForksApart(g) && Shape(g, s) && CloneOk(g, s) && id in s.states
             && !s.states[id].node.kind.Loop?
    requires s.states[id].node.kind.ParallelFork? ==> IsFork(g, id) && s.states[id].node == g.nodes[id]
    ensures CloneOk(g, Execute(w, s, id))
  {
    if s.states[id].node.kind.ParallelFork? {
      ForkClones(g, w, s, id);
    } else {
      ExecuteOwn(w, s, id);
      OwnClonesOk(g, s, Execute(w, s, id), id);
    }
  }

  lemma StepClones(g: Graph, bodyOf: map<Id, seq<Id>>, rank: map<Id, nat>, w: World, s: State, st: Step)
    requires Disciplined(g, bodyOf, rank) && Inv(g, s) && ValidStep(w, bodyOf, s, st) && CloneOk(g, s)
    ensures CloneOk(g, After(w, bodyOf, s, st))
    decreases st
  {
    hide Execute, LoopOutcome, Settled, Disciplined, Inv, Below, Ended, InEdgesAllow, CloneOk, Shape;
    GraphFacts(g, bodyOf, rank);
    var id := st.id;
    NodeFacts(g, s, id);
    ForkStatic(g, bodyOf, rank, s, id);
    match st
    case Plain(_) =>
      ShapeOf(g, s);
      StaticNode(g, s, id);
      PlainClones(g, w, s, id);
    case Looped(_, rounds) =>
      var s1 := Mark(s, id, Running, NoOutput, "");
      StartKeeps(g, s, id);
      LoopStarts(s, id);
      SameClones(g, s, s1);
      hide Mark;
      RoundsClones(g, bodyOf, rank, w, s1, id, rounds);
      RoundsOutcome(g, bodyOf, rank, w, s1, id, rounds);
      var s2 := AfterRounds(w, bodyOf, s1, id, rounds);
      EndEdges(w, bodyOf, s2, id, Count(rounds));
      SameClones(g, s2, After(w, bodyOf, s, st));
  }

  lemma StepsClones(g: Graph, bodyOf: map<Id, seq<Id>>, rank: map<Id, nat>, w: World, s: State, l: Id, steps: Steps)
    requires Disciplined(g, bodyOf, rank) && Inv(g, s) && ValidAll(w, bodyOf, s, BodyOf(bodyOf, l), steps)
             && CloneOk(g, s)
    ensures CloneOk(g, AfterAll(w, bodyOf, s, steps))
    decreases steps
  {
    hide CloneOk, After, Disciplined, Inv, Below, ValidStep;
    if steps.Then? {
      StepsClones(g, bodyOf, rank, w, s, l, steps.before);
      StepsOutcome(g, bodyOf, rank, w, s, l, steps.before);
      StepClones(g, bodyOf, rank, w, AfterAll(w, bodyOf, s, steps.before), steps.last);
    }
  }

  lemma RoundsClones(g: Graph, bodyOf: map<Id, seq<Id>>, rank: map<Id, nat>, w: World, s: State, id: Id, rounds: Rounds)
    requires Disciplined(g, bodyOf, rank) && Inv(g, s) && id in s.states && ValidRounds(w, bodyOf, s, id, rounds)
             && CloneOk(g, s)
    ensures CloneOk(g, AfterRounds(w, bodyOf, s, id, rounds))
    decreases rounds
  {
    hide CloneOk, ResetBody, Disciplined, Inv, Below, Quiet, ValidAll;
    if rounds.Round? {
      var t := AfterRounds(w, bodyOf, s, id, rounds.before);
      var body := BodyOf(bodyOf, id);
      RoundsClones(g, bodyOf, rank, w, s, id, rounds.before);
      RoundsOutcome(g, bodyOf, rank, w, s, id, rounds.before);
      ResetOutcome(g, bodyOf, rank, t, id);
      ResetEdges(t, body, |body|);
      SameClones(g, t, ResetAll(t, body));
      StepsClones(g, bodyOf, rank, w, ResetAll(t, body), id, rounds.steps);
    }
  }

  lemma {:induction false} RunClones(g: Graph, bodyOf: map<Id, seq<Id>>, templates: set<Id>, rank: map<Id, nat>,
                                     w: World, s: State, steps: Steps)
    requires Disciplined(g, bodyOf, rank) && FreshRun(g, s) && Scheduled(w, bodyOf, templates, s, steps)
    ensures CloneOk(g, AfterAll(w, bodyOf, s, steps))
    decreases steps
  {
    GraphFacts(g, bodyOf, rank);
    FreshInv(g, s);
    hide CloneOk, After, Disciplined, Inv, ValidStep, IsLoopBody, FreshRun;
    if steps.Start? {
      FreshClones(g, s);
    } else {
      RunClones(g, bodyOf, templates, rank, w, s, steps.before);
      ScheduleKeeps(g, bodyOf, templates, rank, w, s, steps.before);
      StepClones(g, bodyOf, rank, w, AfterAll(w, bodyOf, s, steps.before), steps.last);
    }
  }

  lemma FreshClones(g: Graph, s: State)
    requires GraphOk(g) && FreshRun(g, s)
    ensures CloneOk(g, s)
  {
    forall k, e | e in Ins(s, k)
      ensures k in g.nodes
    {
      StaticInsStatic(g.edges, k);
    }
    hide CloneId;
  }

  // ----- The numbering -----

  ghost function ForkOf(g: Graph, k: Id): (f: Option<Id>)
    ensures f.Some? ==> IsFork(g, f.value) && CloneOf(g, k, f.value)
    ensures f.None? ==> forall h | IsFork(g, h) :: !CloneOf(g, k, h)
  {
    if h :| IsFork(g, h) && CloneOf(g, k, h) then Some(h) else None
  }

  /** Clones come right after their fork, the first one last. */
  ghost function Place(g: Graph, num: map<Id, nat>, k: Id): nat {
    if k in g.nodes then 4 * RankOf(num, k)
    else
      match ForkOf(g, k)
      case None => 0
      case Some(f) => 4 * RankOf(num, f) + if k == CloneId(Tpl(g, f), 0) then 2 else 1
  }

  lemma ClonePlace(g: Graph, num: map<Id, nat>, f: Id, i: nat)
    requires ForksApart(g) && IsFork(g, f)
    ensures CloneId(Tpl(g, f), i) !in g.nodes
    ensures Place(g, num, CloneId(Tpl(g, f), i)) == 4 * RankOf(num, f) + if i == 0 then 2 else 1
  {
    var k := CloneId(Tpl(g, f), i);
    assert k !in g.nodes && CloneOf(g, k, f);
    hide CloneId;
    var h := ForkOf(g, k).value;
    var j: nat :| k == CloneId(Tpl(g, h), j);
    OtherFork(g, f, i, h, j);
    if k == CloneId(Tpl(g, f), 0) {
      OtherFork(g, f, i, f, 0);
    }
  }

  lemma EdgePlaced(g: Graph, num: map<Id, nat>, s: State, y: Id, e: Edge)
    requires GraphOk(g) && ForksApart(g) && V.Ranked(g.edges, num) && Shape(g, s) && OriginOk(g, s) && CloneOk(g, s)
    requires e in Ins(s, y) && e.from != y
    ensures Place(g, num, e.from) < Place(g, num, y)
  {
    ShapeParts(g, s);
    assert e.to == y;
    hide CloneId, ForksApart, Shape, NodeShape, EdgeShape, Place;
    if y !in g.nodes {
      assert IntoClone(g, y, e);
      IntoPlaced(g, num, y, e);
    } else if e in g.edges {
      StaticPlaced(g, num, e);
    } else {
      assert FromClone(g, e);
      hide OriginOk, CloneOk;
      FromPlaced(g, num, e);
    }
  }

  lemma StaticPlaced(g: Graph, num: map<Id, nat>, e: Edge)
    requires GraphOk(g) && V.Ranked(g.edges, num) && e in g.edges
    ensures Place(g, num, e.from) < Place(g, num, e.to)
  {
  }

  lemma FromPlaced(g: Graph, num: map<Id, nat>, e: Edge)
    requires GraphOk(g) && ForksApart(g) && V.Ranked(g.edges, num) && FromClone(g, e) && e.to in g.nodes
    ensures Place(g, num, e.from) < Place(g, num, e.to)
  {
    hide CloneId, JoinOf;
    var f, i: nat :| IsFork(g, f) && Tpl(g, f) in g.nodes && e.from == CloneId(Tpl(g, f), i)
      && JoinOf(g, f) == Some(e.to);
    ClonePlace(g, num, f, i);
    JoinEdge(g, f);
    hide ForksApart;
  }

  lemma IntoPlaced(g: Graph, num: map<Id, nat>, y: Id, e: Edge)
    requires ForksApart(g) && IntoClone(g, y, e) && e.from != y
    ensures Place(g, num, e.from) < Place(g, num, y)
  {
    hide CloneId, ForksApart;
    var f, i: nat :| IsFork(g, f) && y == CloneId(Tpl(g, f), i) &&
      (e.from == f || (i == 0 && exists m: nat :: e.from == CloneId(Tpl(g, f), m)));
    ClonePlace(g, num, f, i);
    if e.from != f {
      var m: nat :| e.from == CloneId(Tpl(g, f), m);
      ClonePlace(g, num, f, m);
    }
  }

  /** The edges of a run go up, those of clones too. */
  lemma RunUpward(g: Graph, num: map<Id, nat>, s: State) returns (rank: map<Id, nat>)
    requires GraphOk(g) && ForksApart(g) && V.Ranked(g.edges, num) && Shape(g, s) && OriginOk(g, s) && CloneOk(g, s)
    ensures S.Upward(s, rank)
  {
    rank := map k | k in s.states :: Place(g, num, k);
    ShapeParts(g, s);
    forall y, e | e in Ins(s, y) && e.from != y
      ensures e.from in rank && y in rank && rank[e.from] < rank[y]
    {
      EdgePlaced(g, num, s, y, e);
    }
  }

  // ----- The last pass of a run -----

  /** In every run that reached its fixed point: some order of the last pass succeeds if and only if no
      pending node has an active in-edge, and the outcome depends on the order of map iteration if and only if,
      besides, an always edge leads from one pending node, not a condition, to another. */
  lemma LastPassIff(d: WorkflowDef, bodyOf: map<Id, seq<Id>>, templates: set<Id>, rank: map<Id, nat>, w: World,
                    ctx: Context, steps: Steps, mid: State)
    requires ValidDef(d) && BodiesExact(d, bodyOf) && LoopsDown(d, rank)
             && ForksApart(Graph(NodeMap(d.nodes), d.edges, {}))
    requires RunsTo(GraphOf(d, bodyOf), bodyOf, templates, w, ctx, steps, mid)
    ensures var pending := UntakenIn(bodyOf, templates, mid);
            && S.AllPending(mid, pending)
            && (S.SomeSucceeds(mid, pending) <==> S.Free(mid, pending))
            && (S.SomeDeadlocks(mid, pending) && S.SomeSucceeds(mid, pending) <==>
                  S.Free(mid, pending) && exists x, y ::
                      x in pending && y in pending && x != y && S.Triggers(mid, x, y))
  {
    var places := RunIsUpward(d, bodyOf, templates, rank, w, ctx, steps, mid);
    hide S.SomeSucceeds, S.SomeDeadlocks, S.Free, S.Triggers, S.Upward, RunsTo, ValidDef, BodiesExact, LoopsDown,
      ForksApart;
    S.SucceedsIff(mid, UntakenIn(bodyOf, templates, mid), places);
    S.OrderMattersIff(mid, UntakenIn(bodyOf, templates, mid), places);
  }

  lemma RunIsUpward(d: WorkflowDef, bodyOf: map<Id, seq<Id>>, templates: set<Id>, rank: map<Id, nat>, w: World,
                    ctx: Context, steps: Steps, mid: State) returns (places: map<Id, nat>)
    requires ValidDef(d) && BodiesExact(d, bodyOf) && LoopsDown(d, rank)
             && ForksApart(Graph(NodeMap(d.nodes), d.edges, {}))
    requires RunsTo(GraphOf(d, bodyOf), bodyOf, templates, w, ctx, steps, mid)
    ensures S.Upward(mid, places)
  {
    var g := GraphOf(d, bodyOf);
    hide ForksApart, GraphOk, Disciplined, FreshRun, Scheduled, AfterAll, CloneOk, OriginOk, Inv, Shape, BodiesExact,
      LoopsDown, S.Upward;
    ApartAnyway(d, bodyOf);
    EngineReady(d, bodyOf, rank);
    var num :| V.Ranked(d.edges, num);
    GraphFacts(g, bodyOf, rank);
    var s :| FreshRun(g, s) && Scheduled(w, bodyOf, templates, s, steps) && mid == AfterAll(w, bodyOf, s, steps);
    hide ValidDef, RunsTo, V.Ranked;
    FreshInv(g, s);
    ScheduleKeeps(g, bodyOf, templates, rank, w, s, steps);
    EdgeOrigins(g, bodyOf, templates, rank, w, s, steps);
    RunClones(g, bodyOf, templates, rank, w, s, steps);
    ShapeOf(g, mid);
    places := RunUpward(g, num, mid);
  }
}
