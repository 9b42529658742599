/** What an execution changes around its node, and where the in-edges of a static node come from. */
module EngineOrigin {
  import opened WorkflowDef
  import opened EngineState
  import opened EngineInvariants
  import opened EngineSteps
  import opened EngineFork
  import opened EngineFrames
  import opened EngineSetup
  import opened EngineLoops

  /** An execution of a node that is neither a loop nor a fork changes only that node. */
  ghost predicate OwnStep(s: State, t: State, id: Id) {
    && id in s.states && id in t.states && t.states == s.states[id := t.states[id]]
    && t.states[id].node == s.states[id].node && t.inE == s.inE && t.outE == s.outE
    && (t.states[id].status.Skipped? ==> s.states[id].status.Skipped?)
  }

  lemma OwnStepTrans(s: State, t: State, u: State, id: Id)
    requires OwnStep(s, t, id) && OwnStep(t, u, id)
    ensures OwnStep(s, u, id)
  {
  }

  lemma PutOwn(s: State, id: Id, ns: NodeState)
    requires id in s.states && ns.node == s.states[id].node && !ns.status.Skipped?
    ensures OwnStep(s, Put(s, id, ns), id)
  {
  }

  lemma MarkOwn(s: State, id: Id, st: Status, out: Output, err: string)
    requires id in s.states && !st.Skipped?
    ensures OwnStep(s, Mark(s, id, st, out, err), id)
  {
  }

  lemma SameOwn(s: State, t: State, id: Id)
    requires id in s.states && t.states == s.states && t.inE == s.inE && t.outE == s.outE
    ensures OwnStep(s, t, id)
  {
  }

  lemma FinishOwn(s: State, id: Id, out: Output)
    requires id in s.states
    ensures OwnStep(s, Finish(s, id, out), id)
  {
  }

  lemma AgentOwn(w: World, s: State, id: Id)
    requires id in s.states && !s.states[id].status.Skipped?
    ensures OwnStep(s, RunAgent(w, s, id).s, id)
  {
    hide AgentInput, Finish, OwnStep;
    var ns := s.states[id];
    var input := AgentInput(s, id);
    var reply := w.runAgent(ns.node, ns.attempts, input, |s.calls|);
    var called := s.(calls := s.calls + [AgentCall(id, input, reply.AgentOk?)]);
    SameOwn(s, called, id);
    var ns' := ns.(err := if reply.AgentOk? then "" else reply.msg);
    PutOwn(called, id, ns');
    OwnStepTrans(s, called, Put(called, id, ns'), id);
    if reply.AgentOk? {
      var cleared := Put(called, id, ns').(feedback := s.feedback - {id});
      SameOwn(Put(called, id, ns'), cleared, id);
      OwnStepTrans(s, Put(called, id, ns'), cleared, id);
      FinishOwn(cleared, id, reply.output);
      OwnStepTrans(s, cleared, Finish(cleared, id, reply.output), id);
    }
  }

  lemma GateOwn(w: World, s: State, id: Id)
    requires id in s.states
    ensures OwnStep(s, RunGate(w, s, id).s, id)
  {
    hide GiveFeedback, Finish, OwnStep;
    var s1 := Mark(s, id, WaitingApproval, NoOutput, "");
    MarkOwn(s, id, WaitingApproval, NoOutput, "");
    var reply := w.approve(s.states[id].node, |s.calls|);
    var called := s1.(calls := s1.calls + [GateCall(id, reply)]);
    SameOwn(s1, called, id);
    OwnStepTrans(s, s1, called, id);
    if reply.Decided? {
      var ns := called.states[id].(approved := reply.ok);
      var decided := Put(called, id, ns);
      PutOwn(called, id, ns);
      OwnStepTrans(s, called, decided, id);
      var told := if !reply.ok && reply.feedback.Some?
                  then decided.(feedback := GiveFeedback(s.feedback, Outs(s, id), reply.feedback.value)) else decided;
      SameOwn(decided, told, id);
      OwnStepTrans(s, decided, told, id);
      FinishOwn(told, id, Single("approved", Bool(reply.ok)));
      OwnStepTrans(s, told, Finish(told, id, Single("approved", Bool(reply.ok))), id);
    }
  }

  lemma FailureOwn(w: World, s: State, id: Id, msg: string)
    requires id in s.states && !s.states[id].status.Skipped?
    ensures OwnStep(s, FailOrRetry(w, s, id, msg), id)
  {
    hide OwnStep, ScheduleRetry;
    var s1 := Put(s, id, s.states[id].(err := msg));
    PutOwn(s, id, s.states[id].(err := msg));
    RetryOwn(w, s1, id, msg);
    var r := ScheduleRetry(w, s1, id, msg);
    OwnStepTrans(s, s1, r.s, id);
    if !r.again {
      MarkOwn(r.s, id, Failed, NoOutput, msg);
      OwnStepTrans(s, r.s, Mark(r.s, id, Failed, NoOutput, msg), id);
    }
  }

  lemma RetryOwn(w: World, s: State, id: Id, msg: string)
    requires id in s.states && !s.states[id].status.Skipped?
    ensures var r := ScheduleRetry(w, s, id, msg); OwnStep(s, r.s, id) && id in r.s.states
  {
    hide MaxAttempts, BacksOff;
  }

  lemma NodeOwn(w: World, s: State, id: Id)
    requires id in s.states && !s.states[id].node.kind.Loop? && !s.states[id].node.kind.ParallelFork?
    requires !s.states[id].status.Skipped?
    ensures OwnStep(s, RunNode(w, s, id).s, id)
  {
    hide RunAgent, RunGate, Finish;
    match s.states[id].node.kind
    case Agent(_) => AgentOwn(w, s, id);
    case HumanApproval(_) => GateOwn(w, s, id);
    case Trigger(src) => FinishOwn(s, id, Single("trigger", Str(if src.Some? then src.value else "")));
    case Transform(e) =>
      if w.eval(e, s.scope).Evaluated? {
        FinishOwn(s, id, Value(w.eval(e, s.scope).value));
      }
    case Join => FinishOwn(s, id, Single("join", Str("ok")));
    case _ =>
  }

  lemma ExecuteOwn(w: World, s: State, id: Id)
    requires id in s.states && !s.states[id].node.kind.Loop? && !s.states[id].node.kind.ParallelFork?
    ensures OwnStep(s, Execute(w, s, id), id)
  {
    hide RunNode, FailOrRetry;
    var s1 := Mark(s, id, Running, NoOutput, "");
    MarkOwn(s, id, Running, NoOutput, "");
    NodeOwn(w, s1, id);
    var o := RunNode(w, s1, id);
    OwnStepTrans(s, s1, o.s, id);
    if o.err.Some? {
      FailureOwn(w, o.s, id, o.err.value);
      OwnStepTrans(s, o.s, FailOrRetry(w, o.s, id, o.err.value), id);
    }
  }

  // ----- Executing a fork -----

  predicate FeedEdge(g: Graph, f: Id, i: nat, k: Id, e: Edge)
    requires IsFork(g, f)
  {
    e == Edge(CloneId(Tpl(g, f), i), k, Always, "")
  }

  /** A fork that completes with `n` clones adds them, pending, between itself and its join. */
  ghost predicate ForkStep(g: Graph, s: State, t: State, id: Id, n: nat) {
    && IsFork(g, id) && Tpl(g, id) in g.nodes && id in s.states && id in t.states
       && t.states[id].node == s.states[id].node
    && t.states[id].status.Completed? && t.states[id].output == Single("count", Num(n))
       && t.states[id].approved == s.states[id].approved
    && (forall k :: k in t.states <==> k in s.states || IsNew(Tpl(g, id), n, k))
    && (forall k | k in t.states && k != id ::
          if IsNew(Tpl(g, id), n, k) then t.states[k].status.Pending? else t.states[k] == s.states[k])
    && (forall k, e | k in g.nodes :: e in Ins(t, k) <==>
          e in Ins(s, k) || (JoinOf(g, id) == Some(k) && exists i: nat :: i < n && FeedEdge(g, id, i, k, e)))
    && (forall k | k in g.nodes && k != id :: Outs(t, k) == Outs(s, k))
    && Outs(s, id) <= Outs(t, id)
  }

  /** The in-edges of a static node are those of the definition, and those from the clones of forks that feed
      it; its out-edges begin with those of the definition, and are those unless it is a fork. */
  ghost predicate OriginOk(g: Graph, s: State) {
    && (forall k, e | k in g.nodes && e in Ins(s, k) :: e in g.edges || FromClone(g, e))
    && (forall k | k in g.nodes :: StaticOuts(g.edges, k) <= Outs(s, k))
    && (forall k | k in g.nodes && !IsFork(g, k) :: Outs(s, k) == StaticOuts(g.edges, k))
  }

  ghost predicate FromClone(g: Graph, e: Edge) {
    exists f, i: nat :: IsFork(g, f) && Tpl(g, f) in g.nodes && e.from == CloneId(Tpl(g, f), i)
      && JoinOf(g, f) == Some(e.to)
  }

  lemma {:induction false} FirstJoinPrefix(states: map<Id, NodeState>, a: seq<Edge>, b: seq<Edge>)
    requires a <= b && FirstJoin(states, a).Some?
    ensures FirstJoin(states, b) == FirstJoin(states, a)
  {
    if !(a[0].to in states && states[a[0].to].node.kind.Join?) {
      FirstJoinPrefix(states, a[1..], b[1..]);
    }
  }

  lemma {:induction false} NoJoinIn(states: map<Id, NodeState>, outs: seq<Edge>, e: Edge)
    requires FirstJoin(states, outs).None? && e in outs && e.to in states
    ensures !states[e.to].node.kind.Join?
  {
    if e != outs[0] {
      NoJoinIn(states, outs[1..], e);
    }
  }

  lemma {:induction false} FirstIsJoin(states: map<Id, NodeState>, outs: seq<Edge>)
    requires FirstJoin(states, outs).Some?
    ensures var j := FirstJoin(states, outs).value;
            j in states && states[j].node.kind.Join? && exists e :: e in outs && e.to == j
  {
    if !(outs[0].to in states && states[outs[0].to].node.kind.Join?) {
      FirstIsJoin(states, outs[1..]);
    }
  }

  /** Among static nodes, a fork feeds its join and no other. */
  lemma FeedsItsJoin(g: Graph, s: State, f: Id)
    requires GraphOk(g) && ForksApart(g) && Shape(g, s) && OriginOk(g, s) && IsFork(g, f)
    ensures var join := FirstJoin(s.states, Outs(s, f));
            forall k | k in g.nodes :: join == Some(k) <==> JoinOf(g, f) == Some(k)
  {
    var outs, join := StaticOuts(g.edges, f), FirstJoin(s.states, Outs(s, f));
    StaticOutsAre(g.edges, f);
    SameJoin(g, s, outs);
    if FirstJoin(s.states, outs).Some? {
      FirstJoinPrefix(s.states, outs, Outs(s, f));
    } else if join.Some? && join.value in g.nodes {
      FirstIsJoin(s.states, Outs(s, f));
      var e :| e in Outs(s, f) && e.to == join.value;
      assert e in Ins(s, e.to) && e.from == f;
      StaticSource(g, s, e);
      NoJoinIn(s.states, outs, e);
    }
  }

  /** An edge from a static node to a static node is one of the definition. */
  lemma StaticSource(g: Graph, s: State, e: Edge)
    requires ForksApart(g) && OriginOk(g, s) && e.from in g.nodes && e.to in g.nodes && e in Ins(s, e.to)
    ensures e in g.edges
  {
    hide CloneId;
  }

  lemma LinkOuts(s: State, e: Edge, x: Id)
    ensures Outs(s, x) <= Outs(AddEdge(s, e), x)
  {
  }

  lemma {:induction false} CloneOuts(s: State, fork: Id, tpl: Node, template: Id, join: Option<Id>, items: seq<Json>,
                                     k: nat, x: Id)
    requires k <= |items|
    ensures Outs(s, x) <= Outs(AddClones(s, fork, tpl, template, join, items, k), x)
  {
    hide CloneId, AddEdge;
    if k > 0 {
      var t := AddClones(s, fork, tpl, template, join, items, k - 1);
      CloneOuts(s, fork, tpl, template, join, items, k - 1, x);
      var cid := CloneId(template, k - 1);
      var s1 := Put(t, cid, Fresh(tpl.(id := cid)));
      LinkOuts(s1, Edge(fork, cid, Always, ""), x);
      var s2 := AddEdge(s1, Edge(fork, cid, Always, "")).(scope := t.scope[cid := items[k - 1]]);
      if join.Some? {
        LinkOuts(s2, Edge(cid, join.value, Always, ""), x);
      }
    }
  }

  /** The edges into static nodes that an expansion adds. */
  lemma GrownIns(g: Graph, s: State, t: State, f: Id, join: Option<Id>, n: nat, tpl: Node)
    requires ForksApart(g) && IsFork(g, f) && GrownEdges(s, t, f, Tpl(g, f), join, n)
    requires forall k | k in g.nodes :: join == Some(k) <==> JoinOf(g, f) == Some(k)
    ensures forall k, e | k in g.nodes :: e in Ins(t, k) <==>
              e in Ins(s, k) || (JoinOf(g, f) == Some(k) && exists i: nat :: i < n && FeedEdge(g, f, i, k, e))
    ensures forall k | k in g.nodes && k != f :: Outs(t, k) == Outs(s, k)
  {
    hide CloneId;
    forall k, e | k in g.nodes
      ensures e in Ins(t, k) <==> e in Ins(s, k) || (JoinOf(g, f) == Some(k)
                                                     && exists i: nat :: i < n && FeedEdge(g, f, i, k, e))
    {
      if e.to == k && NewEdge(f, Tpl(g, f), join, n, e) {
        var i: nat :| i < n && (e == Edge(f, CloneId(Tpl(g, f), i), Always, "")
                                || (join.Some? && e == Edge(CloneId(Tpl(g, f), i), join.value, Always, "")));
        assert FeedEdge(g, f, i, k, e);
      }
      if JoinOf(g, f) == Some(k) && exists i: nat :: i < n && FeedEdge(g, f, i, k, e) {
        assert NewEdge(f, Tpl(g, f), join, n, e);
      }
    }
    forall k | k in g.nodes && k != f
      ensures Outs(t, k) == Outs(s, k)
    {
      assert !IsNew(Tpl(g, f), n, k);
    }
  }

  lemma FinishLast(s: State, id: Id, out: Output)
    requires id in s.states
    ensures var t := Finish(s, id, out);
            && id in t.states && t.states == s.states[id := s.states[id].(status := Completed, output := out)]
            && t.inE == s.inE && t.outE == s.outE
  {
  }

  /** The nodes after an expansion whose fork then completes. */
  ghost predicate ForkNodes(g: Graph, s: State, t: State, id: Id, n: nat)
    requires IsFork(g, id)
  {
    && id in s.states && id in t.states && t.states[id].node == s.states[id].node
    && t.states[id].status.Completed? && t.states[id].output == Single("count", Num(n))
       && t.states[id].approved == s.states[id].approved
    && (forall k :: k in t.states <==> k in s.states || IsNew(Tpl(g, id), n, k))
    && (forall k | k in t.states && k != id ::
          if IsNew(Tpl(g, id), n, k) then t.states[k].status.Pending? else t.states[k] == s.states[k])
  }

  lemma GrownForkNodes(g: Graph, s: State, grown: State, t: State, id: Id, n: nat, tpl: Node)
    requires IsFork(g, id) && id in s.states && GrownNodes(s, grown, tpl, Tpl(g, id), n) && !IsNew(Tpl(g, id), n, id)
    requires id in grown.states && t.states == grown.states[id :=
                                                              grown.states[id].(status := Completed,
                                                                                output := Single("count", Num(n)))]
    ensures ForkNodes(g, s, t, id, n)
  {
    hide IsNew;
  }

  lemma ForkIsStep(g: Graph, s: State, grown: State, t: State, id: Id, n: nat)
    requires IsFork(g, id) && Tpl(g, id) in g.nodes && ForkNodes(g, s, t, id, n) && t.inE == grown.inE
             && t.outE == grown.outE
    requires forall k, e | k in g.nodes :: e in Ins(grown, k) <==>
               e in Ins(s, k) || (JoinOf(g, id) == Some(k) && exists i: nat :: i < n && FeedEdge(g, id, i, k, e))
    requires (forall k | k in g.nodes && k != id :: Outs(grown, k) == Outs(s, k)) && Outs(s, id) <= Outs(grown, id)
    ensures ForkStep(g, s, t, id, n)
  {
    hide IsNew, FeedEdge, JoinOf;
    assert forall k :: Ins(t, k) == Ins(grown, k) && Outs(t, k) == Outs(grown, k);
  }

  lemma ShapeNodes(g: Graph, s: State)
    requires Shape(g, s)
    ensures NodeShape(g, s)
  {
  }

  lemma ForkExecuted(g: Graph, s: State, id: Id, items: seq<Json>)
    requires GraphOk(g) && ForksApart(g) && Shape(g, s) && OriginOk(g, s) && IsFork(g, id) && id in s.states
    requires s.states[id].node == g.nodes[id] && Tpl(g, id) in s.states
    ensures var grown := AddClones(s, id, s.states[Tpl(g, id)].node, Tpl(g, id), FirstJoin(s.states, Outs(s, id)),
                                   items, |items|);
            id in grown.states && ForkStep(g, s, Finish(grown, id, Single("count", Num(|items|))), id, |items|)
  {
    var t, n, join := Tpl(g, id), |items|, FirstJoin(s.states, Outs(s, id));
    var tpl := s.states[t].node;
    var grown := AddClones(s, id, tpl, t, join, items, n);
    assert !IsNew(t, n, id) by {
      hide CloneId;
    }
    hide CloneId, AddClones, Shape, OriginOk, IsNew, GrownNodes, GrownEdges, FirstJoin, JoinOf, Finish, ForkStep,
      ForkNodes, FeedEdge;
    ShapeNodes(g, s);
    TemplateIsStatic(g, s, id);
    GrowEffect(s, id, tpl, t, join, items, n);
    AddClonesKeepsStates(s, id, tpl, t, join, items, n);
    FeedsItsJoin(g, s, id);
    GrownIns(g, s, grown, id, join, n, tpl);
    CloneOuts(s, id, tpl, t, join, items, n, id);
    var out := Single("count", Num(n));
    FinishLast(grown, id, out);
    GrownForkNodes(g, s, grown, Finish(grown, id, out), id, n, tpl);
    ForkIsStep(g, s, grown, Finish(grown, id, out), id, n);
  }

  /** What executing a node that is no loop can do. */
  ghost predicate Moved(g: Graph, s: State, t: State, id: Id) {
    OwnStep(s, t, id) || exists n: nat :: ForkStep(g, s, t, id, n)
  }

  /** What executing a fork computes. */
  lemma ForkComputes(g: Graph, w: World, s: State, s1: State, id: Id)
    requires IsFork(g, id) && id in s.states && s.states[id].node == g.nodes[id]
             && s1 == Mark(s, id, Running, NoOutput, "")
    ensures var reply := w.eval(g.nodes[id].kind.fanOut.value.itemsExpr, s1.scope);
            var t := Execute(w, s, id);
            if reply.Evaluated? && reply.value.Arr? && Tpl(g, id) in s1.states then
              var items := reply.value.elems;
              var grown := AddClones(s1, id, s1.states[Tpl(g, id)].node, Tpl(g, id), FirstJoin(s1.states, Outs(s1, id)),
                                     items, |items|);
              id in grown.states && t == Finish(grown, id, Single("count", Num(|items|)))
            else exists msg :: t == FailOrRetry(w, s1, id, msg)
  {
    hide Finish, AddClones, FailOrRetry, FirstJoin, CloneId;
    var reply := w.eval(g.nodes[id].kind.fanOut.value.itemsExpr, s1.scope);
    if reply.Evaluated? && reply.value.Arr? && Tpl(g, id) in s1.states {
      var items := reply.value.elems;
      AddClonesKeepsStates(s1, id, s1.states[Tpl(g, id)].node, Tpl(g, id), FirstJoin(s1.states, Outs(s1, id)), items,
                           |items|);
    } else {
      var o := RunFork(w, s1, id);
      assert o.s == s1 && o.err.Some?;
      assert Execute(w, s, id) == FailOrRetry(w, s1, id, o.err.value);
    }
  }

  /** A ready fork starts, and either fails without a change around it or adds its clones. */
  lemma ForkMoves(g: Graph, w: World, s: State, id: Id)
    requires GraphOk(g) && ForksApart(g) && Shape(g, s) && OriginOk(g, s) && IsFork(g, id) && id in s.states
    requires s.states[id].node == g.nodes[id]
    ensures Moved(g, s, Execute(w, s, id), id)
    ensures Execute(w, s, id).states[id].status.Completed? ==> exists n: nat :: ForkStep(g, s, Execute(w, s, id), id, n)
  {
    var s1 := Mark(s, id, Running, NoOutput, "");
    assert s1.states[id].approved == s.states[id].approved && s1.states[id].node == g.nodes[id];
    MarkOwn(s, id, Running, NoOutput, "");
    OwnOrigin(g, s, s1, id);
    ForkComputes(g, w, s, s1, id);
    hide Shape, OriginOk, Finish, AddClones, FailOrRetry, OwnStep, CloneId, Mark, Execute, FirstJoin, ForkStep;
    var reply := w.eval(g.nodes[id].kind.fanOut.value.itemsExpr, s1.scope);
    var t := Execute(w, s, id);
    if reply.Evaluated? && reply.value.Arr? && Tpl(g, id) in s1.states {
      ForkExecuted(g, s1, id, reply.value.elems);
      ForkLater(g, s, s1, t, id, |reply.value.elems|);
    } else {
      var msg :| t == FailOrRetry(w, s1, id, msg);
      ForkFails(g, w, s, s1, id, msg);
    }
  }

  lemma ForkFails(g: Graph, w: World, s: State, s1: State, id: Id, msg: string)
    requires id in s.states && s1 == Mark(s, id, Running, NoOutput, "")
    ensures var t := FailOrRetry(w, s1, id, msg); OwnStep(s, t, id) && !t.states[id].status.Completed?
  {
    MarkOwn(s, id, Running, NoOutput, "");
    hide OwnStep, FailOrRetry;
    FailureOwn(w, s1, id, msg);
    FailureFails(w, s1, id, msg);
    OwnStepTrans(s, s1, FailOrRetry(w, s1, id, msg), id);
  }

  lemma FailureFails(w: World, s: State, id: Id, msg: string)
    requires id in s.states
    ensures var t := FailOrRetry(w, s, id, msg);
            id in t.states && !t.states[id].status.Completed?
              && (t.states[id].status.Failed? || t.states[id].status.Pending?)
  {
    hide MaxAttempts, BacksOff;
  }

  lemma ForkLater(g: Graph, s: State, s1: State, t: State, id: Id, n: nat)
    requires OwnStep(s, s1, id) && s1.states[id].approved == s.states[id].approved && ForkStep(g, s1, t, id, n)
    ensures ForkStep(g, s, t, id, n)
  {
    hide FeedEdge, JoinOf, IsNew;
    assert forall k :: Ins(s1, k) == Ins(s, k) && Outs(s1, k) == Outs(s, k);
  }

  lemma OwnOrigin(g: Graph, s: State, t: State, id: Id)
    requires OwnStep(s, t, id)
    ensures Shape(g, s) ==> Shape(g, t)
    ensures OriginOk(g, s) ==> OriginOk(g, t)
  {
    assert forall k :: Ins(t, k) == Ins(s, k) && Outs(t, k) == Outs(s, k);
  }

  lemma ExecuteMoves(g: Graph, w: World, s: State, id: Id)
    requires GraphOk(g) && ForksApart(g) && Shape(g, s) && OriginOk(g, s) && id in s.states
             && !s.states[id].node.kind.Loop?
    requires s.states[id].node.kind.ParallelFork? ==> IsFork(g, id) && s.states[id].node == g.nodes[id]
    ensures Moved(g, s, Execute(w, s, id), id)
  {
    if s.states[id].node.kind.ParallelFork? {
      ForkMoves(g, w, s, id);
    } else {
      ExecuteOwn(w, s, id);
    }
  }

  lemma MovedOrigin(g: Graph, s: State, t: State, id: Id)
    requires OriginOk(g, s) && Moved(g, s, t, id)
    ensures OriginOk(g, t)
  {
    if OwnStep(s, t, id) {
      OwnOrigin(g, s, t, id);
    } else {
      var n: nat :| ForkStep(g, s, t, id, n);
      forall k, e | k in g.nodes && e in Ins(t, k)
        ensures e in g.edges || FromClone(g, e)
      {
        if e !in Ins(s, k) {
          var i: nat :| i < n && FeedEdge(g, id, i, k, e);
        }
      }
    }
  }

  // ----- Whole runs -----

  lemma EdgesOnly(g: Graph, s: State, t: State)
    requires OriginOk(g, s) && t.inE == s.inE && t.outE == s.outE
    ensures OriginOk(g, t)
  {
    assert forall k :: Ins(t, k) == Ins(s, k) && Outs(t, k) == Outs(s, k);
  }

  lemma EndEdges(w: World, bodyOf: map<Id, seq<Id>>, s: State, id: Id, n: nat)
    requires id in s.states
    ensures var t := Settled(w, LoopOutcome(w, bodyOf, s, id, n), id); t.inE == s.inE && t.outE == s.outE
  {
    LoopOutcomeIs(w, bodyOf, s, id, n);
    FinishLast(s, id, Single("iterations", Num(n)));
    hide LoopOutcome, Finish, MaxAttempts, BacksOff;
  }

  lemma {:induction false} ResetEdges(s: State, body: seq<Id>, k: nat)
    requires k <= |body| && forall b | b in body :: b in s.states
    ensures ResetBody(s, body, k).inE == s.inE && ResetBody(s, body, k).outE == s.outE
  {
    if k > 0 {
      ResetEdges(s, body, k - 1);
    }
  }

  lemma ShapeOf(g: Graph, s: State)
    requires Inv(g, s)
    ensures Shape(g, s) && NodeShape(g, s) && EdgeShape(g, s)
  {
  }

  lemma StepOrigin(g: Graph, bodyOf: map<Id, seq<Id>>, rank: map<Id, nat>, w: World, s: State, st: Step)
    requires Disciplined(g, bodyOf, rank) && Inv(g, s) && ValidStep(w, bodyOf, s, st) && OriginOk(g, s)
    ensures OriginOk(g, After(w, bodyOf, s, st))
    decreases st
  {
    hide Execute, LoopOutcome, Settled, Disciplined, Inv, Below, Ended, InEdgesAllow, Mark, OriginOk, Moved, Shape;
    GraphFacts(g, bodyOf, rank);
    var id := st.id;
    NodeFacts(g, s, id);
    ForkStatic(g, bodyOf, rank, s, id);
    match st
    case Plain(_) =>
      ShapeOf(g, s);
      StaticNode(g, s, id);
      ExecuteMoves(g, w, s, id);
      MovedOrigin(g, s, Execute(w, s, id), id);
    case Looped(_, rounds) =>
      var s1 := Mark(s, id, Running, NoOutput, "");
      StartKeeps(g, s, id);
      LoopStarts(s, id);
      MarkEdges(g, s, id);
      RoundsOrigin(g, bodyOf, rank, w, s1, id, rounds);
      RoundsOutcome(g, bodyOf, rank, w, s1, id, rounds);
      var s2 := AfterRounds(w, bodyOf, s1, id, rounds);
      EndEdges(w, bodyOf, s2, id, Count(rounds));
      EdgesOnly(g, s2, After(w, bodyOf, s, st));
  }

  lemma StaticNode(g: Graph, s: State, id: Id)
    requires NodeShape(g, s) && id in s.states
    ensures id in g.nodes ==> s.states[id].node == g.nodes[id]
  {
  }

  lemma MarkEdges(g: Graph, s: State, id: Id)
    requires OriginOk(g, s) && id in s.states
    ensures OriginOk(g, Mark(s, id, Running, NoOutput, ""))
  {
    EdgesOnly(g, s, Mark(s, id, Running, NoOutput, ""));
  }

  lemma StepsOrigin(g: Graph, bodyOf: map<Id, seq<Id>>, rank: map<Id, nat>, w: World, s: State, l: Id, steps: Steps)
    requires Disciplined(g, bodyOf, rank) && Inv(g, s) && ValidAll(w, bodyOf, s, BodyOf(bodyOf, l), steps)
             && OriginOk(g, s)
    ensures OriginOk(g, AfterAll(w, bodyOf, s, steps))
    decreases steps
  {
    hide OriginOk, After, Disciplined, Inv, Below, ValidStep;
    if steps.Then? {
      StepsOrigin(g, bodyOf, rank, w, s, l, steps.before);
      StepsOutcome(g, bodyOf, rank, w, s, l, steps.before);
      StepOrigin(g, bodyOf, rank, w, AfterAll(w, bodyOf, s, steps.before), steps.last);
    }
  }

  lemma RoundsOrigin(g: Graph, bodyOf: map<Id, seq<Id>>, rank: map<Id, nat>, w: World, s: State, id: Id, rounds: Rounds)
    requires Disciplined(g, bodyOf, rank) && Inv(g, s) && id in s.states && ValidRounds(w, bodyOf, s, id, rounds)
             && OriginOk(g, s)
    ensures OriginOk(g, AfterRounds(w, bodyOf, s, id, rounds))
    decreases rounds
  {
    hide OriginOk, ResetBody, Disciplined, Inv, Below, Quiet, ValidAll;
    if rounds.Round? {
      var t := AfterRounds(w, bodyOf, s, id, rounds.before);
      var body := BodyOf(bodyOf, id);
      RoundsOrigin(g, bodyOf, rank, w, s, id, rounds.before);
      RoundsOutcome(g, bodyOf, rank, w, s, id, rounds.before);
      ResetOutcome(g, bodyOf, rank, t, id);
      ResetEdges(t, body, |body|);
      EdgesOnly(g, t, ResetAll(t, body));
      StepsOrigin(g, bodyOf, rank, w, ResetAll(t, body), id, rounds.steps);
    }
  }

  /** In every run the edges around the static nodes are those of the definition and the clones'. */
  lemma {:induction false} EdgeOrigins(g: Graph, bodyOf: map<Id, seq<Id>>, templates: set<Id>, rank: map<Id, nat>,
                                       w: World, s: State, steps: Steps)
    requires Disciplined(g, bodyOf, rank) && FreshRun(g, s) && Scheduled(w, bodyOf, templates, s, steps)
    ensures OriginOk(g, AfterAll(w, bodyOf, s, steps))
    decreases steps
  {
    GraphFacts(g, bodyOf, rank);
    FreshInv(g, s);
    hide OriginOk, After, Disciplined, Inv, ValidStep, IsLoopBody, FreshRun;
    if steps.Start? {
      FreshOrigin(g, s);
    } else {
      EdgeOrigins(g, bodyOf, templates, rank, w, s, steps.before);
      ScheduleKeeps(g, bodyOf, templates, rank, w, s, steps.before);
      StepOrigin(g, bodyOf, rank, w, AfterAll(w, bodyOf, s, steps.before), steps.last);
    }
  }

  lemma FreshOrigin(g: Graph, s: State)
    requires FreshRun(g, s)
    ensures OriginOk(g, s)
  {
    forall k, e | e in Ins(s, k)
      ensures e in g.edges
    {
      StaticInsStatic(g.edges, k);
    }
  }
}
