/** What a round of a loop leaves behind, and exactly when the loop is stuck after such a round. */
module EngineRounds {
  import opened WorkflowDef
  import opened EngineState
  import opened EngineInvariants
  import opened EngineSteps
  import opened EngineFork
  import opened EngineFrames
  import opened EngineLoops
  import opened EngineOrigin
  import opened EngineRest

  /** A body without loops; it may contain forks. */
  ghost predicate FlatBody(g: Graph, body: seq<Id>) {
    forall b | b in body :: b in g.nodes && !g.nodes[b].kind.Loop?
  }

  // ----- What a node's status says about the world -----

  ghost predicate AgentsErr(w: World) {
    forall n, a, i, c :: w.runAgent(n, a, i, c).AgentErr?
  }

  ghost predicate AgentsOk(w: World) {
    forall n, a, i, c :: w.runAgent(n, a, i, c).AgentOk?
  }

  ghost predicate GatesErr(w: World) {
    forall n, c :: w.approve(n, c).GateErr?
  }

  ghost predicate GatesOk(w: World) {
    forall n, c :: w.approve(n, c).Decided?
  }

  /** Every expression evaluates alike. */
  ghost predicate Evals(w: World, reply: EvalReply) {
    forall x, sc :: w.eval(x, sc) == reply
  }

  ghost predicate EvalsErr(w: World) {
    forall x, sc :: w.eval(x, sc).EvalErr?
  }

  ghost predicate EvalsOk(w: World) {
    forall x, sc :: w.eval(x, sc).Evaluated?
  }

  /** How a node that is no join can have ended. */
  ghost predicate Explained(g: Graph, w: World, ns: NodeState) {
    && (ns.approved ==> ns.node.kind.HumanApproval?)
    && match ns.node.kind
       case Trigger(_) => !ns.status.Failed?
       case Agent(_) => (AgentsErr(w) ==> !ns.status.Completed?) && (AgentsOk(w) ==> !ns.status.Failed?)
       case HumanApproval(_) => (GatesErr(w) ==> !ns.status.Completed?) && (GatesOk(w) ==> !ns.status.Failed?)
       case Transform(_) => (EvalsErr(w) ==> !ns.status.Completed?) && (EvalsOk(w) ==> !ns.status.Failed?)
       case Condition(_) =>
         && (EvalsErr(w) ==> ns.branch == "" && !ns.status.Completed?)
         && (forall v | Evals(w, Evaluated(v)) && Terminal(ns.status) :: ns.branch == Stringify(w, v))
       case ParallelFork(Some(f)) =>
         && (f.template !in g.nodes || EvalsErr(w) ==> !ns.status.Completed?)
         && (forall items | Evals(w, Evaluated(Arr(items))) && f.template in g.nodes ::
               !ns.status.Failed? && (ns.status.Completed? ==> ns.output == Single("count", Num(|items|))))
       case ParallelFork(None) => !ns.status.Completed?
       case Subworkflow => !ns.status.Completed?
       case Unknown(_) => !ns.status.Completed?
       case _ => true
  }

  /** Failing is failing for good, but for an agent with attempts left. */
  lemma FailureEnds(w: World, s: State, id: Id, msg: string)
    requires id in s.states
    ensures var t := FailOrRetry(w, s, id, msg);
            && id in t.states && t.states[id].node == s.states[id].node
            && t.states[id].branch == s.states[id].branch && t.states[id].approved == s.states[id].approved
            && (t.states[id].status.Failed? || (t.states[id].status.Pending? && s.states[id].node.kind.Agent?))
  {
    RetryCases(w, Put(s, id, s.states[id].(err := msg)), id, msg);
    RetryAgain(w, Put(s, id, s.states[id].(err := msg)), id, msg);
    hide ScheduleRetry;
  }

  lemma RetryAgain(w: World, s: State, id: Id, msg: string)
    requires id in s.states
    ensures var r := ScheduleRetry(w, s, id, msg);
            r.again ==> r.s != s && id in r.s.states && r.s.states[id].status.Pending? && s.states[id].node.kind.Agent?
  {
    OnlyAgentsRetry(s.states[id].node);
    hide MaxAttempts, BacksOff;
  }

  lemma AgentExplained(g: Graph, w: World, s: State, id: Id)
    requires id in s.states && s.states[id].node.kind.Agent? && Explained(g, w, s.states[id])
    ensures id in Execute(w, s, id).states && Explained(g, w, Execute(w, s, id).states[id])
  {
    var s1 := Mark(s, id, Running, NoOutput, "");
    var ns := s1.states[id];
    var reply := w.runAgent(ns.node, ns.attempts, AgentInput(s1, id), |s1.calls|);
    hide AgentInput, FailOrRetry;
    var o := RunAgent(w, s1, id);
    if reply.AgentErr? {
      FailureEnds(w, o.s, id, reply.msg);
    }
  }

  lemma GateExplained(g: Graph, w: World, s: State, id: Id)
    requires id in s.states && s.states[id].node.kind.HumanApproval?
    ensures id in Execute(w, s, id).states && Explained(g, w, Execute(w, s, id).states[id])
  {
    var s1 := Mark(s, id, Running, NoOutput, "");
    hide FailOrRetry, RunGate;
    GateEnds(w, s1, id);
    var o := RunGate(w, s1, id);
    if o.err.Some? {
      FailureEnds(w, o.s, id, o.err.value);
    }
  }

  lemma GateEnds(w: World, s: State, id: Id)
    requires id in s.states
    ensures var o := RunGate(w, s, id);
            && id in o.s.states && o.s.states[id].node == s.states[id].node
            && (o.err.Some? <==> w.approve(s.states[id].node, |s.calls|).GateErr?)
            && (o.err.None? ==> o.s.states[id].status.Completed?)
  {
    hide GiveFeedback;
  }

  lemma ConditionExplained(g: Graph, w: World, s: State, id: Id)
    requires id in s.states && s.states[id].node.kind.Condition? && Explained(g, w, s.states[id])
    ensures id in Execute(w, s, id).states && Explained(g, w, Execute(w, s, id).states[id])
  {
    var s1 := Mark(s, id, Running, NoOutput, "");
    hide FailOrRetry, Stringify;
    var o := RunCondition(w, s1, id);
    var x := s.states[id].node.kind.expr;
    assert forall v | Evals(w, Evaluated(v)) :: w.eval(x, s1.scope) == Evaluated(v);
    if o.err.Some? {
      FailureEnds(w, o.s, id, o.err.value);
    }
  }

  /** How the execution of a fork ends. */
  lemma ForkEnds(g: Graph, w: World, s: State, id: Id)
    requires ForksApart(g) && NodeShape(g, s) && IsFork(g, id) && id in s.states && s.states[id].node == g.nodes[id]
    ensures var reply := w.eval(g.nodes[id].kind.fanOut.value.itemsExpr, s.scope);
            var t := Execute(w, s, id);
            && id in t.states && t.states[id].node == s.states[id].node
               && t.states[id].approved == s.states[id].approved
            && if reply.Evaluated? && reply.value.Arr? && Tpl(g, id) in g.nodes
               then t.states[id].status.Completed? && t.states[id].output == Single("count", Num(|reply.value.elems|))
               else !t.states[id].status.Completed?
  {
    var s1 := Mark(s, id, Running, NoOutput, "");
    assert s1.scope == s.scope;
    TemplateKnown(g, s, id);
    assert Tpl(g, id) in s1.states <==> Tpl(g, id) in s.states;
    ForkComputes(g, w, s, s1, id);
    ForkKeepsOwn(g, w, s, s1, id);
    hide FailOrRetry, Finish, AddClones, FirstJoin, CloneId, Execute, Mark, ForksApart, NodeShape;
    var reply := w.eval(g.nodes[id].kind.fanOut.value.itemsExpr, s1.scope);
    if !(reply.Evaluated? && reply.value.Arr? && Tpl(g, id) in s1.states) {
      var msg :| Execute(w, s, id) == FailOrRetry(w, s1, id, msg);
      FailureEnds(w, s1, id, msg);
    }
  }

  lemma ForkExplained(g: Graph, w: World, s: State, id: Id)
    requires ForksApart(g) && NodeShape(g, s) && IsFork(g, id) && id in s.states && s.states[id].node == g.nodes[id]
    requires Explained(g, w, s.states[id])
    ensures id in Execute(w, s, id).states && Explained(g, w, Execute(w, s, id).states[id])
  {
    ForkEnds(g, w, s, id);
    hide Execute, ForksApart, NodeShape;
    var x := g.nodes[id].kind.fanOut.value.itemsExpr;
    assert forall items | Evals(w, Evaluated(Arr(items))) :: w.eval(x, s.scope) == Evaluated(Arr(items));
  }

  lemma TemplateKnown(g: Graph, s: State, f: Id)
    requires NodeShape(g, s) && ForksApart(g) && IsFork(g, f)
    ensures Tpl(g, f) in s.states <==> Tpl(g, f) in g.nodes
  {
    if Tpl(g, f) in s.states {
      TemplateIsStatic(g, s, f);
    }
  }

  /** An expansion leaves the fork as it is, which then completes. */
  lemma ForkKeepsOwn(g: Graph, w: World, s: State, s1: State, id: Id)
    requires ForksApart(g) && IsFork(g, id) && id in s.states && s1 == Mark(s, id, Running, NoOutput, "")
    ensures s1.states[id].node == s.states[id].node && s1.states[id].approved == s.states[id].approved
    ensures forall items: seq<Json> | Tpl(g, id) in s1.states ::
              var grown := AddClones(s1, id, s1.states[Tpl(g, id)].node, Tpl(g, id), FirstJoin(s1.states, Outs(s1, id)),
                                     items, |items|);
              id in grown.states ==>
                var t := Finish(grown, id, Single("count", Num(|items|)));
                id in t.states && t.states[id].status.Completed? && t.states[id].node == s.states[id].node
                && t.states[id].approved == s.states[id].approved
                   && t.states[id].output == Single("count", Num(|items|))
  {
    hide AddClones, FirstJoin, CloneId;
    forall items: seq<Json> | Tpl(g, id) in s1.states
      ensures var grown := AddClones(s1, id, s1.states[Tpl(g, id)].node, Tpl(g, id), FirstJoin(s1.states, Outs(s1, id)),
                                     items, |items|);
              id in grown.states ==>
                var t := Finish(grown, id, Single("count", Num(|items|)));
                id in t.states && t.states[id].status.Completed? && t.states[id].node == s.states[id].node
                && t.states[id].approved == s.states[id].approved
                   && t.states[id].output == Single("count", Num(|items|))
    {
      GrowEffect(s1, id, s1.states[Tpl(g, id)].node, Tpl(g, id), FirstJoin(s1.states, Outs(s1, id)), items, |items|);
      var grown := AddClones(s1, id, s1.states[Tpl(g, id)].node, Tpl(g, id), FirstJoin(s1.states, Outs(s1, id)), items,
                             |items|);
      FinishLast(grown, id, Single("count", Num(|items|)));
      assert !IsNew(Tpl(g, id), |items|, id);
      hide Finish;
    }
  }

  lemma PlainExplained(g: Graph, w: World, s: State, id: Id)
    requires id in s.states && Explained(g, w, s.states[id])
    requires var k := s.states[id].node.kind; k.Trigger? || k.Transform? || k.Subworkflow? || k.Unknown? || k.Join?
    ensures id in Execute(w, s, id).states && Explained(g, w, Execute(w, s, id).states[id])
  {
    var s1 := Mark(s, id, Running, NoOutput, "");
    hide FailOrRetry;
    var o := RunNode(w, s1, id);
    if o.err.Some? {
      FailureEnds(w, o.s, id, o.err.value);
    }
  }

  // ----- The invariant of a round -----

  /** The clones a completed fork added are pending, and its join waits for them. */
  ghost predicate ClonesWait(g: Graph, s: State, f: Id)
    requires IsFork(g, f) && f in s.states
  {
    s.states[f].status.Completed? ==>
        exists n: nat :: s.states[f].output == Single("count", Num(n)) && HoldBack(g, s, f, n)
  }

  ghost predicate HoldBack(g: Graph, s: State, f: Id, n: nat)
    requires IsFork(g, f)
  {
    forall i: nat | i < n ::
      && CloneId(Tpl(g, f), i) in s.states && s.states[CloneId(Tpl(g, f), i)].status.Pending?
      && (forall k | k in g.nodes && JoinOf(g, f) == Some(k) :: Edge(CloneId(Tpl(g, f), i), k, Always, "") in Ins(s, k))
  }

  /** A body node in the middle of a round: what has run has the in-edges that let it run. */
  ghost predicate NodeOk(g: Graph, w: World, s: State, b: Id) {
    && b in s.states && b in g.nodes && s.states[b].node == g.nodes[b]
    && Resting(s.states[b].status) && !s.states[b].status.Skipped?
    && (HasRun(s.states[b]) ==> InEdgesAllow(s, b))
    && Explained(g, w, s.states[b])
    && (s.states[b].node.kind.Join? ==> JoinSettled(s, b))
    && (IsFork(g, b) ==> ClonesWait(g, s, b))
  }

  ghost predicate RoundOk(g: Graph, w: World, s: State, body: seq<Id>) {
    forall b | b in body :: NodeOk(g, w, s, b)
  }

  /** Executing a pending node disturbs no node whose in-edges all come from terminal nodes. */
  lemma SourceStays(g: Graph, s: State, t: State, id: Id, b: Id, e: Edge)
    requires GraphOk(g) && ForksApart(g) && Shape(g, s) && OriginOk(g, s) && Moved(g, s, t, id)
    requires id in s.states && s.states[id].status.Pending? && b in g.nodes && b in s.states && InEdgesAllow(s, b)
    requires e in Ins(t, b)
    ensures Undisturbed(s, t, b, e)
  {
    if OwnStep(s, t, id) {
      OwnSource(s, t, id, b, e);
    } else {
      var n: nat :| ForkStep(g, s, t, id, n);
      NotItsJoin(g, s, id, b);
      ForkSource(g, s, t, id, n, b, e);
    }
  }

  ghost predicate Undisturbed(s: State, t: State, b: Id, e: Edge)
    requires b in s.states
  {
    && e in Ins(s, b) && e.from in s.states && e.from in t.states && t.states[e.from] == s.states[e.from]
    && b in t.states && t.states[b].node == s.states[b].node
       && (s.states[b].node.kind.Join? || Outs(t, e.from) == Outs(s, e.from))
  }

  lemma OwnSource(s: State, t: State, id: Id, b: Id, e: Edge)
    requires OwnStep(s, t, id) && s.states[id].status.Pending? && b in s.states && InEdgesAllow(s, b) && e in Ins(t, b)
    ensures Undisturbed(s, t, b, e)
  {
    assert e in Ins(s, b) && SourceTerminal(s, e);
    assert Outs(t, e.from) == Outs(s, e.from);
  }

  lemma ForkSource(g: Graph, s: State, t: State, id: Id, n: nat, b: Id, e: Edge)
    requires GraphOk(g) && ForksApart(g) && Shape(g, s) && OriginOk(g, s) && ForkStep(g, s, t, id, n)
             && JoinOf(g, id) != Some(b)
    requires s.states[id].status.Pending? && b in g.nodes && b in s.states && InEdgesAllow(s, b) && e in Ins(t, b)
    ensures Undisturbed(s, t, b, e)
  {
    assert e in Ins(s, b) && SourceTerminal(s, e);
    NotItsClone(g, s, id, n, b, e);
    StaticStays(g, s, t, id, n, b);
    hide CloneId, Shape, InEdgesAllow, OriginOk, ForksApart, GraphOk, IsNew, FeedEdge, JoinOf;
  }

  lemma StaticStays(g: Graph, s: State, t: State, id: Id, n: nat, b: Id)
    requires ForksApart(g) && ForkStep(g, s, t, id, n) && b in g.nodes && b in s.states
    ensures b in t.states && t.states[b].node == s.states[b].node && !IsNew(Tpl(g, id), n, b)
  {
    hide CloneId;
  }

  lemma NotItsJoin(g: Graph, s: State, f: Id, b: Id)
    requires GraphOk(g) && Shape(g, s) && IsFork(g, f) && f in s.states && s.states[f].status.Pending?
    requires b in s.states && InEdgesAllow(s, b)
    ensures JoinOf(g, f) != Some(b)
  {
    forall d | d in g.edges && d.to == b
      ensures d.from != f
    {
      assert d in Ins(s, b) && SourceTerminal(s, d);
    }
    hide Shape, GraphOk, InEdgesAllow;
    if JoinOf(g, f) == Some(b) {
      JoinEdge(g, f);
    }
  }

  /** A source of a static node is static, or a clone of a fork whose join the node is. */
  lemma SourceOrigin(g: Graph, s: State, b: Id, e: Edge)
    requires GraphOk(g) && Shape(g, s) && OriginOk(g, s) && b in g.nodes && e in Ins(s, b)
    ensures e.from in g.nodes || exists h, i: nat ::
              IsFork(g, h) && e.from == CloneId(Tpl(g, h), i) && JoinOf(g, h) == Some(b)
  {
    TargetOf(g, s, b, e);
    KnownOrigin(g, s, b, e);
    hide Shape, OriginOk, CloneId, JoinOf;
  }

  lemma TargetOf(g: Graph, s: State, b: Id, e: Edge)
    requires EdgeShape(g, s) && e in Ins(s, b)
    ensures e.to == b
  {
  }

  lemma KnownOrigin(g: Graph, s: State, b: Id, e: Edge)
    requires GraphOk(g) && OriginOk(g, s) && b in g.nodes && e in Ins(s, b)
    ensures e.from in g.nodes || FromClone(g, e)
  {
    hide FromClone;
  }

  lemma NotItsClone(g: Graph, s: State, f: Id, n: nat, b: Id, e: Edge)
    requires GraphOk(g) && ForksApart(g) && Shape(g, s) && OriginOk(g, s) && IsFork(g, f) && JoinOf(g, f) != Some(b)
    requires b in g.nodes && b in s.states && e in Ins(s, b)
    ensures !IsNew(Tpl(g, f), n, e.from)
    ensures e.from in g.nodes || s.states[b].node.kind.Join?
  {
    SourceOrigin(g, s, b, e);
    StaticNode(g, s, b);
    hide Shape, OriginOk, CloneId, JoinOf;
    if e.from in g.nodes {
      assert forall j: nat :: CloneId(Tpl(g, f), j) !in g.nodes;
    } else {
      var h, i: nat :| IsFork(g, h) && e.from == CloneId(Tpl(g, h), i) && JoinOf(g, h) == Some(b);
      JoinEdge(g, h);
      hide ForksApart;
      forall j: nat | j < n
        ensures e.from != CloneId(Tpl(g, f), j)
      {
        NotSameClone(g, h, i, f, j);
      }
    }
  }

  lemma NotSameClone(g: Graph, h: Id, i: nat, f: Id, j: nat)
    requires ForksApart(g) && IsFork(g, h) && IsFork(g, f) && h != f
    ensures CloneId(Tpl(g, h), i) != CloneId(Tpl(g, f), j)
  {
    hide CloneId, ForksApart;
    if CloneId(Tpl(g, h), i) == CloneId(Tpl(g, f), j) {
      OtherFork(g, h, i, f, j);
    }
  }

  lemma MovedAllows(g: Graph, s: State, t: State, id: Id, b: Id)
    requires GraphOk(g) && ForksApart(g) && Shape(g, s) && OriginOk(g, s) && Moved(g, s, t, id)
    requires id in s.states && s.states[id].status.Pending? && b in g.nodes && b in s.states && InEdgesAllow(s, b)
             && b in t.states
    ensures InEdgesAllow(t, b)
    ensures s.states[b].node.kind.Join? && t.states[b] == s.states[b] && HasRun(s.states[b]) && JoinSettled(s, b) ==>
              JoinSettled(t, b)
  {
    forall e | e in Ins(t, b)
      ensures Undisturbed(s, t, b, e)
    {
      SourceStays(g, s, t, id, b, e);
    }
    InsStay(g, s, t, id, b);
    StaticKept(g, s, t, id, b);
    hide Moved, Shape, OriginOk, ForksApart, GraphOk;
    StillAllows(s, t, b);
    StillSettled(s, t, b);
  }

  lemma StaticKept(g: Graph, s: State, t: State, id: Id, b: Id)
    requires ForksApart(g) && Moved(g, s, t, id) && b in g.nodes && b in s.states && id in s.states
    ensures b in t.states && t.states[b].node == s.states[b].node
  {
    if !OwnStep(s, t, id) {
      var n: nat :| ForkStep(g, s, t, id, n);
      StaticStays(g, s, t, id, n, b);
    }
  }

  lemma StillAllows(s: State, t: State, b: Id)
    requires b in s.states && b in t.states && t.states[b].node == s.states[b].node && InEdgesAllow(s, b)
    requires forall e | e in Ins(t, b) :: Undisturbed(s, t, b, e)
    ensures InEdgesAllow(t, b)
  {
    forall e | e in Ins(t, b)
      ensures SourceTerminal(t, e) && (t.states[b].node.kind.Join? || EdgeHolds(t, e))
    {
      assert Undisturbed(s, t, b, e) && SourceTerminal(s, e);
    }
  }

  lemma StillSettled(s: State, t: State, b: Id)
    requires b in s.states && b in t.states && forall e | e in Ins(t, b) :: Undisturbed(s, t, b, e)
    requires forall e | e in Ins(s, b) :: e in Ins(t, b)
    ensures t.states[b] == s.states[b] && JoinSettled(s, b) ==> JoinSettled(t, b)
  {
  }

  lemma InsStay(g: Graph, s: State, t: State, id: Id, b: Id)
    requires Moved(g, s, t, id) && b in g.nodes
    ensures forall e | e in Ins(s, b) :: e in Ins(t, b)
  {
  }

  /** The clones of another fork stay as they are. */
  lemma MovedClones(g: Graph, s: State, t: State, id: Id, f: Id)
    requires ForksApart(g) && Moved(g, s, t, id) && id in g.nodes && IsFork(g, f) && f != id && f in s.states
             && f in t.states
    requires t.states[f] == s.states[f] && ClonesWait(g, s, f)
    ensures ClonesWait(g, t, f)
  {
    if s.states[f].status.Completed? {
      var n: nat :| s.states[f].output == Single("count", Num(n)) && HoldBack(g, s, f, n);
      hide CloneId, JoinOf;
      forall i: nat | i < n
        ensures CloneId(Tpl(g, f), i) in t.states && t.states[CloneId(Tpl(g, f), i)].status.Pending?
        ensures forall k | k in g.nodes && JoinOf(g, f) == Some(k) ::
                  Edge(CloneId(Tpl(g, f), i), k, Always, "") in Ins(t, k)
      {
        assert CloneId(Tpl(g, f), i) !in g.nodes;
        forall k | k in g.nodes && JoinOf(g, f) == Some(k)
          ensures Edge(CloneId(Tpl(g, f), i), k, Always, "") in Ins(t, k)
        {
          InsStay(g, s, t, id, k);
        }
      }
      assert HoldBack(g, t, f, n);
    }
  }

  lemma OwnClones(g: Graph, s: State, t: State, f: Id, n: nat)
    requires ForksApart(g) && ForkStep(g, s, t, f, n)
    ensures ClonesWait(g, t, f)
  {
    hide CloneId, JoinOf;
    forall i: nat | i < n
      ensures CloneId(Tpl(g, f), i) in t.states && t.states[CloneId(Tpl(g, f), i)].status.Pending?
      ensures forall k | k in g.nodes && JoinOf(g, f) == Some(k) ::
                Edge(CloneId(Tpl(g, f), i), k, Always, "") in Ins(t, k)
    {
      assert IsNew(Tpl(g, f), n, CloneId(Tpl(g, f), i)) && CloneId(Tpl(g, f), i) !in g.nodes;
      forall k | k in g.nodes && JoinOf(g, f) == Some(k)
        ensures Edge(CloneId(Tpl(g, f), i), k, Always, "") in Ins(t, k)
      {
        assert FeedEdge(g, f, i, k, Edge(CloneId(Tpl(g, f), i), k, Always, ""));
      }
    }
    assert HoldBack(g, t, f, n);
  }

  /** A join that runs is settled by what it finds. */
  lemma JoinRuns(w: World, s: State, id: Id)
    requires Ready(s, id) && s.states[id].node.kind.Join?
    ensures var t := Execute(w, s, id); id in t.states && JoinSettled(t, id)
  {
    var s1 := Mark(s, id, Running, NoOutput, "");
    var ins := Ins(s1, id);
    FirstFailedMeans(s1, ins);
    ExecuteOwn(w, s, id);
    forall e | e in ins
      ensures e.from != id
    {
      assert e in Ins(s, id) && SourceTerminal(s, e);
    }
    hide FailOrRetry, FirstFailed, InEdgesAllow;
    var o := RunJoin(s1, id);
    if o.err.Some? {
      FailureEnds(w, s1, id, o.err.value);
    }
    var t := Execute(w, s, id);
    assert Ins(t, id) == ins && forall e | e in ins :: FailedSource(t, e) == FailedSource(s1, e);
  }

  lemma NodeExplained(g: Graph, w: World, s: State, id: Id)
    requires ForksApart(g) && NodeShape(g, s) && id in s.states && id in g.nodes && s.states[id].node == g.nodes[id]
    requires !s.states[id].node.kind.Loop? && (s.states[id].node.kind.ParallelFork? ==> IsFork(g, id))
             && Explained(g, w, s.states[id])
    ensures id in Execute(w, s, id).states && Explained(g, w, Execute(w, s, id).states[id])
  {
    hide Execute, Explained, ForksApart, NodeShape;
    match s.states[id].node.kind
    case Agent(_) => AgentExplained(g, w, s, id);
    case HumanApproval(_) => GateExplained(g, w, s, id);
    case Condition(_) => ConditionExplained(g, w, s, id);
    case ParallelFork(_) => ForkExplained(g, w, s, id);
    case _ => PlainExplained(g, w, s, id);
  }

  /** The executed node after its own step. */
  lemma OwnNodeOk(g: Graph, w: World, s: State, id: Id)
    requires GraphOk(g) && ForksApart(g) && Shape(g, s) && OriginOk(g, s) && NodeOk(g, w, s, id) && Ready(s, id)
    requires !s.states[id].node.kind.Loop? && (s.states[id].node.kind.ParallelFork? ==> IsFork(g, id))
    ensures NodeOk(g, w, Execute(w, s, id), id)
  {
    var t := Execute(w, s, id);
    NodeExplained(g, w, s, id);
    ExecuteMoves(g, w, s, id);
    OwnStatus(g, w, s, id);
    hide Explained, InEdgesAllow, Shape, OriginOk, GraphOk, ForksApart, Execute, ClonesWait, JoinSettled;
    MovedAllows(g, s, t, id, id);
    if s.states[id].node.kind.Join? {
      JoinRuns(w, s, id);
    }
    if IsFork(g, id) {
      OwnFork(g, w, s, id);
    }
    MovedNode(g, s, t, id);
  }

  lemma MovedNode(g: Graph, s: State, t: State, id: Id)
    requires Moved(g, s, t, id) && id in s.states
    ensures id in t.states && t.states[id].node == s.states[id].node
    ensures t.states[id].status.Skipped? ==> s.states[id].status.Skipped?
  {
  }

  lemma OwnStatus(g: Graph, w: World, s: State, id: Id)
    requires id in s.states && Resting(s.states[id].status) && !s.states[id].node.kind.Loop?
    ensures id in Execute(w, s, id).states ==> Resting(Execute(w, s, id).states[id].status)
  {
    var busy := s.states.Keys - {id};
    ExecuteRests(w, s, id, busy);
    hide Execute;
  }

  lemma OwnFork(g: Graph, w: World, s: State, id: Id)
    requires GraphOk(g) && ForksApart(g) && Shape(g, s) && OriginOk(g, s) && IsFork(g, id) && id in s.states
    requires s.states[id].node == g.nodes[id]
    ensures id in Execute(w, s, id).states && ClonesWait(g, Execute(w, s, id), id)
  {
    ForkMoves(g, w, s, id);
    hide Execute, Shape, OriginOk, GraphOk, ForkStep;
    var t := Execute(w, s, id);
    MovedNode(g, s, t, id);
    if t.states[id].status.Completed? {
      var n: nat :| ForkStep(g, s, t, id, n);
      OwnClones(g, s, t, id, n);
    }
  }

  /** Any other body node. */
  lemma OtherNodeOk(g: Graph, w: World, s: State, t: State, id: Id, b: Id)
    requires GraphOk(g) && ForksApart(g) && Shape(g, s) && OriginOk(g, s) && Moved(g, s, t, id)
    requires id in g.nodes && id in s.states && s.states[id].status.Pending? && NodeOk(g, w, s, b) && b != id
    ensures NodeOk(g, w, t, b)
  {
    SameNode(g, s, t, id, b);
    hide Explained, InEdgesAllow, Shape, OriginOk, GraphOk, ClonesWait, JoinSettled, Moved;
    if HasRun(s.states[b]) {
      MovedAllows(g, s, t, id, b);
    }
    if IsFork(g, b) {
      MovedClones(g, s, t, id, b);
    }
    if s.states[b].node.kind.Join? {
      IdleJoin(t, b);
    }
  }

  lemma IdleJoin(t: State, b: Id)
    requires b in t.states
    ensures t.states[b].status.Pending? ==> JoinSettled(t, b)
  {
  }

  lemma SameNode(g: Graph, s: State, t: State, id: Id, b: Id)
    requires ForksApart(g) && Moved(g, s, t, id) && b in g.nodes && b in s.states && b != id
    ensures b in t.states && t.states[b] == s.states[b]
  {
    if !OwnStep(s, t, id) {
      var n: nat :| ForkStep(g, s, t, id, n);
      StaticStays(g, s, t, id, n, b);
      hide CloneId;
    }
  }

  lemma BodyStepOk(g: Graph, w: World, s: State, body: seq<Id>, id: Id)
    requires GraphOk(g) && ForksApart(g) && Shape(g, s) && OriginOk(g, s) && FlatBody(g, body) && RoundOk(g, w, s, body)
    requires id in body && Ready(s, id) && (s.states[id].node.kind.ParallelFork? ==> IsFork(g, id))
    ensures RoundOk(g, w, Execute(w, s, id), body)
  {
    assert NodeOk(g, w, s, id);
    OwnNodeOk(g, w, s, id);
    ExecuteMoves(g, w, s, id);
    hide NodeOk, Execute, Shape, OriginOk, GraphOk, ForksApart, Moved, InEdgesAllow;
    forall b | b in body
      ensures NodeOk(g, w, Execute(w, s, id), b)
    {
      if b != id {
        OtherNodeOk(g, w, s, Execute(w, s, id), id, b);
      }
    }
  }

  lemma {:induction false} BodyStepsOk(g: Graph, bodyOf: map<Id, seq<Id>>, rank: map<Id, nat>, w: World, s: State,
                                       l: Id, steps: Steps)
    requires Disciplined(g, bodyOf, rank) && Inv(g, s) && OriginOk(g, s)
             && ValidAll(w, bodyOf, s, BodyOf(bodyOf, l), steps)
    requires FlatBody(g, BodyOf(bodyOf, l)) && RoundOk(g, w, s, BodyOf(bodyOf, l))
    ensures RoundOk(g, w, AfterAll(w, bodyOf, s, steps), BodyOf(bodyOf, l))
    decreases steps
  {
    hide Execute, InEdgesAllow, RoundOk, Inv, Disciplined, OriginOk, Below, FlatBody;
    if steps.Then? {
      var t := AfterAll(w, bodyOf, s, steps.before);
      BodyStepsOk(g, bodyOf, rank, w, s, l, steps.before);
      StepsOutcome(g, bodyOf, rank, w, s, l, steps.before);
      StepsOrigin(g, bodyOf, rank, w, s, l, steps.before);
      FlatStep(g, w, t, BodyOf(bodyOf, l), steps.last.id);
      GraphFacts(g, bodyOf, rank);
      ShapeOf(g, t);
      ForkStatic(g, bodyOf, rank, t, steps.last.id);
      BodyStepOk(g, w, t, BodyOf(bodyOf, l), steps.last.id);
    }
  }

  lemma FlatStep(g: Graph, w: World, s: State, body: seq<Id>, id: Id)
    requires FlatBody(g, body) && RoundOk(g, w, s, body) && id in body
    ensures id in s.states && !s.states[id].node.kind.Loop?
  {
  }

  lemma {:induction false} IsReset(s: State, body: seq<Id>, k: nat)
    requires k <= |body| && forall b | b in body :: b in s.states
    ensures forall b | b in body[..k] :: b in s.states && ResetBody(s, body, k).states[b] == Reset(s.states[b])
    ensures forall b | b in s.states :: ResetBody(s, body, k).states[b].node == s.states[b].node
  {
    if k > 0 {
      IsReset(s, body, k - 1);
      assert body[..k] == body[..k - 1] + [body[k - 1]];
    }
  }

  /** A reset body has not run. */
  lemma ResetOk(g: Graph, w: World, s: State, body: seq<Id>)
    requires FlatBody(g, body) && NodeShape(g, s)
    ensures RoundOk(g, w, ResetAll(s, body), body)
  {
    assert forall b | b in body :: b in s.states && s.states[b].node == g.nodes[b];
    hide ResetBody, InEdgesAllow;
    IsReset(s, body, |body|);
    assert body[..|body|] == body;
    hide ClonesWait;
    forall b | b in body
      ensures NodeOk(g, w, ResetAll(s, body), b)
    {
      FreshOk(g, w, ResetAll(s, body), b);
    }
  }

  lemma FreshOk(g: Graph, w: World, s: State, b: Id)
    requires b in g.nodes && b in s.states && s.states[b] == Fresh(g.nodes[b])
    ensures NodeOk(g, w, s, b)
  {
  }

  lemma ResetOrigin(g: Graph, s: State, body: seq<Id>)
    requires OriginOk(g, s) && forall b | b in body :: b in s.states
    ensures OriginOk(g, ResetAll(s, body))
  {
    ResetEdges(s, body, |body|);
    EdgesOnly(g, s, ResetAll(s, body));
  }

  lemma RoundIsOk(g: Graph, bodyOf: map<Id, seq<Id>>, rank: map<Id, nat>, w: World, s: State, id: Id, rounds: Rounds)
    requires Disciplined(g, bodyOf, rank) && Inv(g, s) && OriginOk(g, s) && id in s.states
             && ValidRounds(w, bodyOf, s, id, rounds)
    requires rounds.Round? && FlatBody(g, BodyOf(bodyOf, id))
    ensures RoundOk(g, w, AfterRounds(w, bodyOf, s, id, rounds), BodyOf(bodyOf, id))
    ensures Quiet(AfterRounds(w, bodyOf, s, id, rounds), BodyOf(bodyOf, id))
  {
    var body := BodyOf(bodyOf, id);
    var t := AfterRounds(w, bodyOf, s, id, rounds.before);
    hide Disciplined, Below, InEdgesAllow, Inv, FlatBody, OriginOk, RoundOk, ResetBody, ResetAll, Shape, NodeShape,
      EdgeShape;
    RoundsOutcome(g, bodyOf, rank, w, s, id, rounds.before);
    RoundsOrigin(g, bodyOf, rank, w, s, id, rounds.before);
    ResetOutcome(g, bodyOf, rank, t, id);
    ResetOrigin(g, t, body);
    ShapeOf(g, t);
    ResetOk(g, w, t, body);
    BodyStepsOk(g, bodyOf, rank, w, ResetAll(t, body), id, rounds.steps);
  }

  // ----- When a loop is stuck -----

  /** A body node is terminal after a round if and only if its in-edges let it run. */
  lemma TerminalIff(g: Graph, w: World, t: State, body: seq<Id>, b: Id)
    requires RoundOk(g, w, t, body) && Quiet(t, body) && b in body
    ensures b in t.states && (Terminal(t.states[b].status) <==> InEdgesAllow(t, b))
  {
    assert NodeOk(g, w, t, b);
    hide RoundOk, Explained, ClonesWait, JoinSettled, InEdgesAllow;
  }

  /** An in-edge that keeps a node from running: its source is not terminal, or its selector fails. */
  ghost predicate Blocks(t: State, b: Id, e: Edge)
    requires b in t.states
  {
    e in Ins(t, b) && (!SourceTerminal(t, e) || (!t.states[b].node.kind.Join? && !EdgeHolds(t, e)))
  }

  lemma {:induction false} StuckMeans(s: State, body: seq<Id>)
    ensures FirstStuck(s, body).None? <==> forall b | b in body :: b in s.states && Terminal(s.states[b].status)
  {
    if body != [] {
      StuckMeans(s, body[1..]);
      assert forall b :: b in body <==> b == body[0] || b in body[1..];
    }
  }

  lemma BlockedIff(t: State, b: Id)
    requires b in t.states
    ensures !InEdgesAllow(t, b) <==> exists e :: Blocks(t, b, e)
  {
    hide EdgeHolds;
    if !InEdgesAllow(t, b) {
      var e :| e in Ins(t, b) && !(SourceTerminal(t, e) && (t.states[b].node.kind.Join? || EdgeHolds(t, e)));
      assert Blocks(t, b, e);
    }
  }

  lemma SomeBlocked(t: State, body: seq<Id>)
    requires forall b | b in body :: b in t.states && (Terminal(t.states[b].status) <==> InEdgesAllow(t, b))
    ensures FirstStuck(t, body).Some? <==> exists b, e :: b in body && b in t.states && Blocks(t, b, e)
  {
    StuckMeans(t, body);
    hide FirstStuck, InEdgesAllow, Blocks;
    if FirstStuck(t, body).Some? {
      var b :| b in body && !Terminal(t.states[b].status);
      BlockedIff(t, b);
      var e :| Blocks(t, b, e);
      assert b in body && b in t.states && Blocks(t, b, e);
    } else if b, e :| b in body && b in t.states && Blocks(t, b, e) {
      BlockedIff(t, b);
      assert InEdgesAllow(t, b);
    }
  }

  /** After a round of a body without loops, the loop is stuck if and only if some in-edge of a body node
      blocks it. */
  lemma StuckIff(g: Graph, bodyOf: map<Id, seq<Id>>, rank: map<Id, nat>, w: World, s: State, id: Id, rounds: Rounds)
    requires Disciplined(g, bodyOf, rank) && Inv(g, s) && OriginOk(g, s) && id in s.states
             && ValidRounds(w, bodyOf, s, id, rounds)
    requires rounds.Round? && FlatBody(g, BodyOf(bodyOf, id)) && SpecOf(s, id).Some?
    ensures var t := AfterRounds(w, bodyOf, s, id, rounds);
            && (forall b | b in BodyOf(bodyOf, id) :: b in t.states)
            && (JudgeLoop(w, bodyOf, t, id).Stuck? <==>
                  exists b, e :: b in BodyOf(bodyOf, id) && b in t.states && Blocks(t, b, e))
  {
    var t := AfterRounds(w, bodyOf, s, id, rounds);
    var body := BodyOf(bodyOf, id);
    RoundIsOk(g, bodyOf, rank, w, s, id, rounds);
    RoundsOutcome(g, bodyOf, rank, w, s, id, rounds);
    LoopStuck(w, bodyOf, s, t, id);
    hide Disciplined, Below, Inv, OriginOk, FlatBody, RoundOk, Quiet, AfterRounds, ValidRounds, JudgeLoop, FirstStuck,
      InEdgesAllow, Blocks;
    forall b | b in body
      ensures b in t.states && (Terminal(t.states[b].status) <==> InEdgesAllow(t, b))
    {
      TerminalIff(g, w, t, body, b);
    }
    SomeBlocked(t, body);
  }

  /** After a round of any body, loops in it included, the loop is stuck if and only if some body node is
      pending and blocked by an in-edge. `busy` are the loops being executed. */
  lemma StuckIffPending(g: Graph, bodyOf: map<Id, seq<Id>>, rank: map<Id, nat>, w: World, s: State, id: Id,
                        rounds: Rounds, busy: set<Id>)
    requires Disciplined(g, bodyOf, rank) && Inv(g, s) && id in s.states && ValidRounds(w, bodyOf, s, id, rounds)
    requires rounds.Round? && SpecOf(s, id).Some? && Rests(s, busy) && forall b | b in BodyOf(bodyOf, id) :: b !in busy
    ensures var t := AfterRounds(w, bodyOf, s, id, rounds);
            JudgeLoop(w, bodyOf, t, id).Stuck? <==>
              exists b, e :: b in BodyOf(bodyOf, id) && b in t.states && t.states[b].status.Pending? && Blocks(t, b, e)
  {
    var t := AfterRounds(w, bodyOf, s, id, rounds);
    var body := BodyOf(bodyOf, id);
    RoundIsQuiet(w, bodyOf, s, id, rounds);
    hide Disciplined, Inv, Below, AfterRounds, ValidRounds, JudgeLoop, FirstStuck, Blocks, Rests, Quiet;
    RoundsOutcome(g, bodyOf, rank, w, s, id, rounds);
    RoundsRest(w, bodyOf, s, id, rounds, busy);
    LoopStuck(w, bodyOf, s, t, id);
    BodyThere(g, bodyOf, rank, id, t);
    QuietBlocked(t, body, busy);
  }

  lemma RoundIsQuiet(w: World, bodyOf: map<Id, seq<Id>>, s: State, id: Id, rounds: Rounds)
    requires ValidRounds(w, bodyOf, s, id, rounds) && rounds.Round?
    ensures Quiet(AfterRounds(w, bodyOf, s, id, rounds), BodyOf(bodyOf, id))
  {
    hide ValidAll, ResetAll, AfterAll, Quiet;
  }

  lemma QuietBlocked(t: State, body: seq<Id>, busy: set<Id>)
    requires Quiet(t, body) && Rests(t, busy) && forall b | b in body :: b in t.states && b !in busy
    ensures FirstStuck(t, body).Some? <==>
              exists b, e :: b in body && b in t.states && t.states[b].status.Pending? && Blocks(t, b, e)
  {
    StuckMeans(t, body);
    hide FirstStuck, InEdgesAllow, Blocks;
    if b :| b in body && !Terminal(t.states[b].status) {
      assert t.states[b].status.Pending? && !InEdgesAllow(t, b);
      BlockedIff(t, b);
      var e :| Blocks(t, b, e);
      assert b in body && b in t.states && t.states[b].status.Pending? && Blocks(t, b, e);
    }
  }

  lemma BodyThere(g: Graph, bodyOf: map<Id, seq<Id>>, rank: map<Id, nat>, id: Id, t: State)
    requires Disciplined(g, bodyOf, rank) && Inv(g, t)
    ensures forall b | b in BodyOf(bodyOf, id) :: b in t.states
  {
    BodyFacts(g, bodyOf, rank, id, t);
    hide Disciplined, Inv;
  }

  lemma LoopStuck(w: World, bodyOf: map<Id, seq<Id>>, s: State, t: State, id: Id)
    requires SpecOf(s, id).Some? && id in t.states && t.states[id] == s.states[id]
    ensures JudgeLoop(w, bodyOf, t, id).Stuck? <==> FirstStuck(t, BodyOf(bodyOf, id)).Some?
  {
  }
}
