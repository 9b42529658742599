/** Every engine operation on a node keeps the run invariant. One lemma for each node type; all but
    the fork only move one node, so each is the general lemma on a step of one node, with a proof that
    the new status is one the life of a node allows and that the event log says so. Expanding a fork
    is in EngineFork. */
module EngineSteps {
  import opened WorkflowDef
  import opened EngineState
  import opened EngineInvariants

  // ----- A node that is being executed -----

  /** A node in the middle of its execution, with an attempt left to fail. */
  ghost predicate Live(g: Graph, s: State, id: Id) {
    && id in s.states
    && var ns := s.states[id];
       && (ns.status.Running? || (ns.status.WaitingApproval? && ns.node.kind.HumanApproval?))
       && ns.attempts < MaxAttempts(ns.node)
       && (Tame(g, id) ==>
             && InEdgesAllow(s, id)
             && (ns.status.Running? && MaxAttempts(ns.node) > 1 ==>
                   PhaseOf(s.events, ns.node, id) == Active(ns.attempts + 1)))
  }

  /** What a proof about one execution needs from the invariant. */
  lemma LiveFacts(g: Graph, s: State, id: Id)
    requires Inv(g, s) && Live(g, s, id)
    ensures id in s.states && FeedbackFits(g, s) && !Terminal(s.states[id].status)
    ensures Tame(g, id) ==> PhaseFits(s.states[id], PhaseOf(s.events, s.states[id].node, id))
    ensures IsFork(g, id) ==> s.states[id].node.kind.ParallelFork?
  {
  }

  lemma LiveShape(g: Graph, s: State, id: Id)
    requires Inv(g, s)
    ensures Shape(g, s) && Numbered(s)
  {
  }

  lemma StartJoin(s: State, id: Id)
    requires id in s.states
    ensures JoinSettled(s.(states := s.states[id := s.states[id].(status := Running)]), id)
  {
  }

  lemma StartKeeps(g: Graph, s: State, id: Id)
    requires Inv(g, s) && Ready(s, id)
    ensures Inv(g, Mark(s, id, Running, NoOutput, "")) && Live(g, Mark(s, id, Running, NoOutput, ""), id)
  {
    hide JoinSettled, Tame, PhaseOf;
    StartJoin(s, id);
    var s' := Mark(s, id, Running, NoOutput, "");
    StepPhase(s, s', id, Some(Running), s.states[id].node, id);
    Step(g, s, s', id, Some(Running));
    if Tame(g, id) {
      SettledStays(g, s, s', id, Some(Running), id);
    }
  }

  /** Completing a node that is not a fork; a join must have no failed source. */
  lemma FinishKeeps(g: Graph, s: State, id: Id, s': State)
    requires Inv(g, s) && Live(g, s, id) && NodeStep(s, s', id, Some(Completed)) && FeedbackFits(g, s')
    requires !s.states[id].node.kind.ParallelFork?
    requires s.states[id].node.kind.Join? ==> forall e | e in Ins(s, id) :: !FailedSource(s, e)
    ensures Inv(g, s')
  {
    hide Inv;
    LiveFacts(g, s, id);
    StepPhase(s, s', id, Some(Completed), s.states[id].node, id);
    forall e | e in Ins(s, id)
      ensures FailedSource(s.(states := s'.states), e) ==> FailedSource(s, e)
    {
    }
    Step(g, s, s', id, Some(Completed));
  }

  /** Fields of a node in execution change without an event. */
  lemma PutKeeps(g: Graph, s: State, id: Id, s': State)
    requires Inv(g, s) && Live(g, s, id) && NodeStep(s, s', id, None) && FeedbackFits(g, s')
    requires s'.states[id].status == s.states[id].status && s'.states[id].attempts == s.states[id].attempts
    ensures Inv(g, s') && Live(g, s', id)
  {
    LiveFacts(g, s, id);
    LiveShape(g, s, id);
    LiveJoin(g, s, id, s');
    hide Inv, Shape, FeedbackFits, Tame, InEdgesAllow, PhaseOf;
    Step(g, s, s', id, None);
    if Tame(g, id) {
      SettledStays(g, s, s', id, None, id);
    }
  }

  /** A join in execution has not settled. */
  lemma LiveJoin(g: Graph, s: State, id: Id, s': State)
    requires Live(g, s, id) && id in s'.states && s'.states[id].status == s.states[id].status
    ensures JoinSettled(s.(states := s'.states), id)
  {
  }

  lemma SameFeedback(g: Graph, s: State, s': State)
    requires FeedbackFits(g, s) && s'.calls == s.calls && s'.feedback == s.feedback
    ensures FeedbackFits(g, s')
  {
  }

  lemma FailSettles(s: State, s': State, id: Id)
    requires id in s.states && id in s'.states && s'.states == s.states[id := s'.states[id]]
             && s'.states[id].status.Failed?
    requires s.states[id].node.kind.Join? ==> exists e :: e in Ins(s, id) && FailedSource(s, e)
    ensures s.states[id].node.kind.Join? ==> JoinSettled(s.(states := s'.states), id)
  {
    if s.states[id].node.kind.Join? {
      var e :| e in Ins(s, id) && FailedSource(s, e);
      assert e in Ins(s.(states := s'.states), id) && FailedSource(s.(states := s'.states), e);
    }
  }

  lemma FailKeeps(g: Graph, s: State, id: Id, msg: string)
    requires Inv(g, s) && id in s.states
    requires Tame(g, id) ==> InEdgesAllow(s, id) && !Terminal(s.states[id].status) &&
                             Advance(s.states[id].node, PhaseOf(s.events, s.states[id].node, id), Failed)
                                 == Done(Failed)
    requires s.states[id].node.kind.Join? ==> exists e :: e in Ins(s, id) && FailedSource(s, e)
    requires !s.states[id].status.Failed?
    ensures Inv(g, Mark(s, id, Failed, NoOutput, msg))
  {
    hide JoinSettled, InEdgesAllow, Tame, PhaseOf;
    var s' := Mark(s, id, Failed, NoOutput, msg);
    StepPhase(s, s', id, Some(Failed), s.states[id].node, id);
    FailSettles(s, s', id);
    Step(g, s, s', id, Some(Failed));
  }

  /** A failed execution, retried or not, keeps the invariant. */
  lemma FailOrRetryKeeps(g: Graph, w: World, s: State, id: Id, msg: string)
    requires Inv(g, s) && Live(g, s, id)
    requires s.states[id].node.kind.Join? ==> exists e :: e in Ins(s, id) && FailedSource(s, e)
    ensures Inv(g, FailOrRetry(w, s, id, msg))
  {
    hide Inv;
    LiveFacts(g, s, id);
    var ns := s.states[id];
    var s0 := Put(s, id, ns.(err := msg));
    SameFeedback(g, s, s0);
    PutKeeps(g, s, id, s0);
    if ns.node.kind.Join? {
      var e :| e in Ins(s, id) && FailedSource(s, e);
      assert e in Ins(s0, id) && FailedSource(s0, e);
    }
    if MaxAttempts(ns.node) == 1 {
      FailKeeps(g, s0, id, msg);
    } else {
      RetryKeeps(g, w, s0, id, msg);
    }
  }

  /** A retrying node waits with its in-edges unchanged. */
  lemma RetryMarkKeeps(g: Graph, s: State, id: Id, s': State, st: Option<Status>)
    requires Inv(g, s) && Live(g, s, id) && MaxAttempts(s.states[id].node) > 1
    requires NodeStep(s, s', id, st) && s'.calls == s.calls && s'.feedback == s.feedback
    requires s'.states[id].attempts == s.states[id].attempts + 1
    requires if st.None? then s'.states[id].status.Running?
             else st == Some(Retrying) && s.states[id].attempts + 1 < MaxAttempts(s.states[id].node)
    ensures Inv(g, s') && (Tame(g, id) ==> InEdgesAllow(s', id))
    ensures Tame(g, id) ==> PhaseFits(s'.states[id], PhaseOf(s'.events, s'.states[id].node, id))
  {
    assert s.states[id].node.kind.Agent?;
    LiveFacts(g, s, id);
    StepPhase(s, s', id, st, s.states[id].node, id);
    Step(g, s, s', id, st);
    if Tame(g, id) {
      SettledStays(g, s, s', id, st, id);
    }
  }

  lemma RetryKeeps(g: Graph, w: World, s: State, id: Id, msg: string)
    requires Inv(g, s) && Live(g, s, id) && MaxAttempts(s.states[id].node) > 1
    ensures var r := ScheduleRetry(w, s, id, msg);
            Inv(g, if r.again then r.s else Mark(r.s, id, Failed, NoOutput, msg))
  {
    hide Inv, InEdgesAllow, Tame, PhaseOf, BacksOff;
    var ns := s.states[id];
    var r := ScheduleRetry(w, s, id, msg);
    var s1 := Put(s, id, ns.(attempts := ns.attempts + 1));
    if ns.attempts + 1 >= MaxAttempts(ns.node) {
      RetryMarkKeeps(g, s, id, s1, None);
      FailKeeps(g, s1, id, msg);
    } else {
      var s2 := Mark(s1, id, Retrying, NoOutput, msg);
      RetryMarkKeeps(g, s, id, s2, Some(Retrying));
      if r.again {
        ResumeKeeps(g, s2, id, r.s);
      } else {
        FailKeeps(g, s2, id, msg);
      }
    }
  }

  /** After the backoff the node is pending again, with an attempt left. */
  lemma ResumeKeeps(g: Graph, s: State, id: Id, s': State)
    requires Inv(g, s) && id in s.states && s.states[id].status.Retrying?
    requires 0 < s.states[id].attempts < MaxAttempts(s.states[id].node) && !s.states[id].node.kind.Join?
    requires s' == Put(s, id, s.states[id].(status := Pending))
    ensures Inv(g, s')
  {
    Step(g, s, s', id, None);
  }

  // ----- Node types other than fork and loop -----

  /** `t` is `s` up to the fields of `id`, the calls and the feedback. */
  ghost predicate Same(s: State, t: State, id: Id) {
    && id in s.states && id in t.states && t.states == s.states[id := t.states[id]]
    && t.states[id].node == s.states[id].node
    && t.inE == s.inE && t.outE == s.outE && t.events == s.events && t.seqNo == s.seqNo
  }

  lemma FinishIsStep(s: State, t: State, id: Id, out: Output)
    requires Same(s, t, id)
    ensures var s' := Finish(t, id, out);
            NodeStep(s, s', id, Some(Completed)) && s'.calls == t.calls && s'.feedback == t.feedback
  {
  }

  lemma MarkIsStep(s: State, t: State, id: Id, st: Status, out: Output)
    requires Same(s, t, id)
    ensures var s' := Mark(UpdateScope(t, id), id, st, out, "");
            NodeStep(s, s', id, Some(st)) && s'.calls == t.calls && s'.feedback == t.feedback
  {
  }

  lemma FeedbackAfterAgent(g: Graph, s: State, id: Id, ok: bool)
    requires FeedbackFits(g, s) && id in s.states
    ensures var calls := s.calls + [AgentCall(id, AgentInput(s, id), ok)];
            FeedbackDelivered(g, calls) &&
            forall k :: (if k in s.feedback && !(ok && k == id) then Some(s.feedback[k]) else None) == Owed(g, calls, k)
  {
    var calls := s.calls + [AgentCall(id, AgentInput(s, id), ok)];
    assert calls[..|s.calls|] == s.calls;
    forall i | 0 <= i < |calls| && calls[i].AgentCall?
      ensures InputSaysOwed(calls[i].input, Owed(g, calls[..i], calls[i].node))
    {
      assert calls[..i] == s.calls[..i];
      if i == |s.calls| {
        assert s.calls[..i] == s.calls;
      }
    }
  }

  lemma AgentKeeps(g: Graph, w: World, s: State, id: Id)
    requires Inv(g, s) && Live(g, s, id) && s.states[id].node.kind.Agent?
    ensures var o := RunAgent(w, s, id);
            Inv(g, o.s) && (o.err.Some? ==> Live(g, o.s, id))
  {
    hide Inv, Live, FeedbackDelivered, AgentInput, Shape, Tame, PhaseOf;
    LiveFacts(g, s, id);
    var ns := s.states[id];
    var input := AgentInput(s, id);
    var reply := w.runAgent(ns.node, ns.attempts, input, |s.calls|);
    FeedbackAfterAgent(g, s, id, reply.AgentOk?);
    var called := s.(calls := s.calls + [AgentCall(id, input, reply.AgentOk?)]);
    if reply.AgentErr? {
      var s' := Put(called, id, ns.(err := reply.msg));
      assert FeedbackFits(g, s');
      PutKeeps(g, s, id, s');
    } else {
      var t := Put(called, id, ns.(err := "")).(feedback := s.feedback - {id});
      FinishIsStep(s, t, id, reply.output);
      assert FeedbackFits(g, Finish(t, id, reply.output));
      FinishKeeps(g, s, id, Finish(t, id, reply.output));
    }
  }

  lemma FeedbackAfterGate(g: Graph, s: State, id: Id, reply: GateReply)
    requires Shape(g, s) && FeedbackFits(g, s)
    ensures var calls := s.calls + [GateCall(id, reply)];
            var fb := if reply.Decided? && !reply.ok && reply.feedback.Some?
                      then GiveFeedback(s.feedback, Outs(s, id), reply.feedback.value) else s.feedback;
            FeedbackDelivered(g, calls) &&
            forall k :: (if k in fb then Some(fb[k]) else None) == Owed(g, calls, k)
  {
    var calls := s.calls + [GateCall(id, reply)];
    assert calls[..|s.calls|] == s.calls;
    forall i | 0 <= i < |calls| && calls[i].AgentCall?
      ensures InputSaysOwed(calls[i].input, Owed(g, calls[..i], calls[i].node))
    {
      assert calls[..i] == s.calls[..i];
    }
  }

  lemma WaitKeeps(g: Graph, s: State, id: Id, s': State)
    requires Inv(g, s) && Live(g, s, id) && s.states[id].node.kind.HumanApproval? && s.states[id].status.Running?
    requires s' == Mark(s, id, WaitingApproval, NoOutput, "")
    ensures Inv(g, s') && Live(g, s', id) && Shape(g, s') && FeedbackFits(g, s')
  {
    StepPhase(s, s', id, Some(WaitingApproval), s.states[id].node, id);
    Step(g, s, s', id, Some(WaitingApproval));
    if Tame(g, id) {
      SettledStays(g, s, s', id, Some(WaitingApproval), id);
    }
  }

  lemma GateIsStep(w: World, s: State, id: Id)
    requires id in s.states && s.states[id].status.Running?
    ensures var s1 := Mark(s, id, WaitingApproval, NoOutput, "");
            var reply := w.approve(s.states[id].node, |s.calls|);
            var o := RunGate(w, s, id);
            && NodeStep(s1, o.s, id, if o.err.Some? then None else Some(Completed))
            && (o.err.Some? ==> o.s.states == s1.states)
            && o.s.states[id].attempts == s.states[id].attempts
            && o.s.calls == s.calls + [GateCall(id, reply)]
            && o.s.feedback == if reply.Decided? && !reply.ok && reply.feedback.Some?
                               then GiveFeedback(s.feedback, Outs(s, id), reply.feedback.value) else s.feedback
  {
    var s1 := Mark(s, id, WaitingApproval, NoOutput, "");
    var reply := w.approve(s.states[id].node, |s.calls|);
    var called := s1.(calls := s1.calls + [GateCall(id, reply)]);
    if reply.Decided? {
      var t := Put(called, id, called.states[id].(approved := reply.ok));
      var told := if !reply.ok && reply.feedback.Some?
                  then t.(feedback := GiveFeedback(s.feedback, Outs(s, id), reply.feedback.value)) else t;
      FinishIsStep(s1, told, id, Single("approved", Bool(reply.ok)));
    }
  }

  lemma GateKeeps(g: Graph, w: World, s: State, id: Id)
    requires Inv(g, s) && Live(g, s, id) && s.states[id].node.kind.HumanApproval? && s.states[id].status.Running?
    ensures var o := RunGate(w, s, id);
            Inv(g, o.s) && (o.err.Some? ==> Live(g, o.s, id))
  {
    hide Inv, FeedbackDelivered, Shape, RunGate, InEdgesAllow;
    var s1 := Mark(s, id, WaitingApproval, NoOutput, "");
    WaitKeeps(g, s, id, s1);
    FeedbackAfterGate(g, s1, id, w.approve(s.states[id].node, |s.calls|));
    GateIsStep(w, s, id);
    var o := RunGate(w, s, id);
    assert FeedbackFits(g, o.s);
    if o.err.Some? {
      PutKeeps(g, s1, id, o.s);
    } else {
      FinishKeeps(g, s1, id, o.s);
    }
  }

  lemma ExprKeeps(g: Graph, w: World, s: State, id: Id)
    requires Inv(g, s) && Live(g, s, id)
    requires s.states[id].node.kind.Condition? || s.states[id].node.kind.Transform? || s.states[id].node.kind.Trigger?
    ensures var o := RunNode(w, s, id);
            Inv(g, o.s) && (o.err.Some? ==> Live(g, o.s, id))
  {
    hide Inv, Live, FeedbackFits;
    LiveFacts(g, s, id);
    var o := RunNode(w, s, id);
    if s.states[id].node.kind.Condition? {
      ConditionKeeps(g, w, s, id);
    } else if o.err.None? {
      FinishIsStep(s, s, id, o.s.states[id].output);
      SameFeedback(g, s, o.s);
      FinishKeeps(g, s, id, o.s);
    }
  }

  lemma ConditionKeeps(g: Graph, w: World, s: State, id: Id)
    requires Inv(g, s) && Live(g, s, id) && s.states[id].node.kind.Condition?
    ensures var o := RunCondition(w, s, id);
            Inv(g, o.s) && (o.err.Some? ==> Live(g, o.s, id))
  {
    hide Inv, Live, FeedbackFits, Stringify, BranchTaken, HasFallback;
    LiveFacts(g, s, id);
    var o := RunCondition(w, s, id);
    var ns := s.states[id];
    var r := w.eval(ns.node.kind.expr, s.scope);
    if r.Evaluated? {
      var branch := Stringify(w, r.value);
      var out := Single("branch", Str(branch));
      var t := Put(s, id, ns.(branch := branch, output := out));
      ConditionIsStep(w, s, id, branch);
      hide RunCondition, Mark, UpdateScope;
      SameFeedback(g, s, o.s);
      if o.err.None? {
        FinishKeeps(g, s, id, o.s);
      } else {
        PutKeeps(g, s, id, o.s);
      }
    }
  }

  lemma ConditionIsStep(w: World, s: State, id: Id, branch: string)
    requires id in s.states && s.states[id].node.kind.Condition?
    requires w.eval(s.states[id].node.kind.expr, s.scope).Evaluated?
    requires branch == Stringify(w, w.eval(s.states[id].node.kind.expr, s.scope).value)
    ensures var o := RunCondition(w, s, id);
            && NodeStep(s, o.s, id, if o.err.None? then Some(Completed) else None)
            && o.s.calls == s.calls && o.s.feedback == s.feedback
            && (o.err.Some? ==>
                  o.s.states[id].status == s.states[id].status && o.s.states[id].attempts == s.states[id].attempts)
  {
    hide Stringify, BranchTaken, HasFallback;
    var out := Single("branch", Str(branch));
    MarkIsStep(s, Put(s, id, s.states[id].(branch := branch, output := out)), id, Completed, out);
  }

  lemma {:induction false} FirstFailedMeans(s: State, ins: seq<Edge>)
    ensures FirstFailed(s, ins).Some? <==> exists e :: e in ins && FailedSource(s, e)
  {
    if ins != [] {
      FirstFailedMeans(s, ins[1..]);
      assert forall e :: e in ins <==> e == ins[0] || e in ins[1..];
    }
  }

  lemma JoinKeeps(g: Graph, w: World, s: State, id: Id)
    requires Inv(g, s) && Live(g, s, id) && s.states[id].node.kind.Join?
    ensures var o := RunJoin(s, id);
            && Inv(g, o.s)
            && (o.err.Some? ==> o.s == s && exists e :: e in Ins(s, id) && FailedSource(s, e))
  {
    FirstFailedMeans(s, Ins(s, id));
    hide Inv;
    LiveFacts(g, s, id);
    var o := RunJoin(s, id);
    if o.err.None? {
      SameFeedback(g, s, o.s);
      FinishKeeps(g, s, id, o.s);
    }
  }

  // ----- Fork: the graph grows -----

  ghost predicate IsNew(template: Id, k: nat, id: Id) {
    exists i: nat :: i < k && id == CloneId(template, i)
  }

  ghost predicate NewEdge(fork: Id, template: Id, join: Option<Id>, k: nat, e: Edge) {
    exists i: nat :: i < k &&
      (e == Edge(fork, CloneId(template, i), Always, "")
       || (join.Some? && e == Edge(CloneId(template, i), join.value, Always, "")))
  }

  ghost predicate GrownNodes(s: State, s': State, tpl: Node, template: Id, k: nat) {
    && (forall id :: id in s'.states <==> id in s.states || IsNew(template, k, id))
    && (forall id | id in s'.states ::
          s'.states[id] == if IsNew(template, k, id) then Fresh(tpl.(id := id)) else s.states[id])
  }

  ghost predicate GrownEdges(s: State, s': State, fork: Id, template: Id, join: Option<Id>, k: nat) {
    && (forall x, e {:trigger e in Ins(s', x)} {:trigger e in Ins(s, x)} ::
          e in Ins(s', x) <==> e in Ins(s, x) || (e.to == x && NewEdge(fork, template, join, k, e)))
    && (forall x, e {:trigger e in Outs(s', x)} {:trigger e in Outs(s, x)} ::
          e in Outs(s', x) <==> e in Outs(s, x) || (e.from == x && NewEdge(fork, template, join, k, e)))
    && (forall x | x != fork && !IsNew(template, k, x) :: Outs(s', x) == Outs(s, x))
  }

  /** What expanding a fork adds, and that it changes nothing else. */
  ghost predicate Grown(s: State, s': State, fork: Id, tpl: Node, template: Id, join: Option<Id>, k: nat) {
    && s'.events == s.events && s'.seqNo == s.seqNo && s'.calls == s.calls && s'.feedback == s.feedback
    && GrownNodes(s, s', tpl, template, k) && GrownEdges(s, s', fork, template, join, k)
  }

  lemma GrownOne(s: State, s': State, fork: Id, tpl: Node, template: Id, join: Option<Id>, item: Json, k: nat)
    requires Grown(s, s', fork, tpl, template, join, k)
    ensures Grown(s, AddClone(s', fork, tpl, template, join, item, k), fork, tpl, template, join, k + 1)
  {
    hide GrownNodes, GrownEdges;
    var c := CloneId(template, k);
    var s1 := Put(s', c, Fresh(tpl.(id := c)));
    GrownNodesOne(s, s', AddClone(s', fork, tpl, template, join, item, k), tpl, template, k);
    GrownEdgesOne(s, s', s1, fork, template, join, item, k);
  }

  lemma GrownNodesOne(s: State, s': State, s'': State, tpl: Node, template: Id, k: nat)
    requires GrownNodes(s, s', tpl, template, k)
    requires s''.states == s'.states[CloneId(template, k) := Fresh(tpl.(id := CloneId(template, k)))]
    ensures GrownNodes(s, s'', tpl, template, k + 1)
  {
    NewAtLast(template, k);
  }

  lemma GrownEdgesOne(s: State, s': State, s1: State, fork: Id, template: Id, join: Option<Id>, item: Json, k: nat)
    requires GrownEdges(s, s', fork, template, join, k)
    requires s1.inE == s'.inE && s1.outE == s'.outE
    ensures var c := CloneId(template, k);
            var s2 := AddEdge(s1, Edge(fork, c, Always, "")).(scope := s'.scope[c := item]);
            var t := if join.Some? then AddEdge(s2, Edge(c, join.value, Always, "")) else s2;
            GrownEdges(s, t, fork, template, join, k + 1)
  {
    hide GrownEdges, EdgesPlus, AddEdge;
    var c := CloneId(template, k);
    var e1 := Edge(fork, c, Always, "");
    var s2 := AddEdge(s1, e1).(scope := s'.scope[c := item]);
    AddEdgeEffect(s', s1, s2, e1);
    if join.Some? {
      var e2 := Edge(c, join.value, Always, "");
      var s3 := AddEdge(s2, e2);
      AddEdgeEffect(s2, s2, s3, e2);
      PlusPlus(s', s2, s3, {e1}, {e2});
      GrownPlus(s, s', s3, fork, template, join, k, {e1} + {e2});
    } else {
      GrownPlus(s, s', s2, fork, template, join, k, {e1});
    }
  }

  ghost predicate EdgesPlus(s: State, s': State, added: set<Edge>) {
    && (forall x, e :: e in Ins(s', x) <==> e in Ins(s, x) || (e.to == x && e in added))
    && (forall x, e :: e in Outs(s', x) <==> e in Outs(s, x) || (e.from == x && e in added))
    && (forall x | forall e | e in added :: e.from != x :: Outs(s', x) == Outs(s, x))
  }

  lemma AddEdgeEffect(s: State, s1: State, s': State, e: Edge)
    requires s1.inE == s.inE && s1.outE == s.outE
    requires s'.inE == AddEdge(s1, e).inE && s'.outE == AddEdge(s1, e).outE
    ensures EdgesPlus(s, s', {e})
  {
  }

  lemma PlusPlus(s: State, s': State, s'': State, a: set<Edge>, b: set<Edge>)
    requires EdgesPlus(s, s', a) && EdgesPlus(s', s'', b)
    ensures EdgesPlus(s, s'', a + b)
  {
  }

  lemma GrownPlus(s: State, s': State, s'': State, fork: Id, template: Id, join: Option<Id>, k: nat, added: set<Edge>)
    requires GrownEdges(s, s', fork, template, join, k) && EdgesPlus(s', s'', added)
    requires forall e :: e in added <==> e == Edge(fork, CloneId(template, k), Always, "")
                                         || (join.Some? && e == Edge(CloneId(template, k), join.value, Always, ""))
    ensures GrownEdges(s, s'', fork, template, join, k + 1)
  {
    hide IsNew, NewEdge, CloneId;
    NewAtLast(template, k);
    forall x, e
      {:trigger e in Ins(s'', x)} {:trigger e in Ins(s, x)} {:trigger e in Outs(s'', x)} {:trigger e in Outs(s, x)}
      ensures e in Ins(s'', x) <==> e in Ins(s, x) || (e.to == x && NewEdge(fork, template, join, k + 1, e))
      ensures e in Outs(s'', x) <==> e in Outs(s, x) || (e.from == x && NewEdge(fork, template, join, k + 1, e))
    {
      NewEdgeLast(fork, template, join, k, e);
      GrownPlusAt(s, s', s'', fork, template, join, k, added, x, e);
    }
    forall x | x != fork && !IsNew(template, k + 1, x)
      ensures Outs(s'', x) == Outs(s, x)
    {
      NewAt(template, k, x);
      forall e | e in added
        ensures e.from != x
      {
        assert e.from == fork || e.from == CloneId(template, k);
      }
      assert !IsNew(template, k, x) && Outs(s', x) == Outs(s, x);
      assert Outs(s'', x) == Outs(s', x);
    }
  }

  lemma GrownPlusAt(s: State, s': State, s'': State, fork: Id, template: Id, join: Option<Id>, k: nat,
                    added: set<Edge>, x: Id, e: Edge)
    requires GrownEdges(s, s', fork, template, join, k) && EdgesPlus(s', s'', added)
    requires NewEdge(fork, template, join, k + 1, e) <==> NewEdge(fork, template, join, k, e) || e in added
    ensures e in Ins(s'', x) <==> e in Ins(s, x) || (e.to == x && NewEdge(fork, template, join, k + 1, e))
    ensures e in Outs(s'', x) <==> e in Outs(s, x) || (e.from == x && NewEdge(fork, template, join, k + 1, e))
  {
    hide NewEdge, IsNew;
    assert e in Ins(s'', x) <==> e in Ins(s', x) || (e.to == x && e in added);
    assert e in Outs(s'', x) <==> e in Outs(s', x) || (e.from == x && e in added);
  }

  lemma NewEdgeLast(fork: Id, template: Id, join: Option<Id>, k: nat, e: Edge)
    ensures NewEdge(fork, template, join, k + 1, e) <==>
            NewEdge(fork, template, join, k, e)
            || e == Edge(fork, CloneId(template, k), Always, "")
            || (join.Some? && e == Edge(CloneId(template, k), join.value, Always, ""))
  {
  }

  lemma NewAt(template: Id, k: nat, id: Id)
    ensures IsNew(template, k + 1, id) <==> IsNew(template, k, id) || id == CloneId(template, k)
  {
    NewAtLast(template, k);
  }

  lemma NewAtLast(template: Id, k: nat)
    ensures forall id :: IsNew(template, k + 1, id) <==> IsNew(template, k, id) || id == CloneId(template, k)
  {
    forall id
      ensures IsNew(template, k + 1, id) <==> IsNew(template, k, id) || id == CloneId(template, k)
    {
      if id == CloneId(template, k) {
        assert k < k + 1;
      }
    }
  }

  lemma GrownNone(s: State, fork: Id, tpl: Node, template: Id, join: Option<Id>)
    ensures Grown(s, s, fork, tpl, template, join, 0)
  {
    hide CloneId;
    assert forall id :: !IsNew(template, 0, id);
    assert forall e :: !NewEdge(fork, template, join, 0, e);
  }

  lemma {:induction false} GrowEffect(s: State, fork: Id, tpl: Node, template: Id, join: Option<Id>, items: seq<Json>,
                                      k: nat)
    requires k <= |items|
    ensures Grown(s, AddClones(s, fork, tpl, template, join, items, k), fork, tpl, template, join, k)
  {
    hide CloneId, AddClone;
    if k == 0 {
      GrownNone(s, fork, tpl, template, join);
    } else {
      hide Grown;
      GrowEffect(s, fork, tpl, template, join, items, k - 1);
      GrownOne(s, AddClones(s, fork, tpl, template, join, items, k - 1), fork, tpl, template, join, items[k - 1],
               k - 1);
    }
  }

  // ----- Retries -----

  lemma OnlyAgentsRetry(n: Node)
    ensures MaxAttempts(n) != 1 ==> n.kind.Agent?
  {
  }

  /** The states a retry can leave behind. */
  lemma RetryCases(w: World, s: State, id: Id, msg: string)
    requires id in s.states
    ensures var r := ScheduleRetry(w, s, id, msg);
            var t := Put(s, id, s.states[id].(attempts := s.states[id].attempts + 1));
            var u := Mark(t, id, Retrying, NoOutput, msg);
            || r.s == s
            || (s.states[id].node.kind.Agent? && (r.s == t || r.s == u
                                                  || r.s == Put(u, id, u.states[id].(status := Pending))))
  {
    OnlyAgentsRetry(s.states[id].node);
    hide MaxAttempts, BacksOff, Put, Mark;
  }
}
