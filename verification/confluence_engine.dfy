/** Every schedule of the engine is a schedule of cores, so two complete runs of one definition
    agree on every node. A node type at a time, the new state of the engine and the effect on the
    core are both written out and compared; SimAny puts the types together. */
module ConfluenceEngine {
  import opened WorkflowDef
  import opened EngineState
  import opened EngineInvariants
  import opened EngineSteps
  import opened EngineFork
  import opened EngineFrames
  import opened EngineSchedule
  import opened EngineLoops
  import opened EngineSetup
  import opened Confluence
  import opened ConfluenceProof

  function Erase(ns: NodeState): NodeState {
    ns.(err := "")
  }

  function CoreOf(s: State): Core {
    Core(map k | k in s.states :: Erase(s.states[k]), (set k, e | k in s.inE && e in s.inE[k] :: e), s.scope)
  }

  // ----- Readiness means the same -----

  lemma SameEdges(g: Graph, s: State, k: Id)
    requires EdgeShape(g, s)
    ensures forall e :: e in InSet(CoreOf(s), k) <==> e in Ins(s, k)
    ensures forall e :: e in OutSet(CoreOf(s), k) <==> e in Outs(s, k)
  {
    hide Tame;
    forall e
      ensures e in CoreOf(s).edges <==> e in Ins(s, e.to)
    {
      if e in CoreOf(s).edges {
        var j :| j in s.inE && e in s.inE[j];
        assert e in Ins(s, j);
      }
    }
  }

  lemma SameReady(g: Graph, s: State, k: Id)
    requires EdgeShape(g, s)
    ensures CReady(CoreOf(s), k) <==> Ready(s, k)
  {
    SameEdges(g, s, k);
    if k in s.states {
      forall e | e in Ins(s, k) && e.from in s.states
        ensures Allows(CoreOf(s), k, e) <==> SourceTerminal(s, e) && (s.states[k].node.kind.Join? || EdgeHolds(s, e))
      {
        SameEdges(g, s, e.from);
      }
      hide Allows, EdgeHolds, SourceTerminal, Tame;
    }
  }

  lemma SameFailed(g: Graph, s: State, k: Id)
    requires EdgeShape(g, s)
    ensures AnyFailed(CoreOf(s), k) <==> FirstFailed(s, Ins(s, k)).Some?
  {
    hide Tame;
    SameEdges(g, s, k);
    FirstFailedMeans(s, Ins(s, k));
    if e :| e in Ins(s, k) && FailedSource(s, e) {
      assert e in InSet(CoreOf(s), k);
    }
  }

  // ----- One execution of a node that is not a fork -----

  /** `s'` is `s` with `id` in state `ns`, up to the error text, and the scope extended by `w`. */
  ghost predicate Moves(s: State, s': State, id: Id, ns: NodeState, write: Scope) {
    && id in s.states && id in s'.states
    && s'.states == s.states[id := s'.states[id]] && Erase(s'.states[id]) == Erase(ns)
    && s'.inE == s.inE && s'.outE == s.outE && s'.scope == s.scope + write
  }

  lemma MovesCore(s: State, s': State, id: Id, d: Delta)
    requires id in d.nodes && Moves(s, s', id, d.nodes[id], d.scope) && OnlyOwn(id, d) && d.nodes[id].err == ""
    ensures CoreOf(s') == Apply(CoreOf(s), d)
  {
    var c, c' := CoreOf(s), CoreOf(s');
    assert c'.nodes == c.nodes + d.nodes;
    assert c'.edges == c.edges + d.edges;
  }

  lemma FinishMoves(s: State, t: State, id: Id, out: Output)
    requires id in s.states && id in t.states && t.states == s.states[id := t.states[id]]
    requires t.inE == s.inE && t.outE == s.outE && t.scope == s.scope && t.states[id].node.id == id
    ensures Moves(s, Finish(t, id, out), id, t.states[id].(status := Completed, output := out), Write(id, out))
  {
  }

  lemma RetryMoves(w: World, s: State, t: State, id: Id, msg: string)
    requires Steady(w) && id in s.states && id in t.states && t.states == s.states[id := t.states[id]]
    requires t.inE == s.inE && t.outE == s.outE && t.scope == s.scope
    ensures Moves(s, FailOrRetry(w, t, id, msg), id, RetryWith(w, id, t.states[id]).nodes[id], map[])
  {
    RetryOutcome(w, t, id, msg);
    hide FailOrRetry, RetryWith;
  }

  lemma RetryOutcome(w: World, t: State, id: Id, msg: string)
    requires Steady(w) && id in t.states
    ensures var t' := FailOrRetry(w, t, id, msg);
            && id in t'.states && t'.states == t.states[id := t'.states[id]]
            && Erase(t'.states[id]) == Erase(RetryWith(w, id, t.states[id]).nodes[id])
            && t'.inE == t.inE && t'.outE == t.outE && t'.scope == t.scope
  {
    var ns := t.states[id];
    var t0 := Put(t, id, ns.(err := msg));
    var r := ScheduleRetry(w, t0, id, msg);
    SteadyCancel(w, ns.node, ns.attempts + 1, |t.calls|);
    ScheduleOutcome(w, t0, id, msg);
    hide Steady, ScheduleRetry, BacksOff, MaxAttempts, Mark;
    if !r.again {
      MarkFails(r.s, id, msg);
    }
  }

  lemma SteadyAgent(w: World, n: Node, a: nat, input: Scope, calls: nat)
    requires Steady(w)
    ensures w.runAgent(n, a, input, calls) == w.runAgent(n, a, map[], 0)
  {
  }

  lemma SteadyGate(w: World, n: Node, calls: nat)
    requires Steady(w)
    ensures w.approve(n, calls) == w.approve(n, 0)
  {
  }

  lemma SteadyCancel(w: World, n: Node, a: nat, calls: nat)
    requires Steady(w)
    ensures w.cancelled(n, a, calls) == w.cancelled(n, a, 0)
  {
  }

  lemma MarkFails(s: State, id: Id, msg: string)
    requires id in s.states
    ensures var s' := Mark(s, id, Failed, NoOutput, msg);
            && s'.states == s.states[id := s.states[id].(status := Failed)]
            && s'.inE == s.inE && s'.outE == s.outE && s'.scope == s.scope
  {
  }

  lemma ScheduleOutcome(w: World, t: State, id: Id, msg: string)
    requires id in t.states
    ensures var r := ScheduleRetry(w, t, id, msg);
            var ns := t.states[id];
            && id in r.s.states && r.s.states == t.states[id := r.s.states[id]]
            && r.s.inE == t.inE && r.s.outE == t.outE && r.s.scope == t.scope
            && r.again == (MaxAttempts(ns.node) > 1 && ns.attempts + 1 < MaxAttempts(ns.node) &&
                           !(BacksOff(ns.node, ns.attempts + 1) && w.cancelled(ns.node, ns.attempts + 1, |t.calls|)))
            && (if MaxAttempts(ns.node) == 1 then r.s == t
                else r.s.states[id] == ns.(attempts := ns.attempts + 1, status := r.s.states[id].status))
            && (r.again ==> r.s.states[id].status.Pending?)
  {
    hide BacksOff, MaxAttempts;
  }

  /** The execution of `id` in `s` has the effect `d` on the core. */
  ghost predicate Simulates(s: State, s': State, id: Id, d: Delta) {
    id in d.nodes && Moves(s, s', id, d.nodes[id], d.scope)
  }

  /** `t` is `s` with `id` in execution, up to its err and approved fields. */
  ghost predicate Underway(s: State, t: State, id: Id, approved: bool) {
    && id in s.states && id in t.states && t.states == s.states[id := t.states[id]]
    && t.inE == s.inE && t.outE == s.outE && t.scope == s.scope
    && t.states[id].node.id == id
    && t.states[id].(status := s.states[id].status, err := s.states[id].err) == s.states[id].(approved := approved)
  }

  lemma DoneSim(s: State, t: State, id: Id, approved: bool, out: Output)
    requires Underway(s, t, id, approved)
    ensures Simulates(s, Finish(t, id, out), id, DoneWith(id, Erase(s.states[id]).(approved := approved), out))
  {
    FinishMoves(s, t, id, out);
    hide Finish;
  }

  lemma RetrySim(w: World, s: State, t: State, id: Id, msg: string)
    requires Steady(w) && id in s.states && Underway(s, t, id, s.states[id].approved)
    ensures Simulates(s, FailOrRetry(w, t, id, msg), id, RetryWith(w, id, Erase(s.states[id])))
  {
    RetryMoves(w, s, t, id, msg);
    SameRetry(w, id, t.states[id], Erase(s.states[id]));
    hide FailOrRetry, RetryWith;
  }

  lemma SameRetry(w: World, id: Id, x: NodeState, y: NodeState)
    requires Erase(x.(status := y.status)) == Erase(y)
    ensures id in RetryWith(w, id, x).nodes && id in RetryWith(w, id, y).nodes
    ensures Erase(RetryWith(w, id, x).nodes[id]) == Erase(RetryWith(w, id, y).nodes[id])
    ensures RetryWith(w, id, y).scope == map[]
  {
    hide BacksOff, MaxAttempts;
  }

  lemma FailIsRetry(w: World, id: Id, ns: NodeState)
    requires !ns.node.kind.Agent?
    ensures RetryWith(w, id, ns) == FailWith(id, ns)
  {
  }

  lemma SimAgent(w: World, g: Graph, s: State, id: Id, failed: bool, outs: set<Edge>, ev: EvalReply)
    requires Steady(w) && Ready(s, id) && s.states[id].node.kind.Agent? && s.states[id].node.id == id
    ensures Simulates(s, Execute(w, s, id), id, Effect(w, g, id, Erase(s.states[id]), failed, outs, ev))
  {
    hide Steady, AgentInput, Finish, FailOrRetry, DoneWith, RetryWith, Simulates, InEdgesAllow, Execute, Effect;
    var s1 := Mark(s, id, Running, NoOutput, "");
    var ns := s1.states[id];
    var input := AgentInput(s1, id);
    var reply := w.runAgent(ns.node, ns.attempts, input, |s1.calls|);
    SteadyAgent(w, ns.node, ns.attempts, input, |s1.calls|);
    AgentEffect(w, g, id, Erase(s.states[id]), failed, outs, ev);
    AgentRuns(w, s, id);
    var called := s1.(calls := s1.calls + [AgentCall(id, input, reply.AgentOk?)]);
    if reply.AgentOk? {
      DoneSim(s, Put(called, id, ns.(err := "")).(feedback := s1.feedback - {id}), id, s.states[id].approved,
              reply.output);
    } else {
      RetrySim(w, s, Put(called, id, ns.(err := reply.msg)), id, reply.msg);
    }
  }

  lemma AgentEffect(w: World, g: Graph, id: Id, ns: NodeState, failed: bool, outs: set<Edge>, ev: EvalReply)
    requires ns.node.kind.Agent?
    ensures Effect(w, g, id, ns, failed, outs, ev) ==
            match w.runAgent(ns.node, ns.attempts, map[], 0)
            case AgentOk(out) => DoneWith(id, ns, out)
            case AgentErr(_) => RetryWith(w, id, ns)
  {
    hide DoneWith, RetryWith;
  }

  lemma AgentRuns(w: World, s: State, id: Id)
    requires id in s.states && s.states[id].node.kind.Agent?
    ensures var s1 := Mark(s, id, Running, NoOutput, "");
            var ns := s1.states[id];
            var input := AgentInput(s1, id);
            var reply := w.runAgent(ns.node, ns.attempts, input, |s1.calls|);
            var called := s1.(calls := s1.calls + [AgentCall(id, input, reply.AgentOk?)]);
            Execute(w, s, id) ==
            if reply.AgentOk? then Finish(Put(called, id, ns.(err := "")).(feedback := s1.feedback - {id}), id,
                                          reply.output)
            else FailOrRetry(w, Put(called, id, ns.(err := reply.msg)), id, reply.msg)
  {
    hide AgentInput, Finish, FailOrRetry;
  }

  lemma SimGate(w: World, g: Graph, s: State, id: Id, failed: bool, outs: set<Edge>, ev: EvalReply)
    requires Steady(w) && Ready(s, id) && s.states[id].node.kind.HumanApproval? && s.states[id].node.id == id
    ensures Simulates(s, Execute(w, s, id), id, Effect(w, g, id, Erase(s.states[id]), failed, outs, ev))
  {
    hide Steady, Finish, FailOrRetry, DoneWith, RetryWith, FailWith, Simulates, InEdgesAllow, Execute, Effect;
    var reply := w.approve(s.states[id].node, |s.calls|);
    SteadyGate(w, s.states[id].node, |s.calls|);
    FailIsRetry(w, id, Erase(s.states[id]));
    GateEffect(w, g, id, Erase(s.states[id]), failed, outs, ev);
    var t := GateRuns(w, s, id, reply);
    if reply.GateErr? {
      RetrySim(w, s, t, id, reply.msg);
    } else {
      DoneSim(s, t, id, reply.ok, Single("approved", Bool(reply.ok)));
    }
  }

  lemma GateEffect(w: World, g: Graph, id: Id, ns: NodeState, failed: bool, outs: set<Edge>, ev: EvalReply)
    requires ns.node.kind.HumanApproval?
    ensures Effect(w, g, id, ns, failed, outs, ev) ==
            match w.approve(ns.node, 0)
            case Decided(ok, _) => DoneWith(id, ns.(approved := ok), Single("approved", Bool(ok)))
            case GateErr(_) => FailWith(id, ns)
  {
    hide DoneWith, FailWith;
  }

  lemma GateRuns(w: World, s: State, id: Id, reply: GateReply) returns (t: State)
    requires id in s.states && s.states[id].node.kind.HumanApproval? && s.states[id].node.id == id
    requires reply == w.approve(s.states[id].node, |s.calls|)
    ensures Underway(s, t, id, if reply.Decided? then reply.ok else s.states[id].approved)
    ensures Execute(w, s, id) == if reply.GateErr? then FailOrRetry(w, t, id, reply.msg)
                                 else Finish(t, id, Single("approved", Bool(reply.ok)))
  {
    hide Finish, FailOrRetry, GiveFeedback;
    var s0 := Mark(s, id, Running, NoOutput, "");
    var s1 := Mark(s0, id, WaitingApproval, NoOutput, "");
    var called := s1.(calls := s1.calls + [GateCall(id, reply)]);
    if reply.GateErr? {
      t := called;
    } else {
      var decided := Put(called, id, called.states[id].(approved := reply.ok));
      t := if !reply.ok && reply.feedback.Some?
           then decided.(feedback := GiveFeedback(s0.feedback, Outs(s0, id), reply.feedback.value)) else decided;
    }
  }

  lemma SimCondition(w: World, g: Graph, s: State, id: Id, failed: bool, outs: set<Edge>, ev: EvalReply)
    requires Steady(w) && Ready(s, id) && s.states[id].node.kind.Condition? && s.states[id].node.id == id
    requires ev == w.eval(s.states[id].node.kind.expr, s.scope)
    requires forall e :: e in outs <==> e in Outs(s, id)
    ensures Simulates(s, Execute(w, s, id), id, Effect(w, g, id, Erase(s.states[id]), failed, outs, ev))
  {
    var s1 := Mark(s, id, Running, NoOutput, "");
    assert Outs(s1, id) == Outs(s, id);
    hide Stringify, InEdgesAllow;
    if ev.EvalErr? {
      FailIsRetry(w, id, Erase(s.states[id]));
      RetrySim(w, s, s1, id, ev.msg);
      hide FailOrRetry, RetryWith, FailWith, Simulates;
    } else {
      var branch := Stringify(w, ev.value);
      SimBranch(w, g, s, s1, id, failed, outs, ev, branch);
    }
  }

  lemma SimBranch(w: World, g: Graph, s: State, s1: State, id: Id, failed: bool, outs: set<Edge>, ev: EvalReply,
                  branch: string)
    requires Steady(w) && Ready(s, id) && s.states[id].node.kind.Condition? && s.states[id].node.id == id
    requires ev == w.eval(s.states[id].node.kind.expr, s.scope) && ev.Evaluated? && branch == Stringify(w, ev.value)
    requires s1 == Mark(s, id, Running, NoOutput, "")
    requires forall e :: e in outs <==> e in Outs(s, id)
    ensures Simulates(s, Execute(w, s, id), id, Effect(w, g, id, Erase(s.states[id]), failed, outs, ev))
  {
    hide Stringify, InEdgesAllow, UpdateScope, BranchTaken, HasFallback, Steady, Effect, Execute, Simulates;
    var out := Single("branch", Str(branch));
    var t := UpdateScope(Put(s1, id, s1.states[id].(branch := branch, output := out)), id);
    var taken := BranchTaken(Outs(s, id), branch) || HasFallback(Outs(s, id));
    var msg := "condition " + id + " no matching branch " + branch;
    BranchRuns(w, s, s1, id, branch);
    TakenMeans(Outs(s, id), outs, branch);
    BranchEffect(w, g, id, Erase(s.states[id]), failed, outs, ev, branch, taken);
    BranchWritten(s, s1, id, branch, out);
    if taken {
      BranchDone(s, t, id, branch, out);
    } else {
      BranchFails(w, s, t, id, branch, out, msg);
    }
    MovesSimulates(s, Execute(w, s, id), id, Effect(w, g, id, Erase(s.states[id]), failed, outs, ev));
  }

  lemma MovesSimulates(s: State, s': State, id: Id, d: Delta)
    requires id in d.nodes && Moves(s, s', id, d.nodes[id], d.scope)
    ensures Simulates(s, s', id, d)
  {
  }

  lemma TakenMeans(seqOuts: seq<Edge>, outs: set<Edge>, branch: string)
    requires forall e :: e in outs <==> e in seqOuts
    ensures (BranchTaken(seqOuts, branch) || HasFallback(seqOuts)) <==>
            (exists e :: e in outs && e.branchKey != "" && e.branchKey == branch)
            || (exists e :: e in outs && e.cond.Always? && e.branchKey == "")
  {
  }

  /** `t` is `s` with the branch and the output of `id` recorded. */
  ghost predicate Branched(s: State, t: State, id: Id, branch: string, out: Output) {
    && id in s.states && id in t.states && t.states == s.states[id := t.states[id]]
    && t.inE == s.inE && t.outE == s.outE && t.scope == s.scope + Write(id, out)
    && t.states[id].(status := s.states[id].status) == s.states[id].(branch := branch, output := out)
  }

  lemma BranchWritten(s: State, s1: State, id: Id, branch: string, out: Output)
    requires Ready(s, id) && s.states[id].node.id == id && s1 == Mark(s, id, Running, NoOutput, "")
    ensures Branched(s, UpdateScope(Put(s1, id, s1.states[id].(branch := branch, output := out)), id), id, branch, out)
  {
    hide InEdgesAllow;
  }

  lemma BranchDone(s: State, t: State, id: Id, branch: string, out: Output)
    requires Branched(s, t, id, branch, out)
    ensures Moves(s, Mark(t, id, Completed, out, ""), id,
                  Erase(s.states[id]).(branch := branch, output := out, status := Completed), Write(id, out))
  {
  }

  lemma BranchFails(w: World, s: State, t: State, id: Id, branch: string, out: Output, msg: string)
    requires Steady(w) && Branched(s, t, id, branch, out) && !t.states[id].node.kind.Agent?
    ensures Moves(s, FailOrRetry(w, t, id, msg), id,
                  Erase(s.states[id]).(branch := branch, output := out, status := Failed), Write(id, out))
  {
    RetryOutcome(w, t, id, msg);
    FailIsRetry(w, id, t.states[id]);
    hide FailOrRetry, RetryWith, Steady;
  }

  lemma BranchRuns(w: World, s: State, s1: State, id: Id, branch: string)
    requires Ready(s, id) && s.states[id].node.kind.Condition? && s1 == Mark(s, id, Running, NoOutput, "")
    requires w.eval(s.states[id].node.kind.expr, s.scope).Evaluated?
    requires branch == Stringify(w, w.eval(s.states[id].node.kind.expr, s.scope).value)
    ensures var out := Single("branch", Str(branch));
            var t := UpdateScope(Put(s1, id, s1.states[id].(branch := branch, output := out)), id);
            Execute(w, s, id) == if BranchTaken(Outs(s, id), branch) || HasFallback(Outs(s, id))
                                 then Mark(t, id, Completed, out, "")
                                 else FailOrRetry(w, t, id, "condition " + id + " no matching branch " + branch)
  {
    assert Outs(s1, id) == Outs(s, id);
    hide Stringify, InEdgesAllow, FailOrRetry, UpdateScope, BranchTaken, HasFallback;
  }

  lemma BranchEffect(w: World, g: Graph, id: Id, ns: NodeState, failed: bool, outs: set<Edge>, ev: EvalReply,
                     branch: string, taken: bool)
    requires ns.node.kind.Condition? && ev.Evaluated? && branch == Stringify(w, ev.value)
    requires taken <==> (exists e :: e in outs && e.branchKey != "" && e.branchKey == branch)
                        || (exists e :: e in outs && e.cond.Always? && e.branchKey == "")
    ensures var out := Single("branch", Str(branch));
            Effect(w, g, id, ns, failed, outs, ev)
            == Delta(map[id := ns.(branch := branch, output := out, status := if taken then Completed else Failed)], {},
                     Write(id, out))
  {
    hide Stringify;
  }

  lemma SimTransform(w: World, g: Graph, s: State, id: Id, failed: bool, outs: set<Edge>, ev: EvalReply)
    requires Steady(w) && Ready(s, id) && s.states[id].node.kind.Transform? && s.states[id].node.id == id
    requires ev == w.eval(s.states[id].node.kind.expr, s.scope)
    ensures Simulates(s, Execute(w, s, id), id, Effect(w, g, id, Erase(s.states[id]), failed, outs, ev))
  {
    var s1 := Mark(s, id, Running, NoOutput, "");
    FailIsRetry(w, id, Erase(s.states[id]));
    hide Steady, Finish, FailOrRetry, DoneWith, RetryWith, FailWith, Simulates, InEdgesAllow;
    if ev.EvalErr? {
      RetrySim(w, s, s1, id, ev.msg);
    } else {
      DoneSim(s, s1, id, s.states[id].approved, Value(ev.value));
    }
  }

  lemma SimJoin(w: World, g: Graph, s: State, id: Id, failed: bool, outs: set<Edge>, ev: EvalReply)
    requires Steady(w) && Ready(s, id) && s.states[id].node.kind.Join? && s.states[id].node.id == id
    requires failed <==> FirstFailed(s, Ins(s, id)).Some?
    ensures Simulates(s, Execute(w, s, id), id, Effect(w, g, id, Erase(s.states[id]), failed, outs, ev))
  {
    hide Steady, FirstFailed, InEdgesAllow, Finish, FailOrRetry, DoneWith, RetryWith, FailWith, Simulates;
    var s1 := Mark(s, id, Running, NoOutput, "");
    FirstFailedSame(s, s1, id, Ins(s, id));
    assert Ins(s1, id) == Ins(s, id);
    var r := RunJoin(s1, id);
    FailIsRetry(w, id, Erase(s.states[id]));
    assert Effect(w, g, id, Erase(s.states[id]), failed, outs, ev) ==
           if failed then FailWith(id, Erase(s.states[id]))
             else DoneWith(id, Erase(s.states[id]), Single("join", Str("ok")));
    assert r.err.Some? <==> failed;
    hide Effect, RunJoin;
    if failed {
      RetrySim(w, s, s1, id, r.err.value);
      JoinSim(w, s, id);
    } else {
      DoneSim(s, s1, id, s.states[id].approved, Single("join", Str("ok")));
      JoinSim(w, s, id);
    }
  }

  lemma JoinSim(w: World, s: State, id: Id)
    requires id in s.states && s.states[id].node.kind.Join?
    ensures var s1 := Mark(s, id, Running, NoOutput, "");
            var r := RunJoin(s1, id);
            Execute(w, s, id) == if r.err.Some? then FailOrRetry(w, s1, id, r.err.value)
                                 else Finish(s1, id, Single("join", Str("ok")))
  {
    hide Finish, FailOrRetry, FirstFailed;
  }

  lemma {:induction false} FirstFailedSame(s: State, s1: State, id: Id, ins: seq<Edge>)
    requires id in s.states && s.states[id].status.Pending? && s1 == Mark(s, id, Running, NoOutput, "")
    ensures FirstFailed(s1, ins) == FirstFailed(s, ins)
  {
    if ins != [] {
      FirstFailedSame(s, s1, id, ins[1..]);
    }
  }

  lemma SimOther(w: World, g: Graph, s: State, id: Id, failed: bool, outs: set<Edge>, ev: EvalReply)
    requires Steady(w) && Ready(s, id) && s.states[id].node.id == id
    requires s.states[id].node.kind.Trigger? || s.states[id].node.kind.Subworkflow? || s.states[id].node.kind.Unknown?
             || s.states[id].node.kind == ParallelFork(None)
    ensures Simulates(s, Execute(w, s, id), id, Effect(w, g, id, Erase(s.states[id]), failed, outs, ev))
  {
    hide Steady, Finish, FailOrRetry, DoneWith, RetryWith, FailWith, Simulates, InEdgesAllow, Execute, Effect;
    var s1 := Mark(s, id, Running, NoOutput, "");
    FailIsRetry(w, id, Erase(s.states[id]));
    OtherEffect(w, g, id, Erase(s.states[id]), failed, outs, ev);
    var msg := OtherRuns(w, s, id);
    if s.states[id].node.kind.Trigger? {
      DoneSim(s, s1, id, s.states[id].approved, TriggerOutput(s.states[id].node));
    } else {
      RetrySim(w, s, s1, id, msg);
    }
  }

  function TriggerOutput(n: Node): Output
    requires n.kind.Trigger?
  {
    Single("trigger", Str(if n.kind.source.Some? then n.kind.source.value else ""))
  }

  lemma OtherEffect(w: World, g: Graph, id: Id, ns: NodeState, failed: bool, outs: set<Edge>, ev: EvalReply)
    requires ns.node.kind.Trigger? || ns.node.kind.Subworkflow? || ns.node.kind.Unknown?
             || ns.node.kind == ParallelFork(None)
    ensures Effect(w, g, id, ns, failed, outs, ev) ==
            if ns.node.kind.Trigger? then DoneWith(id, ns, TriggerOutput(ns.node)) else FailWith(id, ns)
  {
    hide DoneWith, FailWith;
  }

  lemma OtherRuns(w: World, s: State, id: Id) returns (msg: string)
    requires id in s.states
    requires s.states[id].node.kind.Trigger? || s.states[id].node.kind.Subworkflow? || s.states[id].node.kind.Unknown?
             || s.states[id].node.kind == ParallelFork(None)
    ensures var s1 := Mark(s, id, Running, NoOutput, "");
            Execute(w, s, id) == if s.states[id].node.kind.Trigger?
              then Finish(s1, id, TriggerOutput(s.states[id].node))
                                 else FailOrRetry(w, s1, id, msg)
  {
    hide Finish, FailOrRetry;
    var o := RunNode(w, Mark(s, id, Running, NoOutput, ""), id);
    msg := if o.err.Some? then o.err.value else "";
  }

  // ----- A fork -----

  /** Every indexed edge is indexed under its target. */
  ghost predicate EdgesIndexed(s: State) {
    forall e, x | x in s.inE && e in s.inE[x] :: e.to == x
  }

  function ClonesDelta(f: Id, tpl: Node, template: Id, join: Option<Id>, items: seq<Json>, k: nat): Delta
    requires k <= |items|
  {
    Delta(CloneNodes(tpl, template, k), CloneEdges(f, template, join, k), CloneScope(template, items[..k]))
  }

  function CloneDelta(f: Id, tpl: Node, template: Id, join: Option<Id>, item: Json, i: nat): Delta {
    var c := CloneId(template, i);
    Delta(map[c := Fresh(tpl.(id := c))],
          {Edge(f, c, Always, "")} + (if join.Some? then {Edge(c, join.value, Always, "")} else {}), map[c := item])
  }

  lemma {:induction false} ClonesCore(s: State, f: Id, tpl: Node, template: Id, join: Option<Id>, items: seq<Json>,
                                      k: nat)
    requires k <= |items| && EdgesIndexed(s)
    ensures var s' := AddClones(s, f, tpl, template, join, items, k);
            CoreOf(s') == Apply(CoreOf(s), ClonesDelta(f, tpl, template, join, items, k)) && EdgesIndexed(s')
  {
    hide AddClone, CoreOf, CloneId, EdgesIndexed, Apply, CloneDelta;
    if k == 0 {
      ApplyNothing(CoreOf(s), ClonesDelta(f, tpl, template, join, items, 0));
    } else {
      ClonesCore(s, f, tpl, template, join, items, k - 1);
      var r := AddClones(s, f, tpl, template, join, items, k - 1);
      CloneCore(r, f, tpl, template, join, items[k - 1], k - 1);
      hide ClonesDelta;
      NextClone(CoreOf(s), f, tpl, template, join, items, k);
    }
  }

  lemma ApplyNothing(c: Core, d: Delta)
    requires d == Delta(map[], {}, map[])
    ensures Apply(c, d) == c
  {
  }

  lemma NextClone(c: Core, f: Id, tpl: Node, template: Id, join: Option<Id>, items: seq<Json>, k: nat)
    requires 0 < k <= |items|
    ensures Apply(Apply(c, ClonesDelta(f, tpl, template, join, items, k - 1)),
                  CloneDelta(f, tpl, template, join, items[k - 1], k - 1))
            == Apply(c, ClonesDelta(f, tpl, template, join, items, k))
  {
    hide CloneId;
    assert items[..k][..k - 1] == items[..k - 1];
    var x := ClonesDelta(f, tpl, template, join, items, k - 1);
    var y := CloneDelta(f, tpl, template, join, items[k - 1], k - 1);
    var z := ClonesDelta(f, tpl, template, join, items, k);
    assert z.nodes == x.nodes + y.nodes;
    assert z.edges == x.edges + y.edges;
    assert z.scope == x.scope + y.scope;
    hide ClonesDelta, CloneDelta;
    ApplyTwice(c, x, y, z);
  }

  lemma ApplyTwice(c: Core, x: Delta, y: Delta, z: Delta)
    requires z == Delta(x.nodes + y.nodes, x.edges + y.edges, x.scope + y.scope)
    ensures Apply(Apply(c, x), y) == Apply(c, z)
  {
    MapsAssociate(c.nodes, x.nodes, y.nodes);
    MapsAssociate(c.scope, x.scope, y.scope);
    assert (c.edges + x.edges) + y.edges == c.edges + (x.edges + y.edges);
  }

  lemma MapsAssociate<K, V>(a: map<K, V>, b: map<K, V>, c: map<K, V>)
    ensures (a + b) + c == a + (b + c)
  {
  }

  lemma CloneCore(s: State, f: Id, tpl: Node, template: Id, join: Option<Id>, item: Json, i: nat)
    requires EdgesIndexed(s)
    ensures var s' := AddClone(s, f, tpl, template, join, item, i);
            CoreOf(s') == Apply(CoreOf(s), CloneDelta(f, tpl, template, join, item, i)) && EdgesIndexed(s')
  {
    hide CloneId, Apply;
    CloneCoreParts(s, f, tpl, template, join, item, i);
    hide AddClone, CoreOf;
    FromParts(CoreOf(s), CoreOf(AddClone(s, f, tpl, template, join, item, i)), f, tpl, template, join, item, i);
  }

  lemma FromParts(c: Core, c': Core, f: Id, tpl: Node, template: Id, join: Option<Id>, item: Json, i: nat)
    requires var k := CloneId(template, i);
             && c'.nodes == c.nodes[k := Fresh(tpl.(id := k))]
             && c'.edges == c.edges + {Edge(f, k, Always, "")}
                  + (if join.Some? then {Edge(k, join.value, Always, "")} else {})
             && c'.scope == c.scope[k := item]
    ensures c' == Apply(c, CloneDelta(f, tpl, template, join, item, i))
  {
    hide CloneId;
  }

  lemma CloneCoreParts(s: State, f: Id, tpl: Node, template: Id, join: Option<Id>, item: Json, i: nat)
    requires EdgesIndexed(s)
    ensures var c := CloneId(template, i);
            var s' := AddClone(s, f, tpl, template, join, item, i);
            && CoreOf(s').nodes == CoreOf(s).nodes[c := Fresh(tpl.(id := c))]
            && CoreOf(s').edges == CoreOf(s).edges + {Edge(f, c, Always, "")}
                                   + (if join.Some? then {Edge(c, join.value, Always, "")} else {})
            && CoreOf(s').scope == CoreOf(s).scope[c := item]
            && EdgesIndexed(s')
  {
    hide CloneId;
    var c := CloneId(template, i);
    var s1 := Put(s, c, Fresh(tpl.(id := c)));
    var s2 := AddEdge(s1, Edge(f, c, Always, "")).(scope := s.scope[c := item]);
    EdgeCore(s1, Edge(f, c, Always, ""));
    if join.Some? {
      EdgeCore(s2, Edge(c, join.value, Always, ""));
    }
  }

  lemma EdgeCore(s: State, e: Edge)
    requires EdgesIndexed(s)
    ensures var s' := AddEdge(s, e);
            && CoreOf(s').edges == CoreOf(s).edges + {e} && s'.states == s.states && s'.scope == s.scope
            && EdgesIndexed(s')
  {
    var s' := AddEdge(s, e);
    forall d
      ensures d in CoreOf(s').edges <==> d in CoreOf(s).edges || d == e
    {
      if d in CoreOf(s).edges {
        var x :| x in s.inE && d in s.inE[x];
        assert x in s'.inE && d in s'.inE[x];
      }
      if d == e {
        assert e.to in s'.inE && e in s'.inE[e.to];
      }
    }
  }

  lemma CoreFacts(g: Graph, s: State, id: Id)
    requires Inv(g, s) && ForksApart(g) && id in s.states
    ensures Shape(g, s) && s.states[id].node.id == id
    ensures s.states[id].node.kind.ParallelFork? && s.states[id].node.kind.fanOut.Some? ==>
              IsFork(g, id) && s.states[id].node == g.nodes[id]
              && (Tpl(g, id) in s.states <==> Tpl(g, id) in g.nodes)
              && (Tpl(g, id) in g.nodes ==> s.states[Tpl(g, id)].node == g.nodes[Tpl(g, id)])
  {
    if s.states[id].node.kind.ParallelFork? && s.states[id].node.kind.fanOut.Some? && Tpl(g, id) in s.states {
      TemplateIsStatic(g, s, id);
    }
  }

  lemma SimFork(w: World, g: Graph, s: State, id: Id, failed: bool, outs: set<Edge>, ev: EvalReply)
    requires GraphOk(g) && ForksApart(g) && Inv(g, s) && Tame(g, id) && Steady(w) && Ready(s, id)
    requires IsFork(g, id) && s.states[id].node == g.nodes[id]
    requires ev == w.eval(g.nodes[id].kind.fanOut.value.itemsExpr, s.scope)
    ensures CoreOf(Execute(w, s, id)) == Apply(CoreOf(s), Effect(w, g, id, Erase(s.states[id]), failed, outs, ev))
  {
    var s1 := Mark(s, id, Running, NoOutput, "");
    CoreFacts(g, s, id);
    assert s1.states == s.states[id := s1.states[id]] && s1.states[id] == s.states[id].(status := Running);
    hide Inv, InEdgesAllow, GraphOk, ForksApart, Tame, CoreOf, Steady;
    StartKeeps(g, s, id);
    var t := Tpl(g, id);
    if ev.EvalErr? || !ev.value.Arr? || t !in g.nodes {
      hide Effect, Execute;
      FailIsRetry(w, id, Erase(s.states[id]));
      ForkRefused(w, g, s, s1, id, failed, outs, ev);
    } else {
      var items := ev.value.elems;
      CoreFacts(g, s1, id);
      ForkRuns(w, g, s, s1, id, items);
      hide Effect, Execute;
      ForkEffect(w, g, id, Erase(s.states[id]), failed, outs, items);
      ForkGrows(w, g, s, s1, id, items);
    }
  }

  lemma ForkRefused(w: World, g: Graph, s: State, s1: State, id: Id, failed: bool, outs: set<Edge>, ev: EvalReply)
    requires Ready(s, id) && Steady(w) && IsFork(g, id) && s.states[id].node == g.nodes[id] && g.nodes[id].id == id
    requires s1 == Mark(s, id, Running, NoOutput, "")
    requires ev == w.eval(g.nodes[id].kind.fanOut.value.itemsExpr, s.scope)
    requires Tpl(g, id) in s.states <==> Tpl(g, id) in g.nodes
    requires ev.EvalErr? || !ev.value.Arr? || Tpl(g, id) !in g.nodes
    ensures CoreOf(Execute(w, s, id)) == Apply(CoreOf(s), Effect(w, g, id, Erase(s.states[id]), failed, outs, ev))
  {
    hide InEdgesAllow, FailOrRetry, Steady, CoreOf;
    var o := RunNode(w, s1, id);
    assert o.err.Some? && o.s == s1;
    assert Execute(w, s, id) == FailOrRetry(w, s1, id, o.err.value);
    var d := FailWith(id, Erase(s.states[id]));
    assert Effect(w, g, id, Erase(s.states[id]), failed, outs, ev) == d;
    hide Effect, Execute, RunNode;
    FailIsRetry(w, id, Erase(s.states[id]));
    RetrySim(w, s, s1, id, o.err.value);
    MovesCore(s, Execute(w, s, id), id, d);
  }

  lemma ForkRuns(w: World, g: Graph, s: State, s1: State, id: Id, items: seq<Json>)
    requires Ready(s, id) && IsFork(g, id) && s.states[id].node == g.nodes[id]
    requires s1 == Mark(s, id, Running, NoOutput, "")
    requires w.eval(g.nodes[id].kind.fanOut.value.itemsExpr, s.scope) == Evaluated(Arr(items))
    requires Tpl(g, id) in s1.states && Tpl(g, id) in g.nodes && s1.states[Tpl(g, id)].node == g.nodes[Tpl(g, id)]
    ensures var grown := AddClones(s1, id, g.nodes[Tpl(g, id)], Tpl(g, id), FirstJoin(s1.states, Outs(s1, id)), items,
                                   |items|);
            id in grown.states && Execute(w, s, id) == Finish(grown, id, Single("count", Num(|items|)))
  {
    hide InEdgesAllow, FailOrRetry, Finish, AddClones, FirstJoin, CloneId, RunFork;
    ForkGives(w, g, s1, id, items);
    assert s1.states[id].node.kind == g.nodes[id].kind;
  }

  /** What the expansion of a fork over `items` gives. */
  lemma ForkGives(w: World, g: Graph, s: State, id: Id, items: seq<Json>)
    requires IsFork(g, id) && id in s.states && s.states[id].node == g.nodes[id]
    requires w.eval(g.nodes[id].kind.fanOut.value.itemsExpr, s.scope) == Evaluated(Arr(items))
    requires Tpl(g, id) in s.states && Tpl(g, id) in g.nodes && s.states[Tpl(g, id)].node == g.nodes[Tpl(g, id)]
    ensures var grown := AddClones(s, id, g.nodes[Tpl(g, id)], Tpl(g, id), FirstJoin(s.states, Outs(s, id)), items,
                                   |items|);
            id in grown.states && RunFork(w, s, id) == Outcome(Finish(grown, id, Single("count", Num(|items|))), None)
  {
    hide Finish, AddClones, FirstJoin, CloneId;
    AddClonesKeepsStates(s, id, g.nodes[Tpl(g, id)], Tpl(g, id), FirstJoin(s.states, Outs(s, id)), items, |items|);
  }

  lemma ForkEffect(w: World, g: Graph, id: Id, ns: NodeState, failed: bool, outs: set<Edge>, items: seq<Json>)
    requires IsFork(g, id) && ns.node == g.nodes[id] && Tpl(g, id) in g.nodes
    ensures var out := Single("count", Num(|items|));
            Effect(w, g, id, ns, failed, outs, Evaluated(Arr(items))) ==
            Delta(CloneNodes(g.nodes[Tpl(g, id)], Tpl(g, id), |items|)
                  + map[id := ns.(status := Completed, output := out)],
                  CloneEdges(id, Tpl(g, id), JoinOf(g, id), |items|),
                  CloneScope(Tpl(g, id), items) + Write(id, out))
  {
    hide CloneNodes, CloneEdges, CloneScope, JoinOf;
  }

  lemma ForkGrows(w: World, g: Graph, s: State, s1: State, id: Id, items: seq<Json>)
    requires GraphOk(g) && ForksApart(g) && Tame(g, id) && Ready(s, id) && IsFork(g, id)
    requires s1 == Mark(s, id, Running, NoOutput, "")
    requires Inv(g, s1) && Live(g, s1, id) && s1.states[id].node == g.nodes[id]
    requires Tpl(g, id) in s1.states && Tpl(g, id) in g.nodes && s1.states[Tpl(g, id)].node == g.nodes[Tpl(g, id)]
    ensures var grown := AddClones(s1, id, g.nodes[Tpl(g, id)], Tpl(g, id), FirstJoin(s1.states, Outs(s1, id)), items,
                                   |items|);
            var out := Single("count", Num(|items|));
            id in grown.states && CoreOf(Finish(grown, id, out)) == Apply(CoreOf(s),
              Delta(CloneNodes(g.nodes[Tpl(g, id)], Tpl(g, id), |items|)
                      + map[id := Erase(s.states[id]).(status := Completed, output := out)],
                    CloneEdges(id, Tpl(g, id), JoinOf(g, id), |items|),
                    CloneScope(Tpl(g, id), items) + Write(id, out)))
  {
    var t := Tpl(g, id);
    var out := Single("count", Num(|items|));
    var grown := AddClones(s1, id, g.nodes[t], t, FirstJoin(s1.states, Outs(s1, id)), items, |items|);
    assert s1.states[id] == s.states[id].(status := Running);
    StartCore(s, s1, id);
    GraphIds(g, s1, id);
    hide InEdgesAllow, GraphOk, ForksApart, Tame, CoreOf, Inv, Live, AddClones, Finish, JoinOf, Apply, CloneNodes,
      CloneEdges, CloneScope, Mark;
    ForkCore(g, s1, id, items);
    FinishCore(grown, id, out);
    assert items[..|items|] == items;
    ApplyThrice(CoreOf(s), id, Erase(s1.states[id]), ClonesDelta(id, g.nodes[t], t, JoinOf(g, id), items, |items|),
                Erase(s.states[id]).(status := Completed, output := out), Write(id, out));
  }

  lemma ForkCore(g: Graph, s1: State, id: Id, items: seq<Json>)
    requires GraphOk(g) && ForksApart(g) && Tame(g, id) && IsFork(g, id) && Inv(g, s1) && Live(g, s1, id)
    requires id in s1.states && s1.states[id].status.Running? && s1.states[id].node == g.nodes[id]
    requires Tpl(g, id) in s1.states && Tpl(g, id) in g.nodes && s1.states[Tpl(g, id)].node == g.nodes[Tpl(g, id)]
    ensures var grown := AddClones(s1, id, g.nodes[Tpl(g, id)], Tpl(g, id), FirstJoin(s1.states, Outs(s1, id)), items,
                                   |items|);
            && id in grown.states && grown.states[id] == s1.states[id]
            && CoreOf(grown) == Apply(CoreOf(s1), ClonesDelta(id, g.nodes[Tpl(g, id)], Tpl(g, id), JoinOf(g, id), items,
                                                              |items|))
  {
    var t := Tpl(g, id);
    var join := FirstJoin(s1.states, Outs(s1, id));
    IndexedShape(g, s1);
    hide GraphOk, ForksApart, Tame, CoreOf, Inv, Live, AddClones, EdgesIndexed, Expands, JoinOf, Apply, ClonesDelta;
    ForkExpands(g, s1, id, join, items);
    ForkUnchanged(g, s1, AddClones(s1, id, g.nodes[t], t, join, items, |items|), id, join, |items|);
    ClonesCore(s1, id, g.nodes[t], t, join, items, |items|);
  }

  lemma GraphIds(g: Graph, s: State, id: Id)
    requires Inv(g, s) && id in s.states
    ensures s.states[id].node.id == id
  {
  }

  lemma MarkSame(s: State, s1: State, id: Id)
    requires id in s.states && s1 == Mark(s, id, Running, NoOutput, "")
    ensures id in s1.states && s1.states == s.states[id := s1.states[id]]
    ensures s1.outE == s.outE && s1.inE == s.inE && s1.scope == s.scope
  {
  }

  lemma StartCore(s: State, s1: State, id: Id)
    requires id in s.states && s1 == Mark(s, id, Running, NoOutput, "")
    ensures CoreOf(s1) == Apply(CoreOf(s), Delta(map[id := Erase(s1.states[id])], {}, map[]))
  {
    hide Mark;
    MarkSame(s, s1, id);
    var c, c', d := CoreOf(s), CoreOf(s1), Delta(map[id := Erase(s1.states[id])], {}, map[]);
    assert c'.nodes == c.nodes + d.nodes;
    assert c'.edges == c.edges + d.edges;
  }

  lemma FinishCore(s: State, id: Id, out: Output)
    requires id in s.states && s.states[id].node.id == id
    ensures CoreOf(Finish(s, id, out)) ==
            Apply(CoreOf(s), Delta(map[id := Erase(s.states[id]).(status := Completed, output := out)], {},
                                   Write(id, out)))
  {
    var d := Delta(map[id := Erase(s.states[id]).(status := Completed, output := out)], {}, Write(id, out));
    FinishMoves(s, s, id, out);
    hide Finish;
    MovesCore(s, Finish(s, id, out), id, d);
  }

  lemma IndexedShape(g: Graph, s: State)
    requires Inv(g, s)
    ensures EdgesIndexed(s)
  {
    assert EdgeShape(g, s);
    forall e, x | x in s.inE && e in s.inE[x]
      ensures e.to == x
    {
      assert e in Ins(s, x);
    }
  }

  lemma ApplyThrice(c: Core, id: Id, a: NodeState, d: Delta, b: NodeState, write: Scope)
    ensures Apply(Apply(Apply(c, Delta(map[id := a], {}, map[])), d), Delta(map[id := b], {}, write))
            == Apply(c, Delta(d.nodes + map[id := b], d.edges, d.scope + write))
  {
    MapThrice(c.nodes, id, a, d.nodes, b);
    MapsAssociate(c.scope + map[], d.scope, write);
    assert c.scope + map[] == c.scope;
    assert c.edges + {} + d.edges + {} == c.edges + d.edges;
  }

  lemma MapThrice(m: map<Id, NodeState>, id: Id, a: NodeState, d: map<Id, NodeState>, b: NodeState)
    ensures ((m + map[id := a]) + d) + map[id := b] == m + (d + map[id := b])
  {
  }

  // ----- One execution -----

  /** What the engine does to a ready node is what one step does to the core. */
  lemma Simulate(w: World, g: Graph, s: State, id: Id)
    requires GraphOk(g) && ForksApart(g) && g.bodies == {} && Inv(g, s) && Steady(w)
    requires Ready(s, id) && !s.states[id].node.kind.Loop?
    ensures id in CoreOf(s).nodes && CoreOf(Execute(w, s, id)) == CStep(w, g, CoreOf(s), id)
  {
    var c := CoreOf(s);
    assert c.nodes[id] == Erase(s.states[id]) && c.scope == s.scope;
    Edges(g, s);
    SameEdges(g, s, id);
    SameFailed(g, s, id);
    hide Inv, GraphOk, ForksApart, EdgeShape, InEdgesAllow, Steady, CoreOf, AnyFailed, Execute, Effect, OutSet,
      Evaluate, Apply, FirstFailed;
    SimAny(w, g, s, id, AnyFailed(c, id), OutSet(c, id), Evaluate(w, s.states[id].node, s.scope));
  }

  lemma SimAny(w: World, g: Graph, s: State, id: Id, failed: bool, outs: set<Edge>, ev: EvalReply)
    requires GraphOk(g) && ForksApart(g) && g.bodies == {} && Inv(g, s) && Steady(w)
    requires Ready(s, id) && !s.states[id].node.kind.Loop?
    requires ev == Evaluate(w, s.states[id].node, s.scope)
    requires failed <==> FirstFailed(s, Ins(s, id)).Some?
    requires forall e :: e in outs <==> e in Outs(s, id)
    ensures CoreOf(Execute(w, s, id)) == Apply(CoreOf(s), Effect(w, g, id, Erase(s.states[id]), failed, outs, ev))
  {
    CoreFacts(g, s, id);
    AllTame(g, s, id);
    hide Inv, GraphOk, ForksApart, Shape, EdgeShape, InEdgesAllow, Steady, Tame, CoreOf, Execute, Effect, Apply,
      FirstFailed;
    if s.states[id].node.kind.ParallelFork? && s.states[id].node.kind.fanOut.Some? {
      SimFork(w, g, s, id, failed, outs, ev);
    } else {
      SimPlain(w, g, s, id, failed, outs, ev);
    }
  }

  lemma AllTame(g: Graph, s: State, id: Id)
    requires Inv(g, s) && g.bodies == {} && id in s.states
    ensures Tame(g, id)
  {
    if id !in g.nodes {
      var f :| IsFork(g, f) && CloneOf(g, id, f);
    }
  }

  lemma SimPlain(w: World, g: Graph, s: State, id: Id, failed: bool, outs: set<Edge>, ev: EvalReply)
    requires Steady(w) && Ready(s, id) && s.states[id].node.id == id && !s.states[id].node.kind.Loop?
    requires !(s.states[id].node.kind.ParallelFork? && s.states[id].node.kind.fanOut.Some?)
    requires ev == Evaluate(w, s.states[id].node, s.scope)
    requires failed <==> FirstFailed(s, Ins(s, id)).Some?
    requires forall e :: e in outs <==> e in Outs(s, id)
    ensures CoreOf(Execute(w, s, id)) == Apply(CoreOf(s), Effect(w, g, id, Erase(s.states[id]), failed, outs, ev))
  {
    var ns := Erase(s.states[id]);
    SimOne(w, g, s, id, failed, outs, ev);
    PlainOwn(w, g, ns, id, failed, outs, ev);
    NoErrorText(w, g, ns, id, failed, outs, ev);
    hide Execute, Effect, CoreOf, Apply;
    MovesCore(s, Execute(w, s, id), id, Effect(w, g, id, ns, failed, outs, ev));
  }

  lemma SimOne(w: World, g: Graph, s: State, id: Id, failed: bool, outs: set<Edge>, ev: EvalReply)
    requires Steady(w) && Ready(s, id) && s.states[id].node.id == id && !s.states[id].node.kind.Loop?
    requires !(s.states[id].node.kind.ParallelFork? && s.states[id].node.kind.fanOut.Some?)
    requires ev == Evaluate(w, s.states[id].node, s.scope)
    requires failed <==> FirstFailed(s, Ins(s, id)).Some?
    requires forall e :: e in outs <==> e in Outs(s, id)
    ensures Simulates(s, Execute(w, s, id), id, Effect(w, g, id, Erase(s.states[id]), failed, outs, ev))
  {
    hide Execute, Effect, Steady, InEdgesAllow, Simulates, FirstFailed;
    match s.states[id].node.kind
    case Agent(_) => SimAgent(w, g, s, id, failed, outs, ev);
    case HumanApproval(_) => SimGate(w, g, s, id, failed, outs, ev);
    case Condition(_) => SimCondition(w, g, s, id, failed, outs, ev);
    case Transform(_) => SimTransform(w, g, s, id, failed, outs, ev);
    case Join => SimJoin(w, g, s, id, failed, outs, ev);
    case _ => SimOther(w, g, s, id, failed, outs, ev);
  }

  lemma NoErrorText(w: World, g: Graph, ns: NodeState, id: Id, failed: bool, outs: set<Edge>, ev: EvalReply)
    requires ns.err == "" && !(ns.node.kind.ParallelFork? && ns.node.kind.fanOut.Some?)
    ensures var d := Effect(w, g, id, ns, failed, outs, ev); id in d.nodes && d.nodes[id].err == ""
  {
    hide Stringify, BacksOff, MaxAttempts;
  }

  // ----- Whole runs -----

  /** A definition without loops, as the engine indexes it. */
  ghost predicate LoopFreeRun(g: Graph, bodyOf: map<Id, seq<Id>>, templates: set<Id>) {
    && GraphOk(g) && ForksApart(g) && LoopFree(g)
    && bodyOf == map[] && g.bodies == {}
    && (forall t :: t in templates <==> IsTemplate(g, t))
  }

  lemma {:induction false} FollowsLeads(w: World, g: Graph, bodyOf: map<Id, seq<Id>>, templates: set<Id>,
                                        s: State, order: seq<Id>, t: State)
    requires LoopFreeRun(g, bodyOf, templates) && Steady(w) && Inv(g, s)
    requires Follows(w, bodyOf, templates, s, order, t)
    ensures Leads(w, g, CoreOf(s), order, CoreOf(t)) && Inv(g, t)
    decreases |order|
  {
    hide GraphOk, ForksApart, Inv, Steady, Execute, InEdgesAllow, CoreOf, CStep, LoopFree;
    if order != [] {
      var id := order[0];
      ExecuteKeeps(g, w, s, id);
      Simulate(w, g, s, id);
      FollowsLeads(w, g, bodyOf, templates, Execute(w, s, id), order[1..], t);
      Edges(g, s);
      SameReady(g, s, id);
      hide CReady;
    }
  }

  lemma Edges(g: Graph, s: State)
    requires Inv(g, s)
    ensures EdgeShape(g, s)
  {
  }

  lemma FixedPointFinal(g: Graph, bodyOf: map<Id, seq<Id>>, templates: set<Id>, s: State)
    requires LoopFreeRun(g, bodyOf, templates) && Inv(g, s) && AtFixedPoint(bodyOf, templates, s)
    ensures Final(g, CoreOf(s))
  {
    Edges(g, s);
    hide GraphOk, ForksApart, Inv, InEdgesAllow, CReady, EdgeShape, LoopFree;
    forall k
      ensures !Schedulable(g, CoreOf(s), k)
    {
      SameReady(g, s, k);
      assert Ready(s, k) && k !in templates ==> EligibleIn(bodyOf, templates, s, k);
    }
  }

  lemma FreshCore(g: Graph, s: State)
    requires GraphOk(g) && ForksApart(g) && FreshRun(g, s)
    ensures CInv(g, CoreOf(s))
  {
    FreshEdges(g, s);
    FreshEdgeSet(g, s);
    assert forall f, i: nat | IsFork(g, f) :: CloneId(Tpl(g, f), i) !in g.nodes;
    hide GraphOk, CloneId, JoinOf, StaticOuts, RejectShape;
  }

  lemma FreshEdgeSet(g: Graph, s: State)
    requires forall k, e {:trigger e in Ins(s, k)} :: e in Ins(s, k) <==> e in g.edges && e.to == k
    ensures forall e :: e in CoreOf(s).edges <==> e in g.edges
  {
    forall e
      ensures e in CoreOf(s).edges <==> e in g.edges
    {
      if e in g.edges {
        assert e in Ins(s, e.to);
      }
      if k :| k in s.inE && e in s.inE[k] {
        assert e in Ins(s, k);
      }
    }
  }

  /** Two fresh starts on one context differ in nothing a run can see. */
  lemma FreshSame(g: Graph, s: State, s': State)
    requires GraphOk(g) && FreshRun(g, s) && FreshRun(g, s') && s.scope == s'.scope
    ensures CoreOf(s) == CoreOf(s')
  {
    FreshEdges(g, s);
    FreshEdges(g, s');
    FreshEdgeSet(g, s);
    FreshEdgeSet(g, s');
    hide GraphOk, FreshRun, RejectShape, NodeShape;
    assert s.states == s'.states;
    assert CoreOf(s).edges == CoreOf(s').edges;
  }

  /** Two runs of one loop-free definition on the same context, in whatever order the maps were
      iterated, reach the same fixed point: the same nodes with the same statuses, outputs,
      branches and attempts, the same edges and scope; and they execute every node equally often. */
  lemma RunsAgree(w: World, g: Graph, uses: Expr -> set<string>, bodyOf: map<Id, seq<Id>>, templates: set<Id>,
                  s: State, first: seq<Id>, t: State, s': State, second: seq<Id>, u: State)
    requires LoopFreeRun(g, bodyOf, templates) && Steady(w) && Reading(w, uses) && ReadsAncestors(g, uses)
    requires FreshRun(g, s) && FreshRun(g, s') && s.scope == s'.scope
    requires Follows(w, bodyOf, templates, s, first, t) && AtFixedPoint(bodyOf, templates, t)
    requires Follows(w, bodyOf, templates, s', second, u) && AtFixedPoint(bodyOf, templates, u)
    ensures t.states.Keys == u.states.Keys
    ensures forall k | k in t.states :: Erase(t.states[k]) == Erase(u.states[k])
    ensures t.scope == u.scope && (forall k, e :: e in Ins(t, k) <==> e in Ins(u, k))
    ensures multiset(first) == multiset(second)
  {
    FreshInv(g, s);
    FreshInv(g, s');
    FollowsLeads(w, g, bodyOf, templates, s, first, t);
    FollowsLeads(w, g, bodyOf, templates, s', second, u);
    FixedPointFinal(g, bodyOf, templates, t);
    FixedPointFinal(g, bodyOf, templates, u);
    FreshCore(g, s);
    FreshSame(g, s, s');
    hide GraphOk, ForksApart, Inv, Steady, CoreOf, CInv, ReadsAncestors, Reading, Follows, AtFixedPoint, Leads, Final,
      FreshRun;
    Confluent(w, g, uses, CoreOf(s), first, CoreOf(t), second, CoreOf(u));
    SameCore(g, t, u);
  }

  /** Two launches of one loop-free definition on one context agree, whatever order each iterated its maps in. */
  lemma LaunchesAgree(w: World, d: WorkflowDef, uses: Expr -> set<string>, ctx: Context, bodyOf: map<Id, seq<Id>>,
                      templates: set<Id>,
                      first: Steps, t: State, bodyOf': map<Id, seq<Id>>, templates': set<Id>, second: Steps, u: State)
    requires ValidDef(d) && (forall n | n in d.nodes :: !n.kind.Loop?)
             && ForksApart(Graph(NodeMap(d.nodes), d.edges, {}))
    requires Steady(w) && Reading(w, uses) && ReadsAncestors(GraphOf(d, bodyOf), uses)
    requires BodiesExact(d, bodyOf) && TemplatesExact(d, templates) && BodiesExact(d, bodyOf')
             && TemplatesExact(d, templates')
    requires RunsTo(GraphOf(d, bodyOf), bodyOf, templates, w, ctx, first, t) && AtFixedPoint(bodyOf, templates, t)
    requires RunsTo(GraphOf(d, bodyOf'), bodyOf', templates', w, ctx, second, u) && AtFixedPoint(bodyOf', templates', u)
    ensures t.states.Keys == u.states.Keys
    ensures forall k | k in t.states :: Erase(t.states[k]) == Erase(u.states[k])
    ensures t.scope == u.scope && (forall k, e :: e in Ins(t, k) <==> e in Ins(u, k))
    ensures multiset(Ids(first)) == multiset(Ids(second))
  {
    var g := GraphOf(d, bodyOf);
    ApartAnyway(d, bodyOf);
    SameSetup(d, bodyOf, bodyOf', templates, templates');
    hide ValidDef, ForksApart, Steady, Reading, ReadsAncestors, BodiesExact, TemplatesExact, AtFixedPoint, GraphOf;
    var rank := LoopFreeReady(d, bodyOf, templates);
    var s, s' := RunStart(g, bodyOf, templates, w, ctx, first, t), RunStart(g, bodyOf, templates, w, ctx, second, u);
    OneScope(ctx, s.scope, s'.scope);
    LoopFreeFollows(g, bodyOf, templates, rank, w, s, first);
    LoopFreeFollows(g, bodyOf, templates, rank, w, s', second);
    hide RunsTo, LoopFreeRun, Disciplined, FreshRun, Scheduled, Follows;
    RunsAgree(w, g, uses, bodyOf, templates, s, Ids(first), t, s', Ids(second), u);
  }

  ghost function RunStart(g: Graph, bodyOf: map<Id, seq<Id>>, templates: set<Id>, w: World, ctx: Context, steps: Steps,
                          t: State): (s: State)
    requires RunsTo(g, bodyOf, templates, w, ctx, steps, t)
    ensures FreshRun(g, s) && ShowsContext(ctx, s.scope, {}) && Scheduled(w, bodyOf, templates, s, steps)
            && t == AfterAll(w, bodyOf, s, steps)
  {
    var s :| FreshRun(g, s) && ShowsContext(ctx, s.scope, {}) && Scheduled(w, bodyOf, templates, s, steps)
      && t == AfterAll(w, bodyOf, s, steps);
    s
  }

  lemma LoopFreeFollows(g: Graph, bodyOf: map<Id, seq<Id>>, templates: set<Id>, rank: map<Id, nat>, w: World, s: State,
                        steps: Steps)
    requires LoopFreeRun(g, bodyOf, templates) && Disciplined(g, bodyOf, rank) && FreshRun(g, s)
             && Scheduled(w, bodyOf, templates, s, steps)
    ensures Follows(w, bodyOf, templates, s, Ids(steps), AfterAll(w, bodyOf, s, steps))
  {
    hide GraphOk, ForksApart, Disciplined, FreshRun, Scheduled, Follows, AfterAll, Inv, LoopFree;
    FreshInv(g, s);
    PlainSchedule(g, bodyOf, templates, rank, w, s, steps);
  }

  lemma SameSetup(d: WorkflowDef, bodyOf: map<Id, seq<Id>>, bodyOf': map<Id, seq<Id>>, templates: set<Id>,
                  templates': set<Id>)
    requires BodiesExact(d, bodyOf) && BodiesExact(d, bodyOf') && forall n | n in d.nodes :: !n.kind.Loop?
    requires TemplatesExact(d, templates) && TemplatesExact(d, templates')
    ensures bodyOf == bodyOf' && templates == templates'
  {
    assert bodyOf == map[] && bodyOf' == map[];
  }

  lemma SameCore(g: Graph, t: State, u: State)
    requires Inv(g, t) && Inv(g, u) && CoreOf(t) == CoreOf(u)
    ensures t.states.Keys == u.states.Keys
    ensures forall k | k in t.states :: Erase(t.states[k]) == Erase(u.states[k])
    ensures t.scope == u.scope && (forall k, e :: e in Ins(t, k) <==> e in Ins(u, k))
  {
    SameNodes(t, u);
    Edges(g, t);
    Edges(g, u);
    hide EdgeShape, Inv, CoreOf;
    forall k
      ensures forall e :: e in Ins(t, k) <==> e in Ins(u, k)
    {
      SameEdges(g, t, k);
      SameEdges(g, u, k);
    }
  }

  lemma SameNodes(t: State, u: State)
    requires CoreOf(t) == CoreOf(u)
    ensures t.states.Keys == u.states.Keys && t.scope == u.scope
    ensures forall k | k in t.states :: Erase(t.states[k]) == Erase(u.states[k])
  {
    assert t.states.Keys == CoreOf(t).nodes.Keys == CoreOf(u).nodes.Keys == u.states.Keys;
    forall k | k in t.states
      ensures Erase(t.states[k]) == Erase(u.states[k])
    {
      assert CoreOf(t).nodes[k] == CoreOf(u).nodes[k];
    }
  }

  /** A valid definition without loops is one that the confluence theorem and `Run` apply to. */
  lemma LoopFreeReady(d: WorkflowDef, bodyOf: map<Id, seq<Id>>, templates: set<Id>) returns (rank: map<Id, nat>)
    requires ValidDef(d) && BodiesExact(d, bodyOf) && TemplatesExact(d, templates) && ForksApart(GraphOf(d, bodyOf))
    requires forall n | n in d.nodes :: !n.kind.Loop?
    ensures LoopFreeRun(GraphOf(d, bodyOf), bodyOf, templates)
    ensures Disciplined(GraphOf(d, bodyOf), bodyOf, rank)
  {
    var g := GraphOf(d, bodyOf);
    assert bodyOf == map[];
    assert g.bodies == {};
    StaticFacts(d);
    rank := map k | k in g.nodes :: 0;
    hide ForksApart, ValidDef;
    forall t
      ensures t in templates <==> IsTemplate(g, t)
    {
      if t in templates {
        var n :| n in d.nodes && n.kind.ParallelFork? && n.kind.fanOut.Some? && n.kind.fanOut.value.template == t;
        NodeIsMapped(d, n);
        assert IsFork(g, n.id);
      }
    }
  }

  lemma NodeIsMapped(d: WorkflowDef, n: Node)
    requires ValidDef(d) && n in d.nodes
    ensures n.id in NodeMap(d.nodes) && NodeMap(d.nodes)[n.id] == n
  {
    NodeMapFacts(d.nodes);
  }
}
