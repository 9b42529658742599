/** What the executions of a run mean value by value: context, branches, rounds, retries and outputs. */
module EngineValues {
  // The statements here are in the constants and field names of the definition language alone.

  import opened WorkflowDef
  import opened EngineState
  import opened EngineInvariants
  import opened EngineSteps
  import opened EngineSchedule
  import opened EngineSetup
  import opened EngineLoops
  import opened EngineFrames
  import opened EngineTheorems
  import opened EngineScope

  // ----- The context -----

  /** At every moment of a run the scope shows the context under every key that is no node: each field of
      an object under its own name, any other value under "context", and nothing without a context. */
  lemma ContextVisible(g: Graph, bodyOf: map<Id, seq<Id>>, templates: set<Id>, rank: map<Id, nat>, w: World,
                       ctx: Context, steps: Steps, mid: State)
    requires Disciplined(g, bodyOf, rank) && RunsTo(g, bodyOf, templates, w, ctx, steps, mid)
    ensures forall x | x !in mid.states ::
              match ctx
              case NoContext => x !in mid.scope
              case BadContext => x !in mid.scope
              case Context(json) =>
                if json.Obj? then (x in mid.scope <==> x in json.fields)
                                  && (x in mid.scope ==> mid.scope[x] == json.fields[x])
                else (x in mid.scope <==> x == "context") && (x in mid.scope ==> mid.scope[x] == json)
  {
    hide Disciplined, FreshRun, Scheduled, AfterAll, Shows;
    var start: State :| FreshRun(g, start) && ShowsContext(ctx, start.scope, {})
      && Scheduled(w, bodyOf, templates, start, steps) && mid == AfterAll(w, bodyOf, start, steps);
    OutputsVisible(g, bodyOf, templates, rank, w, start, steps);
  }

  // ----- Conditions -----

  /** A condition shows the branch it selected. */
  predicate Selected(s: State, id: Id, text: string) {
    && id in s.states && s.states[id].branch == text && s.states[id].node.kind.Condition?
    && id in s.scope && s.scope[id] == Obj(map["branch" := Str(text)])
  }

  predicate HasDefault(outs: seq<Edge>) {
    exists e :: e in outs && e.branchKey == "" && e.cond == Always
  }

  lemma BranchIsSelected(w: World, s: State, id: Id, v: Json, text: string)
    requires id in s.states && s.states[id].node.kind.Condition? && s.states[id].node.id == id
    requires w.eval(s.states[id].node.kind.expr, s.scope) == Evaluated(v) && Reads(w, v, text)
    ensures var o := RunCondition(w, s, id);
            && Selected(o.s, id, text) && Outs(o.s, id) == Outs(s, id)
            && (o.err.None? <==> BranchTaken(Outs(s, id), text) || HasDefault(Outs(s, id)))
            && (o.err.None? ==> o.s.states[id].status.Completed?)
  {
    hide BranchTaken;
  }

  lemma FailureKeepsBranch(w: World, s: State, id: Id, msg: string, text: string)
    requires Selected(s, id, text)
    ensures var t := FailOrRetry(w, s, id, msg);
            Selected(t, id, text) && Outs(t, id) == Outs(s, id) && t.states[id].status.Failed?
  {
  }

  lemma SelectedEdges(s: State, id: Id, text: string)
    requires Selected(s, id, text)
    ensures forall e | e in Outs(s, id) && e.from == id :: EdgeHolds(s, e) <==>
              if BranchTaken(Outs(s, id), text) then e.branchKey == text && text != ""
              else e.branchKey == "" && e.cond == Always
  {
  }

  /** The value of its expression decides where a condition leads: to the edges keyed with the text of the
      value, or, if there are none, to the keyless always edges, or else it fails. */
  lemma ConditionByValue(w: World, s: State, id: Id, v: Json, text: string)
    requires id in s.states && s.states[id].node.kind.Condition? && s.states[id].node.id == id
    requires w.eval(s.states[id].node.kind.expr, s.scope) == Evaluated(v) && Reads(w, v, text)
    ensures var t := Execute(w, s, id);
            var outs := Outs(s, id);
            && Selected(t, id, text) && Outs(t, id) == outs && t.states[id].status in {Completed, Failed}
            && (t.states[id].status.Completed? <==> BranchTaken(outs, text) || HasDefault(outs))
            && forall e | e in outs && e.from == id :: EdgeHolds(t, e) <==>
                 if BranchTaken(outs, text) then e.branchKey == text && text != ""
                 else e.branchKey == "" && e.cond == Always
  {
    var s1 := Mark(s, id, Running, NoOutput, "");
    assert Outs(s1, id) == Outs(s, id);
    BranchIsSelected(w, s1, id, v, text);
    var o := RunCondition(w, s1, id);
    hide RunCondition, FailOrRetry, Reads, Selected, BranchTaken, HasDefault, EdgeHolds;
    if o.err.Some? {
      FailureKeepsBranch(w, o.s, id, o.err.value, text);
    }
    SelectedEdges(Execute(w, s, id), id, text);
  }

  // ----- Loops -----

  /** A round begins with every body node pending and otherwise as on its first day, and changes nothing
      else: what the nodes showed stays visible until they complete again. */
  lemma {:induction false} ResetByValue(s: State, body: seq<Id>, k: nat)
    requires k <= |body| && forall b | b in body :: b in s.states
    ensures var r := ResetBody(s, body, k);
            && r == s.(states := r.states) && r.states.Keys == s.states.Keys
            && forall x | x in s.states :: r.states[x] ==
                 if x in body[..k] then NodeState(s.states[x].node, Pending, NoOutput, "", false, 0, "")
                 else s.states[x]
  {
    if k > 0 {
      ResetByValue(s, body, k - 1);
      assert body[..k] == body[..k - 1] + [body[k - 1]];
    }
  }

  /** The values that do not end a loop. */
  predicate Empty(v: Json) {
    v == Null || v == Bool(false) || v == Num(0) || v == Str("") || v == Arr([]) || v == Obj(map[])
  }

  /** Every node of the body has ended, and the condition of the loop has the value `v`. */
  predicate RoundValue(w: World, s: State, body: seq<Id>, condition: Expr, v: Json) {
    && (forall b | b in body :: b in s.states && s.states[b].status in {Completed, Failed, Skipped})
    && w.eval(condition, s.scope) == Evaluated(v)
  }

  lemma TruthyIs(v: Json)
    ensures Truthy(v) <==> !Empty(v)
  {
  }

  lemma {:induction false} StuckIs(s: State, body: seq<Id>)
    ensures FirstStuck(s, body).None? <==>
              forall b | b in body :: b in s.states && s.states[b].status in {Completed, Failed, Skipped}
  {
    if body != [] {
      StuckIs(s, body[1..]);
      assert forall b :: b in body <==> b == body[0] || b in body[1..];
    }
  }

  lemma JudgeIs(w: World, s: State, body: seq<Id>, condition: Expr)
    ensures Judge(w, s, body, condition).Converged? <==> exists v :: RoundValue(w, s, body, condition, v) && !Empty(v)
    ensures Judge(w, s, body, condition).Again? <==> exists v :: RoundValue(w, s, body, condition, v) && Empty(v)
  {
    StuckIs(s, body);
    var r := w.eval(condition, s.scope);
    if r.Evaluated? {
      TruthyIs(r.value);
      assert FirstStuck(s, body).None? <==> RoundValue(w, s, body, condition, r.value);
    }
  }

  /** A loop goes round again exactly while its body ended and its condition was empty, at most
      `maxIterations` times in all; it completes, telling the number of rounds, exactly if the value
      after the last round is not empty. */
  lemma LoopByValue(g: Graph, bodyOf: map<Id, seq<Id>>, rank: map<Id, nat>, w: World, s: State, id: Id, rounds: Rounds,
                    loop: LoopSpec)
    requires Disciplined(g, bodyOf, rank) && Inv(g, s) && ValidStep(w, bodyOf, s, Looped(id, rounds))
    requires s.states[id].node.kind == Loop(Some(loop)) && loop.maxIterations > 0
    ensures var n, body := Count(rounds), BodyOf(bodyOf, id);
            var last := AfterRounds(w, bodyOf, Mark(s, id, Running, NoOutput, ""), id, rounds);
            var t := After(w, bodyOf, s, Looped(id, rounds));
            && 1 <= n <= loop.maxIterations && id in t.states
            && t.states[id].status in {Completed, Failed}
            && (t.states[id].status.Completed? <==>
                  exists v :: RoundValue(w, last, body, loop.condition, v) && !Empty(v))
            && (t.states[id].status.Completed? ==> id in t.scope && t.scope[id] == Obj(map["iterations" := Num(n)]))
            && (n < loop.maxIterations ==> forall v | RoundValue(w, last, body, loop.condition, v) :: !Empty(v))
            && (n > 1 ==> exists v :: Empty(v) && RoundValue(
                  w, AfterRounds(w, bodyOf, Mark(s, id, Running, NoOutput, ""), id, rounds.before), body,
                  loop.condition, v))
  {
    hide Disciplined, Inv, AfterRounds, ValidRounds, FirstStuck, Judge, RoundValue, Empty, Below, Mark, InEdgesAllow;
    var s1, body := Mark(s, id, Running, NoOutput, ""), BodyOf(bodyOf, id);
    var last := AfterRounds(w, bodyOf, s1, id, rounds);
    LoopMarked(g, bodyOf, rank, s, id);
    RoundsOutcome(g, bodyOf, rank, w, s1, id, rounds);
    if Count(rounds) > 1 {
      LoopGoesOn(g, bodyOf, rank, w, s1, id, rounds, loop);
    }
    JudgeIs(w, last, body, loop.condition);
    LoopEnding(w, bodyOf, last, id, Count(rounds), loop);
  }

  lemma LoopMarked(g: Graph, bodyOf: map<Id, seq<Id>>, rank: map<Id, nat>, s: State, id: Id)
    requires Disciplined(g, bodyOf, rank) && Inv(g, s) && Ready(s, id) && s.states[id].node.kind.Loop?
    ensures var s1 := Mark(s, id, Running, NoOutput, "");
            && Inv(g, s1) && id in s1.states && s1.states[id] == s.states[id].(status := Running)
            && s1.states[id].node.id == id
  {
    hide Inv, InEdgesAllow;
    GraphFacts(g, bodyOf, rank);
    NodeFacts(g, s, id);
    StartKeeps(g, s, id);
  }

  lemma LoopGoesOn(g: Graph, bodyOf: map<Id, seq<Id>>, rank: map<Id, nat>, w: World, s: State, id: Id, rounds: Rounds,
                   loop: LoopSpec)
    requires Disciplined(g, bodyOf, rank) && Inv(g, s) && id in s.states && ValidRounds(w, bodyOf, s, id, rounds)
    requires s.states[id].node.kind == Loop(Some(loop)) && Count(rounds) > 1
    ensures exists v :: Empty(v) && RoundValue(w, AfterRounds(w, bodyOf, s, id, rounds.before), BodyOf(bodyOf, id),
                                               loop.condition, v)
  {
    hide Disciplined, Inv, AfterRounds, FirstStuck, Judge, RoundValue, Empty, Below;
    var t := AfterRounds(w, bodyOf, s, id, rounds.before);
    RoundsOutcome(g, bodyOf, rank, w, s, id, rounds.before);
    JudgeIs(w, t, BodyOf(bodyOf, id), loop.condition);
  }

  lemma LoopEnding(w: World, bodyOf: map<Id, seq<Id>>, s: State, id: Id, n: nat, loop: LoopSpec)
    requires id in s.states && s.states[id].node.kind == Loop(Some(loop)) && s.states[id].node.id == id && n > 0
    ensures var t := Settled(w, LoopOutcome(w, bodyOf, s, id, n), id);
            && id in t.states && t.states[id].status in {Completed, Failed}
            && (t.states[id].status.Completed? <==> Judge(w, s, BodyOf(bodyOf, id), loop.condition).Converged?)
            && (t.states[id].status.Completed? ==> id in t.scope && t.scope[id] == Obj(map["iterations" := Num(n)]))
  {
    hide Judge, FailOrRetry;
    var o := LoopOutcome(w, bodyOf, s, id, n);
    if o.err.Some? {
      FailureLeaves(w, s, id, o.err.value);
    }
  }

  // ----- Agents and retries -----

  /** What an agent is given: the scope, except that the two reserved keys hold the rejection it is to
      answer and the error of its last attempt, or nothing. */
  ghost predicate AgentSees(s: State, id: Id, input: Scope)
    requires id in s.states
  {
    && (forall x | x != "rejection_feedback" && x != "last_error" ::
          (x in input <==> x in s.scope) && (x in input ==> input[x] == s.scope[x]))
    && ("rejection_feedback" in input <==> id in s.feedback)
    && (id in s.feedback ==> TellsFeedback(input["rejection_feedback"], s.feedback[id]))
    && ("last_error" in input <==> s.states[id].err != "")
    && (s.states[id].err != "" ==> input["last_error"] == Str(s.states[id].err))
  }

  lemma AgentInputIs(s: State, id: Id, input: Scope)
    requires id in s.states
    ensures AgentSees(s, id, input) <==> input == AgentInput(s, id)
  {
    if id in s.feedback {
      FeedbackFields(s.feedback[id]);
    }
    hide TellsFeedback, FeedbackJson;
    if AgentSees(s, id, input) {
      var other := AgentInput(s, id);
      assert forall x :: x in input <==> x in other;
    }
  }

  lemma AgentRuns(w: World, s: State, id: Id, input: Scope, reply: AgentReply)
    requires id in s.states && s.states[id].node.id == id && input == AgentInput(s, id)
    requires reply == w.runAgent(s.states[id].node, s.states[id].attempts, input, |s.calls|)
    ensures var o := RunAgent(w, s, id);
            && id in o.s.states && o.s.calls == s.calls + [AgentCall(id, input, reply.AgentOk?)]
            && o.s.states[id].node == s.states[id].node && o.s.states[id].attempts == s.states[id].attempts
            && o.err == (if reply.AgentErr? then Some(reply.msg) else None)
            && (reply.AgentErr? ==> o.s.feedback == s.feedback && o.s.scope == s.scope)
            && (reply.AgentOk? ==>
                  && o.s.states[id].status.Completed? && o.s.states[id].output == reply.output
                  && o.s.states[id].err == "" && o.s.feedback == s.feedback - {id}
                  && o.s.scope == if reply.output.Value? then s.scope[id := reply.output.json] else s.scope)
  {
    hide AgentInput;
  }

  lemma FailureByValue(w: World, s: State, id: Id, msg: string)
    requires id in s.states
    ensures var t := FailOrRetry(w, s, id, msg);
            && t.states.Keys == s.states.Keys && t.states[id].err == msg
            && t.calls == s.calls && t.feedback == s.feedback && t.scope == s.scope
            && (if Retries(w, s.states[id].node, s.states[id].attempts + 1, |s.calls|)
                then t.states[id].status.Pending? && t.states[id].attempts == s.states[id].attempts + 1
                else t.states[id].status.Failed?)
  {
    FailureLeaves(w, s, id, msg);
    FailureCounts(w, s, id, msg);
    FailureAdds(w, s, id, msg);
    hide FailOrRetry, Retries;
  }

  lemma FailureAdds(w: World, s: State, id: Id, msg: string)
    requires id in s.states
    ensures FailOrRetry(w, s, id, msg).states.Keys == s.states.Keys
  {
    hide MaxAttempts, BacksOff;
  }

  lemma FailureCounts(w: World, s: State, id: Id, msg: string)
    requires id in s.states
    ensures var t := FailOrRetry(w, s, id, msg);
            && id in t.states && t.calls == s.calls && t.feedback == s.feedback && t.scope == s.scope
            && (t.states[id].status.Pending? ==> t.states[id].attempts == s.states[id].attempts + 1)
  {
    hide MaxAttempts, BacksOff;
  }

  /** An agent is called once, with what it is to see and the number of attempts before. A success is
      shown, answers the rejection and leaves no error; a failure is kept for the next input, and is
      retried as the retry spec of the node says. */
  lemma AgentByValue(w: World, s: State, id: Id, input: Scope, reply: AgentReply)
    requires id in s.states && s.states[id].node.kind.Agent? && s.states[id].node.id == id && AgentSees(s, id, input)
    requires reply == w.runAgent(s.states[id].node, s.states[id].attempts, input, |s.calls|)
    ensures var t := Execute(w, s, id);
            && id in t.states && t.calls == s.calls + [AgentCall(id, input, reply.AgentOk?)]
            && match reply
               case AgentOk(output) =>
                 && t.states[id].status.Completed? && t.states[id].output == output && t.states[id].err == ""
                 && t.feedback == s.feedback - {id}
                 && t.scope == if output.Value? then s.scope[id := output.json] else s.scope
               case AgentErr(msg) =>
                 && t.states[id].err == msg && t.feedback == s.feedback && t.scope == s.scope
                 && (if Retries(w, s.states[id].node, s.states[id].attempts + 1, |s.calls| + 1)
                     then t.states[id].status.Pending? && t.states[id].attempts == s.states[id].attempts + 1
                     else t.states[id].status.Failed?)
  {
    var s1 := Mark(s, id, Running, NoOutput, "");
    AgentInputIs(s, id, input);
    assert AgentInput(s1, id) == AgentInput(s, id);
    hide AgentInput, AgentSees, RunAgent, FailOrRetry, Retries;
    AgentRuns(w, s1, id, input, reply);
    if reply.AgentErr? {
      FailureByValue(w, RunAgent(w, s1, id).s, id, reply.msg);
    }
  }

  function StartsIn(trace: seq<Status>): nat {
    multiset(trace)[Running]
  }

  lemma {:induction false} RunsCount(r: nat)
    requires r >= 1
    ensures StartsIn(Runs(r)) == r
  {
    if r > 1 {
      RunsCount(r - 1);
    }
  }

  /** A node outside loop bodies starts at most once, or, if its agent spec has a retry, at most as often as
      that allows. */
  lemma AttemptsRespected(g: Graph, s: State, k: Id)
    requires Inv(g, s) && Tame(g, k) && k in s.states
    ensures var starts := StartsIn(Trace(s.events, k));
            var n := s.states[k].node;
            starts <= 1 || (n.kind.Agent? && n.kind.agent.Some? && n.kind.agent.value.retry.Some?
                            && starts <= n.kind.agent.value.retry.value.maxAttempts)
  {
    TraceGrammar(g, s, k);
    hide Inv, Trace, Ending, Runs;
    var trace := Trace(s.events, k);
    if trace != [] && trace != [Skipped] {
      var r: nat, tail :| Shaped(s.states[k].node, r, tail, trace);
      TailIdle(s.states[k].node, r, tail, trace);
    }
  }

  lemma TailIdle(n: Node, r: nat, tail: seq<Status>, trace: seq<Status>)
    requires Shaped(n, r, tail, trace)
    ensures StartsIn(trace) == r
  {
    RunsCount(r);
    assert StartsIn(tail) == 0;
  }

  // ----- Gates -----

  /** A gate completes with its decision; a rejection with feedback hands that feedback to the targets of
      its rejected edges and to nobody else; a gate that cannot decide fails. */
  lemma GateByValue(w: World, s: State, id: Id)
    requires id in s.states && s.states[id].node.kind.HumanApproval? && s.states[id].node.id == id
    ensures var t := Execute(w, s, id);
            && id in t.states
            && match w.approve(s.states[id].node, |s.calls|)
               case GateErr(msg) => t.states[id].status.Failed? && t.states[id].err == msg && t.feedback == s.feedback
               case Decided(ok, fb) =>
                 && t.states[id].status.Completed? && t.states[id].approved == ok
                 && t.scope == s.scope[id := Obj(map["approved" := Bool(ok)])]
                 && (ok || fb.None? ==> t.feedback == s.feedback)
                 && (!ok && fb.Some? ==> forall k ::
                       if exists e :: e in Outs(s, id) && e.cond == OnRejected && e.to == k
                       then k in t.feedback && t.feedback[k] == fb.value
                       else (k in t.feedback <==> k in s.feedback)
                            && (k in s.feedback ==> t.feedback[k] == s.feedback[k]))
  {
    var s1 := Mark(s, id, Running, NoOutput, "");
    assert Outs(s1, id) == Outs(s, id);
    GateRuns(w, s1, id);
    var o := RunGate(w, s1, id);
    hide RunGate, FailOrRetry, Retries;
    assert forall k :: RejectsTo(Outs(s, id), k) == exists e :: e in Outs(s, id) && e.cond == OnRejected && e.to == k;
    if o.err.Some? {
      FailureByValue(w, o.s, id, o.err.value);
      OnceOnly(w, s.states[id].node, o.s.states[id].attempts + 1, |o.s.calls|);
    }
  }

  lemma OnceOnly(w: World, n: Node, tried: nat, called: nat)
    requires !n.kind.Agent? && tried > 0
    ensures !Retries(w, n, tried, called)
  {
  }

  lemma FinishIs(s: State, id: Id, v: Json)
    requires id in s.states && s.states[id].node.id == id
    ensures var t := Finish(s, id, Value(v));
            && t.states == s.states[id := s.states[id].(status := Completed, output := Value(v))]
            && t.scope == s.scope[id := v] && t.feedback == s.feedback && t.calls == s.calls
            && t.outE == s.outE && t.inE == s.inE
  {
  }

  lemma GateRuns(w: World, s: State, id: Id)
    requires id in s.states && s.states[id].node.kind.HumanApproval? && s.states[id].node.id == id
    ensures var o := RunGate(w, s, id);
            && id in o.s.states && o.s.states[id].node == s.states[id].node
            && match w.approve(s.states[id].node, |s.calls|)
               case GateErr(msg) => o.err == Some(msg) && o.s.feedback == s.feedback
               case Decided(ok, fb) =>
                 && o.err.None? && o.s.states[id].status.Completed? && o.s.states[id].approved == ok
                 && o.s.scope == s.scope[id := Obj(map["approved" := Bool(ok)])]
                 && o.s.feedback == if !ok && fb.Some? then GiveFeedback(s.feedback, Outs(s, id), fb.value)
                                    else s.feedback
  {
    hide GiveFeedback, Finish;
    var s1 := Mark(s, id, WaitingApproval, NoOutput, "");
    var reply := w.approve(s.states[id].node, |s.calls|);
    if reply.Decided? {
      var called := s1.(calls := s1.calls + [GateCall(id, reply)]);
      var told := Put(called, id, called.states[id].(approved := reply.ok));
      FinishIs(told, id, Obj(map["approved" := Bool(reply.ok)]));
      if !reply.ok && reply.feedback.Some? {
        FinishIs(told.(feedback := GiveFeedback(s.feedback, Outs(s, id), reply.feedback.value)), id,
                 Obj(map["approved" := Bool(reply.ok)]));
      }
    }
  }

  // ----- Forks, joins and the rest -----

  /** An edge is in both indexes. */
  predicate Linked(s: State, e: Edge) {
    e in Outs(s, e.from) && e in Ins(s, e.to)
  }

  /** The clone number `i` of a fork: a fresh node of the template's kind under its own id, its item shown
      there, always edges from the fork to it and from it to the join. */
  predicate CloneMade(s: State, fork: Id, tpl: Node, template: Id, join: Option<Id>, item: Json, i: nat) {
    var c := CloneId(template, i);
    && c in s.states && s.states[c] == NodeState(Node(c, tpl.kind), Pending, NoOutput, "", false, 0, "")
    && c in s.scope && s.scope[c] == item
    && Linked(s, Edge(fork, c, Always, ""))
    && (join.Some? ==> Linked(s, Edge(c, join.value, Always, "")))
  }

  lemma LinkKeeps(s: State, e: Edge, f: Edge)
    ensures Linked(AddEdge(s, e), e) && (Linked(s, f) ==> Linked(AddEdge(s, e), f))
    ensures AddEdge(s, e).states == s.states && AddEdge(s, e).scope == s.scope
  {
  }

  lemma CloneIsMade(s: State, fork: Id, tpl: Node, template: Id, join: Option<Id>, item: Json, i: nat)
    ensures CloneMade(AddClone(s, fork, tpl, template, join, item, i), fork, tpl, template, join, item, i)
  {
    hide CloneId, AddEdge, Linked;
    var c := CloneId(template, i);
    var s1 := Put(s, c, Fresh(tpl.(id := c)));
    var s2 := AddEdge(s1, Edge(fork, c, Always, ""));
    LinkKeeps(s1, Edge(fork, c, Always, ""), Edge(fork, c, Always, ""));
    var s3 := s2.(scope := s.scope[c := item]);
    ScopeLinks(s2, s3.scope, Edge(fork, c, Always, ""));
    if join.Some? {
      LinkKeeps(s3, Edge(c, join.value, Always, ""), Edge(fork, c, Always, ""));
    }
  }

  lemma ScopeLinks(s: State, scope: Scope, e: Edge)
    ensures Linked(s.(scope := scope), e) == Linked(s, e)
  {
  }

  lemma LinksStay(s: State, fork: Id, tpl: Node, template: Id, join: Option<Id>, item: Json, i: nat, e: Edge)
    requires Linked(s, e)
    ensures Linked(AddClone(s, fork, tpl, template, join, item, i), e)
  {
    hide CloneId, AddEdge, Linked;
    var c := CloneId(template, i);
    var s1 := Put(s, c, Fresh(tpl.(id := c)));
    assert Linked(s1, e) by { PutLinks(s, c, Fresh(tpl.(id := c)), e); }
    var s2 := AddEdge(s1, Edge(fork, c, Always, ""));
    LinkKeeps(s1, Edge(fork, c, Always, ""), e);
    ScopeLinks(s2, s.scope[c := item], e);
    if join.Some? {
      LinkKeeps(s2.(scope := s.scope[c := item]), Edge(c, join.value, Always, ""), e);
    }
  }

  lemma PutLinks(s: State, id: Id, ns: NodeState, e: Edge)
    ensures Linked(Put(s, id, ns), e) == Linked(s, e)
  {
  }

  lemma CloneLeaves(s: State, fork: Id, tpl: Node, template: Id, join: Option<Id>, item: Json, i: nat)
    ensures var t, c := AddClone(s, fork, tpl, template, join, item, i), CloneId(template, i);
            && t.states.Keys == s.states.Keys + {c}
            && (forall k | k in s.states && k != c :: t.states[k] == s.states[k])
            && t.scope.Keys == s.scope.Keys + {c} && (forall k | k in s.scope && k != c :: t.scope[k] == s.scope[k])
  {
    hide CloneId;
  }

  lemma CloneStays(s: State, fork: Id, tpl: Node, template: Id, join: Option<Id>, item: Json, j: nat, other: Json,
                   i: nat)
    requires CloneMade(s, fork, tpl, template, join, item, j) && j != i
    ensures CloneMade(AddClone(s, fork, tpl, template, join, other, i), fork, tpl, template, join, item, j)
  {
    var c := CloneId(template, j);
    if c == CloneId(template, i) {
      CloneIdInjective(template, j, template, i);
    }
    hide CloneId, AddClone, Linked;
    CloneLeaves(s, fork, tpl, template, join, other, i);
    LinksStay(s, fork, tpl, template, join, other, i, Edge(fork, c, Always, ""));
    if join.Some? {
      LinksStay(s, fork, tpl, template, join, other, i, Edge(c, join.value, Always, ""));
    }
  }

  /** A node that is no clone of the template stays as it is, with its edges and what it shows. */
  ghost predicate Untouched(s: State, t: State, template: Id, k: Id) {
    (forall i: nat :: CloneId(template, i) != k) ==>
      && (k in t.states <==> k in s.states) && (k in s.states ==> t.states[k] == s.states[k])
      && (k in t.scope <==> k in s.scope) && (k in s.scope ==> t.scope[k] == s.scope[k])
  }

  ghost predicate RestUntouched(s: State, t: State, template: Id) {
    forall k :: Untouched(s, t, template, k)
  }

  lemma {:induction false} ClonesMade(s: State, fork: Id, tpl: Node, template: Id, join: Option<Id>, items: seq<Json>,
                                      k: nat)
    requires k <= |items|
    ensures var t := AddClones(s, fork, tpl, template, join, items, k);
            && (forall i | 0 <= i < k :: CloneMade(t, fork, tpl, template, join, items[i], i))
            && RestUntouched(s, t, template)
            && forall e | Linked(s, e) :: Linked(t, e)
  {
    hide CloneMade, AddClone, Linked, CloneId;
    if k > 0 {
      var r := AddClones(s, fork, tpl, template, join, items, k - 1);
      ClonesMade(s, fork, tpl, template, join, items, k - 1);
      CloneIsMade(r, fork, tpl, template, join, items[k - 1], k - 1);
      CloneLeaves(r, fork, tpl, template, join, items[k - 1], k - 1);
      forall i | 0 <= i < k - 1
        ensures CloneMade(AddClones(s, fork, tpl, template, join, items, k), fork, tpl, template, join, items[i], i)
      {
        CloneStays(r, fork, tpl, template, join, items[i], i, items[k - 1], k - 1);
      }
      forall x
        ensures Untouched(s, AddClones(s, fork, tpl, template, join, items, k), template, x)
      {
        assert Untouched(s, r, template, x);
        var c := CloneId(template, k - 1);
        assert x == c || (x in r.states <==> x in AddClones(s, fork, tpl, template, join, items, k).states);
      }
      forall e | Linked(s, e)
        ensures Linked(AddClones(s, fork, tpl, template, join, items, k), e)
      {
        LinksStay(r, fork, tpl, template, join, items[k - 1], k - 1, e);
      }
    }
  }

  /** The first join the edges lead to. */
  predicate LeadsToJoin(states: map<Id, NodeState>, outs: seq<Edge>, join: Option<Id>) {
    match join
    case None => forall e | e in outs :: e.to in states ==> !states[e.to].node.kind.Join?
    case Some(j) =>
      && j in states && states[j].node.kind.Join?
      && exists m :: 0 <= m < |outs| && outs[m].to == j
                     && forall x | 0 <= x < m :: outs[x].to in states ==> !states[outs[x].to].node.kind.Join?
  }

  lemma {:induction false} FirstJoinIs(states: map<Id, NodeState>, outs: seq<Edge>)
    ensures LeadsToJoin(states, outs, FirstJoin(states, outs))
    ensures forall join :: LeadsToJoin(states, outs, join) ==> join == FirstJoin(states, outs)
  {
    if outs != [] && !(outs[0].to in states && states[outs[0].to].node.kind.Join?) {
      FirstJoinIs(states, outs[1..]);
      var j := FirstJoin(states, outs[1..]);
      if j.Some? {
        var m :| 0 <= m < |outs[1..]| && outs[1..][m].to == j.value
          && forall x | 0 <= x < m :: outs[1..][x].to in states ==> !states[outs[1..][x].to].node.kind.Join?;
        assert outs[m + 1].to == j.value;
        assert forall x | 0 < x < m + 1 :: outs[x] == outs[1..][x - 1];
      } else {
        assert forall e | e in outs :: e == outs[0] || e in outs[1..];
      }
    }
  }

  /** A fork has made one clone for each item, in the order of the list, told how many there are, and left
      everything else as it was. */
  ghost predicate Forked(s: State, t: State, id: Id, f: FanOut, join: Option<Id>, items: seq<Json>)
    requires f.template in s.states
  {
    && id in t.states && t.states[id].status.Completed?
    && id in t.scope && t.scope[id] == Obj(map["count" := Num(|items|)])
    && (forall i | 0 <= i < |items| :: CloneMade(t, id, s.states[f.template].node, f.template, join, items[i], i))
    && (forall k | k != id :: Untouched(s, t, f.template, k))
    && forall e | Linked(s, e) :: Linked(t, e)
  }

  /** A fork completes exactly if its expression gives a list and its template exists. It then makes its
      clones, all of them before the first join behind the fork; otherwise it makes none. */
  lemma ForkByValue(w: World, s: State, id: Id, f: FanOut, join: Option<Id>)
    requires id in s.states && s.states[id].node == Node(id, ParallelFork(Some(f)))
    requires Outside(s.states[id], id) && LeadsToJoin(s.states, Outs(s, id), join)
    ensures var t, v := Execute(w, s, id), w.eval(f.itemsExpr, s.scope);
            if v.Evaluated? && v.value.Arr? && f.template in s.states then Forked(s, t, id, f, join, v.value.elems)
            else id in t.states && t.states[id].status.Failed? && t.states.Keys == s.states.Keys && t.scope == s.scope
  {
    var s1 := Mark(s, id, Running, NoOutput, "");
    var v := w.eval(f.itemsExpr, s.scope);
    MarkedAt(s, id);
    FirstJoinIs(s.states, Outs(s, id));
    StatusHidden(s, s1, Outs(s, id));
    ForkGrows(w, s1, id, f);
    ForkExecutes(w, s, id);
    hide RunFork, FailOrRetry, Forked, Outside, LeadsToJoin, Retries, Mark, Execute, FirstJoin;
    var o := RunFork(w, s1, id);
    if o.err.None? {
      StartForked(s, s1, o.s, id, f, join, v.value.elems);
    } else {
      FailureByValue(w, o.s, id, o.err.value);
      OnceOnly(w, s.states[id].node, o.s.states[id].attempts + 1, |o.s.calls|);
    }
  }

  lemma ForkExecutes(w: World, s: State, id: Id)
    requires id in s.states && s.states[id].node.kind.ParallelFork? && s.states[id].node.kind.fanOut.Some?
    ensures var o := RunFork(w, Mark(s, id, Running, NoOutput, ""), id);
            (o.err.Some? ==> id in o.s.states)
            && Execute(w, s, id) == if o.err.None? then o.s else FailOrRetry(w, o.s, id, o.err.value)
  {
    hide RunFork, FailOrRetry;
    ForkKeepsStates(w, Mark(s, id, Running, NoOutput, ""), id);
  }

  lemma MarkedAt(s: State, id: Id)
    requires id in s.states
    ensures var s1 := Mark(s, id, Running, NoOutput, "");
            && s1.states == s.states[id := s.states[id].(status := Running)] && s1.scope == s.scope
            && s1.outE == s.outE && s1.inE == s.inE
  {
  }

  lemma StartForked(s: State, s1: State, t: State, id: Id, f: FanOut, join: Option<Id>, items: seq<Json>)
    requires id in s.states && id in s1.states && s1.states == s.states[id := s1.states[id]] && s1.scope == s.scope
    requires s1.states[id].node == s.states[id].node && s1.outE == s.outE && s1.inE == s.inE
    requires f.template in s1.states && Forked(s1, t, id, f, join, items)
    ensures Forked(s, t, id, f, join, items)
  {
    StartUntouched(s, s1, t, f.template, id);
    assert forall e :: Linked(s1, e) == Linked(s, e);
    hide CloneMade, Untouched, Linked;
  }

  lemma ForkGrows(w: World, s: State, id: Id, f: FanOut)
    requires id in s.states && s.states[id].node == Node(id, ParallelFork(Some(f))) && Outside(s.states[id], id)
    ensures var o, v := RunFork(w, s, id), w.eval(f.itemsExpr, s.scope);
            if v.Evaluated? && v.value.Arr? && f.template in s.states then
              o.err.None? && Forked(s, o.s, id, f, FirstJoin(s.states, Outs(s, id)), v.value.elems)
            else o.err.Some? && o.s == s
  {
    hide AddClones, Finish, CloneMade, Linked, CloneId, Untouched, RestUntouched;
    var v := w.eval(f.itemsExpr, s.scope);
    if v.Evaluated? && v.value.Arr? && f.template in s.states {
      var items, tpl, join := v.value.elems, s.states[f.template].node, FirstJoin(s.states, Outs(s, id));
      var grown := AddClones(s, id, tpl, f.template, join, items, |items|);
      var count := Obj(map["count" := Num(|items|)]);
      ClonesMade(s, id, tpl, f.template, join, items, |items|);
      OwnStays(s, grown, f.template, id);
      FinishIs(grown, id, count);
      FinishLeaves(grown, Finish(grown, id, Value(count)), id, tpl, f.template, join, items);
      FinishUntouched(s, grown, Finish(grown, id, Value(count)), f.template, id);
    }
  }

  lemma OwnStays(s: State, t: State, template: Id, k: Id)
    requires RestUntouched(s, t, template) && k in s.states && forall i: nat :: CloneId(template, i) != k
    ensures k in t.states && t.states[k] == s.states[k]
  {
    assert Untouched(s, t, template, k);
  }

  lemma FinishLeaves(s: State, t: State, id: Id, tpl: Node, template: Id, join: Option<Id>, items: seq<Json>)
    requires id in s.states && id in t.states && t.states == s.states[id := t.states[id]]
    requires id in t.scope && t.scope == s.scope[id := t.scope[id]] && t.outE == s.outE && t.inE == s.inE
    requires forall i: nat :: CloneId(template, i) != id
    requires forall i | 0 <= i < |items| :: CloneMade(s, id, tpl, template, join, items[i], i)
    ensures forall i | 0 <= i < |items| :: CloneMade(t, id, tpl, template, join, items[i], i)
    ensures forall e :: Linked(t, e) == Linked(s, e)
  {
    hide CloneId;
    forall i | 0 <= i < |items|
      ensures CloneMade(t, id, tpl, template, join, items[i], i)
    {
      assert CloneMade(s, id, tpl, template, join, items[i], i);
    }
  }

  lemma FinishUntouched(s: State, r: State, t: State, template: Id, id: Id)
    requires id in r.states && id in t.states && t.states == r.states[id := t.states[id]]
    requires id in t.scope && t.scope == r.scope[id := t.scope[id]]
    requires RestUntouched(s, r, template)
    ensures forall k | k != id :: Untouched(s, t, template, k)
  {
    hide CloneId;
    forall k | k != id
      ensures Untouched(s, t, template, k)
    {
      assert Untouched(s, r, template, k);
    }
  }

  lemma StartUntouched(s: State, s1: State, t: State, template: Id, id: Id)
    requires id in s.states && id in s1.states && s1.states == s.states[id := s1.states[id]] && s1.scope == s.scope
    requires forall k | k != id :: Untouched(s1, t, template, k)
    ensures forall k | k != id :: Untouched(s, t, template, k)
  {
    hide CloneId;
    forall k | k != id
      ensures Untouched(s, t, template, k)
    {
      assert Untouched(s1, t, template, k);
    }
  }

  lemma {:induction false} StatusHidden(s: State, t: State, outs: seq<Edge>)
    requires t.states.Keys == s.states.Keys && forall k | k in s.states :: t.states[k].node == s.states[k].node
    ensures FirstJoin(t.states, outs) == FirstJoin(s.states, outs)
  {
    if outs != [] {
      StatusHidden(s, t, outs[1..]);
    }
  }

  /** What the remaining node types show or fail with. */
  lemma PlainByValue(w: World, s: State, id: Id)
    requires id in s.states && s.states[id].node.id == id && s.states[id].status.Pending?
    ensures var kind := s.states[id].node.kind;
            kind.Trigger? || kind.Transform? || kind.Join? || kind.Subworkflow? || kind.Unknown? ==>
              var t := Execute(w, s, id);
              && id in t.states
              && match kind
                 case Trigger(source) =>
                   && t.states[id].status.Completed?
                   && t.scope == s.scope[id := Obj(map["trigger" := Str(if source.Some? then source.value else "")])]
                 case Transform(expr) =>
                   (match w.eval(expr, s.scope)
                    case Evaluated(v) => t.states[id].status.Completed? && t.scope == s.scope[id := v]
                    case EvalErr(msg) => t.states[id].status.Failed? && t.states[id].err == msg && t.scope == s.scope)
                 case Join =>
                   if exists e :: e in Ins(s, id) && e.from in s.states && s.states[e.from].status.Failed?
                   then t.states[id].status.Failed? && t.scope == s.scope
                   else t.states[id].status.Completed? && t.scope == s.scope[id := Obj(map["join" := Str("ok")])]
                 case _ => t.states[id].status.Failed? && t.scope == s.scope
  {
    var s1 := Mark(s, id, Running, NoOutput, "");
    var kind := s.states[id].node.kind;
    MarkedAt(s, id);
    hide FailOrRetry, Finish, Mark, Retries, FirstFailed;
    if !kind.Agent? && !kind.Loop? && !kind.HumanApproval? && !kind.Condition? && !kind.ParallelFork? {
      var o := RunNode(w, s1, id);
      match kind {
        case Trigger(source) =>
          FinishIs(s1, id, Obj(map["trigger" := Str(if source.Some? then source.value else "")]));
        case Transform(expr) =>
          if w.eval(expr, s.scope).Evaluated? {
            FinishIs(s1, id, w.eval(expr, s.scope).value);
          }
        case Join =>
          FinishIs(s1, id, Obj(map["join" := Str("ok")]));
          FirstFailedIs(s1, Ins(s, id));
        case _ =>
      }
      if o.err.Some? {
        FailureByValue(w, o.s, id, o.err.value);
        OnceOnly(w, s.states[id].node, o.s.states[id].attempts + 1, |o.s.calls|);
      }
    }
  }

  lemma {:induction false} FirstFailedIs(s: State, ins: seq<Edge>)
    ensures FirstFailed(s, ins).Some? <==>
              exists e :: e in ins && e.from in s.states && s.states[e.from].status.Failed?
  {
    if ins != [] {
      FirstFailedIs(s, ins[1..]);
      assert forall e :: e in ins <==> e == ins[0] || e in ins[1..];
    }
  }
}
