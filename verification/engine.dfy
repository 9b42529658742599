/** The engine: an object whose methods run one workflow. Each method on a node does what the
    function of that name in EngineState says. */
module Engine {
  import opened WorkflowDef
  import opened EngineState
  import opened EngineInvariants
  import opened EngineSteps
  import opened EngineMeasure
  import opened EngineFrames
  import opened EngineSchedule
  import opened EngineLoops
  import S = SkipPass

  class Engine {
    ghost const g: Graph
    const def: WorkflowDef
    const world: World
    const bodyOf: map<Id, seq<Id>>
    const templates: set<Id>
    var states: map<Id, NodeState>
    var outE: map<Id, seq<Edge>>
    var inE: map<Id, seq<Edge>>
    var scope: Scope
    var feedbackFor: map<Id, Feedback>
    var seqNo: nat
    var events: seq<Event>
    var calls: seq<Call>

    constructor Create(def: WorkflowDef, world: World, states: map<Id, NodeState>, outE: map<Id, seq<Edge>>,
                       inE: map<Id, seq<Edge>>, bodyOf: map<Id, seq<Id>>, templates: set<Id>, ghost g: Graph)
      ensures this.def == def && this.world == world && this.bodyOf == bodyOf && this.templates == templates
              && this.g == g
      ensures View() == State(states, outE, inE, map[], map[], 0, [], [])
    {
      this.g, this.def, this.world, this.bodyOf, this.templates := g, def, world, bodyOf, templates;
      this.states, this.outE, this.inE := states, outE, inE;
      scope, feedbackFor, seqNo, events, calls := map[], map[], 0, [], [];
    }

    function View(): State
      reads this
    {
      State(states, outE, inE, scope, feedbackFor, seqNo, events, calls)
    }

    // ----- Elementary operations -----

    method SetNode(id: Id, ns: NodeState)
      modifies this`states
      ensures View() == Put(old(View()), id, ns)
    {
      states := states[id := ns];
    }

    method MarkNode(id: Id, status: Status, out: Output, err: string)
      requires id in states
      modifies this`states, this`seqNo, this`events
      ensures View() == Mark(old(View()), id, status, out, err)
    {
      states := states[id := states[id].(status := status)];
      seqNo := seqNo + 1;
      var ev := Event(seqNo, id, status, NoOutput, err);
      if status.Completed? {
        ev := ev.(output := out);
      }
      events := events + [ev];
    }

    method PublishOutput(id: Id)
      requires id in states
      modifies this`scope
      ensures View() == UpdateScope(old(View()), id)
    {
      if states[id].output.Value? {
        scope := scope[states[id].node.id := states[id].output.json];
      }
    }

    method Complete(id: Id, out: Output)
      requires id in states
      modifies this
      ensures View() == Finish(old(View()), id, out) && id in states
    {
      SetNode(id, states[id].(output := out));
      PublishOutput(id);
      MarkNode(id, Completed, out, "");
    }

    // ----- Node types -----

    method ExecTrigger(id: Id) returns (err: Option<string>)
      requires id in states && states[id].node.kind.Trigger?
      modifies this
      ensures Outcome(View(), err) == RunTrigger(old(View()), id)
    {
      var src := states[id].node.kind.source;
      Complete(id, Single("trigger", Str(if src.Some? then src.value else "")));
      err := None;
    }

    method ExecAgent(id: Id) returns (err: Option<string>)
      requires id in states
      modifies this
      ensures Outcome(View(), err) == RunAgent(world, old(View()), id)
    {
      var ns := states[id];
      var input := AgentInput(View(), id);
      var reply := world.runAgent(ns.node, ns.attempts, input, |calls|);
      calls := calls + [AgentCall(id, input, reply.AgentOk?)];
      match reply
      case AgentErr(msg) =>
        SetNode(id, ns.(err := msg));
        err := Some(msg);
      case AgentOk(out) =>
        SetNode(id, ns.(err := ""));
        feedbackFor := feedbackFor - {id};
        Complete(id, out);
        err := None;
    }

    /** Only the target of a rejected edge re-runs, so only it gets the feedback. */
    method RecordRejectionFeedback(id: Id, fb: Feedback)
      modifies this`feedbackFor
      ensures View() == old(View()).(feedback := GiveFeedback(old(feedbackFor), Outs(old(View()), id), fb))
    {
      var outs := Outs(View(), id);
      for i := 0 to |outs|
        invariant feedbackFor == GiveFeedback(old(feedbackFor), outs[..i], fb)
      {
        assert outs[..i + 1][..i] == outs[..i];
        if outs[i].cond.OnRejected? {
          feedbackFor := feedbackFor[outs[i].to := fb];
        }
      }
      assert outs[..|outs|] == outs;
    }

    method ExecApproval(id: Id) returns (err: Option<string>)
      requires id in states
      modifies this
      ensures Outcome(View(), err) == RunGate(world, old(View()), id)
    {
      MarkNode(id, WaitingApproval, NoOutput, "");
      var reply := world.approve(states[id].node, |calls|);
      calls := calls + [GateCall(id, reply)];
      match reply
      case GateErr(msg) =>
        err := Some(msg);
      case Decided(ok, fb) =>
        SetNode(id, states[id].(approved := ok));
        if !ok && fb.Some? {
          RecordRejectionFeedback(id, fb.value);
        }
        Complete(id, Single("approved", Bool(ok)));
        err := None;
    }

    method ExecCondition(id: Id) returns (err: Option<string>)
      requires id in states && states[id].node.kind.Condition?
      modifies this
      ensures Outcome(View(), err) == RunCondition(world, old(View()), id)
      ensures forall v, text | world.eval(old(states[id].node.kind.expr), old(scope)) == Evaluated(v)
                               && Reads(world, v, text) ::
                id in states && states[id].branch == text && states[id].output == Single("branch", Str(text))
    {
      var reply := world.eval(states[id].node.kind.expr, scope);
      if reply.EvalErr? {
        return Some(reply.msg);
      }
      var branch := Stringify(world, reply.value);
      var out := Single("branch", Str(branch));
      SetNode(id, states[id].(branch := branch, output := out));
      PublishOutput(id);
      var matched := false;
      var outs := Outs(View(), id);
      for i := 0 to |outs|
        invariant matched <==> BranchTaken(outs[..i], branch)
        invariant View() == UpdateScope(Put(old(View()), id, old(states[id]).(branch := branch, output := out)), id)
      {
        if outs[i].branchKey != "" && outs[i].branchKey == branch {
          assert outs[i] in outs[..i + 1];
          matched := true;
        }
        assert forall e :: e in outs[..i + 1] <==> e in outs[..i] || e == outs[i];
      }
      assert outs[..|outs|] == outs;
      if !matched {
        for i := 0 to |outs|
          invariant matched <==> HasFallback(outs[..i])
          invariant View() == UpdateScope(Put(old(View()), id, old(states[id]).(branch := branch, output := out)), id)
        {
          if outs[i].cond.Always? && outs[i].branchKey == "" {
            assert outs[i] in outs[..i + 1];
            matched := true;
          }
          assert forall e :: e in outs[..i + 1] <==> e in outs[..i] || e == outs[i];
        }
      }
      if !matched {
        return Some("condition " + id + " no matching branch " + branch);
      }
      MarkNode(id, Completed, out, "");
      err := None;
    }

    method ExecTransform(id: Id) returns (err: Option<string>)
      requires id in states && states[id].node.kind.Transform?
      modifies this
      ensures Outcome(View(), err) == RunTransform(world, old(View()), id)
    {
      var reply := world.eval(states[id].node.kind.expr, scope);
      match reply
      case EvalErr(msg) =>
        err := Some(msg);
      case Evaluated(v) =>
        Complete(id, Value(v));
        err := None;
    }

    method ExecFork(id: Id) returns (err: Option<string>)
      requires id in states && states[id].node.kind.ParallelFork? && states[id].node.kind.fanOut.Some?
      modifies this
      ensures Outcome(View(), err) == RunFork(world, old(View()), id)
    {
      var f := states[id].node.kind.fanOut.value;
      var reply := world.eval(f.itemsExpr, scope);
      if reply.EvalErr? {
        return Some(reply.msg);
      }
      if !reply.value.Arr? {
        return Some("fork " + id + " itemsExpr did not yield an array");
      }
      if f.template !in states {
        return Some("fork " + id + " template not found");
      }
      var items := reply.value.elems;
      Expand(id, states[f.template].node, f.template, FirstJoin(states, Outs(View(), id)), items);
      Complete(id, Single("count", Num(|items|)));
      err := None;
    }

    /** Adds a clone of the template for each item, between the fork and the join. */
    method Expand(id: Id, tpl: Node, template: Id, join: Option<Id>, items: seq<Json>)
      requires id in states
      modifies this`states, this`scope, this`outE, this`inE
      ensures View() == AddClones(old(View()), id, tpl, template, join, items, |items|) && id in states
    {
      hide CloneId;
      for i := 0 to |items|
        invariant View() == AddClones(old(View()), id, tpl, template, join, items, i)
        invariant id in states
      {
        var cloneId := CloneId(template, i);
        states := states[cloneId := Fresh(tpl.(id := cloneId))];
        Link(Edge(id, cloneId, Always, ""));
        scope := scope[cloneId := items[i]];
        if join.Some? {
          Link(Edge(cloneId, join.value, Always, ""));
        }
      }
    }

    method Link(e: Edge)
      modifies this`outE, this`inE
      ensures View() == AddEdge(old(View()), e)
    {
      outE := outE[e.from := Outs(View(), e.from) + [e]];
      inE := inE[e.to := Ins(View(), e.to) + [e]];
    }

    method ExecJoin(id: Id) returns (err: Option<string>)
      requires id in states
      modifies this
      ensures Outcome(View(), err) == RunJoin(old(View()), id)
    {
      var ins := Ins(View(), id);
      for i := 0 to |ins|
        invariant View() == old(View())
        invariant FirstFailed(View(), ins) == FirstFailed(View(), ins[i..])
      {
        if FailedSource(View(), ins[i]) {
          return Some("join " + id + " upstream " + ins[i].from + " failed");
        }
        assert ins[i..][1..] == ins[i + 1..];
      }
      Complete(id, Single("join", Str("ok")));
      err := None;
    }

    // ----- Retry -----

    method Retry(id: Id, msg: string) returns (again: bool)
      requires id in states
      modifies this
      ensures RetryResult(View(), again) == ScheduleRetry(world, old(View()), id, msg)
    {
      var n := states[id].node;
      if MaxAttempts(n) == 1 {
        return false;
      }
      SetNode(id, states[id].(attempts := states[id].attempts + 1));
      if states[id].attempts >= MaxAttempts(n) {
        return false;
      }
      MarkNode(id, Retrying, NoOutput, msg);
      if BacksOff(n, states[id].attempts) && world.cancelled(n, states[id].attempts, |calls|) {
        return false;
      }
      SetNode(id, states[id].(status := Pending));
      again := true;
    }

    method Settle(id: Id, msg: string)
      requires id in states
      modifies this
      ensures View() == FailOrRetry(world, old(View()), id, msg)
    {
      SetNode(id, states[id].(err := msg));
      var again := Retry(id, msg);
      if !again {
        MarkNode(id, Failed, NoOutput, msg);
      }
    }

    // ----- Execution -----

    ghost predicate Ok(rank: map<Id, nat>)
      reads this
    {
      Disciplined(g, bodyOf, rank) && Inv(g, View())
    }

    method ExecByType(id: Id) returns (err: Option<string>)
      requires id in states && !states[id].node.kind.Loop?
      modifies this
      ensures Outcome(View(), err) == RunNode(world, old(View()), id)
    {
      match states[id].node.kind
      case Trigger(_) => err := ExecTrigger(id);
      case Agent(_) => err := ExecAgent(id);
      case HumanApproval(_) => err := ExecApproval(id);
      case Condition(_) => err := ExecCondition(id);
      case Transform(_) => err := ExecTransform(id);
      case ParallelFork(None) => err := Some("fork without fanOut");
      case ParallelFork(Some(_)) => err := ExecFork(id);
      case Join => err := ExecJoin(id);
      case Subworkflow => err := Some("subworkflow node " + id + " not implemented in v1");
      case Unknown(name) => err := Some("node " + id + " unknown type " + name);
    }

    /** Runs a ready node and moves it on. */
    method ExecuteNode(id: Id, ghost rank: map<Id, nat>) returns (ghost st: Step)
      requires Ok(rank) && Ready(View(), id)
      modifies this
      ensures Ok(rank)
      ensures st.id == id && ValidStep(world, bodyOf, old(View()), st)
              && View() == After(world, bodyOf, old(View()), st)
      ensures Changed(g, old(View()), View(), id, rank)
      decreases RankOf(rank, id), 2
    {
      hide Inv, Disciplined, Changed, Execute, FailOrRetry, InEdgesAllow, RunNode, LoopOutcome, Ended;
      ghost var s := View();
      if states[id].node.kind.Loop? {
        st := ExecuteLoop(id, rank);
      } else {
        MarkNode(id, Running, NoOutput, "");
        var err := ExecByType(id);
        if err.Some? {
          Settle(id, err.value);
        }
        ExecuteIs(world, s, id);
        st := Plain(id);
      }
      StepOutcome(g, bodyOf, rank, world, s, st);
    }

    method ExecuteLoop(id: Id, ghost rank: map<Id, nat>) returns (ghost st: Step)
      requires Ok(rank) && Ready(View(), id) && states[id].node.kind.Loop?
      modifies this
      ensures st.id == id && ValidStep(world, bodyOf, old(View()), st)
              && View() == After(world, bodyOf, old(View()), st)
      decreases RankOf(rank, id), 1
    {
      hide Inv, Disciplined, FailOrRetry, InEdgesAllow, LoopOutcome, Ended, ValidRounds, AfterRounds;
      ghost var s := View();
      StartKeeps(g, s, id);
      MarkNode(id, Running, NoOutput, "");
      var err: Option<string>;
      ghost var rounds: Rounds;
      err, rounds := ExecLoop(id, rank);
      if err.Some? {
        Settle(id, err.value);
      }
      st := Looped(id, rounds);
    }

    /** Re-runs the body until the condition holds or the iterations are used up. */
    method ExecLoop(id: Id, ghost rank: map<Id, nat>) returns (err: Option<string>, ghost rounds: Rounds)
      requires Ok(rank) && id in states && states[id].node.kind.Loop?
      modifies this
      ensures ValidRounds(world, bodyOf, old(View()), id, rounds)
      ensures Ended(world, bodyOf, AfterRounds(world, bodyOf, old(View()), id, rounds), id, rounds)
      ensures Outcome(View(), err) == LoopOutcome(world, bodyOf, AfterRounds(world, bodyOf, old(View()), id, rounds),
                                                  id, Count(rounds))
      ensures id in states
      decreases RankOf(rank, id), 0, 2
    {
      hide Inv, Disciplined, Below, ResetAll, AfterAll, ValidAll, Finish, Quiet, FirstStuck, Truthy, Stringify;
      ghost var s := View();
      rounds := NoRound;
      if states[id].node.kind.loop.None? {
        return Some("loop without spec"), rounds;
      }
      var loop := states[id].node.kind.loop.value;
      var body := if id in bodyOf then bodyOf[id] else [];
      for iter := 0 to if loop.maxIterations > 0 then loop.maxIterations else 0
        invariant Ok(rank) && View() == AfterRounds(world, bodyOf, s, id, rounds)
        invariant ValidRounds(world, bodyOf, s, id, rounds) && Count(rounds) == iter
        invariant rounds.Round? ==> JudgeLoop(world, bodyOf, View(), id).Again?
        invariant id in states && states[id] == old(states[id])
      {
        ResetNodes(id, body, rank);
        ghost var steps: Steps;
        err, steps := RunBody(body, id, rank);
        rounds := Round(rounds, steps);
        RoundsOutcome(g, bodyOf, rank, world, s, id, rounds);
        if err.Some? {
          return err, rounds;
        }
        var reply := world.eval(loop.condition, scope);
        if reply.EvalErr? {
          return Some(reply.msg), rounds;
        }
        if Truthy(reply.value) {
          Complete(id, Single("iterations", Num(iter + 1)));
          return None, rounds;
        }
      }
      return Some("loop " + id + " did not converge"), rounds;
    }

    method ResetNodes(id: Id, body: seq<Id>, ghost rank: map<Id, nat>)
      requires Ok(rank) && body == BodyOf(bodyOf, id)
      modifies this`states
      ensures Ok(rank) && View() == ResetAll(old(View()), body) && states.Keys == old(states.Keys)
    {
      hide Inv, Disciplined;
      ResetOutcome(g, bodyOf, rank, View(), id);
      for i := 0 to |body|
        invariant View() == ResetBody(old(View()), body, i)
      {
        SetNode(body[i], Reset(states[body[i]]));
      }
    }

    /** Runs the body until no body node is ready, and reports the first one that is not terminal. */
    method RunBody(body: seq<Id>, l: Id, ghost rank: map<Id, nat>) returns (err: Option<string>, ghost steps: Steps)
      requires Ok(rank) && body == BodyOf(bodyOf, l)
      modifies this
      ensures Ok(rank)
      ensures ValidAll(world, bodyOf, old(View()), body, steps) && View() == AfterAll(world, bodyOf, old(View()), steps)
      ensures Quiet(View(), body)
      ensures err == match FirstStuck(View(), body) case Some(b) => Some("loop body stuck at node "
                                                                         + b) case None => None
      decreases RankOf(rank, l), 0, 1
    {
      hide Inv, Changed, Disciplined, ValidStep, After, Load, Quiet, Ready;
      BodyFacts(g, bodyOf, rank, l, View());
      ghost var s := View();
      steps := Start;
      var progressed := true;
      while progressed
        invariant Ok(rank) && ValidAll(world, bodyOf, s, body, steps) && View() == AfterAll(world, bodyOf, s, steps)
        invariant forall b | b in body :: b in states
        invariant !progressed ==> Quiet(View(), body)
        decreases Load(states, body, rank, |body|, 10), progressed
      {
        progressed, steps := BodyPass(body, l, rank, s, steps);
      }
      for i := 0 to |body|
        invariant FirstStuck(View(), body) == FirstStuck(View(), body[i..])
      {
        assert body[i..][1..] == body[i + 1..];
        if !Terminal(states[body[i]].status) {
          return Some("loop body stuck at node " + body[i]), steps;
        }
      }
      err := None;
    }

    /** One pass over the body, in its order. */
    method BodyPass(body: seq<Id>, l: Id, ghost rank: map<Id, nat>, ghost s: State, ghost done: Steps)
      returns (progressed: bool, ghost steps: Steps)
      requires Ok(rank) && body == BodyOf(bodyOf, l) && forall b | b in body :: b in states && b in rank
      requires ValidAll(world, bodyOf, s, body, done) && View() == AfterAll(world, bodyOf, s, done)
      modifies this
      ensures Ok(rank) && forall b | b in body :: b in states
      ensures ValidAll(world, bodyOf, s, body, steps) && View() == AfterAll(world, bodyOf, s, steps)
      ensures if progressed then Load(states, body, rank, |body|, 10) < old(Load(states, body, rank, |body|, 10))
              else View() == old(View()) && Quiet(View(), body)
      decreases RankOf(rank, l), 0, 0
    {
      hide Inv, Changed, Disciplined, ValidStep, After, Load, Ready;
      progressed, steps := false, done;
      BodyFacts(g, bodyOf, rank, l, View());
      for i := 0 to |body|
        invariant Ok(rank) && forall b | b in body :: b in states
        invariant ValidAll(world, bodyOf, s, body, steps) && View() == AfterAll(world, bodyOf, s, steps)
        invariant if progressed then Load(states, body, rank, |body|, 10) < old(Load(states, body, rank, |body|, 10))
                  else View() == old(View()) && forall b | b in body[..i] :: !Ready(View(), b)
      {
        var id := body[i];
        if Ready(View(), id) {
          ghost var t := View();
          ghost var st := ExecuteNode(id, rank);
          progressed, steps := true, Then(steps, st);
          BodyStep(g, bodyOf, rank, l, body, id, t, View());
        }
      }
    }

    // ----- The run -----

    /** A node the main scheduler may pick. */
    predicate Eligible(id: Id)
      reads this
    {
      id in states && !IsLoopBody(bodyOf, id) && id !in templates
    }

    /** Visits one node of a pass; `extra` are the nodes added meanwhile that this pass still visits. */
    method Visit(id: Id, ghost rank: map<Id, nat>, ghost s: State, ghost done: Steps)
      returns (ran: bool, extra: set<Id>, ghost steps: Steps)
      requires Ok(rank) && id in states
      requires Scheduled(world, bodyOf, templates, s, done) && View() == AfterAll(world, bodyOf, s, done)
      modifies this
      ensures Ok(rank) && NoNewSkips(old(View()), View()) && old(states.Keys) <= states.Keys
      ensures Scheduled(world, bodyOf, templates, s, steps) && View() == AfterAll(world, bodyOf, s, steps)
      ensures !ran ==> View() == old(View()) && extra == {} && !(Eligible(id) && Ready(View(), id))
      ensures ran ==> extra <= states.Keys &&
                      Shrunk(MainLeft(g, old(View())), CloneLeft(g, old(View())), MainLeft(g, View()),
                             CloneLeft(g, View()))
    {
      hide Inv, Disciplined, After, ValidStep, MainLeft, CloneLeft, Ready;
      steps := done;
      if !Eligible(id) || !Ready(View(), id) {
        return false, {}, done;
      }
      ghost var t := View();
      var known := states.Keys;
      ghost var st := ExecuteNode(id, rank);
      MeasureDrops(g, bodyOf, rank, t, View(), id);
      extra :| extra <= states.Keys - known;
      ran, steps := true, Then(done, st);
    }

    /** One pass over the nodes. Map iteration may visit them in any order, and a node added during
        the pass may or may not be visited in it. */
    method Pass(ghost rank: map<Id, nat>, ghost s: State, ghost done: Steps)
      returns (progressed: bool, ghost steps: Steps)
      requires Ok(rank)
      requires Scheduled(world, bodyOf, templates, s, done) && View() == AfterAll(world, bodyOf, s, done)
      modifies this
      ensures Ok(rank) && NoNewSkips(old(View()), View())
      ensures Scheduled(world, bodyOf, templates, s, steps) && View() == AfterAll(world, bodyOf, s, steps)
      ensures if progressed
              then Shrunk(MainLeft(g, old(View())), CloneLeft(g, old(View())), MainLeft(g, View()),
                          CloneLeft(g, View()))
              else View() == old(View()) && AtFixedPoint(bodyOf, templates, View())
    {
      hide Inv, Disciplined, Ready, IsLoopBody, NoNewSkips, MainLeft, CloneLeft, AfterAll, Scheduled;
      NoSkipsSelf(View());
      progressed, steps := false, done;
      var todo := states.Keys;
      while todo != {}
        invariant Ok(rank) && NoNewSkips(old(View()), View()) && todo <= states.Keys
        invariant Scheduled(world, bodyOf, templates, s, steps) && View() == AfterAll(world, bodyOf, s, steps)
        invariant if progressed
                  then Shrunk(MainLeft(g, old(View())), CloneLeft(g, old(View())), MainLeft(g, View()),
                              CloneLeft(g, View()))
                  else View() == old(View()) && forall id | EligibleIn(bodyOf, templates, View(), id)
                    && id !in todo :: !Ready(View(), id)
        decreases MainLeft(g, View()), CloneLeft(g, View()), |todo|
      {
        var id :| id in todo;
        todo := todo - {id};
        ghost var t := View();
        var ran, extra;
        ran, extra, steps := Visit(id, rank, s, steps);
        NoSkipsTrans(old(View()), t, View());
        todo := todo + extra;
        progressed := progressed || ran;
      }
    }

    /** Passes until nothing is left to run. */
    method RunToFixedPoint(ghost rank: map<Id, nat>) returns (ghost steps: Steps)
      requires Ok(rank)
      modifies this
      ensures Ok(rank) && NoNewSkips(old(View()), View())
      ensures Scheduled(world, bodyOf, templates, old(View()), steps)
              && View() == AfterAll(world, bodyOf, old(View()), steps)
      ensures AtFixedPoint(bodyOf, templates, View())
    {
      hide Inv, Disciplined, NoNewSkips, MainLeft, CloneLeft, AtFixedPoint, After, ValidStep;
      NoSkipsSelf(View());
      steps := Start;
      var progressed := true;
      while progressed
        invariant Ok(rank) && NoNewSkips(old(View()), View())
        invariant Scheduled(world, bodyOf, templates, old(View()), steps)
                  && View() == AfterAll(world, bodyOf, old(View()), steps)
        invariant !progressed ==> AtFixedPoint(bodyOf, templates, View())
        decreases MainLeft(g, View()), CloneLeft(g, View()), progressed
      {
        ghost var t := View();
        progressed, steps := Pass(rank, old(View()), steps);
        NoSkipsTrans(old(View()), t, View());
      }
    }

    // ----- The last pass and the whole run -----

    ghost function Untaken(): set<Id>
      reads this
    {
      set id | id in states && states[id].status.Pending? && Eligible(id)
    }

    /** Skips one pending node, or finds it active. */
    method SkipNode(id: Id, ghost rank: map<Id, nat>, ghost s0: State, ghost done: seq<Id>, ghost visited: set<Id>,
                    ghost pending: set<Id>) returns (active: bool)
      requires Ok(rank) && id in states && states[id].status.Pending? && (Tame(g, id) ==> states[id].attempts == 0)
      requires S.Visits(done, visited) && visited <= pending <= s0.states.Keys && id in pending && id !in visited
      requires S.Passed(s0, done, View())
      modifies this
      ensures Ok(rank) && states.Keys == old(states.Keys) && forall k | k in states
              && k != id :: states[k] == old(states)[k]
      ensures if active then View() == old(View()) && SkippedInSomeOrder(s0, pending, Some(id), View())
              else S.Visits(done + [id], visited + {id}) && S.Passed(s0, done + [id], View())
    {
      hide Inv, Disciplined, AnyActiveIn, InEdgesAllow, S.Passed, S.SkipAll, S.Visits, Tame;
      PassedKeys(s0, done, View());
      active := AnyActiveIn(View(), id);
      if active {
        S.DeadlockOrder(s0, done, View(), pending, visited, id);
      } else {
        SkipKeeps(g, View(), id);
        S.SkipOne(s0, done, View(), id);
        S.VisitOne(done, visited, id);
        MarkNode(id, Skipped, NoOutput, "");
      }
    }

    lemma PassedKeys(s0: State, done: seq<Id>, s: State)
      requires S.Passed(s0, done, s)
      ensures s.states.Keys == s0.states.Keys
    {
    }

    /** Skips the nodes that never ran, or stops at one with an active in-edge. */
    method SkipUntaken(ghost rank: map<Id, nat>) returns (deadlock: Option<Id>)
      requires Ok(rank) && AtFixedPoint(bodyOf, templates, View())
      modifies this
      ensures Ok(rank)
      ensures SkippedInSomeOrder(old(View()), old(Untaken()), deadlock, View())
    {
      hide Inv, Disciplined, IsLoopBody, Ready, S.Passed, S.SkipAll, S.Visits, Tame;
      ghost var s0, pending := View(), Untaken();
      ghost var done: seq<Id> := [];
      NoWaitingNode(g, View(), pending);
      S.SkipNone(s0);
      S.VisitNone();
      hide AtFixedPoint;
      var todo := states.Keys;
      assert pending - todo == {};
      while todo != {}
        invariant Ok(rank) && todo <= states.Keys && states.Keys == s0.states.Keys
        invariant S.Visits(done, pending - todo) && S.Passed(s0, done, View())
        invariant forall id | id in todo :: states[id] == s0.states[id]
        decreases |todo|
      {
        var id :| id in todo;
        ghost var visited := pending - todo;
        S.VisitNext(pending, todo, id);
        todo := todo - {id};
        if states[id].status.Pending? && Eligible(id) {
          var active := SkipNode(id, rank, s0, done, visited, pending);
          if active {
            return Some(id);
          }
          done := done + [id];
        }
      }
      assert pending - todo == pending;
      S.PassedAll(s0, done, View());
      deadlock := None;
    }

    method BuildScope(ctx: Context) returns (r: Option<Scope>)
      ensures r == InitialScope(ctx, states) && (r.None? <==> ctx.BadContext?)
      ensures r.Some? ==> ScopeOf(ctx, states, r.value)
    {
      if ctx.BadContext? {
        return None;
      }
      var out := ContextScope(ctx);
      ghost var base := out;
      var todo := states.Keys;
      while todo != {}
        invariant todo <= states.Keys
        invariant out == base + CompletedOutputs(states, states.Keys - todo)
        decreases |todo|
      {
        var id :| id in todo;
        todo := todo - {id};
        if states[id].status.Completed? && states[id].output.Value? {
          out := out[id := states[id].output.json];
        }
      }
      assert states.Keys - todo == states.Keys;
      r := Some(out);
    }

    /** Runs the workflow. `mid` is the state at the fixed point, `steps` the executions that led
        there, loops with their rounds. */
    method Run(ctx: Context, ghost rank: map<Id, nat>) returns (result: RunResult, ghost steps: Steps, ghost mid: State)
      requires Ok(rank)
      modifies this
      ensures Ok(rank)
      ensures result.BadRun? <==> ctx.BadContext?
      ensures result.BadRun? ==> View() == old(View())
      ensures !result.BadRun? ==>
                var start := old(View()).(scope := InitialScope(ctx, old(states)).value);
                && ScopeOf(ctx, old(states), start.scope)
                && Inv(g, mid) && NoNewSkips(old(View()), mid)
                && Scheduled(world, bodyOf, templates, start, steps) && mid == AfterAll(world, bodyOf, start, steps)
                && AtFixedPoint(bodyOf, templates, mid)
                && SkippedInSomeOrder(mid, UntakenIn(bodyOf, templates, mid),
                                      if result.Deadlocked? then Some(result.at) else None, View())
    {
      hide Inv, Disciplined, IsLoopBody, Ready, SkippedInSomeOrder, Scheduled, AfterAll;
      var sc := BuildScope(ctx);
      steps, mid := Start, View();
      if sc.None? {
        return BadRun, steps, mid;
      }
      ScopeKeeps(g, View(), sc.value);
      scope := sc.value;
      steps := RunToFixedPoint(rank);
      mid := View();
      assert Untaken() == UntakenIn(bodyOf, templates, mid);
      var deadlock := SkipUntaken(rank);
      result := if deadlock.Some? then Deadlocked(deadlock.value) else Finished;
    }
  }
}
