/** What expressions and agents see of a run: outputs under node ids, the context, the last error. */
module EngineScope {
  import opened WorkflowDef
  import opened EngineState
  import opened EngineInvariants
  import opened EngineSchedule
  import opened EngineSetup
  import opened EngineLoops
  import opened EngineFrames
  import opened EngineSteps
  import opened EngineTheorems
  import S = SkipPass

  /** Every node is filed under its id, the scope shows the output of every completed node, and that
      of a completed condition names its branch; a condition that has not run has none. */
  ghost predicate Shows(s: State) {
    && (forall k | k in s.states :: s.states[k].node.id == k && Unbranched(s.states[k]))
    && (forall k | k in s.states && s.states[k].status.Completed? :: Visible(s, k) && Tells(s.states[k]))
  }

  predicate Unbranched(ns: NodeState) {
    ns.node.kind.Condition? && ns.status.Pending? ==> ns.branch == ""
  }

  predicate Tells(ns: NodeState) {
    ns.node.kind.Condition? ==> ns.output == Single("branch", Str(ns.branch))
  }

  predicate Visible(s: State, k: Id)
    requires k in s.states
  {
    s.states[k].output.Value? ==> k in s.scope && s.scope[k] == s.states[k].output.json
  }

  /** Nodes are only added, and the scope changes only under the ids of nodes. */
  ghost predicate Keeps(s: State, t: State) {
    && s.states.Keys <= t.states.Keys
    && forall x | x !in t.states :: (x in t.scope <==> x in s.scope) && (x in s.scope ==> t.scope[x] == s.scope[x])
  }

  ghost predicate Carries(s: State, t: State) {
    Shows(t) && Keeps(s, t)
  }

  lemma MovesOn(s: State, t: State, u: State)
    requires Carries(s, t) && Carries(t, u)
    ensures Carries(s, u)
  {
  }

  predicate Alike(a: NodeState, b: NodeState) {
    a.status == b.status && a.output == b.output && a.branch == b.branch && a.node == b.node
  }

  lemma PutShows(s: State, id: Id, ns: NodeState)
    requires Shows(s) && ns.node.id == id && Unbranched(ns)
    requires ns.status.Completed? ==> id in s.states && Alike(ns, s.states[id])
    ensures Carries(s, Put(s, id, ns))
  {
  }

  /** Events, calls, feedback and edges do not matter. */
  lemma SameShows(s: State, t: State)
    requires Shows(s) && t.states == s.states && t.scope == s.scope
    ensures Carries(s, t)
  {
  }

  lemma MarkShows(s: State, id: Id, st: Status, out: Output, err: string)
    requires Shows(s) && id in s.states && !st.Pending? && (st.Completed? ==> Visible(s, id) && Tells(s.states[id]))
    ensures Carries(s, Mark(s, id, st, out, err))
  {
  }

  /** An output that is published right away is shown. */
  lemma OutputShows(s: State, id: Id, ns: NodeState)
    requires Shows(s) && id in s.states && ns.node.id == id && Tells(ns) && Unbranched(ns)
    ensures var t := UpdateScope(Put(s, id, ns), id);
            Carries(s, t) && id in t.states && Visible(t, id) && t.states[id] == ns
  {
  }

  lemma FinishShows(s: State, id: Id, out: Output)
    requires Shows(s) && id in s.states && !s.states[id].node.kind.Condition?
    ensures Carries(s, Finish(s, id, out))
  {
    var ns := s.states[id].(output := out);
    OutputShows(s, id, ns);
    MarkShows(UpdateScope(Put(s, id, ns), id), id, Completed, out, "");
    MovesOn(s, UpdateScope(Put(s, id, ns), id), Finish(s, id, out));
  }

  // ----- Node types -----

  lemma AgentShows(w: World, s: State, id: Id)
    requires Shows(s) && id in s.states && s.states[id].node.kind.Agent?
    ensures Carries(s, RunAgent(w, s, id).s)
  {
    hide Finish, Shows, Keeps, Visible, Tells, AgentInput;
    var ns := s.states[id];
    FiledAt(s, id);
    var input := AgentInput(s, id);
    var reply := w.runAgent(ns.node, ns.attempts, input, |s.calls|);
    var called := s.(calls := s.calls + [AgentCall(id, input, reply.AgentOk?)]);
    SameShows(s, called);
    var ns' := ns.(err := if reply.AgentOk? then "" else reply.msg);
    PutShows(called, id, ns');
    MovesOn(s, called, Put(called, id, ns'));
    if reply.AgentOk? {
      var cleared := Put(called, id, ns').(feedback := s.feedback - {id});
      SameShows(Put(called, id, ns'), cleared);
      MovesOn(s, Put(called, id, ns'), cleared);
      FinishShows(cleared, id, reply.output);
      MovesOn(s, cleared, Finish(cleared, id, reply.output));
    }
  }

  lemma GateShows(w: World, s: State, id: Id)
    requires Shows(s) && id in s.states && s.states[id].node.kind.HumanApproval?
    ensures Carries(s, RunGate(w, s, id).s)
  {
    hide Finish, GiveFeedback, Shows, Keeps, Visible;
    var s1 := Mark(s, id, WaitingApproval, NoOutput, "");
    MarkShows(s, id, WaitingApproval, NoOutput, "");
    var reply := w.approve(s.states[id].node, |s.calls|);
    var called := s1.(calls := s1.calls + [GateCall(id, reply)]);
    SameShows(s1, called);
    MovesOn(s, s1, called);
    if reply.Decided? {
      var decided := Put(called, id, called.states[id].(approved := reply.ok));
      FiledAt(called, id);
      PutShows(called, id, called.states[id].(approved := reply.ok));
      MovesOn(s, called, decided);
      var told := if !reply.ok && reply.feedback.Some?
                  then decided.(feedback := GiveFeedback(s.feedback, Outs(s, id), reply.feedback.value)) else decided;
      SameShows(decided, told);
      MovesOn(s, decided, told);
      FinishShows(told, id, Single("approved", Bool(reply.ok)));
      MovesOn(s, told, Finish(told, id, Single("approved", Bool(reply.ok))));
    }
  }

  lemma FiledAt(s: State, id: Id)
    requires Shows(s) && id in s.states
    ensures s.states[id].node.id == id && Unbranched(s.states[id])
  {
  }

  lemma ConditionShows(w: World, s: State, id: Id)
    requires Shows(s) && id in s.states && s.states[id].node.kind.Condition? && !s.states[id].status.Pending?
    ensures Carries(s, RunCondition(w, s, id).s)
  {
    var ns := s.states[id];
    var reply := w.eval(ns.node.kind.expr, s.scope);
    if reply.Evaluated? {
      var branch := Stringify(w, reply.value);
      var out := Single("branch", Str(branch));
      var ns1 := ns.(branch := branch, output := out);
      OutputShows(s, id, ns1);
      var s1 := UpdateScope(Put(s, id, ns1), id);
      MarkShows(s1, id, Completed, out, "");
      MovesOn(s, s1, Mark(s1, id, Completed, out, ""));
    }
  }

  lemma LinkShows(s: State, e: Edge)
    requires Shows(s)
    ensures Carries(s, AddEdge(s, e))
  {
    SameShows(s, AddEdge(s, e));
  }

  lemma ItemShows(s: State, id: Id, item: Json)
    requires Shows(s) && id in s.states && !s.states[id].status.Completed?
    ensures Carries(s, s.(scope := s.scope[id := item]))
  {
  }

  lemma CloneShows(s: State, fork: Id, tpl: Node, template: Id, join: Option<Id>, item: Json, i: nat)
    requires Shows(s)
    ensures Carries(s, AddClone(s, fork, tpl, template, join, item, i))
  {
    hide CloneId, Shows, Keeps, AddEdge;
    var cid := CloneId(template, i);
    var s1 := Put(s, cid, Fresh(tpl.(id := cid)));
    PutShows(s, cid, Fresh(tpl.(id := cid)));
    var s2 := AddEdge(s1, Edge(fork, cid, Always, ""));
    LinkShows(s1, Edge(fork, cid, Always, ""));
    MovesOn(s, s1, s2);
    var s3 := s2.(scope := s.scope[cid := item]);
    LinkLeaves(s1, Edge(fork, cid, Always, ""));
    ItemShows(s2, cid, item);
    MovesOn(s, s2, s3);
    if join.Some? {
      LinkShows(s3, Edge(cid, join.value, Always, ""));
      MovesOn(s, s3, AddEdge(s3, Edge(cid, join.value, Always, "")));
    }
  }

  lemma LinkLeaves(s: State, e: Edge)
    ensures AddEdge(s, e).states == s.states && AddEdge(s, e).scope == s.scope
  {
  }

  lemma {:induction false} ClonesShow(s: State, fork: Id, tpl: Node, template: Id, join: Option<Id>, items: seq<Json>,
                                      k: nat)
    requires Shows(s) && k <= |items|
    ensures Carries(s, AddClones(s, fork, tpl, template, join, items, k))
  {
    hide AddClone;
    if k > 0 {
      var t := AddClones(s, fork, tpl, template, join, items, k - 1);
      ClonesShow(s, fork, tpl, template, join, items, k - 1);
      CloneShows(t, fork, tpl, template, join, items[k - 1], k - 1);
      MovesOn(s, t, AddClones(s, fork, tpl, template, join, items, k));
    }
  }

  ghost predicate Outside(ns: NodeState, id: Id) {
    ns.node.kind.ParallelFork? && ns.node.kind.fanOut.Some? ==>
      forall i: nat :: CloneId(ns.node.kind.fanOut.value.template, i) != id
  }

  lemma {:induction false} ClonesLeave(s: State, fork: Id, tpl: Node, template: Id, join: Option<Id>, items: seq<Json>,
                                       k: nat, id: Id)
    requires id in s.states && k <= |items| && forall i: nat :: CloneId(template, i) != id
    ensures var t := AddClones(s, fork, tpl, template, join, items, k); id in t.states && t.states[id] == s.states[id]
  {
    hide CloneId;
    if k > 0 {
      ClonesLeave(s, fork, tpl, template, join, items, k - 1, id);
    }
  }

  /** A fork is not one of its own clones. */
  lemma ForkShows(w: World, s: State, id: Id)
    requires Shows(s) && id in s.states && Outside(s.states[id], id)
    requires s.states[id].node.kind.ParallelFork? && s.states[id].node.kind.fanOut.Some?
    ensures Carries(s, RunFork(w, s, id).s)
  {
    hide Finish, AddClones;
    var f := s.states[id].node.kind.fanOut.value;
    var reply := w.eval(f.itemsExpr, s.scope);
    if reply.Evaluated? && reply.value.Arr? && f.template in s.states {
      var items := reply.value.elems;
      var tpl, join := s.states[f.template].node, FirstJoin(s.states, Outs(s, id));
      var grown := AddClones(s, id, tpl, f.template, join, items, |items|);
      ClonesShow(s, id, tpl, f.template, join, items, |items|);
      ClonesLeave(s, id, tpl, f.template, join, items, |items|, id);
      FinishShows(grown, id, Single("count", Num(|items|)));
      MovesOn(s, grown, Finish(grown, id, Single("count", Num(|items|))));
    }
  }

  lemma NodeShows(w: World, s: State, id: Id)
    requires Shows(s) && id in s.states && !s.states[id].node.kind.Loop? && Outside(s.states[id], id)
    requires !s.states[id].status.Pending?
    ensures Carries(s, RunNode(w, s, id).s)
  {
    hide Finish, RunAgent, RunGate, RunCondition, RunFork;
    match s.states[id].node.kind
    case Agent(_) => AgentShows(w, s, id);
    case HumanApproval(_) => GateShows(w, s, id);
    case Condition(_) => ConditionShows(w, s, id);
    case ParallelFork(Some(_)) => ForkShows(w, s, id);
    case Trigger(src) => FinishShows(s, id, Single("trigger", Str(if src.Some? then src.value else "")));
    case Transform(e) =>
      if w.eval(e, s.scope).Evaluated? {
        FinishShows(s, id, Value(w.eval(e, s.scope).value));
      }
    case Join => FinishShows(s, id, Single("join", Str("ok")));
    case _ =>
  }

  lemma FailureShows(w: World, s: State, id: Id, msg: string)
    requires Shows(s) && id in s.states
    ensures Carries(s, FailOrRetry(w, s, id, msg))
  {
    hide Shows, Keeps, Visible;
    var s1 := Put(s, id, s.states[id].(err := msg));
    FiledAt(s, id);
    EditShows(s, id, s.states[id].(err := msg));
    RetryShows(w, s1, id, msg);
    var r := ScheduleRetry(w, s1, id, msg);
    MovesOn(s, s1, r.s);
    if !r.again {
      MarkShows(r.s, id, Failed, NoOutput, msg);
      MovesOn(s, r.s, Mark(r.s, id, Failed, NoOutput, msg));
    }
  }

  lemma EditShows(s: State, id: Id, ns: NodeState)
    requires Shows(s) && id in s.states && Alike(ns, s.states[id])
    ensures Carries(s, Put(s, id, ns))
  {
    FiledAt(s, id);
    hide Shows, Keeps;
    PutShows(s, id, ns);
  }

  lemma ResumeShows(s: State, id: Id)
    requires Shows(s) && id in s.states && !s.states[id].node.kind.Condition?
    ensures Carries(s, Put(s, id, s.states[id].(status := Pending)))
  {
    FiledAt(s, id);
    hide Shows, Keeps;
    PutShows(s, id, s.states[id].(status := Pending));
  }

  lemma BackOffShows(s: State, id: Id, msg: string)
    requires Shows(s) && id in s.states && !s.states[id].node.kind.Condition?
    ensures var t := Mark(s, id, Retrying, NoOutput, msg);
            Carries(s, t) && Carries(s, Put(t, id, t.states[id].(status := Pending)))
  {
    hide Shows, Keeps, Visible;
    var t := Mark(s, id, Retrying, NoOutput, msg);
    MarkShows(s, id, Retrying, NoOutput, msg);
    ResumeShows(t, id);
    MovesOn(s, t, Put(t, id, t.states[id].(status := Pending)));
  }

  lemma RetryShows(w: World, s: State, id: Id, msg: string)
    requires Shows(s) && id in s.states
    ensures var r := ScheduleRetry(w, s, id, msg); Carries(s, r.s) && id in r.s.states
  {
    hide ScheduleRetry, Shows, Keeps, Visible, Unbranched;
    RetryCases(w, s, id, msg);
    SameShows(s, s);
    if s.states[id].node.kind.Agent? {
      var t := Put(s, id, s.states[id].(attempts := s.states[id].attempts + 1));
      EditShows(s, id, s.states[id].(attempts := s.states[id].attempts + 1));
      BackOffShows(t, id, msg);
      var u := Mark(t, id, Retrying, NoOutput, msg);
      MovesOn(s, t, u);
      MovesOn(s, t, Put(u, id, u.states[id].(status := Pending)));
    }
  }

  lemma ExecuteShows(w: World, s: State, id: Id)
    requires Shows(s) && id in s.states && !s.states[id].node.kind.Loop? && Outside(s.states[id], id)
    ensures Carries(s, Execute(w, s, id))
  {
    hide RunNode, FailOrRetry;
    var s1 := Mark(s, id, Running, NoOutput, "");
    MarkShows(s, id, Running, NoOutput, "");
    NodeShows(w, s1, id);
    var o := RunNode(w, s1, id);
    MovesOn(s, s1, o.s);
    if o.err.Some? {
      FailureShows(w, o.s, id, o.err.value);
      MovesOn(s, o.s, FailOrRetry(w, o.s, id, o.err.value));
    }
  }

  // ----- Loops and whole runs -----

  lemma {:induction false} ResetShows(s: State, body: seq<Id>, k: nat)
    requires Shows(s) && k <= |body| && forall b | b in body :: b in s.states
    ensures Carries(s, ResetBody(s, body, k))
  {
    hide Shows, Keeps;
    if k == 0 {
      SameShows(s, s);
    } else {
      var r := ResetBody(s, body, k - 1);
      ResetShows(s, body, k - 1);
      FiledAt(r, body[k - 1]);
      PutShows(r, body[k - 1], Reset(r.states[body[k - 1]]));
      MovesOn(s, r, ResetBody(s, body, k));
    }
  }

  lemma EndShows(w: World, bodyOf: map<Id, seq<Id>>, s: State, id: Id, n: nat)
    requires Shows(s) && (id in s.states ==> s.states[id].node.kind.Loop?)
    ensures Carries(s, Settled(w, LoopOutcome(w, bodyOf, s, id, n), id))
  {
    hide Shows, Keeps, FailOrRetry, LoopOutcome, Finish;
    SameShows(s, s);
    if id in s.states {
      LoopOutcomeIs(w, bodyOf, s, id, n);
      var o := LoopOutcome(w, bodyOf, s, id, n);
      if o.err.Some? {
        FailureShows(w, s, id, o.err.value);
      } else {
        FinishShows(s, id, Single("iterations", Num(n)));
      }
    } else {
      NoLoop(w, bodyOf, s, id, n);
    }
  }

  lemma NoLoop(w: World, bodyOf: map<Id, seq<Id>>, s: State, id: Id, n: nat)
    requires id !in s.states
    ensures LoopOutcome(w, bodyOf, s, id, n) == Outcome(s, None)
  {
  }

  /** Forks are static nodes, whose clones have new ids. */
  lemma ForkOutside(g: Graph, bodyOf: map<Id, seq<Id>>, rank: map<Id, nat>, s: State, id: Id)
    requires Disciplined(g, bodyOf, rank) && NodeShape(g, s) && id in s.states
    ensures Outside(s.states[id], id)
  {
    ForkStatic(g, bodyOf, rank, s, id);
    hide CloneId;
  }

  lemma StepShows(g: Graph, bodyOf: map<Id, seq<Id>>, rank: map<Id, nat>, w: World, s: State, st: Step)
    requires Disciplined(g, bodyOf, rank) && Inv(g, s) && ValidStep(w, bodyOf, s, st) && Shows(s)
    ensures Carries(s, After(w, bodyOf, s, st))
    decreases st
  {
    hide Shows, Keeps, Execute, LoopOutcome, Settled, Disciplined, Inv, Below, Ended, InEdgesAllow, Outside, Mark,
      CloneId;
    match st
    case Plain(id) =>
      NodeFacts(g, s, id);
      ForkOutside(g, bodyOf, rank, s, id);
      ExecuteShows(w, s, id);
    case Looped(id, rounds) =>
      var s1 := Mark(s, id, Running, NoOutput, "");
      NodeFacts(g, s, id);
      StartKeeps(g, s, id);
      LoopStarts(s, id);
      MarkShows(s, id, Running, NoOutput, "");
      RoundsShow(g, bodyOf, rank, w, s1, id, rounds);
      RoundsOutcome(g, bodyOf, rank, w, s1, id, rounds);
      var s2 := AfterRounds(w, bodyOf, s1, id, rounds);
      MovesOn(s, s1, s2);
      EndShows(w, bodyOf, s2, id, Count(rounds));
      MovesOn(s, s2, After(w, bodyOf, s, st));
  }

  lemma StepsShow(g: Graph, bodyOf: map<Id, seq<Id>>, rank: map<Id, nat>, w: World, s: State, l: Id, steps: Steps)
    requires Disciplined(g, bodyOf, rank) && Inv(g, s) && ValidAll(w, bodyOf, s, BodyOf(bodyOf, l), steps) && Shows(s)
    ensures Carries(s, AfterAll(w, bodyOf, s, steps))
    decreases steps
  {
    hide Shows, Keeps, After, Disciplined, Inv, Below, ValidStep;
    match steps
    case Start => SameShows(s, s);
    case Then(before, last) =>
      var t := AfterAll(w, bodyOf, s, before);
      StepsShow(g, bodyOf, rank, w, s, l, before);
      StepsOutcome(g, bodyOf, rank, w, s, l, before);
      StepShows(g, bodyOf, rank, w, t, last);
      MovesOn(s, t, After(w, bodyOf, t, last));
  }

  lemma RoundsShow(g: Graph, bodyOf: map<Id, seq<Id>>, rank: map<Id, nat>, w: World, s: State, id: Id, rounds: Rounds)
    requires Disciplined(g, bodyOf, rank) && Inv(g, s) && id in s.states && ValidRounds(w, bodyOf, s, id, rounds)
             && Shows(s)
    ensures Carries(s, AfterRounds(w, bodyOf, s, id, rounds))
    decreases rounds
  {
    hide Shows, Keeps, ResetBody, Disciplined, Inv, Below, Quiet, ValidAll;
    match rounds
    case NoRound => SameShows(s, s);
    case Round(before, steps) =>
      var t := AfterRounds(w, bodyOf, s, id, before);
      var body := BodyOf(bodyOf, id);
      var r := ResetAll(t, body);
      RoundsShow(g, bodyOf, rank, w, s, id, before);
      RoundsOutcome(g, bodyOf, rank, w, s, id, before);
      ResetOutcome(g, bodyOf, rank, t, id);
      ResetShows(t, body, |body|);
      MovesOn(s, t, r);
      StepsShow(g, bodyOf, rank, w, r, id, steps);
      MovesOn(s, r, AfterRounds(w, bodyOf, s, id, rounds));
  }

  lemma {:induction false} ScheduleShows(g: Graph, bodyOf: map<Id, seq<Id>>, templates: set<Id>, rank: map<Id, nat>,
                                         w: World, s: State, steps: Steps)
    requires Disciplined(g, bodyOf, rank) && Inv(g, s) && Scheduled(w, bodyOf, templates, s, steps) && Shows(s)
    ensures Carries(s, AfterAll(w, bodyOf, s, steps))
    decreases steps
  {
    hide Shows, Keeps, After, Disciplined, Inv, ValidStep, IsLoopBody;
    match steps
    case Start => SameShows(s, s);
    case Then(before, last) =>
      var t := AfterAll(w, bodyOf, s, before);
      ScheduleShows(g, bodyOf, templates, rank, w, s, before);
      ScheduleKeeps(g, bodyOf, templates, rank, w, s, before);
      StepShows(g, bodyOf, rank, w, t, last);
      MovesOn(s, t, After(w, bodyOf, t, last));
  }

  lemma {:induction false} SkipsShow(s: State, order: seq<Id>)
    requires Shows(s) && forall id | id in order :: id in s.states
    ensures Carries(s, S.SkipAll(s, order).s) && S.SkipAll(s, order).s.scope == s.scope
    decreases |order|
  {
    hide Shows, Keeps, AnyActiveIn;
    SameShows(s, s);
    if order != [] && !AnyActiveIn(s, order[0]) {
      var t := Mark(s, order[0], Skipped, NoOutput, "");
      MarkShows(s, order[0], Skipped, NoOutput, "");
      SkipsShow(t, order[1..]);
      MovesOn(s, t, S.SkipAll(t, order[1..]).s);
    }
  }

  /** What expressions see at every moment of a run, loops included: the output of each completed node
      under its id, and the context as it was wherever no node has that name. */
  lemma OutputsVisible(g: Graph, bodyOf: map<Id, seq<Id>>, templates: set<Id>, rank: map<Id, nat>, w: World, s: State,
                       steps: Steps)
    requires Disciplined(g, bodyOf, rank) && FreshRun(g, s) && Scheduled(w, bodyOf, templates, s, steps)
    ensures var t := AfterAll(w, bodyOf, s, steps);
            && Shows(t)
            && (forall k | k in t.states && t.states[k].status.Completed? && t.states[k].output.Value? ::
                  k in t.scope && t.scope[k] == t.states[k].output.json)
            && forall x | x !in t.states ::
                 (x in t.scope <==> x in s.scope) && (x in s.scope ==> t.scope[x] == s.scope[x])
  {
    GraphFacts(g, bodyOf, rank);
    FreshInv(g, s);
    FreshShows(g, s);
    hide Inv, Disciplined, FreshRun, Scheduled, AfterAll;
    ScheduleShows(g, bodyOf, templates, rank, w, s, steps);
  }

  lemma FreshShows(g: Graph, s: State)
    requires GraphOk(g) && FreshRun(g, s)
    ensures Shows(s)
  {
  }

  /** The last pass changes nothing of this. */
  lemma SkippedVisible(s: State, pending: set<Id>, deadlock: Option<Id>, final: State)
    requires Shows(s) && SkippedInSomeOrder(s, pending, deadlock, final)
    ensures Shows(final) && final.scope == s.scope
  {
    hide Shows, Keeps;
    var order :| S.Visits(order, pending) && (forall id | id in order :: id in s.states) &&
      S.SkipAll(s, order) == if deadlock.Some? then S.Deadlock(final, deadlock.value) else S.AllSkipped(final);
    SkipsShow(s, order);
  }

  // ----- Branches and retries -----

  /** A condition that never ran, because it is itself on an untaken branch, still counts as leading to
      its fallback: whatever the order, the last pass then reports a deadlock at a pending node behind
      it instead of skipping both. */
  lemma FallbackDeadlocks(s: State, pending: set<Id>, deadlock: Option<Id>, final: State, y: Id, e: Edge)
    requires Shows(s) && SkippedInSomeOrder(s, pending, deadlock, final) && S.AllPending(s, pending)
    requires y in pending && e in Ins(s, y) && e.branchKey == "" && e.cond.Always?
    requires e.from in s.states && s.states[e.from].node.kind.Condition? && s.states[e.from].status.Pending?
    ensures deadlock.Some?
  {
    assert EdgeHolds(s, e);
    var order :| S.Visits(order, pending) && (forall id | id in order :: id in s.states) &&
      S.SkipAll(s, order) == if deadlock.Some? then S.Deadlock(final, deadlock.value) else S.AllSkipped(final);
    S.ActiveDeadlocks(s, order, pending, y);
  }

  /** A condition completes exactly when its branch leads somewhere, and the edges found active later
      are those its value selects: the ones keyed "true" for true, "false" for false, with the text itself for
      a text, or the keyless always edges when there is none. */
  lemma ConditionSelects(w: World, s: State, id: Id, v: Json, branch: string)
    requires id in s.states && s.states[id].node.kind.Condition?
    requires w.eval(s.states[id].node.kind.expr, s.scope) == Evaluated(v) && Reads(w, v, branch)
    ensures var o := RunCondition(w, s, id);
            var outs := Outs(s, id);
            && id in o.s.states && o.s.states[id].branch == branch
            && (o.err.None? <==> exists e :: e in outs && BranchActive(o.s.states[id], e, outs))
            && forall e | e in outs :: BranchActive(o.s.states[id], e, outs) <==>
                 if exists f :: f in outs && f.branchKey != "" && f.branchKey == branch
                 then e.branchKey != "" && e.branchKey == branch else e.branchKey == "" && e.cond.Always?
  {
  }

  /** A node that is no join and has started behind a completed condition is on the branch the condition
      published: its edge carries that key, or is the fallback and no edge carries it. */
  lemma OnlyTakenBranch(g: Graph, s: State, i: nat, e: Edge)
    requires Inv(g, s) && Shows(s) && i < |s.events| && s.events[i].status.Running?
    requires Tame(g, s.events[i].node) && e in Ins(s, s.events[i].node) && s.events[i].node in s.states
    requires !s.states[s.events[i].node].node.kind.Join?
    requires e.from in s.states && s.states[e.from].node.kind.Condition? && s.states[e.from].status.Completed?
    ensures exists branch :: s.states[e.from].output == Single("branch", Str(branch)) &&
              if e.branchKey != "" then e.branchKey == branch
              else e.cond.Always? && forall o | o in Outs(s, e.from) :: o.branchKey == "" || o.branchKey != branch
  {
    hide Inv;
    StartsAfterSources(g, s, i, e);
    assert s.states[e.from].output == Single("branch", Str(s.states[e.from].branch));
  }

  lemma ErrorInInput(s: State, id: Id)
    requires id in s.states
    ensures ERROR_KEY in AgentInput(s, id) <==> s.states[id].err != ""
    ensures s.states[id].err != "" ==> AgentInput(s, id)[ERROR_KEY] == Str(s.states[id].err)
  {
    hide FeedbackJson;
  }

  lemma AgentLeaves(w: World, s: State, id: Id)
    requires id in s.states
    ensures var ns := s.states[id];
            var reply := w.runAgent(ns.node, ns.attempts, AgentInput(s, id), |s.calls|);
            var o := RunAgent(w, s, id);
            && id in o.s.states && |o.s.calls| == |s.calls| + 1
            && o.err == (if reply.AgentErr? then Some(reply.msg) else None)
            && o.s.states[id].node == ns.node && o.s.states[id].attempts == ns.attempts
            && (reply.AgentOk? ==> o.s.states[id].err == "" && o.s.states[id].status.Completed?)
  {
    hide AgentInput;
  }

  /** After `tried` failures a node goes again if its agent spec has a retry with attempts left, unless it
      was to wait first and was cancelled meanwhile. */
  predicate Retries(w: World, n: Node, tried: nat, called: nat)
    requires tried > 0
  {
    && n.kind.Agent? && n.kind.agent.Some? && n.kind.agent.value.retry.Some?
    && var r := n.kind.agent.value.retry.value;
       && tried < r.maxAttempts
       && !(tried <= |r.backoffSeconds| && r.backoffSeconds[tried - 1] > 0 && w.cancelled(n, tried, called))
  }

  lemma FailureLeaves(w: World, s: State, id: Id, msg: string)
    requires id in s.states
    ensures var t := FailOrRetry(w, s, id, msg);
            && id in t.states && t.states[id].err == msg
            && t.states[id].status == if Retries(w, s.states[id].node, s.states[id].attempts + 1, |s.calls|)
               then Pending else Failed
  {
  }

  /** An agent is retried exactly when it failed with attempts left and was not cancelled while it
      waited; its next input names the failure, and a success leaves no error behind. */
  lemma RetrySeesError(w: World, s: State, id: Id)
    requires id in s.states && s.states[id].node.kind.Agent?
    ensures var n, tried := s.states[id].node, s.states[id].attempts + 1;
            var reply := w.runAgent(n, s.states[id].attempts, AgentInput(s, id), |s.calls|);
            var t := Execute(w, s, id);
            && id in t.states
            && t.states[id].status == (if reply.AgentOk? then Completed
                                       else if Retries(w, n, tried, |s.calls| + 1) then Pending else Failed)
            && (if reply.AgentErr? && reply.msg != ""
                then "last_error" in AgentInput(t, id) && AgentInput(t, id)["last_error"] == Str(reply.msg)
                else "last_error" !in AgentInput(t, id))
  {
    var s1 := Mark(s, id, Running, NoOutput, "");
    assert AgentInput(s1, id) == AgentInput(s, id);
    hide AgentInput, Retries, RunAgent, FailOrRetry, MaxAttempts;
    AgentLeaves(w, s1, id);
    var o := RunAgent(w, s1, id);
    if o.err.Some? {
      FailureLeaves(w, o.s, id, o.err.value);
    }
    ErrorInInput(Execute(w, s, id), id);
  }
}
