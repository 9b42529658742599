/** What every run keeps: the shape of the graph, the event log, the causal order, and the feedback owed. */
module EngineInvariants {
  // Rejection feedback is followed for every node; the life of each node and the causal order of the
  // log for the nodes outside loop bodies.

  import opened WorkflowDef
  import opened EngineState

  // ----- The static graph -----

  /** The nodes and edges of a definition and the nodes that belong to some loop body. */
  datatype Graph = Graph(nodes: map<Id, Node>, edges: seq<Edge>, bodies: set<Id>)

  predicate IsFork(g: Graph, f: Id) {
    f in g.nodes && g.nodes[f].kind.ParallelFork? && g.nodes[f].kind.fanOut.Some?
  }

  function Tpl(g: Graph, f: Id): Id
    requires IsFork(g, f)
  {
    g.nodes[f].kind.fanOut.value.template
  }

  /** What NewEngine establishes: ids match, edges are known, and loop bodies are closed. */
  ghost predicate GraphOk(g: Graph) {
    && (forall k | k in g.nodes :: g.nodes[k].id == k)
    && (forall e | e in g.edges :: e.from in g.nodes && e.to in g.nodes)
    && g.bodies <= g.nodes.Keys
    && (forall e | e in g.edges && e.from in g.bodies :: e.to in g.bodies)
  }

  /** What the engine relies on and nothing checks: clone ids are new, a template is neither a
      fork nor the id of a clone, and two forks have different templates. */
  ghost predicate ForksApart(g: Graph) {
    && (forall f, i: nat | IsFork(g, f) :: CloneId(Tpl(g, f), i) !in g.nodes)
    && (forall f | IsFork(g, f) && Tpl(g, f) in g.nodes :: !g.nodes[Tpl(g, f)].kind.ParallelFork?)
    && (forall f, h, i: nat | IsFork(g, f) && IsFork(g, h) :: Tpl(g, h) != CloneId(Tpl(g, f), i))
    && (forall f, h | IsFork(g, f) && IsFork(g, h) && f != h :: Tpl(g, f) != Tpl(g, h))
  }

  ghost predicate CloneOf(g: Graph, k: Id, f: Id)
    requires IsFork(g, f)
  {
    exists i: nat :: k == CloneId(Tpl(g, f), i)
  }

  /** A node no loop resets: outside every body, or a clone made by a fork outside every body. */
  ghost predicate Tame(g: Graph, k: Id) {
    || (k in g.nodes && k !in g.bodies)
    || exists f :: IsFork(g, f) && f !in g.bodies && CloneOf(g, k, f)
  }

  lemma CloneTame(g: Graph, f: Id, i: nat)
    requires ForksApart(g) && IsFork(g, f)
    ensures Tame(g, CloneId(Tpl(g, f), i)) <==> Tame(g, f)
    ensures Tame(g, f) <==> f !in g.bodies
  {
    var k := CloneId(Tpl(g, f), i);
    assert CloneOf(g, k, f) && k !in g.nodes;
    if h :| IsFork(g, h) && h !in g.bodies && CloneOf(g, k, h) {
      var j: nat :| k == CloneId(Tpl(g, h), j);
      CloneIdInjective(Tpl(g, f), i, Tpl(g, h), j);
      assert f == h;
    }
    forall h, j: nat | IsFork(g, h)
      ensures f != CloneId(Tpl(g, h), j)
    {
      assert CloneId(Tpl(g, h), j) !in g.nodes;
    }
  }

  /** The edges out of `k` in definition order. */
  function StaticOuts(edges: seq<Edge>, k: Id): seq<Edge> {
    if edges == [] then []
    else
      var last := edges[|edges| - 1];
      StaticOuts(edges[..|edges| - 1], k) + if last.from == k then [last] else []
  }

  lemma {:induction false} StaticOutsAre(edges: seq<Edge>, k: Id)
    ensures forall e :: e in StaticOuts(edges, k) <==> e in edges && e.from == k
  {
    if edges != [] {
      StaticOutsAre(edges[..|edges| - 1], k);
    }
  }

  lemma {:induction false} JoinIsTarget(nodes: map<Id, Node>, outs: seq<Edge>)
    requires FirstJoinIn(nodes, outs).Some?
    ensures var j := FirstJoinIn(nodes, outs).value;
            j in nodes && nodes[j].kind.Join? && exists e :: e in outs && e.to == j
  {
    if !(outs[0].to in nodes && nodes[outs[0].to].kind.Join?) {
      JoinIsTarget(nodes, outs[1..]);
    }
  }

  lemma JoinEdge(g: Graph, f: Id)
    requires IsFork(g, f) && JoinOf(g, f).Some?
    ensures var j := JoinOf(g, f).value;
            j in g.nodes && g.nodes[j].kind.Join? && exists e :: e in g.edges && e.from == f && e.to == j
  {
    JoinIsTarget(g.nodes, StaticOuts(g.edges, f));
    StaticOutsAre(g.edges, f);
  }

  // ----- The life of a node, read off the event log -----

  datatype Phase = Idle | Active(run: nat) | AtGate | Waiting(runs: nat) | Done(st: Status) | Broken

  /** Running (Retrying Running)* ending in Completed or Failed, at most MaxAttempts runs, a gate
      waiting once, Skipped only for a node that never ran. Anything else is Broken. */
  function Advance(n: Node, p: Phase, st: Status): Phase {
    match (p, st)
    case (Idle, Running) => Active(1)
    case (Idle, Skipped) => Done(Skipped)
    case (Active(i), Retrying) => if i < MaxAttempts(n) then Waiting(i) else Broken
    case (Active(_), WaitingApproval) => if n.kind.HumanApproval? then AtGate else Broken
    case (Active(_), Completed) => Done(Completed)
    case (Active(_), Failed) => Done(Failed)
    case (AtGate, Completed) => Done(Completed)
    case (AtGate, Failed) => Done(Failed)
    case (Waiting(i), Running) => Active(i + 1)
    case (Waiting(_), Failed) => Done(Failed)
    case _ => Broken
  }

  function PhaseOf(events: seq<Event>, n: Node, k: Id): Phase {
    if events == [] then Idle
    else
      var last := events[|events| - 1];
      var before := PhaseOf(events[..|events| - 1], n, k);
      if last.node == k then Advance(n, before, last.status) else before
  }

  predicate PhaseFits(ns: NodeState, p: Phase) {
    match ns.status
    case Pending => p == if ns.attempts == 0 then Idle else Waiting(ns.attempts)
    case Running => p.Active? && p.run <= MaxAttempts(ns.node) && ns.attempts <= p.run <= ns.attempts + 1
    case WaitingApproval => p == AtGate
    case Retrying => p == Waiting(ns.attempts)
    case _ => p == Done(ns.status)
  }

  lemma {:induction false} IdleMeansSilent(events: seq<Event>, n: Node, k: Id)
    requires PhaseOf(events, n, k) == Idle
    ensures forall i | 0 <= i < |events| :: events[i].node != k
  {
    if events != [] {
      IdleMeansSilent(events[..|events| - 1], n, k);
    }
  }

  lemma {:induction false} SilentMeansIdle(events: seq<Event>, n: Node, k: Id)
    requires forall i | 0 <= i < |events| :: events[i].node != k
    ensures PhaseOf(events, n, k) == Idle
  {
    if events != [] {
      SilentMeansIdle(events[..|events| - 1], n, k);
    }
  }

  lemma {:induction false} DoneWasLogged(events: seq<Event>, n: Node, k: Id)
    requires PhaseOf(events, n, k).Done?
    ensures exists i :: 0 <= i < |events| && events[i].node == k && events[i].status == PhaseOf(events, n, k).st
  {
    var m := |events| - 1;
    if events[m].node != k {
      DoneWasLogged(events[..m], n, k);
      var i :| 0 <= i < m && events[..m][i].node == k && events[..m][i].status == PhaseOf(events, n, k).st;
      assert events[i] == events[..m][i];
    }
  }

  // ----- Feedback owed to a node -----

  /** The last rejection aimed at `k` that no successful run of `k` has consumed yet. */
  function Owed(g: Graph, calls: seq<Call>, k: Id): Option<Feedback> {
    if calls == [] then None
    else
      var before := Owed(g, calls[..|calls| - 1], k);
      match calls[|calls| - 1]
      case AgentCall(node, _, ok) => if node == k && ok then None else before
      case GateCall(gate, Decided(ok, fb)) =>
        if !ok && fb.Some? && RejectsTo(StaticOuts(g.edges, gate), k) then fb else before
      case GateCall(_, GateErr(_)) => before
  }

  /** The reserved key of an agent's input says exactly what is owed. */
  ghost predicate InputSaysOwed(input: Scope, owed: Option<Feedback>) {
    && (FEEDBACK_KEY in input <==> owed.Some?)
    && (owed.Some? ==> input[FEEDBACK_KEY] == FeedbackJson(owed.value))
  }

  ghost predicate FeedbackDelivered(g: Graph, calls: seq<Call>) {
    forall i | 0 <= i < |calls| && calls[i].AgentCall? ::
      InputSaysOwed(calls[i].input, Owed(g, calls[..i], calls[i].node))
  }

  // ----- The invariant -----

  /** The static nodes are there, under their own ids, and every other node is a clone. */
  ghost predicate NodeShape(g: Graph, s: State) {
    && (forall k | k in s.states :: s.states[k].node.id == k)
    && (forall k | k in g.nodes :: k in s.states && s.states[k].node == g.nodes[k])
    && (forall k | k in s.states && k !in g.nodes ::
          !s.states[k].node.kind.ParallelFork? && exists f ::
              IsFork(g, f) && CloneOf(g, k, f) && LikeTemplate(g, s.states[k].node, f))
  }

  predicate LikeTemplate(g: Graph, n: Node, f: Id)
    requires IsFork(g, f)
  {
    Tpl(g, f) in g.nodes && n.kind == g.nodes[Tpl(g, f)].kind
  }

  /** The edge indexes agree, hold the static edges, and no edge leads from a body outside. */
  ghost predicate EdgeShape(g: Graph, s: State) {
    && (forall k, e | e in Ins(s, k) ::
          e.to == k && k in s.states && e.from in s.states && (Tame(g, k) ==> Tame(g, e.from)))
    && (forall k, e | e in Outs(s, k) ::
          e.from == k && k in s.states && e.to in s.states && (Tame(g, e.to) ==> Tame(g, k)))
    && (forall k, e | e in Outs(s, k) :: e in Ins(s, e.to))
    && (forall k, e | e in Ins(s, k) :: e in Outs(s, e.from))
    && (forall e | e in g.edges :: e in Ins(s, e.to))
  }

  /** Growing the graph adds no rejected edge. */
  ghost predicate RejectShape(g: Graph, s: State) {
    forall k, t :: RejectsTo(Outs(s, k), t) <==> RejectsTo(StaticOuts(g.edges, k), t)
  }

  ghost predicate Shape(g: Graph, s: State) {
    NodeShape(g, s) && EdgeShape(g, s) && RejectShape(g, s)
  }

  ghost predicate Numbered(s: State) {
    && s.seqNo == |s.events|
    && (forall i | 0 <= i < |s.events| :: s.events[i].seqNo == i + 1 && s.events[i].node in s.states)
  }

  ghost predicate AttemptsLeft(s: State) {
    forall k | k in s.states && s.states[k].status.Pending? :: s.states[k].attempts < MaxAttempts(s.states[k].node)
  }

  ghost predicate FeedbackFits(g: Graph, s: State) {
    && FeedbackDelivered(g, s.calls)
    && forall k :: (if k in s.feedback then Some(s.feedback[k]) else None) == Owed(g, s.calls, k)
  }

  /** The replay of the log agrees with the status of every tame node. */
  ghost predicate Phases(g: Graph, s: State) {
    forall k | k in s.states && Tame(g, k) :: PhaseFits(s.states[k], PhaseOf(s.events, s.states[k].node, k))
  }

  predicate HasRun(ns: NodeState) {
    !ns.status.Skipped? && (!ns.status.Pending? || ns.attempts > 0)
  }

  /** A tame node that has run still has the in-edges that let it run. */
  ghost predicate Allowed(g: Graph, s: State) {
    forall k | k in s.states && Tame(g, k) && HasRun(s.states[k]) :: InEdgesAllow(s, k)
  }

  predicate JoinSettled(s: State, k: Id)
    requires k in s.states
  {
    && (s.states[k].status.Completed? ==> forall e | e in Ins(s, k) :: !FailedSource(s, e))
    && (s.states[k].status.Failed? ==> exists e :: e in Ins(s, k) && FailedSource(s, e))
  }

  ghost predicate Joins(g: Graph, s: State) {
    forall k | k in s.states && Tame(g, k) && s.states[k].node.kind.Join? :: JoinSettled(s, k)
  }

  ghost predicate NoClones(g: Graph, s: State, f: Id)
    requires IsFork(g, f)
  {
    forall i: nat :: CloneId(Tpl(g, f), i) !in s.states
  }

  /** The edges a fork adds for its clone `i`. */
  ghost predicate CloneLinked(g: Graph, s: State, f: Id, i: nat)
    requires IsFork(g, f)
  {
    var c := CloneId(Tpl(g, f), i);
    && c in s.states
    && Edge(f, c, Always, "") in Ins(s, c)
    && var join := JoinOf(g, f);
       join.Some? ==> Edge(c, join.value, Always, "") in Ins(s, join.value)
  }

  function FirstJoinIn(nodes: map<Id, Node>, outs: seq<Edge>): Option<Id> {
    if outs == [] then None
    else if outs[0].to in nodes && nodes[outs[0].to].kind.Join? then Some(outs[0].to)
    else FirstJoinIn(nodes, outs[1..])
  }

  /** The join a fork feeds: the first join its own edges lead to. */
  function JoinOf(g: Graph, f: Id): Option<Id> {
    FirstJoinIn(g.nodes, StaticOuts(g.edges, f))
  }

  /** A tame fork has no clones until it completes, and then exactly the number it reports. */
  ghost predicate ForkExpanded(g: Graph, s: State, f: Id)
    requires IsFork(g, f) && f in s.states
  {
    if s.states[f].status.Completed? then
      exists n: nat :: s.states[f].output == Single("count", Num(n)) &&
        forall i: nat :: if i < n then CloneLinked(g, s, f, i) else CloneId(Tpl(g, f), i) !in s.states
    else NoClones(g, s, f) && Outs(s, f) == StaticOuts(g.edges, f)
  }

  ghost predicate Forks(g: Graph, s: State) {
    forall f | IsFork(g, f) && Tame(g, f) && f in s.states :: ForkExpanded(g, s, f)
  }

  /** `p` reached its final status before position `i` and is silent from there on. */
  ghost predicate SettledBefore(events: seq<Event>, i: nat, p: Id) {
    && (exists j :: 0 <= j < i && j < |events| && events[j].node == p && Terminal(events[j].status))
    && (forall j | i <= j < |events| :: events[j].node != p)
  }

  /** The log is a linear extension of the graph: whenever a tame node starts, every source of
      its in-edges has settled. */
  ghost predicate Causal(g: Graph, s: State) {
    forall i, e | 0 <= i < |s.events| && s.events[i].status.Running? && Tame(g, s.events[i].node)
                  && e in Ins(s, s.events[i].node) ::
      SettledBefore(s.events, i, e.from)
  }

  ghost predicate Base(g: Graph, s: State) {
    && Shape(g, s) && Numbered(s) && AttemptsLeft(s) && FeedbackFits(g, s)
    && Phases(g, s) && Allowed(g, s) && Joins(g, s) && Causal(g, s)
  }

  ghost predicate Inv(g: Graph, s: State) {
    Base(g, s) && Forks(g, s)
  }

  // ----- One node changes -----

  /** `s'` differs from `s` in the state of `id` and, if `st` is given, in one more event for it. */
  ghost predicate NodeStep(s: State, s': State, id: Id, st: Option<Status>) {
    && id in s.states && id in s'.states
    && s'.states == s.states[id := s'.states[id]]
    && s'.states[id].node == s.states[id].node
    && s'.inE == s.inE && s'.outE == s.outE
    && (if st.None? then s'.events == s.events && s'.seqNo == s.seqNo
        else
          && s'.seqNo == s.seqNo + 1 && s'.states[id].status == st.value
          && |s'.events| == |s.events| + 1 && s'.events[..|s.events|] == s.events
          && s'.events[|s.events|].node == id && s'.events[|s.events|].status == st.value
          && s'.events[|s.events|].seqNo == s.seqNo + 1)
  }

  lemma StepShape(g: Graph, s: State, s': State, id: Id, st: Option<Status>)
    requires Shape(g, s) && Numbered(s) && NodeStep(s, s', id, st)
    ensures Shape(g, s') && Numbered(s')
  {
    assert forall k :: Ins(s', k) == Ins(s, k) && Outs(s', k) == Outs(s, k);
    forall i | 0 <= i < |s'.events|
      ensures s'.events[i].seqNo == i + 1 && s'.events[i].node in s'.states
    {
      if i < |s.events| {
        assert s'.events[i] == s'.events[..|s.events|][i] == s.events[i];
      }
    }
  }

  lemma StepPhase(s: State, s': State, id: Id, st: Option<Status>, n: Node, k: Id)
    requires NodeStep(s, s', id, st)
    ensures PhaseOf(s'.events, n, k) ==
            if st.Some? && k == id then Advance(n, PhaseOf(s.events, n, k), st.value) else PhaseOf(s.events, n, k)
  {
  }

  /** What let a tame node run stays as it is. */
  lemma SettledStays(g: Graph, s: State, s': State, id: Id, st: Option<Status>, k: Id)
    requires Shape(g, s) && NodeStep(s, s', id, st) && k in s.states && Tame(g, k) && InEdgesAllow(s, k)
    requires Tame(g, id) ==> !Terminal(s.states[id].status)
    ensures InEdgesAllow(s', k)
  {
    forall e | e in Ins(s', k)
      ensures SourceTerminal(s', e) && (s'.states[k].node.kind.Join? || EdgeHolds(s', e))
    {
      assert e in Ins(s, k) && Tame(g, e.from) && e.from != id;
      assert s'.states[e.from] == s.states[e.from] && Outs(s', e.from) == Outs(s, e.from);
    }
  }

  /** What a change of a tame node must respect. */
  ghost predicate TameChange(g: Graph, s: State, s': State, id: Id)
    requires id in s.states && id in s'.states
  {
    && !Terminal(s.states[id].status)
    && PhaseFits(s'.states[id], PhaseOf(s'.events, s.states[id].node, id))
    && (HasRun(s'.states[id]) ==> InEdgesAllow(s, id))
    && (s.states[id].node.kind.Join? ==> JoinSettled(s.(states := s'.states), id))
  }

  lemma StepCausal(g: Graph, s: State, s': State, id: Id, st: Option<Status>)
    requires Shape(g, s) && Phases(g, s) && Causal(g, s) && NodeStep(s, s', id, st)
    requires Allowed(g, s)
    requires Tame(g, id) ==> !Terminal(s.states[id].status) && (st == Some(Running) ==> InEdgesAllow(s, id))
    ensures Causal(g, s')
  {
    forall i, e | 0 <= i < |s'.events| && s'.events[i].status.Running? && Tame(g, s'.events[i].node)
                  && e in Ins(s', s'.events[i].node)
      ensures SettledBefore(s'.events, i, e.from)
    {
      if i < |s.events| {
        assert s.events[i] == s'.events[..|s.events|][i] == s'.events[i];
        assert e in Ins(s, s.events[i].node) && SettledBefore(s.events, i, e.from);
        SettledGrows(g, s, s', id, st, i, e.from);
      } else {
        NewlySettled(g, s, s', id, st, e);
      }
    }
  }

  /** A node starts: every source of its in-edges has settled. */
  lemma NewlySettled(g: Graph, s: State, s': State, id: Id, st: Option<Status>, e: Edge)
    requires Shape(g, s) && Phases(g, s) && NodeStep(s, s', id, st) && st.Some?
    requires Tame(g, id) && !Terminal(s.states[id].status) && InEdgesAllow(s, id) && e in Ins(s, id)
    ensures SettledBefore(s'.events, |s.events|, e.from)
  {
    var p := e.from;
    SourceIsTame(g, s, id, e);
    assert Terminal(s.states[p].status) && PhaseOf(s.events, s.states[p].node, p) == Done(s.states[p].status);
    hide Shape, Phases, InEdgesAllow, Tame;
    DoneWasLogged(s.events, s.states[p].node, p);
    var j :| 0 <= j < |s.events| && s.events[j].node == p && Terminal(s.events[j].status);
    SettledNow(s.events, s'.events, p, id, j);
  }

  lemma SourceIsTame(g: Graph, s: State, id: Id, e: Edge)
    requires EdgeShape(g, s) && Tame(g, id) && e in Ins(s, id)
    ensures e.from in s.states && Tame(g, e.from)
  {
  }

  lemma SettledNow(a: seq<Event>, b: seq<Event>, p: Id, id: Id, j: nat)
    requires |b| == |a| + 1 && b[..|a|] == a && b[|a|].node == id && p != id
    requires j < |a| && a[j].node == p && Terminal(a[j].status)
    ensures SettledBefore(b, |a|, p)
  {
    assert b[j] == b[..|a|][j] == a[j];
  }

  lemma SettledGrows(g: Graph, s: State, s': State, id: Id, st: Option<Status>, i: nat, p: Id)
    requires Phases(g, s) && NodeStep(s, s', id, st) && Tame(g, p) && p in s.states
    requires i < |s.events| && SettledBefore(s.events, i, p)
    requires Tame(g, id) ==> !Terminal(s.states[id].status)
    ensures SettledBefore(s'.events, i, p)
  {
    var j :| 0 <= j < i && s.events[j].node == p && Terminal(s.events[j].status);
    assert s'.events[j] == s.events[j];
    TerminalEventEnds(s.events, s.states[p].node, p, j);
    assert st.Some? ==> p != id;
    forall m | i <= m < |s'.events|
      ensures s'.events[m].node != p
    {
      assert m < |s.events| ==> s'.events[m] == s.events[m];
    }
  }

  /** After a terminal event the phase is Done or Broken for good. */
  lemma {:induction false} TerminalEventEnds(events: seq<Event>, n: Node, k: Id, j: nat)
    requires j < |events| && events[j].node == k && Terminal(events[j].status)
    ensures PhaseOf(events, n, k).Done? || PhaseOf(events, n, k).Broken?
    decreases |events|
  {
    if j < |events| - 1 {
      TerminalEventEnds(events[..|events| - 1], n, k, j);
    }
  }

  lemma StepForks(g: Graph, s: State, s': State, id: Id, st: Option<Status>)
    requires Shape(g, s) && Forks(g, s) && NodeStep(s, s', id, st)
    requires Tame(g, id) ==> TameChange(g, s, s', id) && (IsFork(g, id) ==> !s'.states[id].status.Completed?)
    ensures Forks(g, s')
  {
    forall f | IsFork(g, f) && Tame(g, f) && f in s'.states
      ensures ForkExpanded(g, s', f)
    {
      assert ForkExpanded(g, s, f);
      if s.states[f].status.Completed? {
        var n: nat :| s.states[f].output == Single("count", Num(n)) &&
          forall i: nat :: if i < n then CloneLinked(g, s, f, i) else CloneId(Tpl(g, f), i) !in s.states;
        assert forall i: nat :: CloneLinked(g, s, f, i) ==> CloneLinked(g, s', f, i);
        assert f != id;
      }
    }
  }

  lemma StepJoins(g: Graph, s: State, s': State, id: Id, st: Option<Status>)
    requires Shape(g, s) && Joins(g, s) && Allowed(g, s) && Phases(g, s) && NodeStep(s, s', id, st)
    requires Tame(g, id) ==> TameChange(g, s, s', id)
    ensures Joins(g, s')
  {
    forall k | k in s'.states && Tame(g, k) && s'.states[k].node.kind.Join?
      ensures JoinSettled(s', k)
    {
      if k == id {
        JoinChanged(s, s', id, st);
      } else if HasRun(s.states[k]) {
        JoinUndisturbed(g, s, s', id, st, k);
      }
    }
  }

  lemma JoinChanged(s: State, s': State, id: Id, st: Option<Status>)
    requires NodeStep(s, s', id, st) && JoinSettled(s.(states := s'.states), id)
    ensures JoinSettled(s', id)
  {
    assert Ins(s', id) == Ins(s.(states := s'.states), id);
    assert forall e :: FailedSource(s', e) == FailedSource(s.(states := s'.states), e);
  }

  lemma JoinUndisturbed(g: Graph, s: State, s': State, id: Id, st: Option<Status>, k: Id)
    requires Shape(g, s) && NodeStep(s, s', id, st) && k in s.states && k != id && Tame(g, k)
    requires InEdgesAllow(s, k) && JoinSettled(s, k)
    requires Tame(g, id) ==> !Terminal(s.states[id].status)
    ensures JoinSettled(s', k)
  {
    assert Ins(s', k) == Ins(s, k);
    assert forall e | e in Ins(s, k) :: e.from != id && FailedSource(s', e) == FailedSource(s, e);
  }

  /** One node changes: everything but the fork clause is kept. A node inside a body may change
      in any way; a tame node must respect its own life. */
  lemma StepBase(g: Graph, s: State, s': State, id: Id, st: Option<Status>)
    requires Base(g, s) && NodeStep(s, s', id, st) && FeedbackFits(g, s')
    requires s'.states[id].status.Pending? ==> s'.states[id].attempts < MaxAttempts(s'.states[id].node)
    requires Tame(g, id) ==> TameChange(g, s, s', id) && (st == Some(Running) ==> InEdgesAllow(s, id))
    ensures Base(g, s')
  {
    StepShape(g, s, s', id, st);
    StepPhases(g, s, s', id, st);
    StepAllowed(g, s, s', id, st);
    StepJoins(g, s, s', id, st);
    StepCausal(g, s, s', id, st);
    StepAttempts(s, s', id, st);
    hide Shape, Numbered, FeedbackFits, Phases, Allowed, Joins, Causal, AttemptsLeft;
  }

  lemma StepAttempts(s: State, s': State, id: Id, st: Option<Status>)
    requires AttemptsLeft(s) && Numbered(s) && NodeStep(s, s', id, st)
    requires s'.states[id].status.Pending? ==> s'.states[id].attempts < MaxAttempts(s'.states[id].node)
    ensures AttemptsLeft(s') && Numbered(s')
  {
    hide MaxAttempts;
  }

  lemma StepPhases(g: Graph, s: State, s': State, id: Id, st: Option<Status>)
    requires Phases(g, s) && NodeStep(s, s', id, st)
    requires Tame(g, id) ==> PhaseFits(s'.states[id], PhaseOf(s'.events, s.states[id].node, id))
    ensures Phases(g, s')
  {
    forall k | k in s'.states && Tame(g, k)
      ensures PhaseFits(s'.states[k], PhaseOf(s'.events, s'.states[k].node, k))
    {
      StepPhase(s, s', id, st, s'.states[k].node, k);
    }
  }

  lemma StepAllowed(g: Graph, s: State, s': State, id: Id, st: Option<Status>)
    requires Shape(g, s) && Allowed(g, s) && NodeStep(s, s', id, st)
    requires Tame(g, id) ==> !Terminal(s.states[id].status) && (HasRun(s'.states[id]) ==> InEdgesAllow(s, id))
    ensures Allowed(g, s')
  {
    forall k | k in s'.states && Tame(g, k) && HasRun(s'.states[k])
      ensures InEdgesAllow(s', k)
    {
      SettledStays(g, s, s', id, st, k);
    }
  }

  lemma Step(g: Graph, s: State, s': State, id: Id, st: Option<Status>)
    requires Inv(g, s) && NodeStep(s, s', id, st) && FeedbackFits(g, s')
    requires s'.states[id].status.Pending? ==> s'.states[id].attempts < MaxAttempts(s'.states[id].node)
    requires Tame(g, id) ==> TameChange(g, s, s', id) && (st == Some(Running) ==> InEdgesAllow(s, id))
    requires Tame(g, id) && IsFork(g, id) ==> !s'.states[id].status.Completed?
    ensures Inv(g, s')
  {
    StepBase(g, s, s', id, st);
    StepForks(g, s, s', id, st);
  }
}
