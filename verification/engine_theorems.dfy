/** What the run invariant means for a reader of the log and of the final statuses. */
module EngineTheorems {
  import opened WorkflowDef
  import opened EngineState
  import opened EngineInvariants

  // ----- The trace of one node -----

  /** The statuses logged for `k`, in order. */
  function Trace(events: seq<Event>, k: Id): seq<Status> {
    if events == [] then []
    else Trace(events[..|events| - 1], k) + if events[|events| - 1].node == k then [events[|events| - 1].status] else []
  }

  /** Running, then `r - 1` times Retrying and Running again. */
  function Runs(r: nat): seq<Status>
    requires r >= 1
  {
    if r == 1 then [Running] else Runs(r - 1) + [Retrying, Running]
  }

  /** How a trace may end after its last Running. */
  predicate Ending(n: Node, tail: seq<Status>) {
    || tail == [] || tail == [Completed] || tail == [Failed]
    || tail == [Retrying] || tail == [Retrying, Failed]
    || (n.kind.HumanApproval? && (tail == [WaitingApproval] || tail == [WaitingApproval, Completed]
                                  || tail == [WaitingApproval, Failed]))
  }

  /** A trace of `r` runs with the given ending. */
  predicate Shaped(n: Node, r: nat, tail: seq<Status>, trace: seq<Status>) {
    1 <= r <= MaxAttempts(n) && Ending(n, tail) && trace == Runs(r) + tail
  }

  /** The grammar of the events of one node. */
  ghost predicate Grammatical(n: Node, trace: seq<Status>) {
    trace == [] || trace == [Skipped] || exists r: nat, tail :: Shaped(n, r, tail, trace)
  }

  ghost predicate TraceOf(n: Node, p: Phase, trace: seq<Status>) {
    match p
    case Idle => trace == []
    case Active(r) => Shaped(n, r, [], trace)
    case AtGate => Shaped(n, 1, [WaitingApproval], trace)
    case Waiting(r) => Shaped(n, r, [Retrying], trace) && r < MaxAttempts(n)
    case Done(st) =>
      && Terminal(st)
      && (trace == [Skipped] || exists r: nat, tail :: Shaped(n, r, tail, trace))
      && trace != [] && trace[|trace| - 1] == st
    case Broken => true
  }

  lemma {:induction false} RunsAre(r: nat)
    requires r >= 1
    ensures Runs(r) != [] && forall i | 0 <= i < |Runs(r)| :: Runs(r)[i] == Running || Runs(r)[i] == Retrying
  {
    if r > 1 {
      RunsAre(r - 1);
    }
  }

  /** A terminal status can only be the last one of a shaped trace, and it is never Skipped. */
  lemma ShapedEnds(n: Node, r: nat, tail: seq<Status>, trace: seq<Status>)
    requires Shaped(n, r, tail, trace)
    ensures trace != [] && trace[|trace| - 1] != Skipped && trace != [Skipped]
    ensures forall i | 0 <= i < |trace| - 1 :: !Terminal(trace[i])
    ensures tail == [] || tail == [WaitingApproval] || tail == [Retrying] ==> !Terminal(trace[|trace| - 1])
  {
    RunsAre(r);
    hide Runs, MaxAttempts;
  }

  lemma TraceStep(n: Node, p: Phase, trace: seq<Status>, st: Status)
    requires TraceOf(n, p, trace)
    ensures TraceOf(n, Advance(n, p, st), trace + [st])
  {
    var t' := trace + [st];
    match (p, st)
    case (Idle, Running) => assert Runs(1) + [] == [Running];
    case (Active(r), Retrying) => assert t' == Runs(r) + [Retrying];
    case (Active(r), WaitingApproval) => assert t' == Runs(r) + [WaitingApproval];
    case (Active(r), Completed) => assert Shaped(n, r, [Completed], t');
    case (Active(r), Failed) => assert Shaped(n, r, [Failed], t');
    case (AtGate, Completed) => assert Shaped(n, 1, [WaitingApproval, Completed], t');
    case (AtGate, Failed) => assert Shaped(n, 1, [WaitingApproval, Failed], t');
    case (Waiting(r), Running) => assert Shaped(n, r + 1, [], t');
    case (Waiting(r), Failed) => assert Shaped(n, r, [Retrying, Failed], t');
    case _ =>
  }

  lemma {:induction false} PhaseTrace(events: seq<Event>, n: Node, k: Id)
    ensures TraceOf(n, PhaseOf(events, n, k), Trace(events, k))
  {
    hide TraceOf;
    if events == [] {
      EmptyTrace(n);
    } else {
      var last := events[|events| - 1];
      PhaseTrace(events[..|events| - 1], n, k);
      if last.node == k {
        TraceStep(n, PhaseOf(events[..|events| - 1], n, k), Trace(events[..|events| - 1], k), last.status);
      } else {
        assert Trace(events, k) == Trace(events[..|events| - 1], k);
      }
    }
  }

  lemma EmptyTrace(n: Node)
    ensures TraceOf(n, Idle, [])
  {
  }

  /** In every state a run reaches, the log is numbered 1..n, and the events of a node outside loop
      bodies follow the grammar: at most MaxAttempts runs, a terminal event last and only last. A
      terminal node's last event is its status. */
  lemma TraceGrammar(g: Graph, s: State, k: Id)
    requires Inv(g, s) && Tame(g, k) && k in s.states
    ensures forall i | 0 <= i < |s.events| :: s.events[i].seqNo == i + 1
    ensures var trace := Trace(s.events, k);
            && Grammatical(s.states[k].node, trace)
            && (forall i | 0 <= i < |trace| - 1 :: !Terminal(trace[i]))
            && (Terminal(s.states[k].status) <==> trace != [] && Terminal(trace[|trace| - 1]))
            && (Terminal(s.states[k].status) ==> trace[|trace| - 1] == s.states[k].status)
  {
    var p := PhaseOf(s.events, s.states[k].node, k);
    PhaseTrace(s.events, s.states[k].node, k);
    InvPhase(g, s, k);
    hide Inv, Tame, PhaseOf, Trace;
    TraceMeaning(s.states[k], p, Trace(s.events, k));
  }

  lemma InvPhase(g: Graph, s: State, k: Id)
    requires Inv(g, s) && Tame(g, k) && k in s.states
    ensures PhaseFits(s.states[k], PhaseOf(s.events, s.states[k].node, k))
    ensures forall i | 0 <= i < |s.events| :: s.events[i].seqNo == i + 1
  {
  }

  lemma TraceMeaning(ns: NodeState, p: Phase, trace: seq<Status>)
    requires PhaseFits(ns, p) && TraceOf(ns.node, p, trace)
    ensures Grammatical(ns.node, trace)
    ensures forall i | 0 <= i < |trace| - 1 :: !Terminal(trace[i])
    ensures Terminal(ns.status) <==> trace != [] && Terminal(trace[|trace| - 1])
    ensures Terminal(ns.status) ==> trace[|trace| - 1] == ns.status
  {
    hide Ending, Runs, MaxAttempts, Shaped;
    match p
    case Active(r) => ShapedEnds(ns.node, r, [], trace);
    case AtGate => ShapedEnds(ns.node, 1, [WaitingApproval], trace);
    case Waiting(r) => ShapedEnds(ns.node, r, [Retrying], trace);
    case Done(st) =>
      if r: nat, tail :| Shaped(ns.node, r, tail, trace) {
        ShapedEnds(ns.node, r, tail, trace);
      }
    case _ =>
  }

  // ----- Causal order -----

  lemma {:induction false} TraceHas(events: seq<Event>, k: Id, i: nat)
    requires i < |events| && events[i].node == k
    ensures events[i].status in Trace(events, k)
  {
    if i < |events| - 1 {
      TraceHas(events[..|events| - 1], k, i);
    }
  }

  /** A terminal event carries the final status of its node. */
  lemma TerminalEventIsStatus(g: Graph, s: State, k: Id, j: nat)
    requires Inv(g, s) && Tame(g, k) && k in s.states
    requires j < |s.events| && s.events[j].node == k && Terminal(s.events[j].status)
    ensures s.states[k].status == s.events[j].status
  {
    hide Inv, Tame, Trace, Grammatical;
    TraceGrammar(g, s, k);
    TraceHas(s.events, k, j);
  }

  /** The log is a linear extension of the graph, forks included: when a node outside loop bodies
      starts, every source of its in-edges has logged its final status, never logs again, and the
      selector holds unless the node is a join. */
  lemma StartsAfterSources(g: Graph, s: State, i: nat, e: Edge)
    requires Inv(g, s) && i < |s.events| && s.events[i].status.Running?
    requires Tame(g, s.events[i].node) && e in Ins(s, s.events[i].node)
    ensures e.from in s.states && s.events[i].node in s.states
    ensures exists j :: 0 <= j < i && s.events[j].node == e.from && Terminal(s.events[j].status)
                        && s.events[j].status == s.states[e.from].status
                        && forall m | j < m < |s.events| :: s.events[m].node == e.from ==> m < i
    ensures forall m | i <= m < |s.events| :: s.events[m].node != e.from
    ensures s.states[s.events[i].node].node.kind.Join? || EdgeHolds(s, e)
  {
    StartFacts(g, s, i, e);
    var j :| 0 <= j < i && s.events[j].node == e.from && Terminal(s.events[j].status);
    hide Inv, Tame, InEdgesAllow;
    TerminalEventIsStatus(g, s, e.from, j);
  }

  lemma StartFacts(g: Graph, s: State, i: nat, e: Edge)
    requires Inv(g, s) && i < |s.events| && s.events[i].status.Running?
    requires Tame(g, s.events[i].node) && e in Ins(s, s.events[i].node)
    ensures e.from in s.states && Tame(g, e.from) && SettledBefore(s.events, i, e.from)
    ensures s.events[i].node in s.states
    ensures s.states[s.events[i].node].node.kind.Join? || EdgeHolds(s, e)
  {
    var k := s.events[i].node;
    assert EdgeShape(g, s) && Numbered(s) && Causal(g, s);
    StartedHasRun(g, s, i);
    hide Causal, Phases, Joins, Forks, FeedbackFits, RejectShape, NodeShape;
    assert InEdgesAllow(s, k);
  }

  lemma StartedHasRun(g: Graph, s: State, i: nat)
    requires Inv(g, s) && i < |s.events| && s.events[i].status.Running? && Tame(g, s.events[i].node)
    ensures s.events[i].node in s.states && HasRun(s.states[s.events[i].node])
  {
    var k := s.events[i].node;
    assert k in s.states;
    InvPhase(g, s, k);
    PhaseTrace(s.events, s.states[k].node, k);
    TraceHas(s.events, k, i);
    hide Inv, Tame, Trace, PhaseOf;
    NotSilent(s.states[k], PhaseOf(s.events, s.states[k].node, k), Trace(s.events, k));
  }

  lemma NotSilent(ns: NodeState, p: Phase, trace: seq<Status>)
    requires PhaseFits(ns, p) && TraceOf(ns.node, p, trace) && Running in trace
    ensures HasRun(ns)
  {
    hide Ending, Runs, MaxAttempts, Shaped;
    if r: nat, tail :| Shaped(ns.node, r, tail, trace) {
      ShapedEnds(ns.node, r, tail, trace);
    }
  }

  // ----- Fork and join -----

  /** The start of join `j` comes after the end of `k`, and `j` did not complete over a failed `k`. */
  ghost predicate Awaited(s: State, i: nat, j: Id, k: Id) {
    && j in s.states && k in s.states && Terminal(s.states[k].status) && SettledBefore(s.events, i, k)
    && (s.states[j].status.Completed? ==> !s.states[k].status.Failed?)
  }

  /** A completed fork made exactly as many clones as it reports, and the join awaited each of them. */
  ghost predicate ClonesAwaited(g: Graph, s: State, f: Id, j: Id, i: nat)
    requires IsFork(g, f) && f in s.states
  {
    exists n: nat :: s.states[f].output == Single("count", Num(n)) &&
      forall c: nat :: if c < n then Awaited(s, i, j, CloneId(Tpl(g, f), c)) else CloneId(Tpl(g, f), c) !in s.states
  }

  /** A join fed by a fork starts only after the fork and every clone are terminal. It completes only
      if none of them failed, and fails exactly when one of its sources failed. */
  lemma JoinAfterClones(g: Graph, s: State, f: Id, j: Id, i: nat)
    requires Inv(g, s) && GraphOk(g) && IsFork(g, f) && Tame(g, f) && JoinOf(g, f) == Some(j) && Tame(g, j)
    requires i < |s.events| && s.events[i].node == j && s.events[i].status.Running?
    ensures Awaited(s, i, j, f)
    ensures s.states[f].status.Completed? ==> ClonesAwaited(g, s, f, j, i)
    ensures Terminal(s.states[j].status) ==>
              (s.states[j].status.Failed? <==> exists e :: e in Ins(s, j) && FailedSource(s, e))
  {
    ForkAwaited(g, s, f, j, i);
    hide Inv, Tame, GraphOk, JoinOf, CloneId, SettledBefore;
    JoinRan(g, s, j, i);
    if s.states[f].status.Completed? {
      CloneAwaited(g, s, f, j, i);
    }
  }

  lemma ForkAwaited(g: Graph, s: State, f: Id, j: Id, i: nat)
    requires Inv(g, s) && GraphOk(g) && IsFork(g, f) && Tame(g, f) && JoinOf(g, f) == Some(j) && Tame(g, j)
    requires i < |s.events| && s.events[i].node == j && s.events[i].status.Running?
    ensures Awaited(s, i, j, f) && j in g.nodes && g.nodes[j].kind.Join?
  {
    JoinEdge(g, f);
    var e :| e in g.edges && e.from == f && e.to == j;
    StaticEdgeIn(g, s, e);
    hide Inv, Tame, GraphOk, JoinOf, Awaited;
    SourceAwaited(g, s, i, j, e);
  }

  lemma CloneAwaited(g: Graph, s: State, f: Id, j: Id, i: nat)
    requires Inv(g, s) && GraphOk(g) && IsFork(g, f) && Tame(g, f) && JoinOf(g, f) == Some(j) && Tame(g, j)
    requires j in g.nodes && g.nodes[j].kind.Join? && f in s.states && s.states[f].status.Completed?
    requires i < |s.events| && s.events[i].node == j && s.events[i].status.Running?
    ensures ClonesAwaited(g, s, f, j, i)
  {
    hide Inv, Tame, GraphOk, JoinOf, CloneId, Awaited;
    ForkClause(g, s, f);
    var n: nat :| s.states[f].output == Single("count", Num(n)) &&
      forall c: nat :: if c < n then CloneLinked(g, s, f, c) else CloneId(Tpl(g, f), c) !in s.states;
    forall c: nat | c < n
      ensures Awaited(s, i, j, CloneId(Tpl(g, f), c))
    {
      assert CloneLinked(g, s, f, c);
      SourceAwaited(g, s, i, j, Edge(CloneId(Tpl(g, f), c), j, Always, ""));
    }
  }

  lemma SourceAwaited(g: Graph, s: State, i: nat, j: Id, e: Edge)
    requires Inv(g, s) && GraphOk(g) && j in g.nodes && g.nodes[j].kind.Join? && Tame(g, j) && e in Ins(s, j)
    requires i < |s.events| && s.events[i].node == j && s.events[i].status.Running?
    ensures Awaited(s, i, j, e.from)
  {
    StartFacts(g, s, i, e);
    hide Inv, Tame, GraphOk, SettledBefore;
    SettledIsTerminal(g, s, i, e.from);
    JoinRan(g, s, j, i);
    if s.states[j].status.Completed? {
      assert !FailedSource(s, e);
    }
  }

  /** Before the last pass skips anything, a join that completed had every source complete. */
  lemma JoinCompletes(g: Graph, s: State, f: Id, j: Id, i: nat)
    requires Inv(g, s) && GraphOk(g) && IsFork(g, f) && Tame(g, f) && JoinOf(g, f) == Some(j) && Tame(g, j)
    requires forall k | k in s.states :: !s.states[k].status.Skipped?
    requires i < |s.events| && s.events[i].node == j && s.events[i].status.Running?
    requires j in s.states && s.states[j].status.Completed?
    ensures f in s.states && s.states[f].status.Completed?
    ensures exists n: nat :: s.states[f].output == Single("count", Num(n)) && forall c: nat | c < n ::
              CloneId(Tpl(g, f), c) in s.states && s.states[CloneId(Tpl(g, f), c)].status.Completed?
  {
    JoinAfterClones(g, s, f, j, i);
    hide Inv, Tame, GraphOk, JoinOf, CloneId, Awaited, ClonesAwaited;
    AwaitedCompleted(s, i, j, f);
    ClonesCompleted(g, s, f, j, i);
  }

  lemma ClonesCompleted(g: Graph, s: State, f: Id, j: Id, i: nat)
    requires IsFork(g, f) && f in s.states && ClonesAwaited(g, s, f, j, i)
    requires j in s.states && s.states[j].status.Completed? && forall k | k in s.states :: !s.states[k].status.Skipped?
    ensures exists n: nat :: s.states[f].output == Single("count", Num(n)) && forall c: nat | c < n ::
              CloneId(Tpl(g, f), c) in s.states && s.states[CloneId(Tpl(g, f), c)].status.Completed?
  {
    hide CloneId, Awaited;
    var n: nat :| s.states[f].output == Single("count", Num(n)) &&
      forall c: nat :: if c < n then Awaited(s, i, j, CloneId(Tpl(g, f), c)) else CloneId(Tpl(g, f), c) !in s.states;
    forall c: nat | c < n
      ensures CloneId(Tpl(g, f), c) in s.states && s.states[CloneId(Tpl(g, f), c)].status.Completed?
    {
      AwaitedCompleted(s, i, j, CloneId(Tpl(g, f), c));
    }
  }

  lemma AwaitedCompleted(s: State, i: nat, j: Id, k: Id)
    requires Awaited(s, i, j, k) && j in s.states && s.states[j].status.Completed?
    requires forall x | x in s.states :: !s.states[x].status.Skipped?
    ensures k in s.states && s.states[k].status.Completed?
  {
  }

  lemma StaticEdgeIn(g: Graph, s: State, e: Edge)
    requires Inv(g, s) && e in g.edges
    ensures e in Ins(s, e.to)
  {
  }

  lemma SettledIsTerminal(g: Graph, s: State, i: nat, k: Id)
    requires Inv(g, s) && k in s.states && Tame(g, k) && SettledBefore(s.events, i, k)
    ensures Terminal(s.states[k].status)
  {
    var j :| 0 <= j < i && j < |s.events| && s.events[j].node == k && Terminal(s.events[j].status);
    hide Inv, Tame;
    TerminalEventIsStatus(g, s, k, j);
  }

  lemma ForkClause(g: Graph, s: State, f: Id)
    requires Inv(g, s) && IsFork(g, f) && Tame(g, f) && f in s.states
    ensures ForkExpanded(g, s, f)
  {
  }

  lemma JoinRan(g: Graph, s: State, j: Id, i: nat)
    requires Inv(g, s) && GraphOk(g) && j in g.nodes && g.nodes[j].kind.Join? && Tame(g, j)
    requires i < |s.events| && s.events[i].node == j && s.events[i].status.Running?
    ensures j in s.states && (s.states[j].status.Completed? ==> forall e | e in Ins(s, j) :: !FailedSource(s, e))
    ensures Terminal(s.states[j].status) ==>
              (s.states[j].status.Failed? <==> exists e :: e in Ins(s, j) && FailedSource(s, e))
  {
    StartedHasRun(g, s, i);
    assert JoinSettled(s, j);
  }

  // ----- Rejection feedback -----

  /** A gate rejects with feedback `fb`, and a rejected edge leads to `k`. */
  ghost predicate Rejects(g: Graph, c: Call, k: Id, fb: Feedback) {
    c.GateCall? && c.reply == Decided(false, Some(fb)) && RejectsTo(StaticOuts(g.edges, c.gate), k)
  }

  ghost predicate Succeeds(c: Call, k: Id) {
    c.AgentCall? && c.node == k && c.ok
  }

  ghost predicate Concerns(g: Graph, c: Call, k: Id) {
    Succeeds(c, k) || exists fb :: Rejects(g, c, k, fb)
  }

  /** The latest rejection of `k` is `fb`, and `k` has not succeeded since. */
  ghost predicate Outstanding(g: Graph, calls: seq<Call>, k: Id, fb: Feedback) {
    exists j: nat :: j < |calls| && Rejects(g, calls[j], k, fb) &&
                     forall m: nat | j < m < |calls| :: !Concerns(g, calls[m], k)
  }

  lemma {:induction false} OwedIsOutstanding(g: Graph, calls: seq<Call>, k: Id, fb: Feedback)
    ensures Owed(g, calls, k) == Some(fb) <==> Outstanding(g, calls, k, fb)
    decreases |calls|
  {
    if calls != [] {
      var m := |calls| - 1;
      OwedIsOutstanding(g, calls[..m], k, fb);
      LastCall(g, calls, k, fb);
      hide Rejects, Succeeds, Owed;
      if Concerns(g, calls[m], k) {
        if Rejects(g, calls[m], k, fb) {
          assert Outstanding(g, calls, k, fb);
        }
      } else {
        OutstandingEarlier(g, calls, k, fb);
      }
    }
  }

  lemma OutstandingEarlier(g: Graph, calls: seq<Call>, k: Id, fb: Feedback)
    requires calls != [] && !Concerns(g, calls[|calls| - 1], k)
    ensures Outstanding(g, calls, k, fb) <==> Outstanding(g, calls[..|calls| - 1], k, fb)
  {
    var m := |calls| - 1;
    hide Rejects, Succeeds;
    if Outstanding(g, calls[..m], k, fb) {
      var j: nat :| j < m && Rejects(g, calls[..m][j], k, fb)
        && forall x: nat | j < x < m :: !Concerns(g, calls[..m][x], k);
      assert forall x: nat | j < x < m :: calls[..m][x] == calls[x];
    }
    if Outstanding(g, calls, k, fb) {
      var j: nat :| j <= m && Rejects(g, calls[j], k, fb) && forall x: nat | j < x <= m :: !Concerns(g, calls[x], k);
      assert calls[..m][j] == calls[j];
    }
  }

  lemma LastCall(g: Graph, calls: seq<Call>, k: Id, fb: Feedback)
    requires calls != []
    ensures var c := calls[|calls| - 1];
            && (Rejects(g, c, k, fb) ==> Owed(g, calls, k) == Some(fb))
            && (Concerns(g, c, k) && !Rejects(g, c, k, fb) ==> Owed(g, calls, k) != Some(fb))
            && (!Concerns(g, c, k) ==> Owed(g, calls, k) == Owed(g, calls[..|calls| - 1], k))
  {
    hide StaticOuts, RejectsTo;
    match calls[|calls| - 1]
    case GateCall(gate, Decided(ok, Some(fb0))) => {
      if !ok && RejectsTo(StaticOuts(g.edges, gate), k) {
        assert Rejects(g, calls[|calls| - 1], k, fb0);
      }
    }
    case _ =>
  }

  /** The object an agent reads a rejection from: category and detail, and what else was filled in. */
  predicate TellsFeedback(v: Json, f: Feedback) {
    && v.Obj?
    && v.fields.Keys == {"category", "detail"} + (if f.location == "" then {} else {"location"})
                        + (if f.expected == "" then {} else {"expected"})
    && v.fields["category"] == Str(f.category) && v.fields["detail"] == Str(f.detail)
    && (f.location != "" ==> v.fields["location"] == Str(f.location))
    && (f.expected != "" ==> v.fields["expected"] == Str(f.expected))
  }

  lemma FeedbackFields(f: Feedback)
    ensures TellsFeedback(FeedbackJson(f), f)
    ensures forall v | TellsFeedback(v, f) :: v == FeedbackJson(f)
  {
    forall v | TellsFeedback(v, f)
      ensures v == FeedbackJson(f)
    {
      assert v.fields == FeedbackJson(f).fields;
    }
  }

  /** In every run, loop iterations and retries included, an agent's input carries a rejection under
      the reserved key exactly when that rejection is its latest one and it has not succeeded since;
      a context value of that name never reaches it. */
  lemma FeedbackReachesAgent(g: Graph, s: State, i: nat)
    requires Inv(g, s) && i < |s.calls| && s.calls[i].AgentCall?
    ensures var c := s.calls[i];
            && (forall fb | Outstanding(g, s.calls[..i], c.node, fb) ::
                  "rejection_feedback" in c.input && TellsFeedback(c.input["rejection_feedback"], fb))
            && ("rejection_feedback" in c.input ==>
                  exists fb :: Outstanding(g, s.calls[..i], c.node, fb)
                               && TellsFeedback(c.input["rejection_feedback"], fb))
  {
    assert FeedbackDelivered(g, s.calls);
    hide Inv, FeedbackJson, StaticOuts, RejectsTo;
    var c := s.calls[i];
    assert InputSaysOwed(c.input, Owed(g, s.calls[..i], c.node));
    forall fb
      ensures Owed(g, s.calls[..i], c.node) == Some(fb) <==> Outstanding(g, s.calls[..i], c.node, fb)
      ensures TellsFeedback(FeedbackJson(fb), fb)
    {
      FeedbackFields(fb);
      OwedIsOutstanding(g, s.calls[..i], c.node, fb);
    }
    hide Owed, Outstanding, TellsFeedback;
  }
}
