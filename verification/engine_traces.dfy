/** The log of one round of a loop: its grammar, and its causal order. */
module EngineTraces {
  // Outside loop bodies a node has one trace in the whole log; a body node has one for each round, on the
  // events since the body was reset.

  import opened WorkflowDef
  import opened EngineState
  import opened EngineInvariants
  import opened EngineMeasure
  import opened EngineFrames
  import opened EngineLoops
  import opened EngineBounds
  import opened EngineOrigin
  import opened EngineRounds
  import opened EngineTheorems

  // ----- What one execution logs -----

  /** `b` is `a` and then events of `id` with the given statuses. */
  ghost predicate Logs(a: seq<Event>, b: seq<Event>, id: Id, sts: seq<Status>) {
    if sts == [] then a == b
    else
      && b != [] && b[|b| - 1].node == id && b[|b| - 1].status == sts[|sts| - 1]
      && Logs(a, b[..|b| - 1], id, sts[..|sts| - 1])
  }

  lemma {:induction false} LogsTwice(a: seq<Event>, b: seq<Event>, c: seq<Event>, id: Id, x: seq<Status>,
                                     y: seq<Status>)
    requires Logs(a, b, id, x) && Logs(b, c, id, y)
    ensures Logs(a, c, id, x + y)
  {
    if y == [] {
      assert x + y == x;
    } else {
      LogsTwice(a, b, c[..|c| - 1], id, x, y[..|y| - 1]);
      assert (x + y)[..|x + y| - 1] == x + y[..|y| - 1];
    }
  }

  lemma MarkLogs(s: State, id: Id, st: Status, out: Output, msg: string)
    requires id in s.states
    ensures Logs(s.events, Mark(s, id, st, out, msg).events, id, [st])
  {
  }

  lemma FinishLogs(s: State, id: Id, out: Output)
    requires id in s.states
    ensures Logs(s.events, Finish(s, id, out).events, id, [Completed])
  {
  }

  /** The statuses logged by the type-specific part of an execution. */
  function RunLog(w: World, s: State, id: Id): seq<Status>
    requires id in s.states && !s.states[id].node.kind.Loop?
  {
    (if s.states[id].node.kind.HumanApproval? then [WaitingApproval] else [])
    + if RunNode(w, s, id).err.None? then [Completed] else []
  }

  lemma RunLogs(w: World, s: State, id: Id)
    requires id in s.states && !s.states[id].node.kind.Loop?
    ensures Logs(s.events, RunNode(w, s, id).s.events, id, RunLog(w, s, id))
  {
    hide Finish, Mark, AgentInput, GiveFeedback, BranchTaken, HasFallback, FirstFailed, AddClones, FirstJoin, Stringify;
    assert forall sts: seq<Status> :: [] + sts == sts;
    match s.states[id].node.kind
    case Trigger(src) => FinishLogs(s, id, Single("trigger", Str(if src.Some? then src.value else "")));
    case Agent(_) => AgentLogs(w, s, id);
    case HumanApproval(_) => GateLogs(w, s, id);
    case Condition(_) => ConditionLogs(w, s, id);
    case Transform(x) =>
      var r := w.eval(x, s.scope);
      if r.Evaluated? {
        FinishLogs(s, id, Value(r.value));
      }
    case ParallelFork(Some(_)) => ForkLogs(w, s, id);
    case Join => FinishLogs(s, id, Single("join", Str("ok")));
    case _ =>
  }

  lemma AgentLogs(w: World, s: State, id: Id)
    requires id in s.states && s.states[id].node.kind.Agent?
    ensures Logs(s.events, RunAgent(w, s, id).s.events, id, if RunAgent(w, s, id).err.None? then [Completed] else [])
  {
    hide Finish, AgentInput;
    var ns := s.states[id];
    var input := AgentInput(s, id);
    var reply := w.runAgent(ns.node, ns.attempts, input, |s.calls|);
    if reply.AgentOk? {
      var called := s.(calls := s.calls + [AgentCall(id, input, true)]);
      FinishLogs(Put(called, id, ns.(err := "")).(feedback := s.feedback - {id}), id, reply.output);
    }
  }

  lemma GateLogs(w: World, s: State, id: Id)
    requires id in s.states
    ensures var o := RunGate(w, s, id);
            Logs(s.events, o.s.events, id, [WaitingApproval] + if o.err.None? then [Completed] else [])
  {
    var s1 := Mark(s, id, WaitingApproval, NoOutput, "");
    MarkLogs(s, id, WaitingApproval, NoOutput, "");
    var reply := w.approve(s.states[id].node, |s.calls|);
    var called := s1.(calls := s1.calls + [GateCall(id, reply)]);
    hide Finish, GiveFeedback, Logs;
    if reply.Decided? {
      var t := Put(called, id, called.states[id].(approved := reply.ok));
      var told := if !reply.ok && reply.feedback.Some?
                  then t.(feedback := GiveFeedback(s.feedback, Outs(s, id), reply.feedback.value)) else t;
      FinishLogs(told, id, Single("approved", Bool(reply.ok)));
      LogsTwice(s.events, s1.events, RunGate(w, s, id).s.events, id, [WaitingApproval], [Completed]);
    } else {
      assert [WaitingApproval] + [] == [WaitingApproval];
    }
  }

  lemma ConditionLogs(w: World, s: State, id: Id)
    requires id in s.states && s.states[id].node.kind.Condition?
    ensures var o := RunCondition(w, s, id);
            Logs(s.events, o.s.events, id, if o.err.None? then [Completed] else [])
  {
    var r := w.eval(s.states[id].node.kind.expr, s.scope);
    if r.Evaluated? {
      var branch := Stringify(w, r.value);
      var out := Single("branch", Str(branch));
      MarkLogs(UpdateScope(Put(s, id, s.states[id].(branch := branch, output := out)), id), id, Completed, out, "");
    }
    hide Mark, BranchTaken, HasFallback, Stringify;
  }

  lemma ForkLogs(w: World, s: State, id: Id)
    requires id in s.states && s.states[id].node.kind.ParallelFork? && s.states[id].node.kind.fanOut.Some?
    ensures var o := RunFork(w, s, id);
            Logs(s.events, o.s.events, id, if o.err.None? then [Completed] else [])
  {
    hide Finish, AddClones, FirstJoin;
    var f := s.states[id].node.kind.fanOut.value;
    var r := w.eval(f.itemsExpr, s.scope);
    if r.Evaluated? && r.value.Arr? && f.template in s.states {
      var items := r.value.elems;
      var join := FirstJoin(s.states, Outs(s, id));
      ClonesStarts(s, id, s.states[f.template].node, f.template, join, items, |items|);
      AddClonesKeepsStates(s, id, s.states[f.template].node, f.template, join, items, |items|);
      FinishLogs(AddClones(s, id, s.states[f.template].node, f.template, join, items, |items|), id,
                 Single("count", Num(|items|)));
    }
  }

  /** The statuses logged by a failure, by what becomes of the node. */
  function FailLog(ns: NodeState, again: bool): seq<Status> {
    if MaxAttempts(ns.node) == 1 || ns.attempts + 1 >= MaxAttempts(ns.node) then [Failed]
    else if again then [Retrying]
    else [Retrying, Failed]
  }

  lemma FailureLogs(w: World, s: State, id: Id, msg: string)
    requires id in s.states
    ensures var t := FailOrRetry(w, s, id, msg);
            var ns := s.states[id];
            && id in t.states && t.states[id].node == ns.node
            && (t.states[id].status.Failed? || (t.states[id].status.Pending? && t.states[id].attempts == ns.attempts + 1
                                                && ns.attempts + 1 < MaxAttempts(ns.node)))
            && Logs(s.events, t.events, id, FailLog(ns, t.states[id].status.Pending?))
  {
    var ns := s.states[id];
    var s0 := Put(s, id, ns.(err := msg));
    RetryLogs(w, s0, id, msg);
    hide ScheduleRetry, MaxAttempts, BacksOff, Logs;
    var r := ScheduleRetry(w, s0, id, msg);
    if !r.again {
      MarkLogs(r.s, id, Failed, NoOutput, msg);
      LogsTwice(s.events, r.s.events, FailOrRetry(w, s, id, msg).events, id, RetryLog(ns), [Failed]);
      assert [] + [Failed] == [Failed] && [Retrying] + [Failed] == [Retrying, Failed];
    }
  }

  function RetryLog(ns: NodeState): seq<Status> {
    if MaxAttempts(ns.node) == 1 || ns.attempts + 1 >= MaxAttempts(ns.node) then [] else [Retrying]
  }

  lemma RetryLogs(w: World, s: State, id: Id, msg: string)
    requires id in s.states
    ensures var r := ScheduleRetry(w, s, id, msg);
            var ns := s.states[id];
            && id in r.s.states && r.s.states[id].node == ns.node && Logs(s.events, r.s.events, id, RetryLog(ns))
            && (r.again ==> r.s.states[id].status.Pending? && r.s.states[id].attempts == ns.attempts + 1
                            && ns.attempts + 1 < MaxAttempts(ns.node) && MaxAttempts(ns.node) != 1)
  {
    hide MaxAttempts, BacksOff;
  }

  function AdvanceAll(n: Node, p: Phase, sts: seq<Status>): Phase {
    if sts == [] then p else Advance(n, AdvanceAll(n, p, sts[..|sts| - 1]), sts[|sts| - 1])
  }

  lemma {:induction false} LogsPhase(a: seq<Event>, b: seq<Event>, id: Id, sts: seq<Status>, from: nat, n: Node, k: Id)
    requires Logs(a, b, id, sts) && from <= |a|
    ensures |a| <= |b| && b[..|a|] == a
    ensures PhaseOf(b[from..], n, k) == if k == id then AdvanceAll(n, PhaseOf(a[from..], n, k), sts)
            else PhaseOf(a[from..], n, k)
  {
    if sts != [] {
      LogsPhase(a, b[..|b| - 1], id, sts[..|sts| - 1], from, n, k);
      assert b[from..][..|b[from..]| - 1] == b[..|b| - 1][from..];
      assert b[..|b| - 1][..|a|] == b[..|a|];
    } else {
      assert b[..|a|] == b;
    }
  }

  /** The life of a node goes on through an execution that logs `mid` and then `end`. */
  lemma LifeGoesOn(n: Node, p: Phase, mid: seq<Status>, end: seq<Status>)
    ensures AdvanceAll(n, p, [Running] + mid + end) == AdvanceAll(n, AdvanceAll(n, Advance(n, p, Running), mid), end)
  {
    AdvanceTwice(n, p, [Running] + mid, end);
    AdvanceTwice(n, p, [Running], mid);
    assert AdvanceAll(n, p, [Running]) == Advance(n, p, Running) by {
      assert [Running][..0] == [];
    }
  }

  lemma {:induction false} AdvanceTwice(n: Node, p: Phase, x: seq<Status>, y: seq<Status>)
    ensures AdvanceAll(n, p, x + y) == AdvanceAll(n, AdvanceAll(n, p, x), y)
  {
    if y == [] {
      assert x + y == x;
    } else {
      AdvanceTwice(n, p, x, y[..|y| - 1]);
      assert (x + y)[..|x + y| - 1] == x + y[..|y| - 1];
    }
  }

  lemma AdvanceOne(n: Node, p: Phase, st: Status)
    ensures AdvanceAll(n, p, [st]) == Advance(n, p, st)
  {
    assert [st][..0] == [];
  }

  lemma AdvanceTwo(n: Node, p: Phase, x: Status, y: Status)
    ensures AdvanceAll(n, p, [x, y]) == Advance(n, Advance(n, p, x), y)
  {
    assert [x, y] == [x] + [y];
    AdvanceTwice(n, p, [x], [y]);
    AdvanceOne(n, p, x);
    AdvanceOne(n, Advance(n, p, x), y);
  }

  /** The part of an execution up to its end. */
  lemma RunPart(g: Graph, w: World, s: State, id: Id)
    requires Executable(g, s, id)
    ensures var s1 := Mark(s, id, Running, NoOutput, "");
            var o := RunNode(w, s1, id);
            && Logs(s.events, o.s.events, id, [Running] + RunLog(w, s1, id))
            && id in o.s.states && o.s.states[id].node == s.states[id].node
               && o.s.states[id].attempts == s.states[id].attempts
            && (o.err.None? ==> o.s.states[id].status.Completed?)
            && Execute(w, s, id) == if o.err.None? then o.s else FailOrRetry(w, o.s, id, o.err.value)
  {
    var s1 := Mark(s, id, Running, NoOutput, "");
    MarkLogs(s, id, Running, NoOutput, "");
    RunLogs(w, s1, id);
    RunFrame(g, w, s1, id);
    hide RunNode, Logs, FailOrRetry, InEdgesAllow, MaxAttempts, ForksApart, CloneOf;
    LogsTwice(s.events, s1.events, RunNode(w, s1, id).s.events, id, [Running], RunLog(w, s1, id));
  }

  ghost predicate Executable(g: Graph, s: State, id: Id) {
    && ForksApart(g) && Ready(s, id) && !s.states[id].node.kind.Loop?
       && s.states[id].attempts < MaxAttempts(s.states[id].node)
    && (IsFork(g, id) ==> s.states[id].node == g.nodes[id])
    && (s.states[id].node.kind.ParallelFork? ==> IsFork(g, id))
  }

  /** `ns` became `nt` by an execution that logged Running and then `sts`. */
  ghost predicate Lives(ns: NodeState, nt: NodeState, sts: seq<Status>) {
    && nt.node == ns.node && Running !in sts
    && forall p | PhaseFits(ns, p) :: PhaseFits(nt, AdvanceAll(ns.node, p, [Running] + sts))
  }

  /** One execution of a node in the middle of its life. */
  lemma ExecuteLogs(g: Graph, w: World, s: State, id: Id) returns (sts: seq<Status>)
    requires Executable(g, s, id)
    ensures var t := Execute(w, s, id);
            Logs(s.events, t.events, id, [Running] + sts) && id in t.states && Lives(s.states[id], t.states[id], sts)
  {
    var s1 := Mark(s, id, Running, NoOutput, "");
    var o := RunNode(w, s1, id);
    RunPart(g, w, s, id);
    sts := RunLog(w, s1, id);
    Middle(w, s, id);
    hide Executable, RunNode, Logs, FailOrRetry, MaxAttempts, Lives, Mark, Execute, RunLog;
    if o.err.Some? {
      sts := FailedExecution(w, s, o.s, id, o.err.value, sts);
    } else {
      SuccessLives(s.states[id], o.s.states[id], sts);
    }
  }

  lemma Middle(w: World, s: State, id: Id)
    requires Ready(s, id) && !s.states[id].node.kind.Loop?
    ensures var s1 := Mark(s, id, Running, NoOutput, "");
            s.states[id].status.Pending? && RunLog(w, s1, id) ==
              (if s.states[id].node.kind.HumanApproval? then [WaitingApproval] else [])
              + if RunNode(w, s1, id).err.None? then [Completed] else []
  {
    hide RunNode;
  }

  lemma FailedExecution(w: World, s: State, o: State, id: Id, msg: string, mid: seq<Status>) returns (sts: seq<Status>)
    requires id in s.states && s.states[id].status.Pending? && s.states[id].attempts < MaxAttempts(s.states[id].node)
    requires id in o.states && o.states[id].node == s.states[id].node && o.states[id].attempts == s.states[id].attempts
    requires Logs(s.events, o.events, id, [Running] + mid)
    requires mid == (if s.states[id].node.kind.HumanApproval? then [WaitingApproval] else []) + []
    ensures var t := FailOrRetry(w, o, id, msg);
            Logs(s.events, t.events, id, [Running] + sts) && id in t.states && Lives(s.states[id], t.states[id], sts)
  {
    var t := FailOrRetry(w, o, id, msg);
    FailureLogs(w, o, id, msg);
    var end := FailLog(s.states[id], t.states[id].status.Pending?);
    assert end == FailLog(o.states[id], t.states[id].status.Pending?);
    hide Logs, FailOrRetry, Lives, MaxAttempts, FailLog;
    LogsTwice(s.events, o.events, t.events, id, [Running] + mid, end);
    sts := mid + end;
    assert [Running] + sts == [Running] + mid + end;
    FailureLives(s.states[id], t.states[id], mid, end);
  }

  lemma SuccessLives(ns: NodeState, nt: NodeState, mid: seq<Status>)
    requires ns.status.Pending? && ns.attempts < MaxAttempts(ns.node) && nt.status.Completed? && nt.node == ns.node
    requires mid == (if ns.node.kind.HumanApproval? then [WaitingApproval] else []) + [Completed]
    ensures Lives(ns, nt, mid)
  {
    hide AdvanceAll, PhaseFits, MaxAttempts;
    assert [Running] + mid == [Running] + mid + [];
    forall p | PhaseFits(ns, p)
      ensures PhaseFits(nt, AdvanceAll(ns.node, p, [Running] + mid))
    {
      LifeGoesOn(ns.node, p, mid, []);
      SuccessPhase(ns, p, nt, mid);
    }
  }

  lemma FailureLives(ns: NodeState, nt: NodeState, mid: seq<Status>, end: seq<Status>)
    requires ns.status.Pending? && ns.attempts < MaxAttempts(ns.node) && nt.node == ns.node
    requires mid == (if ns.node.kind.HumanApproval? then [WaitingApproval] else []) + []
    requires end == FailLog(ns, nt.status.Pending?)
    requires nt.status.Failed? || (nt.status.Pending? && nt.attempts == ns.attempts + 1
                                   && ns.attempts + 1 < MaxAttempts(ns.node))
    ensures Lives(ns, nt, mid + end)
  {
    hide AdvanceAll, PhaseFits, MaxAttempts;
    assert [Running] + (mid + end) == [Running] + mid + end;
    forall p | PhaseFits(ns, p)
      ensures PhaseFits(nt, AdvanceAll(ns.node, p, [Running] + (mid + end)))
    {
      LifeGoesOn(ns.node, p, mid, end);
      FailurePhase(ns, p, nt, mid, end);
    }
  }

  lemma SuccessPhase(ns: NodeState, p: Phase, nt: NodeState, mid: seq<Status>)
    requires PhaseFits(ns, p) && ns.status.Pending? && ns.attempts < MaxAttempts(ns.node) && nt.status.Completed?
    requires mid == (if ns.node.kind.HumanApproval? then [WaitingApproval] else []) + [Completed]
    ensures PhaseFits(nt, AdvanceAll(ns.node, AdvanceAll(ns.node, Advance(ns.node, p, Running), mid), []))
  {
    var q := Advance(ns.node, p, Running);
    hide AdvanceAll, MaxAttempts;
    AdvanceNone(ns.node, AdvanceAll(ns.node, q, mid));
    if ns.node.kind.HumanApproval? {
      assert mid == [WaitingApproval, Completed];
      AdvanceTwo(ns.node, q, WaitingApproval, Completed);
    } else {
      assert mid == [Completed];
      AdvanceOne(ns.node, q, Completed);
    }
  }

  lemma AdvanceNone(n: Node, p: Phase)
    ensures AdvanceAll(n, p, []) == p
  {
  }

  lemma FailurePhase(ns: NodeState, p: Phase, nt: NodeState, mid: seq<Status>, end: seq<Status>)
    requires PhaseFits(ns, p) && ns.status.Pending? && ns.attempts < MaxAttempts(ns.node)
    requires mid == (if ns.node.kind.HumanApproval? then [WaitingApproval] else []) + []
    requires end == FailLog(ns, nt.status.Pending?)
    requires nt.status.Failed? || (nt.status.Pending? && nt.attempts == ns.attempts + 1
                                   && ns.attempts + 1 < MaxAttempts(ns.node))
    ensures PhaseFits(nt, AdvanceAll(ns.node, AdvanceAll(ns.node, Advance(ns.node, p, Running), mid), end))
  {
    var q := Advance(ns.node, p, Running);
    OneAttempt(ns.node);
    assert mid == if ns.node.kind.HumanApproval? then [WaitingApproval] else [];
    hide AdvanceAll, MaxAttempts;
    AdvanceNone(ns.node, q);
    AdvanceOne(ns.node, q, WaitingApproval);
    var r := AdvanceAll(ns.node, q, mid);
    AdvanceOne(ns.node, r, Failed);
    AdvanceOne(ns.node, r, Retrying);
    AdvanceTwo(ns.node, r, Retrying, Failed);
  }

  lemma OneAttempt(n: Node)
    ensures n.kind.HumanApproval? ==> MaxAttempts(n) == 1
  {
  }

  // ----- The log of a round -----

  /** The events from `from` on agree with the status of every body node. */
  ghost predicate RoundLogged(s: State, body: seq<Id>, from: nat) {
    && from <= |s.events|
    && forall b | b in body :: b in s.states && PhaseFits(s.states[b], PhaseOf(s.events[from..], s.states[b].node, b))
  }

  /** `p` is silent from position `i` on, and if it is of the body it has ended in this round before. */
  ghost predicate SettledSince(events: seq<Event>, body: seq<Id>, from: nat, i: nat, p: Id) {
    && (forall j | i <= j < |events| :: events[j].node != p)
    && (p in body ==> exists j :: from <= j < i && j < |events| && events[j].node == p && Terminal(events[j].status))
  }

  ghost predicate Ordered(s: State, body: seq<Id>, from: nat) {
    forall i, e | from <= i < |s.events| && s.events[i].status.Running? && s.events[i].node in body
                  && e in Ins(s, s.events[i].node) ::
      SettledSince(s.events, body, from, i, e.from)
  }

  lemma {:induction false} LogsAll(a: seq<Event>, b: seq<Event>, id: Id, sts: seq<Status>)
    requires Logs(a, b, id, sts)
    ensures |a| <= |b| && b[..|a|] == a && forall i | |a| <= i < |b| :: b[i].node == id
  {
    if sts != [] {
      LogsAll(a, b[..|b| - 1], id, sts[..|sts| - 1]);
      assert b[..|b| - 1][..|a|] == b[..|a|];
      forall i | |a| <= i < |b|
        ensures b[i].node == id
      {
        if i < |b| - 1 {
          assert b[i] == b[..|b| - 1][i];
        }
      }
    } else {
      assert b[..|a|] == b;
    }
  }

  /** A source that is terminal in the middle of a round stays silent, and has logged its end. */
  lemma TerminalSettled(s: State, body: seq<Id>, from: nat, events: seq<Event>, p: Id)
    requires RoundLogged(s, body, from) && p in s.states && Terminal(s.states[p].status)
    requires |s.events| <= |events| && events[..|s.events|] == s.events
    requires forall j | |s.events| <= j < |events| :: events[j].node != p
    ensures SettledSince(events, body, from, |s.events|, p)
  {
    if p in body {
      var tail := s.events[from..];
      assert PhaseFits(s.states[p], PhaseOf(tail, s.states[p].node, p));
      DoneWasLogged(tail, s.states[p].node, p);
      hide PhaseOf;
      var j :| 0 <= j < |tail| && tail[j].node == p && Terminal(tail[j].status);
      assert events[from + j] == events[..|s.events|][from + j] == s.events[from + j] == tail[j];
    }
  }

  /** What was settled stays settled while others log. */
  lemma StillSince(a: seq<Event>, b: seq<Event>, body: seq<Id>, from: nat, i: nat, p: Id)
    requires SettledSince(a, body, from, i, p) && |a| <= |b| && b[..|a|] == a
    requires forall j | |a| <= j < |b| :: b[j].node != p
    ensures SettledSince(b, body, from, i, p)
  {
    forall j | i <= j < |b|
      ensures b[j].node != p
    {
      if j < |a| {
        assert b[j] == b[..|a|][j] == a[j];
      }
    }
    if p in body {
      var j :| from <= j < i && j < |a| && a[j].node == p && Terminal(a[j].status);
      assert b[j] == b[..|a|][j] == a[j];
    }
  }

  /** A body node that has logged in this round has run. */
  lemma LoggedHasRun(g: Graph, w: World, s: State, body: seq<Id>, from: nat, i: nat)
    requires RoundLogged(s, body, from) && RoundOk(g, w, s, body) && from <= i < |s.events| && s.events[i].node in body
    ensures var b := s.events[i].node; b in g.nodes && b in s.states && HasRun(s.states[b]) && InEdgesAllow(s, b)
  {
    var b := s.events[i].node;
    var tail := s.events[from..];
    assert tail[i - from] == s.events[i];
    assert NodeOk(g, w, s, b) && PhaseFits(s.states[b], PhaseOf(tail, s.states[b].node, b));
    hide RoundOk, RoundLogged, Explained, ClonesWait, JoinSettled, InEdgesAllow;
    if PhaseOf(tail, s.states[b].node, b) == Idle {
      IdleMeansSilent(tail, s.states[b].node, b);
      assert false;
    }
  }

  lemma StepLogged(g: Graph, w: World, s: State, body: seq<Id>, id: Id, from: nat)
    requires GraphOk(g) && Executable(g, s, id) && id in body && RoundLogged(s, body, from)
    requires Moved(g, s, Execute(w, s, id), id) && forall b | b in body :: b in g.nodes
    ensures RoundLogged(Execute(w, s, id), body, from)
  {
    var t := Execute(w, s, id);
    var sts := ExecuteLogs(g, w, s, id);
    hide Execute, Logs, PhaseFits, PhaseOf, Moved, AdvanceAll;
    LogsAll(s.events, t.events, id, [Running] + sts);
    forall b | b in body
      ensures b in t.states && PhaseFits(t.states[b], PhaseOf(t.events[from..], t.states[b].node, b))
    {
      LogsPhase(s.events, t.events, id, [Running] + sts, from, s.states[b].node, b);
      if b != id {
        SameNode(g, s, t, id, b);
      }
    }
  }

  lemma StepOrdered(g: Graph, w: World, s: State, body: seq<Id>, id: Id, from: nat)
    requires GraphOk(g) && Shape(g, s) && OriginOk(g, s) && Executable(g, s, id) && id in body && id in g.nodes
    requires RoundOk(g, w, s, body) && RoundLogged(s, body, from) && Ordered(s, body, from)
    requires Moved(g, s, Execute(w, s, id), id)
    ensures Ordered(Execute(w, s, id), body, from)
  {
    var t := Execute(w, s, id);
    var sts := ExecuteLogs(g, w, s, id);
    LogsAll(s.events, t.events, id, [Running] + sts);
    assert ForksApart(g) && s.states[id].status.Pending? && InEdgesAllow(s, id);
    hide Execute, Logs, Lives, Shape, OriginOk, Moved, RoundOk, RoundLogged, InEdgesAllow, GraphOk, ForksApart;
    forall i, e | from <= i < |t.events| && t.events[i].status.Running? && t.events[i].node in body
      && e in Ins(t, t.events[i].node)
      ensures SettledSince(t.events, body, from, i, e.from)
    {
      var b := t.events[i].node;
      if i < |s.events| {
        assert t.events[i] == t.events[..|s.events|][i] == s.events[i];
        LoggedHasRun(g, w, s, body, from, i);
      }
      SourceStays(g, s, t, id, b, e);
      SourceDone(s, t, id, b, e);
      if i < |s.events| {
        StillSince(s.events, t.events, body, from, i, e.from);
      } else {
        TerminalSettled(s, body, from, t.events, e.from);
        LaterStart(t.events, body, from, |s.events|, i, e.from);
      }
    }
  }

  lemma SourceDone(s: State, t: State, id: Id, b: Id, e: Edge)
    requires b in s.states && InEdgesAllow(s, b) && Undisturbed(s, t, b, e) && id in s.states
             && s.states[id].status.Pending?
    ensures e in Ins(s, b) && e.from in s.states && Terminal(s.states[e.from].status) && e.from != id
  {
  }

  lemma LaterStart(events: seq<Event>, body: seq<Id>, from: nat, i: nat, j: nat, p: Id)
    requires SettledSince(events, body, from, i, p) && i <= j < |events|
    ensures SettledSince(events, body, from, j, p)
  {
  }

  lemma {:induction false} StepsLogged(g: Graph, bodyOf: map<Id, seq<Id>>, rank: map<Id, nat>, w: World, s: State,
                                       l: Id, steps: Steps, from: nat)
    requires Disciplined(g, bodyOf, rank) && Inv(g, s) && OriginOk(g, s)
             && ValidAll(w, bodyOf, s, BodyOf(bodyOf, l), steps)
    requires var body := BodyOf(bodyOf, l);
             FlatBody(g, body) && RoundOk(g, w, s, body) && RoundLogged(s, body, from) && Ordered(s, body, from)
    ensures var t := AfterAll(w, bodyOf, s, steps);
            RoundLogged(t, BodyOf(bodyOf, l), from) && Ordered(t, BodyOf(bodyOf, l), from)
    decreases steps
  {
    hide Execute, InEdgesAllow, RoundOk, Inv, Disciplined, OriginOk, Below, FlatBody, RoundLogged, Ordered, GraphOk,
      ForksApart, Shape, Moved;
    if steps.Then? {
      var body, id := BodyOf(bodyOf, l), steps.last.id;
      var t := AfterAll(w, bodyOf, s, steps.before);
      StepsLogged(g, bodyOf, rank, w, s, l, steps.before, from);
      StepsOutcome(g, bodyOf, rank, w, s, l, steps.before);
      StepsOrigin(g, bodyOf, rank, w, s, l, steps.before);
      BodyStepsOk(g, bodyOf, rank, w, s, l, steps.before);
      FlatStep(g, w, t, body, id);
      StepExecutable(g, bodyOf, rank, t, body, id);
      ExecuteMoves(g, w, t, id);
      StepLogged(g, w, t, body, id, from);
      StepOrdered(g, w, t, body, id, from);
    }
  }

  lemma StepExecutable(g: Graph, bodyOf: map<Id, seq<Id>>, rank: map<Id, nat>, s: State, body: seq<Id>, id: Id)
    requires Disciplined(g, bodyOf, rank) && Inv(g, s) && Ready(s, id) && !s.states[id].node.kind.Loop?
             && FlatBody(g, body) && id in body
    ensures GraphOk(g) && ForksApart(g) && Shape(g, s) && Executable(g, s, id) && id in g.nodes
    ensures s.states[id].node.kind.ParallelFork? ==> IsFork(g, id)
    ensures forall b | b in body :: b in g.nodes
  {
    GraphFacts(g, bodyOf, rank);
    ShapeOf(g, s);
    NodeFacts(g, s, id);
    ForkStatic(g, bodyOf, rank, s, id);
    hide Disciplined, Inv, GraphOk, ForksApart, InEdgesAllow, Shape, NodeShape, MaxAttempts;
  }

  /** Where the log of the last round begins. */
  function RoundStart(w: World, bodyOf: map<Id, seq<Id>>, s: State, id: Id, rounds: Rounds): nat
    requires rounds.Round?
  {
    |AfterRounds(w, bodyOf, s, id, rounds.before).events|
  }

  lemma RoundIsLogged(g: Graph, bodyOf: map<Id, seq<Id>>, rank: map<Id, nat>, w: World, s: State, id: Id,
                      rounds: Rounds)
    requires Disciplined(g, bodyOf, rank) && Inv(g, s) && OriginOk(g, s) && id in s.states
             && ValidRounds(w, bodyOf, s, id, rounds)
    requires rounds.Round? && FlatBody(g, BodyOf(bodyOf, id))
    ensures var t := AfterRounds(w, bodyOf, s, id, rounds);
            var from := RoundStart(w, bodyOf, s, id, rounds);
            && RoundLogged(t, BodyOf(bodyOf, id), from) && Ordered(t, BodyOf(bodyOf, id), from)
            && RoundOk(g, w, t, BodyOf(bodyOf, id))
  {
    var body := BodyOf(bodyOf, id);
    var t := AfterRounds(w, bodyOf, s, id, rounds.before);
    hide Disciplined, Below, InEdgesAllow, Inv, FlatBody, OriginOk, RoundOk, ResetBody, ResetAll, Shape, NodeShape,
      EdgeShape, RoundLogged, Ordered;
    RoundsOutcome(g, bodyOf, rank, w, s, id, rounds.before);
    RoundsOrigin(g, bodyOf, rank, w, s, id, rounds.before);
    ResetOutcome(g, bodyOf, rank, t, id);
    ResetOrigin(g, t, body);
    ShapeOf(g, t);
    ResetOk(g, w, t, body);
    ResetLogged(t, body);
    BodyStepsOk(g, bodyOf, rank, w, ResetAll(t, body), id, rounds.steps);
    StepsLogged(g, bodyOf, rank, w, ResetAll(t, body), id, rounds.steps, |t.events|);
  }

  lemma ResetLogged(s: State, body: seq<Id>)
    requires forall b | b in body :: b in s.states
    ensures var r := ResetAll(s, body); RoundLogged(r, body, |s.events|) && Ordered(r, body, |s.events|)
  {
    ResetShape(s, body);
    hide ResetAll;
    assert s.events[|s.events|..] == [];
  }

  // ----- The theorems -----

  /** In each round of a loop the events of a body node follow the grammar of a node outside loops: at most
      MaxAttempts runs, a terminal event last and only last, and that is the status the round leaves. */
  lemma RoundGrammar(g: Graph, bodyOf: map<Id, seq<Id>>, rank: map<Id, nat>, w: World, s: State, id: Id, rounds: Rounds,
                     b: Id)
    requires Disciplined(g, bodyOf, rank) && Inv(g, s) && OriginOk(g, s) && id in s.states
             && ValidRounds(w, bodyOf, s, id, rounds)
    requires rounds.Round? && FlatBody(g, BodyOf(bodyOf, id)) && b in BodyOf(bodyOf, id)
    ensures var t := AfterRounds(w, bodyOf, s, id, rounds);
            var from := RoundStart(w, bodyOf, s, id, rounds);
            && from <= |t.events| && b in t.states
            && var trace := Trace(t.events[from..], b);
               && Grammatical(t.states[b].node, trace)
               && (forall i | 0 <= i < |trace| - 1 :: !Terminal(trace[i]))
               && (Terminal(t.states[b].status) <==> trace != [] && Terminal(trace[|trace| - 1]))
               && (Terminal(t.states[b].status) ==> trace[|trace| - 1] == t.states[b].status)
  {
    hide Disciplined, Inv, OriginOk, FlatBody, ValidRounds, AfterRounds, RoundOk, Ordered;
    RoundIsLogged(g, bodyOf, rank, w, s, id, rounds);
    LoggedGrammar(AfterRounds(w, bodyOf, s, id, rounds), BodyOf(bodyOf, id), RoundStart(w, bodyOf, s, id, rounds), b);
  }

  lemma LoggedGrammar(t: State, body: seq<Id>, from: nat, b: Id)
    requires RoundLogged(t, body, from) && b in body
    ensures from <= |t.events| && b in t.states
    ensures var trace := Trace(t.events[from..], b);
            && Grammatical(t.states[b].node, trace)
            && (forall i | 0 <= i < |trace| - 1 :: !Terminal(trace[i]))
            && (Terminal(t.states[b].status) <==> trace != [] && Terminal(trace[|trace| - 1]))
            && (Terminal(t.states[b].status) ==> trace[|trace| - 1] == t.states[b].status)
  {
    var tail := t.events[from..];
    PhaseTrace(tail, t.states[b].node, b);
    TraceMeaning(t.states[b], PhaseOf(tail, t.states[b].node, b), Trace(tail, b));
  }

  /** Each round runs its body in the order of the graph: when a body node starts, every source of its
      in-edges is silent for the rest of the round, a source in the body has logged its end in this round
      already, and the selector holds unless the node is a join. */
  lemma RoundStartsAfterSources(g: Graph, bodyOf: map<Id, seq<Id>>, rank: map<Id, nat>, w: World, s: State, id: Id,
                                rounds: Rounds, i: nat, e: Edge)
    requires Disciplined(g, bodyOf, rank) && Inv(g, s) && OriginOk(g, s) && id in s.states
             && ValidRounds(w, bodyOf, s, id, rounds)
    requires rounds.Round? && FlatBody(g, BodyOf(bodyOf, id))
    requires var t := AfterRounds(w, bodyOf, s, id, rounds);
             && RoundStart(w, bodyOf, s, id, rounds) <= i < |t.events| && t.events[i].status.Running?
             && t.events[i].node in BodyOf(bodyOf, id) && e in Ins(t, t.events[i].node)
    ensures var t := AfterRounds(w, bodyOf, s, id, rounds);
            && t.events[i].node in t.states && e.from in t.states && Terminal(t.states[e.from].status)
            && (t.states[t.events[i].node].node.kind.Join? || EdgeHolds(t, e))
            && (forall j | i <= j < |t.events| :: t.events[j].node != e.from)
            && (e.from in BodyOf(bodyOf, id) ==>
                  exists j :: RoundStart(w, bodyOf, s, id, rounds) <= j < i && t.events[j].node == e.from
                    && Terminal(t.events[j].status))
  {
    hide Disciplined, Inv, OriginOk, FlatBody, ValidRounds, AfterRounds, RoundOk, RoundLogged, InEdgesAllow;
    RoundIsLogged(g, bodyOf, rank, w, s, id, rounds);
    var t := AfterRounds(w, bodyOf, s, id, rounds);
    LoggedHasRun(g, w, t, BodyOf(bodyOf, id), RoundStart(w, bodyOf, s, id, rounds), i);
    AllowingEdge(t, t.events[i].node, e);
    assert SettledSince(t.events, BodyOf(bodyOf, id), RoundStart(w, bodyOf, s, id, rounds), i, e.from);
  }

  lemma AllowingEdge(t: State, b: Id, e: Edge)
    requires b in t.states && InEdgesAllow(t, b) && e in Ins(t, b)
    ensures e.from in t.states && Terminal(t.states[e.from].status) && (t.states[b].node.kind.Join? || EdgeHolds(t, e))
  {
  }
}
