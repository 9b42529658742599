/** The state of one workflow run as a value, and what each engine operation does to it. */
module EngineState {
  import opened WorkflowDef

  datatype Json =
    | Null | Bool(b: bool) | Num(n: int) | Str(s: string)
    | Arr(elems: seq<Json>) | Obj(fields: map<string, Json>)

  type Scope = map<string, Json>

  /** Raw JSON bytes: empty, not parseable, or a value. */
  datatype Output = NoOutput | Malformed | Value(json: Json)

  datatype Status = Pending | Running | Completed | Failed | Skipped | WaitingApproval | Retrying

  datatype Event = Event(seqNo: nat, node: Id, status: Status, output: Output, error: string)

  datatype NodeState = NodeState(node: Node, status: Status, output: Output, branch: string,
                                 approved: bool, attempts: nat, err: string)

  datatype Feedback = Feedback(category: string, location: string, expected: string, detail: string)

  // ----- The outside world -----

  datatype AgentReply = AgentOk(output: Output) | AgentErr(msg: string)
  datatype GateReply = Decided(ok: bool, feedback: Option<Feedback>) | GateErr(msg: string)
  datatype EvalReply = Evaluated(value: Json) | EvalErr(msg: string)

  /** Everything the engine asks others: the executor, the JSON Logic evaluator, and whether the
      run is cancelled during a backoff. The last argument of an executor function is the number
      of executor calls made before, so the answers of any stateful executor fit. */
  datatype World = World(
    runAgent: (Node, nat, Scope, nat) -> AgentReply,
    approve: (Node, nat) -> GateReply,
    eval: (Expr, Scope) -> EvalReply,
    render: Json -> string,
    cancelled: (Node, nat, nat) -> bool)

  /** The executor calls of a run, in order. */
  datatype Call = AgentCall(node: Id, input: Scope, ok: bool) | GateCall(gate: Id, reply: GateReply)

  datatype State = State(
    states: map<Id, NodeState>,
    outE: map<Id, seq<Edge>>,
    inE: map<Id, seq<Edge>>,
    scope: Scope,
    feedback: map<Id, Feedback>,
    seqNo: nat,
    events: seq<Event>,
    calls: seq<Call>)

  function Outs(s: State, id: Id): seq<Edge> {
    if id in s.outE then s.outE[id] else []
  }

  function Ins(s: State, id: Id): seq<Edge> {
    if id in s.inE then s.inE[id] else []
  }

  function Fresh(n: Node): NodeState {
    NodeState(n, Pending, NoOutput, "", false, 0, "")
  }

  // ----- Edge tests and readiness -----

  predicate Terminal(st: Status) {
    st.Completed? || st.Failed? || st.Skipped?
  }

  /** Whether a selector on an edge out of a node that is not a condition holds. */
  predicate SelectorHolds(src: NodeState, cond: Selector) {
    match cond
    case Unset => src.status.Completed?
    case OnSuccess => src.status.Completed?
    case OnFailed => src.status.Failed?
    case OnApproved => src.status.Completed? && src.approved
    case OnRejected => src.status.Completed? && !src.approved
    case Always => Terminal(src.status)
    case Other(_) => false
  }

  /** Whether an edge out of a condition is on the branch it selected: a matching branch key, or
      an always edge when no branch key matches. */
  predicate BranchActive(src: NodeState, ed: Edge, outEdges: seq<Edge>) {
    if ed.branchKey != "" then ed.branchKey == src.branch
    else ed.cond.Always? && forall o | o in outEdges :: o.branchKey == "" || o.branchKey != src.branch
  }

  predicate EdgeHolds(s: State, e: Edge)
    requires e.from in s.states
  {
    var src := s.states[e.from];
    if src.node.kind.Condition? then BranchActive(src, e, Outs(s, e.from))
    else SelectorHolds(src, e.cond)
  }

  predicate SourceTerminal(s: State, e: Edge) {
    e.from in s.states && Terminal(s.states[e.from].status)
  }

  /** What the in-edges must say before a node may run; a join only waits. */
  predicate InEdgesAllow(s: State, id: Id)
    requires id in s.states
  {
    forall e | e in Ins(s, id) ::
      SourceTerminal(s, e) && (s.states[id].node.kind.Join? || EdgeHolds(s, e))
  }

  predicate Ready(s: State, id: Id) {
    id in s.states && s.states[id].status.Pending? && InEdgesAllow(s, id)
  }

  predicate AnyActiveIn(s: State, id: Id) {
    exists e :: e in Ins(s, id) && e.from in s.states && EdgeHolds(s, e)
  }

  // ----- Elementary updates -----

  function Put(s: State, id: Id, ns: NodeState): State {
    s.(states := s.states[id := ns])
  }

  /** Sets the status and appends the lifecycle event. */
  function Mark(s: State, id: Id, status: Status, out: Output, err: string): State
    requires id in s.states
  {
    var s1 := Put(s, id, s.states[id].(status := status));
    s1.(seqNo := s.seqNo + 1,
        events := s.events + [Event(s.seqNo + 1, id, status, if status.Completed? then out else NoOutput, err)])
  }

  function UpdateScope(s: State, id: Id): State
    requires id in s.states
  {
    var ns := s.states[id];
    if ns.output.Value? then s.(scope := s.scope[ns.node.id := ns.output.json]) else s
  }

  /** The common tail of a successful execution: output, scope, Completed. */
  function Finish(s: State, id: Id, out: Output): State
    requires id in s.states
  {
    Mark(UpdateScope(Put(s, id, s.states[id].(output := out)), id), id, Completed, out, "")
  }

  function Single(key: string, v: Json): Output {
    Value(Obj(map[key := v]))
  }

  // ----- Node executions: the new state and, on failure, the error -----

  datatype Outcome = Outcome(s: State, err: Option<string>)

  function RunTrigger(s: State, id: Id): Outcome
    requires id in s.states && s.states[id].node.kind.Trigger?
  {
    var src := s.states[id].node.kind.source;
    Outcome(Finish(s, id, Single("trigger", Str(if src.Some? then src.value else ""))), None)
  }

  function FeedbackJson(fb: Feedback): Json {
    var must := map["category" := Str(fb.category), "detail" := Str(fb.detail)];
    var loc := if fb.location != "" then must["location" := Str(fb.location)] else must;
    Obj(if fb.expected != "" then loc["expected" := Str(fb.expected)] else loc)
  }

  const FEEDBACK_KEY := "rejection_feedback"
  const ERROR_KEY := "last_error"

  /** The scope an agent sees: the two reserved keys come only from engine state. */
  function AgentInput(s: State, id: Id): Scope
    requires id in s.states
  {
    var base := s.scope - {FEEDBACK_KEY, ERROR_KEY};
    var withFeedback := if id in s.feedback then base[FEEDBACK_KEY := FeedbackJson(s.feedback[id])] else base;
    if s.states[id].err != "" then withFeedback[ERROR_KEY := Str(s.states[id].err)] else withFeedback
  }

  function RunAgent(w: World, s: State, id: Id): Outcome
    requires id in s.states
  {
    var ns := s.states[id];
    var input := AgentInput(s, id);
    var reply := w.runAgent(ns.node, ns.attempts, input, |s.calls|);
    var called := s.(calls := s.calls + [AgentCall(id, input, reply.AgentOk?)]);
    match reply
    case AgentErr(msg) => Outcome(Put(called, id, ns.(err := msg)), Some(msg))
    case AgentOk(out) =>
      var cleared := Put(called, id, ns.(err := "")).(feedback := s.feedback - {id});
      Outcome(Finish(cleared, id, out), None)
  }

  predicate RejectsTo(outs: seq<Edge>, k: Id) {
    exists e :: e in outs && e.cond.OnRejected? && e.to == k
  }

  /** The target of every rejected edge among `outs` is given the feedback. */
  function GiveFeedback(fb: map<Id, Feedback>, outs: seq<Edge>, f: Feedback): (r: map<Id, Feedback>)
    ensures forall k :: k in r <==> k in fb || RejectsTo(outs, k)
    ensures forall k | k in r :: r[k] == if RejectsTo(outs, k) then f else fb[k]
  {
    if outs == [] then fb
    else
      var last := outs[|outs| - 1];
      var rest := GiveFeedback(fb, outs[..|outs| - 1], f);
      assert forall e :: e in outs <==> e in outs[..|outs| - 1] || e == last;
      if last.cond.OnRejected? then rest[last.to := f] else rest
  }

  function RunGate(w: World, s: State, id: Id): Outcome
    requires id in s.states
  {
    var s1 := Mark(s, id, WaitingApproval, NoOutput, "");
    var reply := w.approve(s.states[id].node, |s.calls|);
    var called := s1.(calls := s1.calls + [GateCall(id, reply)]);
    match reply
    case GateErr(msg) => Outcome(called, Some(msg))
    case Decided(ok, fb) =>
      var decided := Put(called, id, called.states[id].(approved := ok));
      var told := if !ok && fb.Some?
                  then decided.(feedback := GiveFeedback(s.feedback, Outs(s, id), fb.value)) else decided;
      Outcome(Finish(told, id, Single("approved", Bool(ok))), None)
  }

  /** The text a value selects a branch with. */
  predicate Reads(w: World, v: Json, text: string) {
    || (v == Bool(true) && text == "true")
    || (v == Bool(false) && text == "false")
    || v == Str(text)
    || (v == Null && text == "")
    || ((v.Num? || v.Arr? || v.Obj?) && text == w.render(v))
  }

  function Stringify(w: World, v: Json): (text: string)
    ensures Reads(w, v, text)
  {
    match v
    case Null => ""
    case Str(t) => t
    case Bool(b) => if b then "true" else "false"
    case _ => w.render(v)
  }

  predicate BranchTaken(outs: seq<Edge>, branch: string) {
    exists e :: e in outs && e.branchKey != "" && e.branchKey == branch
  }

  predicate HasFallback(outs: seq<Edge>) {
    exists e :: e in outs && e.cond.Always? && e.branchKey == ""
  }

  function RunCondition(w: World, s: State, id: Id): Outcome
    requires id in s.states && s.states[id].node.kind.Condition?
  {
    var ns := s.states[id];
    match w.eval(ns.node.kind.expr, s.scope)
    case EvalErr(msg) => Outcome(s, Some(msg))
    case Evaluated(v) =>
      var branch := Stringify(w, v);
      var out := Single("branch", Str(branch));
      var s1 := UpdateScope(Put(s, id, ns.(branch := branch, output := out)), id);
      if BranchTaken(Outs(s, id), branch) || HasFallback(Outs(s, id))
      then Outcome(Mark(s1, id, Completed, out, ""), None)
      else Outcome(s1, Some("condition " + id + " no matching branch " + branch))
  }

  function RunTransform(w: World, s: State, id: Id): Outcome
    requires id in s.states && s.states[id].node.kind.Transform?
  {
    var ns := s.states[id];
    match w.eval(ns.node.kind.expr, s.scope)
    case EvalErr(msg) => Outcome(s, Some(msg))
    case Evaluated(v) => Outcome(Finish(s, id, Value(v)), None)
  }

  /** The first join among the targets of `outs`. */
  function FirstJoin(states: map<Id, NodeState>, outs: seq<Edge>): Option<Id> {
    if outs == [] then None
    else if outs[0].to in states && states[outs[0].to].node.kind.Join? then Some(outs[0].to)
    else FirstJoin(states, outs[1..])
  }

  function AddEdge(s: State, e: Edge): State {
    s.(outE := s.outE[e.from := Outs(s, e.from) + [e]], inE := s.inE[e.to := Ins(s, e.to) + [e]])
  }

  function AddClone(s: State, fork: Id, tpl: Node, template: Id, join: Option<Id>, item: Json, i: nat): State {
    var cid := CloneId(template, i);
    var s1 := Put(s, cid, Fresh(tpl.(id := cid)));
    var s2 := AddEdge(s1, Edge(fork, cid, Always, "")).(scope := s.scope[cid := item]);
    if join.Some? then AddEdge(s2, Edge(cid, join.value, Always, "")) else s2
  }

  /** The first `k` elements of `items` expanded. */
  function AddClones(s: State, fork: Id, tpl: Node, template: Id, join: Option<Id>, items: seq<Json>, k: nat): State
    requires k <= |items|
  {
    if k == 0 then s
    else AddClone(AddClones(s, fork, tpl, template, join, items, k - 1), fork, tpl, template, join, items[k - 1], k - 1)
  }

  lemma {:induction false} AddClonesKeepsStates(s: State, fork: Id, tpl: Node, template: Id, join: Option<Id>,
                                                items: seq<Json>, k: nat)
    requires k <= |items|
    ensures s.states.Keys <= AddClones(s, fork, tpl, template, join, items, k).states.Keys
  {
    if k > 0 {
      AddClonesKeepsStates(s, fork, tpl, template, join, items, k - 1);
    }
  }

  function RunFork(w: World, s: State, id: Id): Outcome
    requires id in s.states && s.states[id].node.kind.ParallelFork? && s.states[id].node.kind.fanOut.Some?
  {
    var ns := s.states[id];
    var f := ns.node.kind.fanOut.value;
    match w.eval(f.itemsExpr, s.scope)
    case EvalErr(msg) => Outcome(s, Some(msg))
    case Evaluated(v) =>
      if !v.Arr? then Outcome(s, Some("fork " + id + " itemsExpr did not yield an array"))
      else if f.template !in s.states then Outcome(s, Some("fork " + id + " template not found"))
      else
        var join := FirstJoin(s.states, Outs(s, id));
        var grown := AddClones(s, id, s.states[f.template].node, f.template, join, v.elems, |v.elems|);
        AddClonesKeepsStates(s, id, s.states[f.template].node, f.template, join, v.elems, |v.elems|);
        Outcome(Finish(grown, id, Single("count", Num(|v.elems|))), None)
  }

  predicate FailedSource(s: State, e: Edge) {
    e.from in s.states && s.states[e.from].status.Failed?
  }

  function FirstFailed(s: State, ins: seq<Edge>): Option<Id> {
    if ins == [] then None
    else if FailedSource(s, ins[0]) then Some(ins[0].from)
    else FirstFailed(s, ins[1..])
  }

  function RunJoin(s: State, id: Id): Outcome
    requires id in s.states
  {
    var failed := FirstFailed(s, Ins(s, id));
    if failed.Some? then Outcome(s, Some("join " + id + " upstream " + failed.value + " failed"))
    else Outcome(Finish(s, id, Single("join", Str("ok"))), None)
  }

  // ----- Retry and the execution of one node -----

  function MaxAttempts(n: Node): (m: nat)
    ensures m >= 1
  {
    if n.kind.Agent? && n.kind.agent.Some? && n.kind.agent.value.retry.Some?
      && n.kind.agent.value.retry.value.maxAttempts > 1
    then n.kind.agent.value.retry.value.maxAttempts else 1
  }

  predicate BacksOff(n: Node, attempts: nat) {
    n.kind.Agent? && n.kind.agent.Some? && n.kind.agent.value.retry.Some? &&
    var b := n.kind.agent.value.retry.value.backoffSeconds;
    1 <= attempts <= |b| && b[attempts - 1] > 0
  }

  datatype RetryResult = RetryResult(s: State, again: bool)

  function ScheduleRetry(w: World, s: State, id: Id, msg: string): RetryResult
    requires id in s.states
  {
    var ns := s.states[id];
    if MaxAttempts(ns.node) == 1 then RetryResult(s, false)
    else
      var s1 := Put(s, id, ns.(attempts := ns.attempts + 1));
      if ns.attempts + 1 >= MaxAttempts(ns.node) then RetryResult(s1, false)
      else
        var s2 := Mark(s1, id, Retrying, NoOutput, msg);
        if BacksOff(ns.node, ns.attempts + 1) && w.cancelled(ns.node, ns.attempts + 1, |s.calls|)
        then RetryResult(s2, false)
        else RetryResult(Put(s2, id, s2.states[id].(status := Pending)), true)
  }

  function FailOrRetry(w: World, s: State, id: Id, msg: string): State
    requires id in s.states
  {
    var r := ScheduleRetry(w, Put(s, id, s.states[id].(err := msg)), id, msg);
    if r.again then r.s else Mark(r.s, id, Failed, NoOutput, msg)
  }

  /** The type-specific part of an execution, for every type but loop. */
  function RunNode(w: World, s: State, id: Id): (o: Outcome)
    requires id in s.states && !s.states[id].node.kind.Loop?
    ensures id in o.s.states
  {
    match s.states[id].node.kind
    case Trigger(_) => RunTrigger(s, id)
    case Agent(_) => RunAgent(w, s, id)
    case HumanApproval(_) => RunGate(w, s, id)
    case Condition(_) => RunCondition(w, s, id)
    case Transform(_) => RunTransform(w, s, id)
    case ParallelFork(None) => Outcome(s, Some("fork without fanOut"))
    case ParallelFork(Some(_)) =>
      var o := RunFork(w, s, id);
      ForkKeepsStates(w, s, id);
      o
    case Join => RunJoin(s, id)
    case Subworkflow => Outcome(s, Some("subworkflow node " + id + " not implemented in v1"))
    case Unknown(name) => Outcome(s, Some("node " + id + " unknown type " + name))
  }

  lemma ForkKeepsStates(w: World, s: State, id: Id)
    requires id in s.states && s.states[id].node.kind.ParallelFork? && s.states[id].node.kind.fanOut.Some?
    ensures s.states.Keys <= RunFork(w, s, id).s.states.Keys
  {
    var f := s.states[id].node.kind.fanOut.value;
    var r := w.eval(f.itemsExpr, s.scope);
    if r.Evaluated? && r.value.Arr? && f.template in s.states {
      AddClonesKeepsStates(s, id, s.states[f.template].node, f.template, FirstJoin(s.states, Outs(s, id)),
                           r.value.elems, |r.value.elems|);
    }
  }

  /** One execution of a node that is not a loop. */
  function Execute(w: World, s: State, id: Id): State
    requires id in s.states && !s.states[id].node.kind.Loop?
  {
    var o := RunNode(w, Mark(s, id, Running, NoOutput, ""), id);
    if o.err.None? then o.s else FailOrRetry(w, o.s, id, o.err.value)
  }

  // ----- Loop bodies -----

  function Reset(ns: NodeState): NodeState {
    Fresh(ns.node)
  }

  /** The first `k` body nodes pending again, with everything but their definition cleared. */
  function ResetBody(s: State, body: seq<Id>, k: nat): (r: State)
    requires k <= |body| && forall b | b in body :: b in s.states
    ensures r.states.Keys == s.states.Keys
  {
    if k == 0 then s
    else
      var r := ResetBody(s, body, k - 1);
      Put(r, body[k - 1], Reset(r.states[body[k - 1]]))
  }
}
