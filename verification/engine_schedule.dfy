/** Schedules of a run, why they end, and the last pass over the nodes that never ran. */
module EngineSchedule {
  import opened WorkflowDef
  import opened EngineState
  import opened EngineInvariants
  import opened EngineSteps
  import opened EngineMeasure
  import opened EngineFrames
  import S = SkipPass

  // ----- Context and results -----

  datatype Context = NoContext | BadContext | Context(json: Json)
  datatype RunResult = BadRun | Deadlocked(at: Id) | Finished

  function ContextScope(ctx: Context): Scope {
    match ctx
    case Context(Obj(fields)) => fields
    case Context(v) => map["context" := v]
    case _ => map[]
  }

  function CompletedOutputs(states: map<Id, NodeState>, keys: set<Id>): Scope {
    map id | id in keys && id in states && states[id].status.Completed? && states[id].output.Value? ::
      states[id].output.json
  }

  /** A node with an output to show. */
  predicate HasOutput(states: map<Id, NodeState>, k: Id) {
    k in states && states[k].status.Completed? && states[k].output.Value?
  }

  /** What a scope holds of a context apart from the keys in `hidden`: the fields of an object, any other
      value under the key "context", and nothing without a context. */
  ghost predicate ShowsContext(ctx: Context, scope: Scope, hidden: set<Id>) {
    if !ctx.Context? then
      forall x | x !in hidden :: x !in scope
    else if ctx.json.Obj? then
      forall x | x !in hidden ::
        (x in scope <==> x in ctx.json.fields) && (x in scope ==> scope[x] == ctx.json.fields[x])
    else
      forall x | x !in hidden :: (x in scope <==> x == "context") && (x in scope ==> scope[x] == ctx.json)
  }

  /** The context with the outputs of the completed nodes, which win. */
  ghost predicate ScopeOf(ctx: Context, states: map<Id, NodeState>, scope: Scope) {
    && (forall k | HasOutput(states, k) :: k in scope && scope[k] == states[k].output.json)
    && ShowsContext(ctx, scope, set k | k in states && HasOutput(states, k))
  }

  /** A context decides its scope. */
  lemma OneScope(ctx: Context, a: Scope, b: Scope)
    requires ShowsContext(ctx, a, {}) && ShowsContext(ctx, b, {})
    ensures a == b
  {
    assert forall x :: x in a <==> x in b;
  }

  /** The run context joined with the outputs of completed nodes, outputs winning. */
  function InitialScope(ctx: Context, states: map<Id, NodeState>): (r: Option<Scope>)
    ensures r.None? <==> ctx.BadContext?
    ensures r.Some? ==> ScopeOf(ctx, states, r.value)
  {
    if ctx.BadContext? then None else Some(ContextScope(ctx) + CompletedOutputs(states, states.Keys))
  }

  ghost predicate EligibleIn(bodyOf: map<Id, seq<Id>>, templates: set<Id>, s: State, id: Id) {
    id in s.states && !IsLoopBody(bodyOf, id) && id !in templates
  }

  ghost predicate AtFixedPoint(bodyOf: map<Id, seq<Id>>, templates: set<Id>, s: State) {
    forall id | EligibleIn(bodyOf, templates, s, id) :: !Ready(s, id)
  }

  ghost function UntakenIn(bodyOf: map<Id, seq<Id>>, templates: set<Id>, s: State): set<Id> {
    set id | id in s.states && s.states[id].status.Pending? && EligibleIn(bodyOf, templates, s, id)
  }

  ghost predicate SkippedInSomeOrder(s: State, pending: set<Id>, deadlock: Option<Id>, s': State) {
    exists order :: S.Visits(order, pending) && (forall id | id in order :: id in s.states) &&
      S.SkipAll(s, order) == if deadlock.Some? then S.Deadlock(s', deadlock.value) else S.AllSkipped(s')
  }

  /** The invariant says nothing about the scope. */
  lemma ScopeKeeps(g: Graph, s: State, sc: Scope)
    requires Inv(g, s)
    ensures Inv(g, s.(scope := sc))
  {
    var s' := s.(scope := sc);
    ScopeShape(g, s, s');
    ScopeAllowed(g, s, s');
    ScopeForks(g, s, s');
    SameFeedback(g, s, s');
    assert Numbered(s') && AttemptsLeft(s') && Phases(g, s');
    hide Shape, Numbered, AttemptsLeft, FeedbackFits, Phases, Allowed, Joins, Causal, Forks;
  }

  lemma ScopeShape(g: Graph, s: State, s': State)
    requires Shape(g, s) && Causal(g, s) && s' == s.(scope := s'.scope)
    ensures Shape(g, s') && Causal(g, s')
  {
    assert forall k :: Ins(s', k) == Ins(s, k) && Outs(s', k) == Outs(s, k);
  }

  lemma ScopeAllowed(g: Graph, s: State, s': State)
    requires Allowed(g, s) && Joins(g, s) && s' == s.(scope := s'.scope)
    ensures Allowed(g, s') && Joins(g, s')
  {
    forall k | k in s.states && InEdgesAllow(s, k)
      ensures InEdgesAllow(s', k)
    {
      assert forall e | e in Ins(s', k) :: SourceTerminal(s, e) && Outs(s', e.from) == Outs(s, e.from);
    }
    forall k | k in s.states && JoinSettled(s, k)
      ensures JoinSettled(s', k)
    {
      assert Ins(s', k) == Ins(s, k);
      assert forall e :: FailedSource(s', e) == FailedSource(s, e);
    }
  }

  lemma ScopeForks(g: Graph, s: State, s': State)
    requires Forks(g, s) && s' == s.(scope := s'.scope)
    ensures Forks(g, s')
  {
    forall f | IsFork(g, f) && Tame(g, f) && f in s.states
      ensures ForkExpanded(g, s', f)
    {
      assert ForkExpanded(g, s, f);
      assert forall i: nat :: CloneLinked(g, s, f, i) == CloneLinked(g, s', f, i);
    }
  }

  /** At the fixed point a pending tame node has never run. */
  lemma NoWaitingNode(g: Graph, s: State, pending: set<Id>)
    requires Inv(g, s) && forall id | id in pending :: id in s.states && s.states[id].status.Pending? && !Ready(s, id)
    ensures forall id | id in pending && Tame(g, id) :: s.states[id].attempts == 0
  {
  }

  lemma SkipKeeps(g: Graph, s: State, id: Id)
    requires Inv(g, s) && id in s.states && s.states[id].status.Pending?
    requires Tame(g, id) ==> s.states[id].attempts == 0
    ensures Inv(g, Mark(s, id, Skipped, NoOutput, ""))
  {
    var s' := Mark(s, id, Skipped, NoOutput, "");
    StepPhase(s, s', id, Some(Skipped), s.states[id].node, id);
    SameFeedback(g, s, s');
    Step(g, s, s', id, Some(Skipped));
  }

  // ----- Schedules -----

  ghost predicate LoopFree(g: Graph) {
    forall k | k in g.nodes :: !g.nodes[k].kind.Loop?
  }

  /** `order` is a schedule from `s` to `t`: each node in it was eligible and ready in its turn. */
  ghost predicate Follows(w: World, bodyOf: map<Id, seq<Id>>, templates: set<Id>, s: State, order: seq<Id>, t: State)
    decreases |order|
  {
    if order == [] then s == t
    else
      var id := order[0];
      && Ready(s, id) && !IsLoopBody(bodyOf, id) && id !in templates && !s.states[id].node.kind.Loop?
      && Follows(w, bodyOf, templates, Execute(w, s, id), order[1..], t)
  }

  lemma {:induction false} FollowsSnoc(w: World, bodyOf: map<Id, seq<Id>>, templates: set<Id>, s: State, order: seq<Id>,
                                       t: State, id: Id)
    requires Follows(w, bodyOf, templates, s, order, t)
    requires Ready(t, id) && !IsLoopBody(bodyOf, id) && id !in templates && !t.states[id].node.kind.Loop?
    ensures Follows(w, bodyOf, templates, s, order + [id], Execute(w, t, id))
    decreases |order|
  {
    hide Execute, IsLoopBody, InEdgesAllow;
    if order == [] {
      assert (order + [id])[1..] == [];
    } else {
      FollowsSnoc(w, bodyOf, templates, Execute(w, s, order[0]), order[1..], t, id);
      assert (order + [id])[1..] == order[1..] + [id];
    }
  }

  lemma NoLoopNode(g: Graph, s: State, id: Id)
    requires Inv(g, s) && LoopFree(g) && id in s.states
    ensures !s.states[id].node.kind.Loop?
  {
    if id !in g.nodes {
      var f :| IsFork(g, f) && CloneOf(g, id, f) && LikeTemplate(g, s.states[id].node, f);
    }
  }

  // ----- The run ends -----

  /** The pair (a, b) went down in the lexicographic order. */
  predicate Shrunk(a: nat, b: nat, a': nat, b': nat) {
    a' < a || (a' == a && b' < b)
  }

  lemma MeasureFacts(g: Graph, bodyOf: map<Id, seq<Id>>, rank: map<Id, nat>, s: State)
    requires Disciplined(g, bodyOf, rank) && Inv(g, s)
    ensures g.nodes.Keys <= s.states.Keys
    ensures forall k | k in g.nodes && !IsLoopBody(bodyOf, k) :: k !in g.bodies
  {
  }

  /** An execution uses up an attempt of a main node, or of a clone with the main nodes untouched. */
  lemma MeasureDrops(g: Graph, bodyOf: map<Id, seq<Id>>, rank: map<Id, nat>, s: State, s': State, id: Id)
    requires Disciplined(g, bodyOf, rank) && Inv(g, s) && Inv(g, s')
    requires Changed(g, s, s', id, rank) && !IsLoopBody(bodyOf, id)
    ensures Shrunk(MainLeft(g, s), CloneLeft(g, s), MainLeft(g, s'), CloneLeft(g, s'))
  {
    MeasureFacts(g, bodyOf, rank, s);
    MeasureFacts(g, bodyOf, rank, s');
    hide Inv, Disciplined, IsLoopBody;
    if id in g.nodes {
      MainDrops(g, s, s', id, rank);
    } else {
      CloneDrops(g, s, s', id, rank);
    }
  }

  lemma MainDrops(g: Graph, s: State, s': State, id: Id, rank: map<Id, nat>)
    requires Changed(g, s, s', id, rank) && id in g.nodes && id !in g.bodies
    requires g.nodes.Keys <= s.states.Keys && g.nodes.Keys <= s'.states.Keys
    ensures MainLeft(g, s') < MainLeft(g, s)
  {
    hide Left;
    LeftSumDrops(s.states, s'.states, g.nodes.Keys - g.bodies, id);
  }

  lemma CloneDrops(g: Graph, s: State, s': State, id: Id, rank: map<Id, nat>)
    requires Changed(g, s, s', id, rank) && id !in g.nodes
    requires g.nodes.Keys <= s.states.Keys && g.nodes.Keys <= s'.states.Keys
    ensures MainLeft(g, s') == MainLeft(g, s) && CloneLeft(g, s') < CloneLeft(g, s)
  {
    hide Left;
    LeftSumSame(s.states, s'.states, g.nodes.Keys - g.bodies);
    assert s'.states.Keys == s.states.Keys;
    LeftSumDrops(s.states, s'.states, s.states.Keys - g.nodes.Keys, id);
  }

  ghost function MainLeft(g: Graph, s: State): nat {
    if g.nodes.Keys <= s.states.Keys then LeftSum(s.states, g.nodes.Keys - g.bodies) else 0
  }

  ghost function CloneLeft(g: Graph, s: State): nat {
    LeftSum(s.states, s.states.Keys - g.nodes.Keys)
  }

  lemma NoSkipsSelf(s: State)
    ensures NoNewSkips(s, s)
  {
  }

  lemma NoSkipsTrans(s: State, s': State, s'': State)
    requires NoNewSkips(s, s') && NoNewSkips(s', s'')
    ensures NoNewSkips(s, s'')
  {
  }

  lemma FollowsNone(w: World, bodyOf: map<Id, seq<Id>>, templates: set<Id>, s: State)
    ensures Follows(w, bodyOf, templates, s, [], s)
  {
  }
}
