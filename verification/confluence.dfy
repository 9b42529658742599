/** Cores of a run, and the effect of one node on a core. */
module Confluence {
  // A core forgets what depends on the order of execution by design: the event log, error texts and
  // the order of edge lists. Two schedules that run until nothing is ready end in the same core.

  import opened WorkflowDef
  import opened EngineState
  import opened EngineInvariants
  import R = Reachability

  datatype Core = Core(nodes: map<Id, NodeState>, edges: set<Edge>, scope: Scope)

  /** What one execution adds or overwrites. */
  datatype Delta = Delta(nodes: map<Id, NodeState>, edges: set<Edge>, scope: Scope)

  function Apply(c: Core, d: Delta): Core {
    Core(c.nodes + d.nodes, c.edges + d.edges, c.scope + d.scope)
  }

  function InSet(c: Core, k: Id): set<Edge> {
    set e | e in c.edges && e.to == k
  }

  function OutSet(c: Core, k: Id): set<Edge> {
    set e | e in c.edges && e.from == k
  }

  // ----- Readiness -----

  predicate BranchActiveSet(src: NodeState, ed: Edge, outEdges: set<Edge>) {
    if ed.branchKey != "" then ed.branchKey == src.branch
    else ed.cond.Always? && forall o | o in outEdges :: o.branchKey == "" || o.branchKey != src.branch
  }

  predicate Allows(c: Core, k: Id, e: Edge)
    requires k in c.nodes
  {
    && e.from in c.nodes
    && var src := c.nodes[e.from];
       && Terminal(src.status)
       && (c.nodes[k].node.kind.Join?
           || if src.node.kind.Condition? then BranchActiveSet(src, e, OutSet(c, e.from))
              else SelectorHolds(src, e.cond))
  }

  predicate CReady(c: Core, k: Id) {
    && k in c.nodes && c.nodes[k].status.Pending?
    && forall e | e in InSet(c, k) :: Allows(c, k, e)
  }

  predicate IsTemplate(g: Graph, k: Id) {
    exists f :: f in g.nodes && IsFork(g, f) && Tpl(g, f) == k
  }

  predicate Schedulable(g: Graph, c: Core, k: Id) {
    CReady(c, k) && !IsTemplate(g, k)
  }

  // ----- One execution, as a function of what the node can see -----

  predicate HasExpr(n: Node) {
    n.kind.Condition? || n.kind.Transform? || (n.kind.ParallelFork? && n.kind.fanOut.Some?)
  }

  function ExprOf(n: Node): Expr
    requires HasExpr(n)
  {
    match n.kind
    case Condition(x) => x
    case Transform(x) => x
    case ParallelFork(f) => f.value.itemsExpr
  }

  function Evaluate(w: World, n: Node, scope: Scope): EvalReply {
    if HasExpr(n) then w.eval(ExprOf(n), scope) else EvalErr("")
  }

  function Write(k: Id, out: Output): Scope {
    if out.Value? then map[k := out.json] else map[]
  }

  function DoneWith(k: Id, ns: NodeState, out: Output): Delta {
    Delta(map[k := ns.(status := Completed, output := out)], {}, Write(k, out))
  }

  function FailWith(k: Id, ns: NodeState): Delta {
    Delta(map[k := ns.(status := Failed)], {}, map[])
  }

  function RetryWith(w: World, k: Id, ns: NodeState): Delta {
    if MaxAttempts(ns.node) == 1 then FailWith(k, ns)
    else
      var a := ns.attempts + 1;
      var again := a < MaxAttempts(ns.node) && !(BacksOff(ns.node, a) && w.cancelled(ns.node, a, 0));
      Delta(map[k := ns.(attempts := a, status := if again then Pending else Failed)], {}, map[])
  }

  function CloneNodes(tpl: Node, template: Id, n: nat): map<Id, NodeState> {
    if n == 0 then map[]
    else CloneNodes(tpl, template, n - 1)[CloneId(template, n - 1) := Fresh(tpl.(id := CloneId(template, n - 1)))]
  }

  function CloneScope(template: Id, items: seq<Json>): Scope {
    if items == [] then map[]
    else CloneScope(template, items[..|items| - 1])[CloneId(template, |items| - 1) := items[|items| - 1]]
  }

  function CloneEdges(f: Id, template: Id, join: Option<Id>, n: nat): set<Edge> {
    if n == 0 then {}
    else
      var c := CloneId(template, n - 1);
      CloneEdges(f, template, join, n - 1) + {Edge(f, c, Always, "")}
        + if join.Some? then {Edge(c, join.value, Always, "")} else {}
  }

  /** The effect of executing `k` in state `ns`, given whether a source failed, the edges out of
      `k`, and the value of its expression. */
  function Effect(w: World, g: Graph, k: Id, ns: NodeState, failed: bool, outs: set<Edge>, ev: EvalReply): Delta {
    match ns.node.kind
    case Trigger(src) => DoneWith(k, ns, Single("trigger", Str(if src.Some? then src.value else "")))
    case Agent(_) =>
      (match w.runAgent(ns.node, ns.attempts, map[], 0)
       case AgentOk(out) => DoneWith(k, ns, out)
       case AgentErr(_) => RetryWith(w, k, ns))
    case HumanApproval(_) =>
      (match w.approve(ns.node, 0)
       case Decided(ok, _) => DoneWith(k, ns.(approved := ok), Single("approved", Bool(ok)))
       case GateErr(_) => FailWith(k, ns))
    case Condition(_) =>
      (match ev
       case EvalErr(_) => FailWith(k, ns)
       case Evaluated(v) =>
         var branch := Stringify(w, v);
         var out := Single("branch", Str(branch));
         var matched := (exists e :: e in outs && e.branchKey != "" && e.branchKey == branch)
                        || (exists e :: e in outs && e.cond.Always? && e.branchKey == "");
         DoneWith(k, ns.(branch := branch), out).(
           nodes := map[k := ns.(branch := branch, output := out, status := if matched then Completed else Failed)]))
    case Transform(_) =>
      (match ev
       case EvalErr(_) => FailWith(k, ns)
       case Evaluated(v) => DoneWith(k, ns, Value(v)))
    case ParallelFork(Some(f)) =>
      if ev.EvalErr? || !ev.value.Arr? || f.template !in g.nodes then FailWith(k, ns)
      else
        var items := ev.value.elems;
        var own := DoneWith(k, ns, Single("count", Num(|items|)));
        Delta(CloneNodes(g.nodes[f.template], f.template, |items|) + own.nodes,
              CloneEdges(k, f.template, JoinOf(g, k), |items|),
              CloneScope(f.template, items) + own.scope)
    case Join => if failed then FailWith(k, ns) else DoneWith(k, ns, Single("join", Str("ok")))
    case _ => FailWith(k, ns)
  }

  predicate AnyFailed(c: Core, k: Id) {
    exists e :: e in InSet(c, k) && e.from in c.nodes && c.nodes[e.from].status.Failed?
  }

  function EffectAt(w: World, g: Graph, c: Core, k: Id): Delta
    requires k in c.nodes
  {
    var ns := c.nodes[k];
    Effect(w, g, k, ns, AnyFailed(c, k), OutSet(c, k), Evaluate(w, ns.node, c.scope))
  }

  function CStep(w: World, g: Graph, c: Core, k: Id): Core
    requires k in c.nodes
  {
    Apply(c, EffectAt(w, g, c, k))
  }

  // ----- What the theorem assumes -----

  /** The executor's answers depend only on the node and the attempt. */
  ghost predicate Steady(w: World) {
    && (forall n, a, i, c, i', c' :: w.runAgent(n, a, i, c) == w.runAgent(n, a, i', c'))
    && (forall n, c, c' :: w.approve(n, c) == w.approve(n, c'))
    && (forall n, a, c, c' :: w.cancelled(n, a, c) == w.cancelled(n, a, c'))
  }

  ghost predicate AgreeOn(a: Scope, b: Scope, keys: set<string>) {
    forall k | k in keys :: (k in a <==> k in b) && (k in a ==> a[k] == b[k])
  }

  /** An expression sees only the scope keys it mentions. */
  ghost predicate Reading(w: World, uses: Expr -> set<string>) {
    forall x, a, b | AgreeOn(a, b, uses(x)) :: w.eval(x, a) == w.eval(x, b)
  }

  /** `k` settles before `host` can run: an ancestor of it, or a clone that feeds a join that is
      the host or an ancestor of it. */
  ghost predicate Before(g: Graph, k: Id, host: Id) {
    || (exists e :: e in g.edges && e.from == k && R.Reaches(g.edges, e.to, host))
    || (exists f, i: nat :: IsFork(g, f) && k == CloneId(Tpl(g, f), i) &&
          JoinOf(g, f).Some? && R.Reaches(g.edges, JoinOf(g, f).value, host))
  }

  ghost predicate Written(g: Graph, k: Id) {
    k in g.nodes || exists f :: IsFork(g, f) && CloneOf(g, k, f)
  }

  /** Every expression mentions only context keys, its own node, and nodes that settle before it;
      an expression of a template may also mention the fork. */
  ghost predicate ReadsAncestors(g: Graph, uses: Expr -> set<string>) {
    && (forall n, r | n in g.nodes && !IsTemplate(g, n) && HasExpr(g.nodes[n]) && r in uses(ExprOf(g.nodes[n])) ::
          r == n || !Written(g, r) || Before(g, r, n))
    && (forall f, r | IsFork(g, f) && Tpl(g, f) in g.nodes && HasExpr(g.nodes[Tpl(g, f)])
                      && r in uses(ExprOf(g.nodes[Tpl(g, f)])) ::
          r == f || !Written(g, r) || Before(g, r, f))
  }

  // ----- The core invariant -----

  ghost predicate CloneAt(g: Graph, f: Id, i: nat, k: Id) {
    IsFork(g, f) && k == CloneId(Tpl(g, f), i)
  }

  ghost predicate NodesOk(g: Graph, c: Core) {
    && (forall k | k in g.nodes :: k in c.nodes && c.nodes[k].node == g.nodes[k])
    && (forall k | k in c.nodes && k !in g.nodes ::
          exists f, i: nat :: CloneAt(g, f, i, k) && f in c.nodes && Terminal(c.nodes[f].status)
            && Tpl(g, f) in g.nodes && c.nodes[k].node == g.nodes[Tpl(g, f)].(id := k))
  }

  ghost predicate CloneEdge(g: Graph, c: Core, e: Edge) {
    exists f, i: nat :: IsFork(g, f) &&
      var k := CloneId(Tpl(g, f), i);
      && k in c.nodes
      && (e == Edge(f, k, Always, "") || (JoinOf(g, f).Some? && e == Edge(k, JoinOf(g, f).value, Always, "")))
  }

  ghost predicate EdgesOk(g: Graph, c: Core) {
    && (forall e | e in g.edges :: e in c.edges)
    && (forall e | e in c.edges :: e in g.edges || CloneEdge(g, c, e))
    && (forall f, i: nat | IsFork(g, f) && CloneId(Tpl(g, f), i) in c.nodes && JoinOf(g, f).Some? ::
          Edge(CloneId(Tpl(g, f), i), JoinOf(g, f).value, Always, "") in c.edges)
  }

  predicate Ran(ns: NodeState) {
    !ns.status.Pending? || ns.attempts > 0
  }

  ghost predicate SourcesDone(c: Core) {
    forall k, e | k in c.nodes && Ran(c.nodes[k]) && e in c.edges && e.to == k ::
      e.from in c.nodes && Terminal(c.nodes[e.from].status)
  }

  ghost predicate CInv(g: Graph, c: Core) {
    && GraphOk(g) && ForksApart(g) && NodesOk(g, c) && EdgesOk(g, c) && SourcesDone(c)
    && (forall k | k in c.nodes :: Terminal(c.nodes[k].status) || c.nodes[k].status.Pending?)
  }

  // ----- Effects of different nodes do not meet -----

  lemma {:induction false} CloneNodesAre(tpl: Node, template: Id, n: nat)
    ensures forall k :: k in CloneNodes(tpl, template, n) <==> exists i: nat :: i < n && k == CloneId(template, i)
    ensures forall k | k in CloneNodes(tpl, template, n) :: CloneNodes(tpl, template, n)[k] == Fresh(tpl.(id := k))
  {
    hide CloneId;
    if n > 0 {
      CloneNodesAre(tpl, template, n - 1);
      forall k
        ensures k in CloneNodes(tpl, template, n) <==> exists i: nat :: i < n && k == CloneId(template, i)
      {
        if k == CloneId(template, n - 1) {
          assert n - 1 < n;
        }
      }
    }
  }

  lemma {:induction false} CloneScopeKeys(template: Id, items: seq<Json>)
    ensures forall k | k in CloneScope(template, items) :: exists i: nat :: k == CloneId(template, i)
  {
    if items != [] {
      CloneScopeKeys(template, items[..|items| - 1]);
    }
  }

  lemma {:induction false} CloneEdgesAre(f: Id, template: Id, join: Option<Id>, n: nat)
    ensures forall e :: e in CloneEdges(f, template, join, n) <==>
              exists i: nat :: i < n && (e == Edge(f, CloneId(template, i), Always, "")
                                         || (join.Some? && e == Edge(CloneId(template, i), join.value, Always, "")))
  {
    hide CloneId;
    if n > 0 {
      CloneEdgesAre(f, template, join, n - 1);
      forall e
        ensures e in CloneEdges(f, template, join, n) <==>
              exists i: nat :: i < n && (e == Edge(f, CloneId(template, i), Always, "")
                                         || (join.Some? && e == Edge(CloneId(template, i), join.value, Always, "")))
      {
        if e == Edge(f, CloneId(template, n - 1), Always, "")
           || (join.Some? && e == Edge(CloneId(template, n - 1), join.value, Always, "")) {
          assert n - 1 < n;
        }
      }
    }
  }

  /** `k` is the node itself or one of its clones. */
  ghost predicate Own(g: Graph, a: Id, k: Id) {
    k == a || (IsFork(g, a) && CloneOf(g, k, a))
  }

  ghost predicate OwnEdge(g: Graph, a: Id, e: Edge) {
    IsFork(g, a) && ((e.from == a && CloneOf(g, e.to, a)) || (CloneOf(g, e.from, a) && JoinOf(g, a) == Some(e.to)))
  }

  /** The effect of `a` touches only `a` and its clones. */
  ghost predicate Confined(g: Graph, a: Id, d: Delta) {
    && a in d.nodes
    && (forall k | k in d.nodes :: Own(g, a, k))
    && (forall k | k in d.scope :: Own(g, a, k))
    && (forall e | e in d.edges :: OwnEdge(g, a, e))
  }

  lemma EffectConfined(w: World, g: Graph, c: Core, a: Id)
    requires CInv(g, c) && a in c.nodes
    ensures Confined(g, a, EffectAt(w, g, c, a))
  {
    hide CInv;
    if c.nodes[a].node.kind.ParallelFork? && c.nodes[a].node.kind.fanOut.Some? {
      ForkIsStatic(g, c, a);
      ForkConfined(w, g, c.nodes[a], a, AnyFailed(c, a), OutSet(c, a), Evaluate(w, c.nodes[a].node, c.scope));
    } else {
      PlainConfined(w, g, c.nodes[a], a, AnyFailed(c, a), OutSet(c, a), Evaluate(w, c.nodes[a].node, c.scope));
    }
  }

  predicate OnlyOwn(a: Id, d: Delta) {
    d.nodes.Keys == {a} && d.scope.Keys <= {a} && d.edges == {}
  }

  lemma PlainConfined(w: World, g: Graph, ns: NodeState, a: Id, failed: bool, outs: set<Edge>, ev: EvalReply)
    requires !(ns.node.kind.ParallelFork? && ns.node.kind.fanOut.Some?)
    ensures Confined(g, a, Effect(w, g, a, ns, failed, outs, ev))
  {
    PlainOwn(w, g, ns, a, failed, outs, ev);
    hide Effect;
  }

  lemma PlainOwn(w: World, g: Graph, ns: NodeState, a: Id, failed: bool, outs: set<Edge>, ev: EvalReply)
    requires !(ns.node.kind.ParallelFork? && ns.node.kind.fanOut.Some?)
    ensures OnlyOwn(a, Effect(w, g, a, ns, failed, outs, ev))
  {
    assert OnlyOwn(a, FailWith(a, ns)) && OnlyOwn(a, RetryWith(w, a, ns));
    forall n, out
      ensures OnlyOwn(a, DoneWith(a, n, out))
    {
    }
    hide RetryWith, Stringify, DoneWith, FailWith;
  }

  lemma ForkConfined(w: World, g: Graph, ns: NodeState, a: Id, failed: bool, outs: set<Edge>, ev: EvalReply)
    requires IsFork(g, a) && ns.node == g.nodes[a]
    ensures Confined(g, a, Effect(w, g, a, ns, failed, outs, ev))
  {
    hide CloneId, CloneNodes, CloneScope, CloneEdges, JoinOf;
    var t := Tpl(g, a);
    if ev.Evaluated? && ev.value.Arr? && t in g.nodes {
      CloneNodesAre(g.nodes[t], t, |ev.value.elems|);
      CloneScopeKeys(t, ev.value.elems);
      CloneEdgesAre(a, t, JoinOf(g, a), |ev.value.elems|);
    }
  }

  lemma ForkIsStatic(g: Graph, c: Core, a: Id)
    requires CInv(g, c) && a in c.nodes && c.nodes[a].node.kind.ParallelFork? && c.nodes[a].node.kind.fanOut.Some?
    ensures IsFork(g, a) && g.nodes[a] == c.nodes[a].node
  {
  }
}
