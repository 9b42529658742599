/** Why a run ends: how many executions a node has left, and what an execution leaves alone. */
module EngineMeasure {
  import opened WorkflowDef
  import opened EngineState
  import opened EngineInvariants
  import opened EngineSteps

  /** The executions a node has left before it must become terminal. */
  function Left(ns: NodeState): nat {
    if ns.status.Pending? && ns.attempts < MaxAttempts(ns.node) then MaxAttempts(ns.node) - ns.attempts else 0
  }

  // ----- A sum over a set of nodes -----

  ghost function LeftSum(states: map<Id, NodeState>, keys: set<Id>): nat
    requires keys <= states.Keys
  {
    if keys == {} then 0 else var k :| k in keys; Left(states[k]) + LeftSum(states, keys - {k})
  }

  lemma {:induction false} LeftSumSplit(states: map<Id, NodeState>, keys: set<Id>, id: Id)
    requires keys <= states.Keys && id in keys
    ensures LeftSum(states, keys) == Left(states[id]) + LeftSum(states, keys - {id})
  {
    var k :| k in keys && LeftSum(states, keys) == Left(states[k]) + LeftSum(states, keys - {k});
    if k != id {
      LeftSumSplit(states, keys - {k}, id);
      LeftSumSplit(states, keys - {id}, k);
      assert keys - {k} - {id} == keys - {id} - {k};
    }
  }

  lemma {:induction false} LeftSumSame(a: map<Id, NodeState>, b: map<Id, NodeState>, keys: set<Id>)
    requires keys <= a.Keys && keys <= b.Keys && forall k | k in keys :: Left(a[k]) == Left(b[k])
    ensures LeftSum(a, keys) == LeftSum(b, keys)
    decreases |keys|
  {
    if keys != {} {
      var k :| k in keys;
      LeftSumSplit(a, keys, k);
      LeftSumSplit(b, keys, k);
      LeftSumSame(a, b, keys - {k});
    }
  }

  lemma LeftSumDrops(a: map<Id, NodeState>, b: map<Id, NodeState>, keys: set<Id>, id: Id)
    requires keys <= a.Keys && keys <= b.Keys && id in keys
    requires Left(b[id]) < Left(a[id]) && forall k | k in keys && k != id :: b[k] == a[k]
    ensures LeftSum(b, keys) < LeftSum(a, keys)
  {
    LeftSumSplit(a, keys, id);
    LeftSumSplit(b, keys, id);
    LeftSumSame(a, b, keys - {id});
  }

  // ----- A weighted sum over a loop body -----

  /** One execution at rank r outweighs everything below r, for bodies of up to `n` nodes with at
      most `m` executions each. */
  ghost function Weight(n: nat, m: nat, r: nat): (w: nat)
    ensures w >= 1
  {
    if r == 0 then 1 else (m * n + 1) * Weight(n, m, r - 1)
  }

  lemma {:induction false} WeightGrows(n: nat, m: nat, r: nat, q: nat)
    requires r <= q
    ensures Weight(n, m, r) <= Weight(n, m, q)
    decreases q
  {
    if r < q {
      WeightGrows(n, m, r, q - 1);
      var w := Weight(n, m, q - 1);
      assert (m * n + 1) * w >= w by {
        assert m * n >= 0 && (m * n + 1) * w == m * n * w + w;
      }
    }
  }

  ghost function Load(states: map<Id, NodeState>, body: seq<Id>, rank: map<Id, nat>, n: nat, m: nat): nat
    requires forall b | b in body :: b in states && b in rank
  {
    if body == [] then 0
    else
      var b := body[|body| - 1];
      Load(states, body[..|body| - 1], rank, n, m) + Left(states[b]) * Weight(n, m, rank[b])
  }

  /** An execution of `id`: its own count drops, nodes of lower rank may change, others do not. */
  ghost predicate Lowered(a: map<Id, NodeState>, b: map<Id, NodeState>, keys: seq<Id>, rank: map<Id, nat>, id: Id,
                          m: nat)
    requires id in rank && id in a && id in b
    requires forall k | k in keys :: k in a && k in b && k in rank
  {
    && Left(b[id]) < Left(a[id])
    && forall k | k in keys && k != id :: (b[k] == a[k] || rank[k] < rank[id]) && Left(b[k]) <= m
  }

  /** What a lower node can gain. */
  ghost function Gain(n: nat, m: nat, r: nat): nat {
    if r == 0 then 0 else m * Weight(n, m, r - 1)
  }

  /** The change of one node's share of the load. */
  lemma ShareStep(x: nat, y: nat, r: nat, q: nat, n: nat, m: nat, own: bool)
    requires if own then y < x && r == q else (y == x || r < q) && y <= m
    ensures y * Weight(n, m, r) + (if own then Weight(n, m, q) else 0) <= x * Weight(n, m, r) + Gain(n, m, q)
  {
    hide Weight;
    if own {
      MulDrop(y, x, Weight(n, m, r));
    } else if r < q {
      WeightGrows(n, m, r, q - 1);
      MulMono(y, m, Weight(n, m, r), Weight(n, m, q - 1));
      assert x * Weight(n, m, r) >= 0;
    }
  }

  lemma {:induction false} LoadStep(a: map<Id, NodeState>, b: map<Id, NodeState>, body: seq<Id>, rank: map<Id, nat>,
                                    n: nat, m: nat, id: Id)
    requires id in rank && id in a && id in b
    requires forall k | k in body :: k in a && k in b && k in rank
    requires Lowered(a, b, body, rank, id, m)
    ensures Load(b, body, rank, n, m) + (if id in body then Weight(n, m, rank[id]) else 0)
              <= Load(a, body, rank, n, m) + Times(|body|, Gain(n, m, rank[id]))
  {
    if body != [] {
      var rest, k := body[..|body| - 1], body[|body| - 1];
      assert forall x :: x in body <==> x in rest || x == k;
      LoadStep(a, b, rest, rank, n, m, id);
      ShareStep(Left(a[k]), Left(b[k]), rank[k], rank[id], n, m, k == id);
    }
  }

  /** n * c by repeated addition. */
  ghost function Times(n: nat, c: nat): nat {
    if n == 0 then 0 else Times(n - 1, c) + c
  }

  lemma {:induction false} TimesIs(n: nat, c: nat)
    ensures Times(n, c) == n * c
  {
    if n > 0 {
      TimesIs(n - 1, c);
      assert n * c == (n - 1) * c + c;
    }
  }

  lemma MulDrop(x: nat, y: nat, w: nat)
    requires x < y
    ensures x * w + w <= y * w
  {
    var d := y - x - 1;
    assert y == x + 1 + d;
    assert (x + 1 + d) * w == x * w + w + d * w;
    assert d * w >= 0;
  }

  lemma MulMono(x: nat, m: nat, w: nat, v: nat)
    requires x <= m && w <= v
    ensures x * w <= m * v
  {
    assert x * v == x * w + x * (v - w) && x * (v - w) >= 0;
    assert m * v == x * v + (m - x) * v && (m - x) * v >= 0;
  }

  /** Each execution inside a body lowers the weighted load of the body. */
  lemma LoadDrops(a: map<Id, NodeState>, b: map<Id, NodeState>, body: seq<Id>, rank: map<Id, nat>, m: nat, id: Id)
    requires forall k | k in body :: k in a && k in b && k in rank
    requires id in body && Lowered(a, b, body, rank, id, m)
    ensures Load(b, body, rank, |body|, m) < Load(a, body, rank, |body|, m)
  {
    LoadStep(a, b, body, rank, |body|, m, id);
    GainBelowWeight(|body|, m, rank[id]);
  }

  lemma GainBelowWeight(n: nat, m: nat, r: nat)
    ensures Times(n, Gain(n, m, r)) < Weight(n, m, r)
  {
    TimesIs(n, Gain(n, m, r));
    if r > 0 {
      Distribute(n, m, Weight(n, m, r - 1));
    }
  }

  lemma Distribute(n: nat, m: nat, low: nat)
    ensures (m * n + 1) * low == n * (m * low) + low
  {
    assert (m * n + 1) * low == (m * n) * low + low;
    assert (m * n) * low == n * (m * low);
  }

  // ----- What one execution leaves alone -----

  lemma FailOrRetryFrame(w: World, s: State, id: Id, msg: string)
    requires id in s.states && !s.states[id].status.Pending? && s.states[id].attempts < MaxAttempts(s.states[id].node)
    ensures var s' := FailOrRetry(w, s, id, msg);
            && id in s'.states && s'.states == s.states[id := s'.states[id]]
            && s'.states[id].node == s.states[id].node && !s'.states[id].status.Skipped?
            && Left(s'.states[id]) < MaxAttempts(s.states[id].node) - s.states[id].attempts
  {
    var s0 := Put(s, id, s.states[id].(err := msg));
    RetryFrame(w, s0, id, msg);
    hide ScheduleRetry;
  }

  lemma RetryFrame(w: World, s: State, id: Id, msg: string)
    requires id in s.states && !s.states[id].status.Pending? && s.states[id].attempts < MaxAttempts(s.states[id].node)
    ensures var r := ScheduleRetry(w, s, id, msg);
            && id in r.s.states && r.s.states == s.states[id := r.s.states[id]]
            && r.s.states[id].node == s.states[id].node
            && (r.again ==> r.s.states[id].status.Pending? && r.s.states[id].attempts == s.states[id].attempts + 1)
  {
    hide BacksOff, MaxAttempts;
  }

  /** `s'` has the nodes of `s`, changed only at `id` and at clones of `id`. */
  ghost predicate OnlyAt(g: Graph, s: State, s': State, id: Id) {
    && id in s.states && id in s'.states && s'.states[id].node == s.states[id].node
    && (forall k | k in s.states && k != id ::
          k in s'.states && (s'.states[k] == s.states[k]
                             || (IsFork(g, id) && CloneOf(g, k, id) && !s'.states[k].status.Skipped?)))
    && (forall k | k in s'.states && k !in s.states ::
          IsFork(g, id) && CloneOf(g, k, id) && !s'.states[k].status.Skipped?)
  }

  lemma OnlyAtStep(g: Graph, s: State, s': State, s'': State, id: Id)
    requires OnlyAt(g, s, s', id) && id in s'.states && id in s''.states
             && s''.states == s'.states[id := s''.states[id]]
    requires s''.states[id].node == s'.states[id].node
    ensures OnlyAt(g, s, s'', id)
  {
  }

  lemma RunFrame(g: Graph, w: World, s: State, id: Id)
    requires ForksApart(g) && id in s.states && s.states[id].status.Running? && !s.states[id].node.kind.Loop?
    requires IsFork(g, id) ==> s.states[id].node == g.nodes[id]
    requires s.states[id].node.kind.ParallelFork? ==> IsFork(g, id)
    ensures var o := RunNode(w, s, id);
            && OnlyAt(g, s, o.s, id) && o.s.states[id].attempts == s.states[id].attempts
            && !o.s.states[id].status.Pending? && !o.s.states[id].status.Skipped?
            && (o.err.None? ==> o.s.states[id].status.Completed?)
  {
    hide RunTrigger, RunAgent, RunGate, RunCondition, RunTransform, RunFork, RunJoin, OnlyAt;
    match s.states[id].node.kind
    case Trigger(_) => TriggerFrame(s, id); OwnIsOnlyAt(g, s, RunNode(w, s, id), id);
    case Agent(_) => AgentFrame(w, s, id); OwnIsOnlyAt(g, s, RunNode(w, s, id), id);
    case HumanApproval(_) => GateFrame(w, s, id); OwnIsOnlyAt(g, s, RunNode(w, s, id), id);
    case Condition(_) => ConditionFrame(w, s, id); OwnIsOnlyAt(g, s, RunNode(w, s, id), id);
    case Transform(_) => TransformFrame(w, s, id); OwnIsOnlyAt(g, s, RunNode(w, s, id), id);
    case Join => JoinFrame(s, id); OwnIsOnlyAt(g, s, RunNode(w, s, id), id);
    case ParallelFork(Some(_)) => ForkFrame(g, w, s, id);
    case Subworkflow => OwnIsOnlyAt(g, s, RunNode(w, s, id), id);
    case Unknown(_) => OwnIsOnlyAt(g, s, RunNode(w, s, id), id);
  }

  /** The outcome differs from `s` only in the fields of `id`. */
  ghost predicate OwnFields(s: State, o: Outcome, id: Id) {
    && id in s.states && id in o.s.states && o.s.states == s.states[id := o.s.states[id]]
    && var ns := o.s.states[id];
       && ns.node == s.states[id].node && ns.attempts == s.states[id].attempts
       && (if o.err.None? then ns.status.Completed? else ns.status.Running? || ns.status.WaitingApproval?)
  }

  lemma OwnIsOnlyAt(g: Graph, s: State, o: Outcome, id: Id)
    requires OwnFields(s, o, id)
    ensures OnlyAt(g, s, o.s, id)
  {
  }

  lemma TriggerFrame(s: State, id: Id)
    requires id in s.states && s.states[id].node.kind.Trigger?
    ensures OwnFields(s, RunTrigger(s, id), id)
  {
  }

  lemma AgentFrame(w: World, s: State, id: Id)
    requires id in s.states && s.states[id].status.Running?
    ensures OwnFields(s, RunAgent(w, s, id), id)
  {
    hide AgentInput;
  }

  lemma GateFrame(w: World, s: State, id: Id)
    requires id in s.states && s.states[id].status.Running?
    ensures OwnFields(s, RunGate(w, s, id), id)
  {
    GateIsStep(w, s, id);
    hide RunGate;
  }

  lemma ConditionFrame(w: World, s: State, id: Id)
    requires id in s.states && s.states[id].status.Running? && s.states[id].node.kind.Condition?
    ensures OwnFields(s, RunCondition(w, s, id), id)
  {
    hide Stringify, BranchTaken, HasFallback;
  }

  lemma TransformFrame(w: World, s: State, id: Id)
    requires id in s.states && s.states[id].status.Running? && s.states[id].node.kind.Transform?
    ensures OwnFields(s, RunTransform(w, s, id), id)
  {
  }

  lemma JoinFrame(s: State, id: Id)
    requires id in s.states && s.states[id].status.Running?
    ensures OwnFields(s, RunJoin(s, id), id)
  {
    hide FirstFailed;
  }

  lemma ForkFrame(g: Graph, w: World, s: State, id: Id)
    requires ForksApart(g) && id in s.states && s.states[id].status.Running? && IsFork(g, id)
             && s.states[id].node == g.nodes[id]
    ensures var o := RunFork(w, s, id);
            && OnlyAt(g, s, o.s, id) && o.s.states[id].attempts == s.states[id].attempts
            && (if o.err.Some? then o.s == s else o.s.states[id].status.Completed?)
  {
    hide AddClones, GrownEdges;
    var o := RunFork(w, s, id);
    if o.err.None? {
      var t := Tpl(g, id);
      var items := w.eval(s.states[id].node.kind.fanOut.value.itemsExpr, s.scope).value.elems;
      var join := FirstJoin(s.states, Outs(s, id));
      var grown := AddClones(s, id, s.states[t].node, t, join, items, |items|);
      GrowEffect(s, id, s.states[t].node, t, join, items, |items|);
      assert id in s.states && !IsNew(t, |items|, id);
      var out := Single("count", Num(|items|));
      FinishIsStep(grown, grown, id, out);
      assert o.s == Finish(grown, id, out);
      NewAreClones(g, id, |items|);
    }
  }

  lemma NewAreClones(g: Graph, f: Id, n: nat)
    requires IsFork(g, f)
    ensures forall k | IsNew(Tpl(g, f), n, k) :: CloneOf(g, k, f)
  {
  }

  /** An execution changes its own node, uses up an attempt, and adds only clones. */
  lemma ExecuteFrame(g: Graph, w: World, s: State, id: Id)
    requires ForksApart(g) && Ready(s, id) && !s.states[id].node.kind.Loop?
    requires s.states[id].attempts < MaxAttempts(s.states[id].node)
    requires IsFork(g, id) ==> s.states[id].node == g.nodes[id]
    requires s.states[id].node.kind.ParallelFork? ==> IsFork(g, id)
    ensures var s' := Execute(w, s, id);
            OnlyAt(g, s, s', id) && !s'.states[id].status.Skipped? && Left(s'.states[id]) < Left(s.states[id])
  {
    hide RunNode, OnlyAt, FailOrRetry;
    var s1 := Mark(s, id, Running, NoOutput, "");
    RunFrame(g, w, s1, id);
    var o := RunNode(w, s1, id);
    StartFrame(g, s, s1, o.s, id);
    if o.err.Some? {
      FailOrRetryFrame(w, o.s, id, o.err.value);
      OnlyAtStep(g, s, o.s, FailOrRetry(w, o.s, id, o.err.value), id);
    }
  }

  lemma StartFrame(g: Graph, s: State, s1: State, s2: State, id: Id)
    requires id in s.states && s1 == Mark(s, id, Running, NoOutput, "") && OnlyAt(g, s1, s2, id)
    ensures OnlyAt(g, s, s2, id) && id in s2.states
  {
  }
}
