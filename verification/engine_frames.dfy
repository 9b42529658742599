/** What an execution may change: a node and what belongs to it, or, for a loop, what is below it in the ranks. */
module EngineFrames {
  import opened WorkflowDef
  import opened EngineState
  import opened EngineInvariants
  import opened EngineSteps
  import opened EngineMeasure
  import V = Validation

  // ----- The graph of a definition -----

  ghost function NodeMap(nodes: seq<Node>): map<Id, Node> {
    if nodes == [] then map[]
    else NodeMap(nodes[..|nodes| - 1])[nodes[|nodes| - 1].id := nodes[|nodes| - 1]]
  }

  ghost function Bodies(bodyOf: map<Id, seq<Id>>): set<Id> {
    set l, b | l in bodyOf && b in bodyOf[l] :: b
  }

  predicate IsLoopBody(bodyOf: map<Id, seq<Id>>, id: Id) {
    exists l :: l in bodyOf && id in bodyOf[l]
  }

  /** What the engine relies on and nothing checks: forks are apart, every loop's body entry is a
      node, and the edges together with the loop-to-entry links go down in `rank`. */
  ghost predicate Disciplined(g: Graph, bodyOf: map<Id, seq<Id>>, rank: map<Id, nat>) {
    && GraphOk(g) && ForksApart(g)
    && g.bodies == Bodies(bodyOf)
    && (forall k | k in g.nodes :: k in rank && V.NodeFieldsOk(g.nodes[k]))
    && (forall l | l in bodyOf :: l in g.nodes)
    && (forall l, b | l in bodyOf && b in bodyOf[l] :: b in g.nodes && rank[b] < rank[l])
  }

  /** No node becomes Skipped while nodes are being executed. */
  ghost predicate NoNewSkips(s: State, s': State) {
    forall k | k in s'.states && s'.states[k].status.Skipped? :: k in s.states && s.states[k].status.Skipped?
  }

  /** What the body of a loop `l` may touch: static nodes of lower rank inside bodies, and clones. */
  ghost predicate Below(g: Graph, s: State, s': State, l: Id, rank: map<Id, nat>) {
    && s.states.Keys <= s'.states.Keys && NoNewSkips(s, s')
    && (forall k | k in g.nodes && k in s.states && (k !in g.bodies || RankOf(rank, k) >= RankOf(rank, l)) ::
          s'.states[k] == s.states[k])
    && (l !in g.nodes ==> s'.states == s.states)
  }

  lemma BelowTrans(g: Graph, s: State, s': State, s'': State, l: Id, rank: map<Id, nat>)
    requires Below(g, s, s', l, rank) && Below(g, s', s'', l, rank)
    ensures Below(g, s, s'', l, rank)
  {
  }

  /** What one execution of `id` does to the nodes: its own count drops, and the rest changes only
      below `id`. */
  ghost predicate Changed(g: Graph, s: State, s': State, id: Id, rank: map<Id, nat>) {
    && s.states.Keys <= s'.states.Keys && NoNewSkips(s, s')
    && id in s.states && Left(s'.states[id]) < Left(s.states[id])
    && (forall k | k in g.nodes && k in s.states && k != id
        && (k !in g.bodies || RankOf(rank, k) >= RankOf(rank, id)) ::
          s'.states[k] == s.states[k])
    && (id !in g.nodes ==> s'.states == s.states[id := s'.states[id]])
  }

  lemma ChangedBelow(g: Graph, s: State, s': State, id: Id, l: Id, rank: map<Id, nat>)
    requires Changed(g, s, s', id, rank) && id in g.bodies && id in g.nodes && l in g.nodes
    requires RankOf(rank, id) < RankOf(rank, l)
    ensures Below(g, s, s', l, rank)
  {
  }

  /** A loop runs its body between being marked running and its last mark. */
  lemma LoopChanged(g: Graph, s: State, s1: State, s2: State, s3: State, id: Id, rank: map<Id, nat>)
    requires Ready(s, id) && s.states[id].attempts < MaxAttempts(s.states[id].node)
    requires s1.states == s.states[id := s.states[id].(status := Running)]
    requires Below(g, s1, s2, id, rank) && id in s2.states && s2.states[id] == s1.states[id]
    requires id in s3.states && s3.states == s2.states[id := s3.states[id]] && !s3.states[id].status.Skipped?
    requires Left(s3.states[id]) < Left(s.states[id])
    ensures Changed(g, s, s3, id, rank)
  {
  }

  lemma ExecuteChanged(g: Graph, s: State, s': State, id: Id, rank: map<Id, nat>)
    requires GraphOk(g) && ForksApart(g) && NodeShape(g, s) && OnlyAt(g, s, s', id)
    requires !s'.states[id].status.Skipped? && Left(s'.states[id]) < Left(s.states[id])
    ensures Changed(g, s, s', id, rank)
  {
    forall k | k in g.nodes && IsFork(g, id)
      ensures !CloneOf(g, k, id)
    {
      assert forall i: nat :: CloneId(Tpl(g, id), i) !in g.nodes;
    }
  }

  lemma ResetBelow(g: Graph, s: State, body: seq<Id>, n: nat, l: Id, rank: map<Id, nat>)
    requires n <= |body| && l in g.nodes
    requires forall b | b in body :: b in s.states && b in g.nodes && b in g.bodies && RankOf(rank, b) < RankOf(rank, l)
    ensures Below(g, s, ResetBody(s, body, n), l, rank)
  {
    if n > 0 {
      ResetBelow(g, s, body, n - 1, l, rank);
      assert body[n - 1] in body;
    }
  }

  /** A body node in execution leaves the weighted load of the body smaller. */
  lemma BodyLoadDrops(g: Graph, s: State, s': State, body: seq<Id>, id: Id, rank: map<Id, nat>)
    requires NodeShape(g, s) && NodeShape(g, s') && Changed(g, s, s', id, rank) && id in body
    requires forall b | b in body :: b in g.nodes && b in rank
    requires forall k | k in g.nodes :: V.NodeFieldsOk(g.nodes[k])
    ensures Load(s'.states, body, rank, |body|, 10) < Load(s.states, body, rank, |body|, 10)
  {
    forall k | k in body && k != id
      ensures (s'.states[k] == s.states[k] || rank[k] < rank[id]) && Left(s'.states[k]) <= 10
    {
      assert V.NodeFieldsOk(g.nodes[k]);
    }
    LoadDrops(s.states, s'.states, body, rank, 10, id);
  }

  /** The part of the invariant that the engine's own bookkeeping needs. */
  lemma NodeFacts(g: Graph, s: State, id: Id)
    requires Inv(g, s)
    ensures NodeShape(g, s)
    ensures Ready(s, id) ==> s.states[id].attempts < MaxAttempts(s.states[id].node)
    ensures IsFork(g, id) && id in s.states ==> s.states[id].node == g.nodes[id]
    ensures id in s.states && s.states[id].node.kind.ParallelFork? ==> id in g.nodes
  {
  }

  /** A running loop stays in execution while its body runs. */
  lemma LoopStaysLive(g: Graph, s: State, id: Id)
    requires Inv(g, s) && id in s.states && s.states[id].status.Running? && s.states[id].node.kind.Loop?
    requires s.states[id].attempts == 0
    ensures Live(g, s, id)
  {
  }

  /** A loop whose condition holds completes. */
  lemma LoopFinishes(g: Graph, s: State, id: Id, out: Output)
    requires Inv(g, s) && id in s.states && s.states[id].status.Running? && s.states[id].node.kind.Loop?
    requires s.states[id].attempts == 0
    ensures var s' := Finish(s, id, out);
            && Inv(g, s') && NodeStep(s, s', id, Some(Completed))
  {
    hide Inv, Live;
    LoopStaysLive(g, s, id);
    LiveFacts(g, s, id);
    FinishIsStep(s, s, id, out);
    SameFeedback(g, s, Finish(s, id, out));
    FinishKeeps(g, s, id, Finish(s, id, out));
  }

  lemma BelowSelf(g: Graph, s: State, l: Id, rank: map<Id, nat>)
    ensures Below(g, s, s, l, rank)
  {
  }

  /** The loop itself is not below itself. */
  lemma BelowKeepsLoop(g: Graph, s: State, s': State, l: Id, rank: map<Id, nat>)
    requires Below(g, s, s', l, rank) && l in s.states
    ensures l in s'.states && s'.states[l] == s.states[l]
  {
  }

  lemma BodyFacts(g: Graph, bodyOf: map<Id, seq<Id>>, rank: map<Id, nat>, l: Id, s: State)
    requires Disciplined(g, bodyOf, rank) && Inv(g, s)
    ensures ForksApart(g)
    ensures l in bodyOf ==> forall b | b in bodyOf[l] ::
              b in g.nodes && b in g.bodies && b in s.states && b in rank && RankOf(rank, b) < RankOf(rank, l)
    ensures l in bodyOf ==> l in g.nodes && l in rank
  {
    if l in bodyOf {
      forall b | b in bodyOf[l]
        ensures b in g.bodies
      {
      }
    }
  }

  lemma BodyStep(g: Graph, bodyOf: map<Id, seq<Id>>, rank: map<Id, nat>, l: Id, body: seq<Id>, id: Id, s: State,
                 s': State)
    requires Disciplined(g, bodyOf, rank) && Inv(g, s) && Inv(g, s')
    requires l in bodyOf && body == bodyOf[l] && id in body && Changed(g, s, s', id, rank)
    ensures forall b | b in body :: b in s.states && b in s'.states && b in rank
    ensures Below(g, s, s', l, rank)
    ensures Load(s'.states, body, rank, |body|, 10) < Load(s.states, body, rank, |body|, 10)
  {
    hide Inv, Changed, Below;
    BodyFacts(g, bodyOf, rank, l, s);
    BodyFacts(g, bodyOf, rank, l, s');
    NodeFacts(g, s, id);
    NodeFacts(g, s', id);
    ChangedBelow(g, s, s', id, l, rank);
    BodyLoadDrops(g, s, s', body, id, rank);
  }

  /** Marking, running and settling a node is its execution. */
  lemma ExecuteIs(w: World, s: State, id: Id)
    requires id in s.states && !s.states[id].node.kind.Loop?
    ensures var o := RunNode(w, Mark(s, id, Running, NoOutput, ""), id);
            Execute(w, s, id) == if o.err.None? then o.s else FailOrRetry(w, o.s, id, o.err.value)
  {
  }

  function Truthy(v: Json): bool {
    match v
    case Null => false
    case Bool(b) => b
    case Str(t) => t != ""
    case Num(n) => n != 0
    case Arr(elems) => |elems| > 0
    case Obj(fields) => |fields| > 0
  }
}
