/** The diamond: two schedulable nodes can be executed in either order. From it, by moving a node to
    the front of a schedule, confluence: complete schedules end in the same core. */
module ConfluenceProof {
  import opened WorkflowDef
  import opened EngineState
  import opened EngineInvariants
  import opened Confluence
  import R = Reachability

  // ----- What a ready node mentions has settled -----

  ghost predicate CoreSettled(c: Core, k: Id) {
    k in c.nodes && forall e | e in c.edges && e.to == k :: e.from in c.nodes && Terminal(c.nodes[e.from].status)
  }

  lemma {:induction false} PathSettled(g: Graph, c: Core, p: seq<Id>)
    requires CInv(g, c) && R.IsPath(g.edges, p) && CoreSettled(c, p[|p| - 1])
    ensures CoreSettled(c, p[0])
    decreases |p|
  {
    if |p| > 1 {
      PathSettled(g, c, p[1..]);
      var e :| e in g.edges && e.from == p[0] && e.to == p[1];
      assert e in c.edges && Terminal(c.nodes[p[0]].status) && Ran(c.nodes[p[0]]);
    }
  }

  /** What settles before a settled host is terminal: a static node, or a clone and its fork. */
  lemma BeforeSettled(g: Graph, c: Core, r: Id, host: Id)
    requires CInv(g, c) && CoreSettled(c, host) && Before(g, r, host)
    ensures r in c.nodes ==> Terminal(c.nodes[r].status)
    ensures r in g.nodes || exists f, i: nat :: CloneAt(g, f, i, r) && f in c.nodes && Terminal(c.nodes[f].status)
  {
    if e :| e in g.edges && e.from == r && R.Reaches(g.edges, e.to, host) {
      var p :| R.IsPath(g.edges, p) && p[0] == e.to && p[|p| - 1] == host;
      PathSettled(g, c, p);
      assert e in c.edges;
    } else {
      var f, i: nat :| IsFork(g, f) && r == CloneId(Tpl(g, f), i) &&
        JoinOf(g, f).Some? && R.Reaches(g.edges, JoinOf(g, f).value, host);
      var j := JoinOf(g, f).value;
      var p :| R.IsPath(g.edges, p) && p[0] == j && p[|p| - 1] == host;
      PathSettled(g, c, p);
      JoinEdge(g, f);
      var e :| e in g.edges && e.from == f && e.to == j;
      assert e in c.edges && CloneAt(g, f, i, r);
      assert r in c.nodes ==> Edge(r, j, Always, "") in c.edges;
    }
  }

  /** A pending fork has no clones yet. */
  lemma NoClonesYet(g: Graph, c: Core, a: Id, k: Id)
    requires CInv(g, c) && a in c.nodes && c.nodes[a].status.Pending? && IsFork(g, a) && CloneOf(g, k, a)
    ensures k !in c.nodes && k !in g.nodes
  {
    var i: nat :| k == CloneId(Tpl(g, a), i);
    assert CloneId(Tpl(g, a), i) !in g.nodes;
    if k in c.nodes {
      var f, j: nat :| CloneAt(g, f, j, k) && f in c.nodes && Terminal(c.nodes[f].status);
      CloneIdInjective(Tpl(g, a), i, Tpl(g, f), j);
    }
  }

  /** The host on which what `b` mentions must settle: `b` itself, or the fork it is a clone of. */
  lemma HostOf(g: Graph, uses: Expr -> set<string>, c: Core, b: Id, r: Id) returns (h: Id)
    requires CInv(g, c) && ReadsAncestors(g, uses) && Schedulable(g, c, b)
    requires HasExpr(c.nodes[b].node) && r in uses(ExprOf(c.nodes[b].node)) && Written(g, r)
    ensures CoreSettled(c, h) && (r == h || Before(g, r, h))
    ensures h in g.nodes && (h == b || Terminal(c.nodes[h].status))
  {
    if b in g.nodes {
      h := b;
      assert forall e | e in c.edges && e.to == b :: e in InSet(c, b);
    } else {
      var f, i: nat :| CloneAt(g, f, i, b) && f in c.nodes && Terminal(c.nodes[f].status)
        && Tpl(g, f) in g.nodes && c.nodes[b].node == g.nodes[Tpl(g, f)].(id := b);
      h := f;
    }
  }

  /** Nothing a schedulable node mentions is written by another schedulable node. */
  lemma Unread(g: Graph, uses: Expr -> set<string>, c: Core, a: Id, b: Id, r: Id)
    requires CInv(g, c) && ReadsAncestors(g, uses) && Schedulable(g, c, a) && Schedulable(g, c, b) && a != b
    requires HasExpr(c.nodes[b].node) && r in uses(ExprOf(c.nodes[b].node))
    ensures !Own(g, a, r)
  {
    if Written(g, r) {
      var h := HostOf(g, uses, c, b, r);
      if r == h {
        OwnStatic(g, c, a, h);
      } else {
        BeforeSettled(g, c, r, h);
        OwnSettled(g, c, a, r);
      }
    } else {
      assert a in g.nodes || exists f :: IsFork(g, f) && CloneOf(g, a, f);
    }
  }

  lemma OwnStatic(g: Graph, c: Core, a: Id, h: Id)
    requires CInv(g, c) && a in c.nodes && c.nodes[a].status.Pending? && h in g.nodes && a != h
    ensures !Own(g, a, h)
  {
    if IsFork(g, a) && CloneOf(g, h, a) {
      NoClonesYet(g, c, a, h);
    }
  }

  lemma OwnSettled(g: Graph, c: Core, a: Id, r: Id)
    requires CInv(g, c) && a in c.nodes && c.nodes[a].status.Pending?
    requires r in c.nodes ==> Terminal(c.nodes[r].status)
    requires r in g.nodes || exists f, i: nat :: CloneAt(g, f, i, r) && f in c.nodes && Terminal(c.nodes[f].status)
    ensures !Own(g, a, r)
  {
    if IsFork(g, a) && CloneOf(g, r, a) {
      NoClonesYet(g, c, a, r);
      var f, i: nat :| CloneAt(g, f, i, r) && f in c.nodes && Terminal(c.nodes[f].status);
      var j: nat :| r == CloneId(Tpl(g, a), j);
      CloneIdInjective(Tpl(g, a), j, Tpl(g, f), i);
    }
  }

  // ----- A step leaves other schedulable nodes as they were -----

  lemma StepLeaves(w: World, g: Graph, uses: Expr -> set<string>, c: Core, a: Id, b: Id, d: Delta)
    requires CInv(g, c) && ReadsAncestors(g, uses) && Reading(w, uses)
    requires Schedulable(g, c, a) && Schedulable(g, c, b) && a != b && Confined(g, a, d)
    ensures var c' := Apply(c, d);
            && Schedulable(g, c', b) && c'.nodes[b] == c.nodes[b]
            && EffectAt(w, g, c', b) == EffectAt(w, g, c, b)
  {
    var c' := Apply(c, d);
    OldNodeSame(g, c, a, b, d);
    InSame(g, c, a, b, d);
    forall e | e in InSet(c, b)
      ensures e.from in c'.nodes && c'.nodes[e.from] == c.nodes[e.from] && OutSet(c', e.from) == OutSet(c, e.from)
    {
      assert Allows(c, b, e) && e.from != a;
      OldNodeSame(g, c, a, e.from, d);
    }
    assert Schedulable(g, c', b);
    assert AnyFailed(c', b) == AnyFailed(c, b);
    EvaluateSame(w, g, uses, c, a, b, d);
  }

  lemma OldNodeSame(g: Graph, c: Core, a: Id, k: Id, d: Delta)
    requires CInv(g, c) && a in c.nodes && c.nodes[a].status.Pending? && Confined(g, a, d) && k in c.nodes && k != a
    ensures k in Apply(c, d).nodes && Apply(c, d).nodes[k] == c.nodes[k]
    ensures OutSet(Apply(c, d), k) == OutSet(c, k)
  {
    if IsFork(g, a) && CloneOf(g, k, a) {
      NoClonesYet(g, c, a, k);
    }
  }

  lemma InSame(g: Graph, c: Core, a: Id, b: Id, d: Delta)
    requires CInv(g, c) && Schedulable(g, c, a) && Schedulable(g, c, b) && a != b && Confined(g, a, d)
    ensures InSet(Apply(c, d), b) == InSet(c, b)
  {
    forall e | e in d.edges
      ensures e.to != b
    {
      if CloneOf(g, e.to, a) {
        NoClonesYet(g, c, a, e.to);
      } else {
        JoinEdge(g, a);
        var j :| j in g.edges && j.from == a && j.to == e.to;
        assert j in c.edges;
        assert b == e.to ==> j in InSet(c, b) && Allows(c, b, j);
      }
    }
  }

  lemma EvaluateSame(w: World, g: Graph, uses: Expr -> set<string>, c: Core, a: Id, b: Id, d: Delta)
    requires CInv(g, c) && ReadsAncestors(g, uses) && Reading(w, uses)
    requires Schedulable(g, c, a) && Schedulable(g, c, b) && a != b && Confined(g, a, d)
    ensures Evaluate(w, c.nodes[b].node, Apply(c, d).scope) == Evaluate(w, c.nodes[b].node, c.scope)
  {
    var n := c.nodes[b].node;
    if HasExpr(n) {
      forall r | r in uses(ExprOf(n))
        ensures r !in d.scope
      {
        Unread(g, uses, c, a, b, r);
      }
      assert AgreeOn(Apply(c, d).scope, c.scope, uses(ExprOf(n)));
    }
  }

  lemma OwnDisjoint(g: Graph, c: Core, a: Id, b: Id, k: Id)
    requires CInv(g, c) && a in c.nodes && b in c.nodes && a != b
    requires c.nodes[a].status.Pending? && c.nodes[b].status.Pending?
    ensures !(Own(g, a, k) && Own(g, b, k))
  {
    if IsFork(g, a) && CloneOf(g, k, a) {
      NoClonesYet(g, c, a, k);
      if IsFork(g, b) && CloneOf(g, k, b) {
        var i: nat :| k == CloneId(Tpl(g, a), i);
        var j: nat :| k == CloneId(Tpl(g, b), j);
        CloneIdInjective(Tpl(g, a), i, Tpl(g, b), j);
      }
    } else if IsFork(g, b) && CloneOf(g, k, b) {
      NoClonesYet(g, c, b, k);
    }
  }

  /** The diamond. */
  lemma Diamond(w: World, g: Graph, uses: Expr -> set<string>, c: Core, a: Id, b: Id)
    requires CInv(g, c) && ReadsAncestors(g, uses) && Reading(w, uses)
    requires Schedulable(g, c, a) && Schedulable(g, c, b) && a != b
    ensures Schedulable(g, CStep(w, g, c, a), b) && Schedulable(g, CStep(w, g, c, b), a)
    ensures CStep(w, g, CStep(w, g, c, a), b) == CStep(w, g, CStep(w, g, c, b), a)
  {
    assert a in c.nodes && b in c.nodes;
    hide Effect, ReadsAncestors, Reading, CInv, Schedulable, EffectAt, Confined;
    var da, db := EffectAt(w, g, c, a), EffectAt(w, g, c, b);
    EffectConfined(w, g, c, a);
    EffectConfined(w, g, c, b);
    StepLeaves(w, g, uses, c, a, b, da);
    StepLeaves(w, g, uses, c, b, a, db);
    DeltasCommute(g, c, a, b, da, db);
  }

  lemma DeltasCommute(g: Graph, c: Core, a: Id, b: Id, da: Delta, db: Delta)
    requires CInv(g, c) && Schedulable(g, c, a) && Schedulable(g, c, b) && a != b
    requires Confined(g, a, da) && Confined(g, b, db)
    ensures Apply(Apply(c, da), db) == Apply(Apply(c, db), da)
  {
    hide CInv, Schedulable;
    forall k
      ensures !(k in da.nodes && k in db.nodes) && !(k in da.scope && k in db.scope)
    {
      PendingPair(g, c, a, b, k);
    }
    DisjointCommute(c, da, db);
  }

  lemma DisjointCommute(c: Core, da: Delta, db: Delta)
    requires forall k :: !(k in da.nodes && k in db.nodes) && !(k in da.scope && k in db.scope)
    ensures Apply(Apply(c, da), db) == Apply(Apply(c, db), da)
  {
    var x, y := Apply(Apply(c, da), db), Apply(Apply(c, db), da);
    assert x.nodes == y.nodes;
    assert x.edges == y.edges;
    assert x.scope == y.scope;
  }

  lemma PendingPair(g: Graph, c: Core, a: Id, b: Id, k: Id)
    requires CInv(g, c) && Schedulable(g, c, a) && Schedulable(g, c, b) && a != b
    ensures !(Own(g, a, k) && Own(g, b, k))
  {
    OwnDisjoint(g, c, a, b, k);
  }

  // ----- A step keeps the core invariant -----

  /** What an effect may add: the node's next state, and clones only with their edges and only on
      completion. */
  ghost predicate GoodDelta(g: Graph, c: Core, a: Id, d: Delta)
    requires a in c.nodes
  {
    && a in d.nodes && d.nodes[a].node == c.nodes[a].node
    && (Terminal(d.nodes[a].status) || d.nodes[a].status.Pending?)
    && (forall k | k in d.nodes && k != a ::
          && Terminal(d.nodes[a].status) && IsFork(g, a) && Tpl(g, a) in g.nodes
          && (exists i: nat :: CloneAt(g, a, i, k)) && d.nodes[k] == Fresh(g.nodes[Tpl(g, a)].(id := k)))
    && (forall e | e in d.edges :: GoodEdge(g, a, d, e))
    && (forall i: nat | IsFork(g, a) && CloneId(Tpl(g, a), i) in d.nodes && JoinOf(g, a).Some?
        && CloneId(Tpl(g, a), i) != a ::
          Edge(CloneId(Tpl(g, a), i), JoinOf(g, a).value, Always, "") in d.edges)
  }

  ghost predicate GoodEdge(g: Graph, a: Id, d: Delta, e: Edge) {
    exists i: nat :: IsFork(g, a) && CloneId(Tpl(g, a), i) in d.nodes &&
      (e == Edge(a, CloneId(Tpl(g, a), i), Always, "")
       || (JoinOf(g, a).Some? && e == Edge(CloneId(Tpl(g, a), i), JoinOf(g, a).value, Always, "")))
  }

  lemma EffectGood(w: World, g: Graph, c: Core, a: Id)
    requires CInv(g, c) && Schedulable(g, c, a)
    ensures GoodDelta(g, c, a, EffectAt(w, g, c, a))
  {
    var ns := c.nodes[a];
    var ev := Evaluate(w, ns.node, c.scope);
    if ns.node.kind.ParallelFork? && ns.node.kind.fanOut.Some? {
      ForkIsStatic(g, c, a);
      ForkGood(w, g, c, a, AnyFailed(c, a), OutSet(c, a), ev);
    } else {
      hide CInv, Schedulable;
      PlainOwn(w, g, ns, a, AnyFailed(c, a), OutSet(c, a), ev);
      PlainGood(w, g, ns, a, AnyFailed(c, a), OutSet(c, a), ev);
      NotFork(g, c, a);
      hide Effect;
    }
  }

  lemma NotFork(g: Graph, c: Core, a: Id)
    requires CInv(g, c) && a in c.nodes && !(c.nodes[a].node.kind.ParallelFork? && c.nodes[a].node.kind.fanOut.Some?)
    ensures !IsFork(g, a)
  {
  }

  lemma PlainGood(w: World, g: Graph, ns: NodeState, a: Id, failed: bool, outs: set<Edge>, ev: EvalReply)
    requires !(ns.node.kind.ParallelFork? && ns.node.kind.fanOut.Some?)
    ensures var d := Effect(w, g, a, ns, failed, outs, ev);
            a in d.nodes && d.nodes[a].node == ns.node && (Terminal(d.nodes[a].status) || d.nodes[a].status.Pending?)
  {
    hide Stringify, BacksOff;
  }

  lemma ForkGood(w: World, g: Graph, c: Core, a: Id, failed: bool, outs: set<Edge>, ev: EvalReply)
    requires CInv(g, c) && a in c.nodes && IsFork(g, a) && g.nodes[a] == c.nodes[a].node
    ensures GoodDelta(g, c, a, Effect(w, g, a, c.nodes[a], failed, outs, ev))
  {
    hide CInv, CloneId, CloneNodes, CloneScope, CloneEdges, JoinOf;
    var t := Tpl(g, a);
    if ev.Evaluated? && ev.value.Arr? && t in g.nodes {
      var n := |ev.value.elems|;
      var ns := c.nodes[a].(status := Completed, output := Single("count", Num(n)));
      var d := Effect(w, g, a, c.nodes[a], failed, outs, ev);
      assert d.nodes == CloneNodes(g.nodes[t], t, n) + map[a := ns];
      assert d.edges == CloneEdges(a, t, JoinOf(g, a), n);
      hide Effect, GoodDelta;
      ExpandedGood(g, c, a, t, n, ns, d);
    } else {
      FailGood(g, c, a);
    }
  }

  lemma FailGood(g: Graph, c: Core, a: Id)
    requires CInv(g, c) && a in c.nodes && IsFork(g, a)
    ensures GoodDelta(g, c, a, FailWith(a, c.nodes[a]))
  {
    assert forall i: nat :: CloneId(Tpl(g, a), i) !in g.nodes;
    hide CInv, CloneId, JoinOf;
  }

  lemma ExpandedGood(g: Graph, c: Core, a: Id, t: Id, n: nat, ns: NodeState, d: Delta)
    requires a in c.nodes && IsFork(g, a) && t == Tpl(g, a) && t in g.nodes
    requires ns.node == c.nodes[a].node && ns.status.Completed?
    requires d.nodes == CloneNodes(g.nodes[t], t, n) + map[a := ns] && d.edges == CloneEdges(a, t, JoinOf(g, a), n)
    ensures GoodDelta(g, c, a, d)
  {
    hide CloneId, CloneNodes, CloneEdges, JoinOf, GoodDelta, GoodEdge;
    CloneNodesAre(g.nodes[t], t, n);
    CloneEdgesAre(a, t, JoinOf(g, a), n);
    CloneIndexes(g, a, t, n, d);
    GoodClones(g, c, a, t, n, ns, d);
  }

  lemma GoodClones(g: Graph, c: Core, a: Id, t: Id, n: nat, ns: NodeState, d: Delta)
    requires a in c.nodes && IsFork(g, a) && t == Tpl(g, a) && t in g.nodes
    requires ns.node == c.nodes[a].node && ns.status.Completed?
    requires d.nodes == CloneNodes(g.nodes[t], t, n) + map[a := ns]
    requires forall e | e in d.edges :: GoodEdge(g, a, d, e)
    requires forall i: nat | CloneId(t, i) in d.nodes && JoinOf(g, a).Some? && CloneId(t, i) != a ::
               Edge(CloneId(t, i), JoinOf(g, a).value, Always, "") in d.edges
    ensures GoodDelta(g, c, a, d)
  {
    CloneNodesAre(g.nodes[t], t, n);
    hide CloneId, JoinOf, GoodEdge, CloneNodes;
    forall k | k in d.nodes && k != a
      ensures (exists i: nat :: CloneAt(g, a, i, k)) && d.nodes[k] == Fresh(g.nodes[t].(id := k))
    {
      var i: nat :| i < n && k == CloneId(t, i);
      assert CloneAt(g, a, i, k);
    }
  }

  lemma CloneIndexes(g: Graph, a: Id, t: Id, n: nat, d: Delta)
    requires IsFork(g, a) && t == Tpl(g, a)
    requires forall k :: k in d.nodes <==> k == a || exists i: nat :: i < n && k == CloneId(t, i)
    requires forall e :: e in d.edges <==>
               exists i: nat :: i < n && (e == Edge(a, CloneId(t, i), Always, "")
                                          || (JoinOf(g, a).Some? && e
                                              == Edge(CloneId(t, i), JoinOf(g, a).value, Always, "")))
    ensures forall e | e in d.edges :: GoodEdge(g, a, d, e)
    ensures forall i: nat | CloneId(t, i) in d.nodes && JoinOf(g, a).Some? && CloneId(t, i) != a ::
              Edge(CloneId(t, i), JoinOf(g, a).value, Always, "") in d.edges
  {
    hide CloneId, JoinOf;
    forall i: nat | CloneId(t, i) in d.nodes && JoinOf(g, a).Some? && CloneId(t, i) != a
      ensures Edge(CloneId(t, i), JoinOf(g, a).value, Always, "") in d.edges
    {
      var j: nat :| j < n && CloneId(t, i) == CloneId(t, j);
      assert Edge(CloneId(t, j), JoinOf(g, a).value, Always, "") in d.edges;
    }
  }

  lemma StepNodesOk(g: Graph, c: Core, a: Id, d: Delta)
    requires CInv(g, c) && Schedulable(g, c, a) && Confined(g, a, d) && GoodDelta(g, c, a, d)
    ensures NodesOk(g, Apply(c, d))
  {
    var c' := Apply(c, d);
    assert forall k | k in g.nodes && k != a :: !(IsFork(g, a) && CloneOf(g, k, a));
    forall k | k in c'.nodes && k !in g.nodes
      ensures exists f, i: nat :: CloneAt(g, f, i, k) && f in c'.nodes && Terminal(c'.nodes[f].status)
                && Tpl(g, f) in g.nodes && c'.nodes[k].node == g.nodes[Tpl(g, f)].(id := k)
    {
      if k in d.nodes && k != a {
        var i: nat :| CloneAt(g, a, i, k);
      } else {
        var f, i: nat :| CloneAt(g, f, i, k) && f in c.nodes && Terminal(c.nodes[f].status)
          && Tpl(g, f) in g.nodes && c.nodes[k].node == g.nodes[Tpl(g, f)].(id := k);
        OldNodeSame(g, c, a, f, d);
      }
    }
  }

  lemma StepEdgesOk(g: Graph, c: Core, a: Id, d: Delta)
    requires CInv(g, c) && Schedulable(g, c, a) && Confined(g, a, d) && GoodDelta(g, c, a, d)
    ensures EdgesOk(g, Apply(c, d))
  {
    hide CloneId, JoinOf;
    var c' := Apply(c, d);
    forall e | e in c'.edges
      ensures e in g.edges || CloneEdge(g, c', e)
    {
      if e in d.edges {
        assert GoodEdge(g, a, d, e);
      } else if e !in g.edges {
        assert CloneEdge(g, c, e);
      }
    }
    forall f, i: nat | IsFork(g, f) && CloneId(Tpl(g, f), i) in c'.nodes && JoinOf(g, f).Some?
      ensures Edge(CloneId(Tpl(g, f), i), JoinOf(g, f).value, Always, "") in c'.edges
    {
      var k := CloneId(Tpl(g, f), i);
      if k !in c.nodes {
        var j: nat :| CloneAt(g, a, j, k);
        CloneIdInjective(Tpl(g, f), i, Tpl(g, a), j);
        assert f == a;
      }
    }
  }

  lemma StepSourcesDone(g: Graph, c: Core, a: Id, d: Delta)
    requires CInv(g, c) && Schedulable(g, c, a) && Confined(g, a, d) && GoodDelta(g, c, a, d)
    ensures SourcesDone(Apply(c, d))
  {
    var c' := Apply(c, d);
    forall k, e | k in c'.nodes && Ran(c'.nodes[k]) && e in c'.edges && e.to == k
      ensures e.from in c'.nodes && Terminal(c'.nodes[e.from].status)
    {
      RanIsOld(g, c, a, d, k);
      RanEdgeIsOld(g, c, a, d, k, e);
      if k == a {
        assert e in InSet(c, a) && Allows(c, a, e);
      }
      OldNodeSame(g, c, a, e.from, d);
    }
  }

  lemma RanIsOld(g: Graph, c: Core, a: Id, d: Delta, k: Id)
    requires CInv(g, c) && Schedulable(g, c, a) && Confined(g, a, d) && GoodDelta(g, c, a, d)
    requires k in Apply(c, d).nodes && Ran(Apply(c, d).nodes[k])
    ensures k in c.nodes && (k == a || Ran(c.nodes[k]))
  {
  }

  lemma RanEdgeIsOld(g: Graph, c: Core, a: Id, d: Delta, k: Id, e: Edge)
    requires CInv(g, c) && Schedulable(g, c, a) && Confined(g, a, d) && GoodDelta(g, c, a, d)
    requires k in c.nodes && (k == a || Ran(c.nodes[k])) && e in Apply(c, d).edges && e.to == k
    ensures e in c.edges
  {
    if e in d.edges {
      NewEdgeTarget(g, c, a, d, e);
    }
  }

  /** A new edge leads to a new node, or to a join that waits for the fork. */
  lemma NewEdgeTarget(g: Graph, c: Core, a: Id, d: Delta, e: Edge)
    requires CInv(g, c) && Schedulable(g, c, a) && Confined(g, a, d) && e in d.edges
    ensures e.to !in c.nodes || (e.to != a && exists j :: j in c.edges && j.from == a && j.to == e.to)
  {
    if CloneOf(g, e.to, a) {
      NoClonesYet(g, c, a, e.to);
    } else {
      JoinEdge(g, a);
      var j :| j in g.edges && j.from == a && j.to == e.to;
      assert j in c.edges;
    }
  }

  lemma StepKeeps(w: World, g: Graph, c: Core, a: Id)
    requires CInv(g, c) && Schedulable(g, c, a)
    ensures a in c.nodes && CInv(g, CStep(w, g, c, a))
  {
    hide Effect;
    var d := EffectAt(w, g, c, a);
    EffectConfined(w, g, c, a);
    EffectGood(w, g, c, a);
    StepNodesOk(g, c, a, d);
    StepEdgesOk(g, c, a, d);
    StepSourcesDone(g, c, a, d);
    StepStatuses(g, c, a, d);
    hide EffectAt, Confined, GoodDelta, NodesOk, EdgesOk, SourcesDone;
  }

  lemma StepStatuses(g: Graph, c: Core, a: Id, d: Delta)
    requires CInv(g, c) && Schedulable(g, c, a) && GoodDelta(g, c, a, d)
    ensures GraphOk(g) && ForksApart(g)
    ensures forall k | k in Apply(c, d).nodes ::
              Terminal(Apply(c, d).nodes[k].status) || Apply(c, d).nodes[k].status.Pending?
  {
    hide GraphOk, ForksApart, NodesOk, EdgesOk, SourcesDone, CReady, IsTemplate, CloneAt, GoodEdge, JoinOf, CloneId;
  }

  // ----- Schedules -----

  /** `order` leads from `c` to `t`, each node in it schedulable in its turn. */
  ghost predicate Leads(w: World, g: Graph, c: Core, order: seq<Id>, t: Core)
    decreases |order|
  {
    if order == [] then c == t
    else Schedulable(g, c, order[0]) && Leads(w, g, CStep(w, g, c, order[0]), order[1..], t)
  }

  ghost predicate Final(g: Graph, c: Core) {
    forall k :: !Schedulable(g, c, k)
  }

  /** A node that can go first can be moved to the front of any schedule that runs to the end. */
  lemma {:induction false} MoveToFront(w: World, g: Graph, uses: Expr -> set<string>, c: Core, a: Id, order: seq<Id>,
                                       t: Core)
    returns (rest: seq<Id>)
    requires CInv(g, c) && ReadsAncestors(g, uses) && Reading(w, uses)
    requires Schedulable(g, c, a) && Leads(w, g, c, order, t) && Final(g, t)
    ensures Leads(w, g, CStep(w, g, c, a), rest, t) && multiset(order) == multiset{a} + multiset(rest)
    decreases |order|
  {
    hide CInv, ReadsAncestors, Reading, Schedulable, CStep;
    var b := order[0];
    assert order == [b] + order[1..];
    if b == a {
      rest := order[1..];
    } else {
      Diamond(w, g, uses, c, a, b);
      StepKeeps(w, g, c, b);
      StepKeeps(w, g, c, a);
      var later := MoveToFront(w, g, uses, CStep(w, g, c, b), a, order[1..], t);
      rest := [b] + later;
      assert rest[1..] == later;
    }
  }

  /** Two schedules that run until nothing is ready end in the same core, and execute every node
      the same number of times. */
  lemma {:induction false} Confluent(w: World, g: Graph, uses: Expr -> set<string>, c: Core,
                                     first: seq<Id>, t: Core, second: seq<Id>, u: Core)
    requires CInv(g, c) && ReadsAncestors(g, uses) && Reading(w, uses)
    requires Leads(w, g, c, first, t) && Final(g, t)
    requires Leads(w, g, c, second, u) && Final(g, u)
    ensures t == u && multiset(first) == multiset(second)
    decreases |first|
  {
    hide CInv, ReadsAncestors, Reading, Schedulable, CStep;
    if first != [] {
      var a := first[0];
      assert first == [a] + first[1..];
      var rest := MoveToFront(w, g, uses, c, a, second, u);
      StepKeeps(w, g, c, a);
      Confluent(w, g, uses, CStep(w, g, c, a), first[1..], t, rest, u);
    }
  }
}
