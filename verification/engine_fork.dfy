/** Expanding a fork keeps the run invariant, and so does every execution of a node. The fork adds
    clones and edges to a graph that is being scheduled: old nodes keep their edges, except that the
    join also waits for the clones, which must happen before the fork is terminal. */
module EngineFork {
  import opened WorkflowDef
  import opened EngineState
  import opened EngineInvariants
  import opened EngineSteps

  /** The situation in which a fork expands: `s'` is `s` with `k` clones of `f` added. */
  ghost predicate Expands(g: Graph, s: State, s': State, f: Id, join: Option<Id>, k: nat) {
    && GraphOk(g) && ForksApart(g) && IsFork(g, f) && f in s.states
    && Live(g, s, f) && Tpl(g, f) in s.states
    && (Tame(g, f) ==> NoClones(g, s, f))
    && (join.Some? ==> exists e :: e in Outs(s, f) && e.to == join.value)
    && Grown(s, s', f, s.states[Tpl(g, f)].node, Tpl(g, f), join, k)
  }

  lemma NewNode(g: Graph, s: State, s': State, f: Id, join: Option<Id>, k: nat, id: Id)
    requires Expands(g, s, s', f, join, k) && IsNew(Tpl(g, f), k, id)
    ensures id !in g.nodes && CloneOf(g, id, f) && (Tame(g, id) <==> Tame(g, f))
    ensures Tame(g, id) ==> id !in s.states
  {
    var i: nat :| i < k && id == CloneId(Tpl(g, f), i);
    CloneTame(g, f, i);
  }

  /** A tame node that was there before is the same node afterwards. */
  lemma OldNode(g: Graph, s: State, s': State, f: Id, join: Option<Id>, k: nat, id: Id)
    requires Expands(g, s, s', f, join, k) && id in s.states && Tame(g, id)
    ensures !IsNew(Tpl(g, f), k, id) && s'.states[id] == s.states[id]
  {
    if IsNew(Tpl(g, f), k, id) {
      NewNode(g, s, s', f, join, k, id);
    }
  }

  /** The join waits for the fork, so it has not run. */
  lemma JoinWaits(g: Graph, s: State, s': State, f: Id, join: Option<Id>, k: nat)
    requires Expands(g, s, s', f, join, k) && Shape(g, s) && Allowed(g, s) && Phases(g, s)
    requires join.Some? && Tame(g, join.value)
    ensures join.value in s.states && !HasRun(s.states[join.value])
    ensures forall i | 0 <= i < |s.events| && s.events[i].node == join.value :: !s.events[i].status.Running?
  {
    hide GraphOk, ForksApart, Grown, NoClones, PhaseOf, RejectShape, NodeShape, Tame;
    var e :| e in Outs(s, f) && e.to == join.value;
    assert e in Ins(s, join.value) && e.from == f && !SourceTerminal(s, e);
    NotRunMeansNoStart(s.events, s.states[join.value].node, join.value);
  }

  lemma {:induction false} NotRunMeansNoStart(events: seq<Event>, n: Node, k: Id)
    requires PhaseOf(events, n, k) == Idle || PhaseOf(events, n, k) == Done(Skipped)
    ensures forall i | 0 <= i < |events| && events[i].node == k :: !events[i].status.Running?
  {
    if events != [] {
      NotRunMeansNoStart(events[..|events| - 1], n, k);
    }
  }

  lemma NewEdgeFacts(f: Id, t: Id, join: Option<Id>, k: nat, e: Edge)
    requires NewEdge(f, t, join, k, e)
    ensures e.cond.Always?
    ensures (e.from == f && IsNew(t, k, e.to)) || (join == Some(e.to) && IsNew(t, k, e.from))
  {
  }

  lemma NewEdgeTame(g: Graph, s: State, s': State, f: Id, join: Option<Id>, k: nat, e: Edge)
    requires Expands(g, s, s', f, join, k) && Shape(g, s) && NewEdge(f, Tpl(g, f), join, k, e)
    ensures e.from in s'.states && e.to in s'.states && (Tame(g, e.to) ==> Tame(g, e.from))
  {
    hide Live, CloneId, NewEdge, IsNew, NoClones, GrownEdges;
    NewEdgeFacts(f, Tpl(g, f), join, k, e);
    if IsNew(Tpl(g, f), k, e.to) {
      NewNode(g, s, s', f, join, k, e.to);
    }
    if IsNew(Tpl(g, f), k, e.from) {
      NewNode(g, s, s', f, join, k, e.from);
    }
    if join.Some? {
      var d :| d in Outs(s, f) && d.to == join.value;
      assert join.value in s.states && (Tame(g, join.value) ==> Tame(g, f));
    }
  }

  lemma GrowShape(g: Graph, s: State, s': State, f: Id, join: Option<Id>, k: nat)
    requires Expands(g, s, s', f, join, k) && Shape(g, s)
    ensures Shape(g, s')
  {
    assert GrownEdges(s, s', f, Tpl(g, f), join, k) && s.states.Keys <= s'.states.Keys;
    assert NodeShape(g, s) && EdgeShape(g, s) && RejectShape(g, s);
    hide Expands, NewEdge, Tame, GrownEdges, NodeShape, EdgeShape, RejectShape;
    forall e | NewEdge(f, Tpl(g, f), join, k, e)
      ensures e.from in s'.states && e.to in s'.states && (Tame(g, e.to) ==> Tame(g, e.from))
    {
      NewEdgeTame(g, s, s', f, join, k, e);
    }
    GrowEdgeShape(g, s, s', f, Tpl(g, f), join, k);
    GrowRejects(g, s, s', f, Tpl(g, f), join, k);
    GrowNodeShape(g, s, s', f, join, k);
  }

  lemma GrowEdgeShape(g: Graph, s: State, s': State, f: Id, t: Id, join: Option<Id>, k: nat)
    requires GrownEdges(s, s', f, t, join, k) && EdgeShape(g, s) && s.states.Keys <= s'.states.Keys
    requires forall e | NewEdge(f, t, join, k, e) ::
               e.from in s'.states && e.to in s'.states && (Tame(g, e.to) ==> Tame(g, e.from))
    ensures EdgeShape(g, s')
  {
    hide NewEdge, Tame, RejectsTo, IsNew;
    forall x, e | e in Ins(s', x)
      ensures e.to == x && x in s'.states && e.from in s'.states && (Tame(g, x) ==> Tame(g, e.from))
      ensures e in Outs(s', e.from)
    {
      assert e in Ins(s, x) || (e.to == x && NewEdge(f, t, join, k, e));
    }
    forall x, e | e in Outs(s', x)
      ensures e.from == x && x in s'.states && e.to in s'.states && (Tame(g, e.to) ==> Tame(g, x))
      ensures e in Ins(s', e.to)
    {
      assert e in Outs(s, x) || (e.from == x && NewEdge(f, t, join, k, e));
    }
  }

  lemma GrowNodeShape(g: Graph, s: State, s': State, f: Id, join: Option<Id>, k: nat)
    requires Expands(g, s, s', f, join, k) && Shape(g, s)
    ensures NodeShape(g, s')
  {
    TemplateIsStatic(g, s, f);
    hide Live, CloneId, NewEdge, IsNew, Tame, NoClones, RejectsTo, GrownEdges, CloneOf;
    forall id | IsNew(Tpl(g, f), k, id)
      ensures id !in g.nodes && CloneOf(g, id, f)
    {
      NewNode(g, s, s', f, join, k, id);
    }
  }

  lemma TemplateIsStatic(g: Graph, s: State, f: Id)
    requires NodeShape(g, s) && ForksApart(g) && IsFork(g, f) && Tpl(g, f) in s.states
    ensures Tpl(g, f) in g.nodes
  {
    forall h | IsFork(g, h)
      ensures !CloneOf(g, Tpl(g, f), h)
    {
      assert forall i: nat :: Tpl(g, f) != CloneId(Tpl(g, h), i);
    }
  }

  lemma GrowRejects(g: Graph, s: State, s': State, f: Id, t: Id, join: Option<Id>, k: nat)
    requires GrownEdges(s, s', f, t, join, k) && RejectShape(g, s)
    ensures RejectShape(g, s')
  {
    hide NewEdge;
    forall e | NewEdge(f, t, join, k, e)
      ensures e.cond.Always?
    {
      NewEdgeFacts(f, t, join, k, e);
    }
    forall x, y
      ensures RejectsTo(Outs(s', x), y) <==> RejectsTo(Outs(s, x), y)
    {
    }
  }

  lemma GrowPhases(g: Graph, s: State, s': State, f: Id, join: Option<Id>, k: nat)
    requires Expands(g, s, s', f, join, k) && Numbered(s) && Phases(g, s)
    ensures Phases(g, s')
  {
    forall id | id in s'.states && Tame(g, id)
      ensures PhaseFits(s'.states[id], PhaseOf(s'.events, s'.states[id].node, id))
    {
      if IsNew(Tpl(g, f), k, id) {
        NewNode(g, s, s', f, join, k, id);
        SilentMeansIdle(s'.events, s'.states[id].node, id);
      }
    }
  }

  lemma GrowAllowed(g: Graph, s: State, s': State, f: Id, join: Option<Id>, k: nat)
    requires Expands(g, s, s', f, join, k) && Shape(g, s) && Phases(g, s) && Allowed(g, s)
    ensures Allowed(g, s')
  {
    forall id | id in s'.states && Tame(g, id) && HasRun(s'.states[id])
      ensures InEdgesAllow(s', id)
    {
      if id !in s.states {
        NewIsFresh(g, s, s', f, join, k, id);
      }
      OldNode(g, s, s', f, join, k, id);
      forall e | e in Ins(s', id)
        ensures SourceTerminal(s', e) && (s'.states[id].node.kind.Join? || EdgeHolds(s', e))
      {
        OldEdge(g, s, s', f, join, k, id, e);
        OldSource(g, s, s', f, join, k, id, e);
      }
    }
  }

  lemma OldSource(g: Graph, s: State, s': State, f: Id, join: Option<Id>, k: nat, id: Id, e: Edge)
    requires Expands(g, s, s', f, join, k) && id in s.states && InEdgesAllow(s, id)
    requires e in Ins(s, id) && e.from in s.states && Tame(g, e.from)
    ensures SourceTerminal(s', e) && (s.states[id].node.kind.Join? || EdgeHolds(s', e))
  {
    OldNode(g, s, s', f, join, k, e.from);
    assert e.from != f;
    assert Outs(s', e.from) == Outs(s, e.from);
  }

  /** A tame node that has run gains no in-edge. */
  lemma OldEdge(g: Graph, s: State, s': State, f: Id, join: Option<Id>, k: nat, id: Id, e: Edge)
    requires Expands(g, s, s', f, join, k) && Shape(g, s) && Phases(g, s) && Allowed(g, s)
    requires id in s.states && Tame(g, id) && e in Ins(s', id)
    requires HasRun(s.states[id]) || exists i ::
               0 <= i < |s.events| && s.events[i].node == id && s.events[i].status.Running?
    ensures e in Ins(s, id) && e.from in s.states && Tame(g, e.from)
  {
    hide Live, CloneId, IsNew, InEdgesAllow, NewEdge, PhaseOf, NoClones, GrownNodes;
    OldNode(g, s, s', f, join, k, id);
    if e !in Ins(s, id) {
      NewEdgeFacts(f, Tpl(g, f), join, k, e);
      JoinWaits(g, s, s', f, join, k);
    }
  }

  lemma GrowJoins(g: Graph, s: State, s': State, f: Id, join: Option<Id>, k: nat)
    requires Expands(g, s, s', f, join, k) && Shape(g, s) && Phases(g, s) && Allowed(g, s) && Joins(g, s)
    ensures Joins(g, s')
  {
    hide Expands, JoinSettled, Shape, Phases, Allowed, Tame;
    forall id | id in s'.states && Tame(g, id) && s'.states[id].node.kind.Join?
      ensures JoinSettled(s', id)
    {
      GrowJoin(g, s, s', f, join, k, id);
    }
  }

  lemma GrowJoin(g: Graph, s: State, s': State, f: Id, join: Option<Id>, k: nat, id: Id)
    requires Expands(g, s, s', f, join, k) && Shape(g, s) && Phases(g, s) && Allowed(g, s) && Joins(g, s)
    requires id in s'.states && Tame(g, id) && s'.states[id].node.kind.Join?
    ensures JoinSettled(s', id)
  {
    hide Expands, Shape, Phases, Tame, InEdgesAllow;
    if id in s.states {
      OldNode(g, s, s', f, join, k, id);
      if HasRun(s.states[id]) {
        OldJoin(g, s, s', f, join, k, id);
      }
    } else {
      NewIsFresh(g, s, s', f, join, k, id);
    }
  }

  lemma NewIsFresh(g: Graph, s: State, s': State, f: Id, join: Option<Id>, k: nat, id: Id)
    requires Expands(g, s, s', f, join, k) && id in s'.states && id !in s.states
    ensures s'.states[id].status.Pending? && s'.states[id].attempts == 0
  {
    hide Live, NoClones, GrownEdges;
  }

  lemma InsGrow(s: State, s': State, f: Id, t: Id, join: Option<Id>, k: nat, id: Id)
    requires GrownEdges(s, s', f, t, join, k)
    ensures forall e | e in Ins(s, id) :: e in Ins(s', id)
  {
  }

  lemma OldJoin(g: Graph, s: State, s': State, f: Id, join: Option<Id>, k: nat, id: Id)
    requires Expands(g, s, s', f, join, k) && Shape(g, s) && Phases(g, s) && Allowed(g, s)
    requires id in s.states && Tame(g, id) && HasRun(s.states[id]) && JoinSettled(s, id)
    requires id in s'.states && s'.states[id] == s.states[id]
    ensures JoinSettled(s', id)
  {
    hide Live, CloneId, IsNew, InEdgesAllow, NewEdge, NoClones, Shape, Allowed, Phases;
    forall e
      ensures e in Ins(s', id) ==> e in Ins(s, id) && FailedSource(s', e) == FailedSource(s, e)
    {
      if e in Ins(s', id) {
        OldEdge(g, s, s', f, join, k, id, e);
        OldNode(g, s, s', f, join, k, e.from);
      }
    }
    InsGrow(s, s', f, Tpl(g, f), join, k, id);
    if s.states[id].status.Failed? {
      var e :| e in Ins(s, id) && FailedSource(s, e);
      assert e in Ins(s', id) && FailedSource(s', e);
    }
  }

  lemma GrowCausal(g: Graph, s: State, s': State, f: Id, join: Option<Id>, k: nat)
    requires Expands(g, s, s', f, join, k) && Shape(g, s) && Numbered(s) && Phases(g, s) && Allowed(g, s)
             && Causal(g, s)
    ensures Causal(g, s')
  {
    forall i, e | 0 <= i < |s'.events| && s'.events[i].status.Running? && Tame(g, s'.events[i].node)
                  && e in Ins(s', s'.events[i].node)
      ensures SettledBefore(s'.events, i, e.from)
    {
      OldEdge(g, s, s', f, join, k, s.events[i].node, e);
    }
  }

  lemma GrowBase(g: Graph, s: State, s': State, f: Id, join: Option<Id>, k: nat)
    requires Base(g, s) && Expands(g, s, s', f, join, k)
    ensures Base(g, s')
  {
    GrowShape(g, s, s', f, join, k);
    GrowPhases(g, s, s', f, join, k);
    GrowAllowed(g, s, s', f, join, k);
    GrowJoins(g, s, s', f, join, k);
    GrowCausal(g, s, s', f, join, k);
    SameFeedback(g, s, s');
    GrowNumbered(g, s, s', f, join, k);
    hide Expands, Shape, Numbered, FeedbackFits, Phases, Allowed, Joins, Causal, AttemptsLeft;
  }

  lemma GrowNumbered(g: Graph, s: State, s': State, f: Id, join: Option<Id>, k: nat)
    requires Expands(g, s, s', f, join, k) && Numbered(s) && AttemptsLeft(s)
    ensures Numbered(s') && AttemptsLeft(s')
  {
    hide GrownEdges;
  }

  // ----- The fork clause -----

  lemma {:induction false} FirstJoinFound(states: map<Id, NodeState>, outs: seq<Edge>)
    requires FirstJoin(states, outs).Some?
    ensures exists e :: e in outs && e.to == FirstJoin(states, outs).value
  {
    if !(outs[0].to in states && states[outs[0].to].node.kind.Join?) {
      FirstJoinFound(states, outs[1..]);
    }
  }

  lemma {:induction false} SameJoin(g: Graph, s: State, outs: seq<Edge>)
    requires Shape(g, s) && forall e | e in outs :: e.to in g.nodes
    ensures FirstJoin(s.states, outs) == FirstJoinIn(g.nodes, outs)
  {
    if outs != [] {
      SameJoin(g, s, outs[1..]);
    }
  }

  /** The clones of one fork are not the clones of another. */
  lemma OtherFork(g: Graph, f: Id, i: nat, h: Id, j: nat)
    requires ForksApart(g) && IsFork(g, f) && IsFork(g, h)
    requires CloneId(Tpl(g, f), i) == CloneId(Tpl(g, h), j)
    ensures f == h && i == j
  {
    CloneIdInjective(Tpl(g, f), i, Tpl(g, h), j);
  }

  lemma GrowOtherForks(g: Graph, s: State, s': State, f: Id, join: Option<Id>, k: nat, h: Id)
    requires Shape(g, s) && Expands(g, s, s', f, join, k)
    requires IsFork(g, h) && h != f && Tame(g, h) && h in s.states && ForkExpanded(g, s, h)
    ensures h in s'.states && ForkExpanded(g, s', h)
  {
    hide Live, Shape, Decimal, CloneId;
    OldNode(g, s, s', f, join, k, h);
    forall i: nat
      ensures CloneId(Tpl(g, h), i) in s'.states ==> CloneId(Tpl(g, h), i) in s.states
      ensures CloneLinked(g, s, h, i) ==> CloneLinked(g, s', h, i)
    {
      if j: nat :| j < k && CloneId(Tpl(g, h), i) == CloneId(Tpl(g, f), j) {
        OtherFork(g, h, i, f, j);
      }
    }
    if s.states[h].status.Completed? {
      var n: nat :| s.states[h].output == Single("count", Num(n)) &&
        forall i: nat :: if i < n then CloneLinked(g, s, h, i) else CloneId(Tpl(g, h), i) !in s.states;
      assert forall i: nat :: if i < n then CloneLinked(g, s', h, i) else CloneId(Tpl(g, h), i) !in s'.states;
    }
  }

  lemma GrowOwnClones(g: Graph, s: State, s': State, f: Id, join: Option<Id>, k: nat)
    requires Shape(g, s) && Expands(g, s, s', f, join, k) && Tame(g, f)
    requires join == JoinOf(g, f)
    ensures forall i: nat :: if i < k then CloneLinked(g, s', f, i) else CloneId(Tpl(g, f), i) !in s'.states
  {
    hide Live, Shape, Decimal, CloneId;
    var t := Tpl(g, f);
    forall i: nat
      ensures if i < k then CloneLinked(g, s', f, i) else CloneId(t, i) !in s'.states
    {
      var c := CloneId(t, i);
      if i < k {
        assert IsNew(t, k, c);
        assert NewEdge(f, t, join, k, Edge(f, c, Always, ""));
        if join.Some? {
          assert NewEdge(f, t, join, k, Edge(c, join.value, Always, ""));
        }
      } else if j: nat :| j < k && c == CloneId(t, j) {
        OtherFork(g, f, i, f, j);
      }
    }
  }

  lemma GrownForks(g: Graph, s: State, s1: State, s2: State, f: Id, join: Option<Id>, n: nat)
    requires Inv(g, s) && Expands(g, s, s1, f, join, n)
    requires NodeStep(s1, s2, f, Some(Completed)) && s2.states[f].output == Single("count", Num(n))
    requires Tame(g, f) ==> join == JoinOf(g, f)
    ensures Forks(g, s2)
  {
    ForkFacts(g, s);
    hide Inv, Expands, ForkExpanded, CloneLinked, CloneId, Shape, Tame;
    forall h | IsFork(g, h) && Tame(g, h) && h in s2.states
      ensures ForkExpanded(g, s2, h)
    {
      if h == f {
        GrowOwnClones(g, s, s1, f, join, n);
        LinksStay(g, s1, s2, f, Some(Completed), f);
        OwnExpanded(g, s2, f, n);
      } else {
        GrowOtherForks(g, s, s1, f, join, n, h);
        LinksStay(g, s1, s2, f, Some(Completed), h);
        ExpandedStays(g, s1, s2, f, h);
      }
    }
  }

  lemma ForkFacts(g: Graph, s: State)
    requires Inv(g, s)
    ensures Shape(g, s)
    ensures forall h | IsFork(g, h) :: h in s.states
    ensures forall h | IsFork(g, h) && Tame(g, h) :: ForkExpanded(g, s, h)
  {
  }

  lemma OwnExpanded(g: Graph, s: State, f: Id, n: nat)
    requires IsFork(g, f) && f in s.states && s.states[f].status.Completed?
    requires s.states[f].output == Single("count", Num(n))
    requires forall i: nat :: if i < n then CloneLinked(g, s, f, i) else CloneId(Tpl(g, f), i) !in s.states
    ensures ForkExpanded(g, s, f)
  {
  }

  lemma LinksStay(g: Graph, s: State, s': State, id: Id, st: Option<Status>, h: Id)
    requires NodeStep(s, s', id, st) && IsFork(g, h)
    ensures forall i: nat :: CloneLinked(g, s, h, i) ==> CloneLinked(g, s', h, i)
    ensures forall i: nat :: CloneId(Tpl(g, h), i) in s'.states <==> CloneId(Tpl(g, h), i) in s.states
  {
  }

  lemma ExpandedStays(g: Graph, s: State, s': State, id: Id, h: Id)
    requires NodeStep(s, s', id, Some(Completed)) && IsFork(g, h) && h != id && h in s.states && ForkExpanded(g, s, h)
    requires forall i: nat :: CloneLinked(g, s, h, i) ==> CloneLinked(g, s', h, i)
    requires forall i: nat :: CloneId(Tpl(g, h), i) in s'.states <==> CloneId(Tpl(g, h), i) in s.states
    ensures ForkExpanded(g, s', h)
  {
    hide CloneId, CloneLinked;
    if s.states[h].status.Completed? {
      var n: nat :| s.states[h].output == Single("count", Num(n)) &&
        forall i: nat :: if i < n then CloneLinked(g, s, h, i) else CloneId(Tpl(g, h), i) !in s.states;
      assert forall i: nat :: if i < n then CloneLinked(g, s', h, i) else CloneId(Tpl(g, h), i) !in s'.states;
    }
  }

  lemma ForkKeeps(g: Graph, w: World, s: State, id: Id)
    requires GraphOk(g) && ForksApart(g)
    requires Inv(g, s) && id in s.states && Live(g, s, id) && s.states[id].status.Running?
    requires s.states[id].node.kind.ParallelFork? && s.states[id].node.kind.fanOut.Some?
    ensures var o := RunFork(w, s, id);
            Inv(g, o.s) && (o.err.Some? ==> o.s == s)
  {
    hide Live, Inv, Expands, AddClones, GraphOk, ForksApart, Finish, Tame, FirstJoin, JoinOf;
    var o := RunFork(w, s, id);
    if o.err.None? {
      var f := s.states[id].node.kind.fanOut.value;
      var items := w.eval(f.itemsExpr, s.scope).value.elems;
      var join := FirstJoin(s.states, Outs(s, id));
      var grown := AddClones(s, id, s.states[f.template].node, f.template, join, items, |items|);
      ForkExpands(g, s, id, join, items);
      AddClonesKeepsStates(s, id, s.states[f.template].node, f.template, join, items, |items|);
      hide RunFork;
      ForkCompletes(g, s, grown, id, join, |items|);
    }
  }

  lemma ForkCompletes(g: Graph, s: State, grown: State, id: Id, join: Option<Id>, n: nat)
    requires Inv(g, s) && Expands(g, s, grown, id, join, n) && id in s.states && s.states[id].status.Running?
    requires id in grown.states && (Tame(g, id) ==> join == JoinOf(g, id))
    ensures Inv(g, Finish(grown, id, Single("count", Num(n))))
  {
    hide Inv, Expands, Tame, JoinOf, Base, Forks;
    var out := Single("count", Num(n));
    var s2 := Finish(grown, id, out);
    FinishIsStep(grown, grown, id, out);
    assert s2.states[id].output == out;
    hide Finish, NodeStep;
    BaseFacts(g, s);
    GrowBase(g, s, grown, id, join, n);
    ForkFinishes(g, s, grown, s2, id, join, n);
    GrownForks(g, s, grown, s2, id, join, n);
    InvFrom(g, s2);
  }

  lemma BaseFacts(g: Graph, s: State)
    requires Inv(g, s)
    ensures Base(g, s)
  {
  }

  lemma InvFrom(g: Graph, s: State)
    requires Base(g, s) && Forks(g, s)
    ensures Inv(g, s)
  {
  }

  lemma ForkExpands(g: Graph, s: State, id: Id, join: Option<Id>, items: seq<Json>)
    requires GraphOk(g) && ForksApart(g)
    requires Inv(g, s) && id in s.states && Live(g, s, id) && s.states[id].status.Running?
    requires s.states[id].node.kind.ParallelFork? && s.states[id].node.kind.fanOut.Some?
    requires s.states[id].node.kind.fanOut.value.template in s.states
    requires join == FirstJoin(s.states, Outs(s, id))
    ensures var t := s.states[id].node.kind.fanOut.value.template;
            IsFork(g, id) && Tpl(g, id) == t &&
            Expands(g, s, AddClones(s, id, s.states[t].node, t, join, items, |items|), id, join, |items|)
    ensures Tame(g, id) ==> join == JoinOf(g, id)
  {
    hide Live, AddClones, Grown;
    var t := s.states[id].node.kind.fanOut.value.template;
    GrowEffect(s, id, s.states[t].node, t, join, items, |items|);
    if join.Some? {
      FirstJoinFound(s.states, Outs(s, id));
    }
    if Tame(g, id) {
      assert ForkExpanded(g, s, id);
      StaticOutsAre(g.edges, id);
      SameJoin(g, s, StaticOuts(g.edges, id));
    }
  }

  lemma ForkFinishes(g: Graph, s: State, s1: State, s2: State, f: Id, join: Option<Id>, n: nat)
    requires Inv(g, s) && Base(g, s1) && Expands(g, s, s1, f, join, n) && f in s.states && s.states[f].status.Running?
    requires NodeStep(s1, s2, f, Some(Completed)) && s2.calls == s1.calls && s2.feedback == s1.feedback
    ensures Base(g, s2)
  {
    hide Expands, Inv, Base, FeedbackFits;
    ForkUnchanged(g, s, s1, f, join, n);
    CompleteFork(g, s1, s2, f);
  }

  lemma CompleteFork(g: Graph, s: State, s': State, f: Id)
    requires Base(g, s) && f in s.states && s.states[f].status.Running? && s.states[f].node.kind.ParallelFork?
    requires NodeStep(s, s', f, Some(Completed)) && s'.calls == s.calls && s'.feedback == s.feedback
    ensures Base(g, s')
  {
    BaseStepFacts(g, s, f);
    StepPhase(s, s', f, Some(Completed), s.states[f].node, f);
    SameFeedback(g, s, s');
    hide Base, InEdgesAllow, FeedbackFits;
    StepBase(g, s, s', f, Some(Completed));
  }

  lemma ForkUnchanged(g: Graph, s: State, s1: State, f: Id, join: Option<Id>, n: nat)
    requires Inv(g, s) && Expands(g, s, s1, f, join, n)
    ensures f in s.states && f in s1.states && s1.states[f] == s.states[f] && s.states[f].node.kind.ParallelFork?
  {
    hide Live;
    if IsNew(Tpl(g, f), n, f) {
      NewNode(g, s, s1, f, join, n, f);
    }
  }

  lemma BaseStepFacts(g: Graph, s: State, f: Id)
    requires Base(g, s) && f in s.states && s.states[f].status.Running?
    ensures FeedbackFits(g, s)
    ensures Tame(g, f) ==> InEdgesAllow(s, f) && PhaseFits(s.states[f], PhaseOf(s.events, s.states[f].node, f))
  {
  }

  // ----- One execution -----

  lemma RunKeeps(g: Graph, w: World, s: State, id: Id)
    requires GraphOk(g) && ForksApart(g)
    requires Inv(g, s) && Live(g, s, id) && s.states[id].status.Running? && !s.states[id].node.kind.Loop?
    ensures var o := RunNode(w, s, id);
            && Inv(g, o.s)
            && (o.err.Some? ==> Live(g, o.s, id))
            && (o.err.Some? && o.s.states[id].node.kind.Join? ==> exists e :: e in Ins(o.s, id) && FailedSource(o.s, e))
  {
    hide Inv, GraphOk, ForksApart;
    match s.states[id].node.kind
    case Trigger(_) => ExprKeeps(g, w, s, id);
    case Agent(_) => AgentKeeps(g, w, s, id);
    case HumanApproval(_) => GateKeeps(g, w, s, id);
    case Condition(_) => ExprKeeps(g, w, s, id);
    case Transform(_) => ExprKeeps(g, w, s, id);
    case ParallelFork(None) =>
    case ParallelFork(Some(_)) => ForkKeeps(g, w, s, id);
    case Join => JoinKeeps(g, w, s, id);
    case Subworkflow =>
    case Unknown(_) =>
  }

  /** Executing a ready node keeps the invariant. */
  lemma ExecuteKeeps(g: Graph, w: World, s: State, id: Id)
    requires GraphOk(g) && ForksApart(g) && Inv(g, s) && Ready(s, id) && !s.states[id].node.kind.Loop?
    ensures Inv(g, Execute(w, s, id))
  {
    hide Inv, Live, GraphOk, ForksApart, RunNode, FailOrRetry;
    var s1 := Mark(s, id, Running, NoOutput, "");
    StartKeeps(g, s, id);
    RunKeeps(g, w, s1, id);
    var o := RunNode(w, s1, id);
    if o.err.Some? {
      FailOrRetryKeeps(g, w, o.s, id, o.err.value);
    }
  }

  /** Resetting the nodes of a loop body keeps the invariant. */
  lemma {:induction false} ResetKeeps(g: Graph, s: State, body: seq<Id>, k: nat)
    requires ForksApart(g) && Inv(g, s) && k <= |body|
    requires forall b | b in body :: b in g.bodies && b in g.nodes && b in s.states
    ensures Inv(g, ResetBody(s, body, k))
  {
    hide Inv, ForksApart, Tame;
    if k > 0 {
      ResetKeeps(g, s, body, k - 1);
      BodyIsWild(g, body[k - 1]);
      var r := ResetBody(s, body, k - 1);
      ResetOneKeeps(g, r, body[k - 1]);
    }
  }

  lemma BodyIsWild(g: Graph, b: Id)
    requires ForksApart(g) && b in g.nodes && b in g.bodies
    ensures !Tame(g, b)
  {
    forall f | IsFork(g, f)
      ensures !CloneOf(g, b, f)
    {
      assert forall i: nat :: CloneId(Tpl(g, f), i) !in g.nodes;
    }
  }

  lemma ResetOneKeeps(g: Graph, s: State, b: Id)
    requires Inv(g, s) && b in s.states && !Tame(g, b)
    ensures Inv(g, Put(s, b, Reset(s.states[b])))
  {
    var s' := Put(s, b, Reset(s.states[b]));
    SameFeedback(g, s, s');
    hide Inv;
    Step(g, s, s', b, None);
  }
}
