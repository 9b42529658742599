/** Structural validation of a definition, with Kahn's algorithm for the cycle check. */
module Validation {
  import opened WorkflowDef

  const MAX_BACKOFF_SECONDS := 3600
  const MAX_RETRY_ATTEMPTS := 10

  datatype Problem =
    | MissingId | MissingVersion | MissingNodeId(index: nat) | DuplicateNode(id: Id) | NoNodes
    | UnknownFrom(edge: Edge) | UnknownTo(edge: Edge) | BadSelector(edge: Edge)
    | Cyclic | BadApprovalEdge(edge: Edge) | BadFields(id: Id)

  datatype Verdict = Valid | Invalid(problem: Problem)

  // ----- What a valid definition is -----

  ghost predicate HasHeader(d: WorkflowDef) {
    d.id != "" && d.version != ""
  }

  ghost predicate UniqueIds(d: WorkflowDef) {
    && d.nodes != []
    && (forall i | 0 <= i < |d.nodes| :: d.nodes[i].id != "")
    && (forall i, j | 0 <= i < j < |d.nodes| :: d.nodes[i].id != d.nodes[j].id)
  }

  ghost predicate EdgesKnown(d: WorkflowDef) {
    forall e | e in d.edges :: e.from in NodeIds(d) && e.to in NodeIds(d) && !e.cond.Other?
  }

  /** `rank` is a topological numbering: every edge goes up. */
  ghost predicate Ranked(edges: seq<Edge>, rank: map<Id, nat>) {
    forall e | e in edges :: e.from in rank && e.to in rank && rank[e.from] < rank[e.to]
  }

  ghost predicate Acyclic(edges: seq<Edge>) {
    exists rank: map<Id, nat> :: Ranked(edges, rank)
  }

  /** Approval gates route only through approved and rejected edges. */
  ghost predicate GatesRouted(d: WorkflowDef) {
    forall n, e | n in d.nodes && n.kind.HumanApproval? && e in d.edges && e.from == n.id ::
      e.cond.OnApproved? || e.cond.OnRejected?
  }

  ghost predicate FieldsOk(d: WorkflowDef) {
    forall n | n in d.nodes :: NodeFieldsOk(n)
  }

  predicate RetryOk(r: Retry) {
    && 1 <= r.maxAttempts <= MAX_RETRY_ATTEMPTS
    && forall b | b in r.backoffSeconds :: 0 <= b <= MAX_BACKOFF_SECONDS
  }

  predicate NodeFieldsOk(n: Node) {
    match n.kind
    case Agent(None) => false
    case Agent(Some(spec)) => spec.retry.Some? ==> RetryOk(spec.retry.value)
    case HumanApproval(hasSpec) => hasSpec
    case Condition(expr) => expr != ""
    case Transform(expr) => expr != ""
    case Trigger(source) => source.Some?
    case ParallelFork(None) => false
    case ParallelFork(Some(f)) => f.itemsExpr != "" && f.template != ""
    case Loop(None) => false
    case Loop(Some(l)) => l.bodyEntry != "" && l.condition != "" && l.maxIterations > 0
    case Join => true
    case Subworkflow => true
    case Unknown(_) => false
  }

  /** What a node is refused for: no spec, a missing field, a loop without iterations, more than ten
      attempts or none, a wait below zero or above one hour, or a type that is not known. */
  ghost predicate Refused(n: Node) {
    || n.kind.Unknown?
    || n.kind in {Agent(None), HumanApproval(false), Condition(""), Transform(""), Trigger(None), ParallelFork(None),
                  Loop(None)}
    || (exists f: FanOut :: n.kind == ParallelFork(Some(f)) && (f.itemsExpr == "" || f.template == ""))
    || (exists l: LoopSpec :: n.kind == Loop(Some(l))
                              && (l.bodyEntry == "" || l.condition == "" || l.maxIterations < 1))
    || (exists r: Retry :: n.kind == Agent(Some(AgentSpec(Some(r))))
                           && (r.maxAttempts !in {1, 2, 3, 4, 5, 6, 7, 8, 9, 10}
                               || exists b :: b in r.backoffSeconds && (b < 0 || b > 3600)))
  }

  lemma RefusedIff(n: Node)
    ensures NodeFieldsOk(n) <==> !Refused(n)
  {
    match n.kind
    case Agent(Some(AgentSpec(Some(r)))) => assert n.kind == Agent(Some(AgentSpec(Some(r))));
    case ParallelFork(Some(f)) => assert n.kind == ParallelFork(Some(f));
    case Loop(Some(l)) => assert n.kind == Loop(Some(l));
    case _ =>
  }

  /** The problem reported is one the definition has. */
  ghost predicate Has(d: WorkflowDef, p: Problem) {
    match p
    case MissingId => d.id == ""
    case MissingVersion => d.version == ""
    case MissingNodeId(i) => i < |d.nodes| && d.nodes[i].id == ""
    case DuplicateNode(id) => exists i, j :: 0 <= i < j < |d.nodes| && d.nodes[i].id == d.nodes[j].id == id
    case NoNodes => d.nodes == []
    case UnknownFrom(e) => e in d.edges && forall n | n in d.nodes :: n.id != e.from
    case UnknownTo(e) => e in d.edges && forall n | n in d.nodes :: n.id != e.to
    case BadSelector(e) => e in d.edges && e.cond.Other?
    case Cyclic => !Acyclic(d.edges)
    case BadApprovalEdge(e) => e in d.edges && e.cond != OnApproved && e.cond != OnRejected
                               && exists n :: n in d.nodes && n.id == e.from && n.kind.HumanApproval?
    case BadFields(id) => exists n :: n in d.nodes && n.id == id && Refused(n)
  }

  // ----- Counting edges -----

  /** Edges into `v` from nodes outside `gone`. */
  ghost function InCount(edges: seq<Edge>, v: Id, gone: set<Id>): nat {
    if edges == [] then 0
    else
      var e := edges[|edges| - 1];
      InCount(edges[..|edges| - 1], v, gone) + if e.to == v && e.from !in gone then 1 else 0
  }

  /** Edges from `u` to `v`. */
  ghost function EdgeCount(edges: seq<Edge>, u: Id, v: Id): nat {
    if edges == [] then 0
    else
      var e := edges[|edges| - 1];
      EdgeCount(edges[..|edges| - 1], u, v) + if e.from == u && e.to == v then 1 else 0
  }

  /** Popping one more node takes exactly its edges out of the count. */
  lemma {:induction false} PopCount(edges: seq<Edge>, v: Id, gone: set<Id>, u: Id)
    requires u !in gone
    ensures InCount(edges, v, gone) == InCount(edges, v, gone + {u}) + EdgeCount(edges, u, v)
  {
    if edges != [] {
      PopCount(edges[..|edges| - 1], v, gone, u);
    }
  }

  lemma {:induction false} EdgeCountPrefix(edges: seq<Edge>, k: nat, u: Id, v: Id)
    requires k <= |edges|
    ensures EdgeCount(edges[..k], u, v) <= EdgeCount(edges, u, v)
    decreases |edges|
  {
    if k < |edges| {
      assert edges[..|edges| - 1][..k] == edges[..k];
      EdgeCountPrefix(edges[..|edges| - 1], k, u, v);
    } else {
      assert edges[..k] == edges;
    }
  }

  lemma {:induction false} EdgeCountStep(edges: seq<Edge>, k: nat, u: Id, v: Id)
    requires k < |edges|
    ensures EdgeCount(edges[..k + 1], u, v) ==
            EdgeCount(edges[..k], u, v) + if edges[k].from == u && edges[k].to == v then 1 else 0
  {
    assert edges[..k + 1][..k] == edges[..k];
  }

  lemma {:induction false} InCountZero(edges: seq<Edge>, v: Id, gone: set<Id>)
    ensures InCount(edges, v, gone) == 0 <==> forall e | e in edges && e.to == v :: e.from in gone
  {
    if edges != [] {
      var rest, last := edges[..|edges| - 1], edges[|edges| - 1];
      InCountZero(rest, v, gone);
      assert forall e :: e in edges <==> e in rest || e == last;
    }
  }

  // ----- Kahn's algorithm -----

  ghost function Elems<T>(s: seq<T>): set<T> {
    set x | x in s
  }

  lemma {:induction false} DistinctCount<T>(s: seq<T>)
    requires Distinct(s)
    ensures |Elems(s)| == |s|
  {
    if s != [] {
      var rest, last := s[..|s| - 1], s[|s| - 1];
      DistinctCount(rest);
      assert last !in rest;
      assert s == rest + [last];
      assert Elems(s) == Elems(rest) + {last};
    }
  }

  /** Every source of an edge into an enqueued node was enqueued earlier. */
  ghost predicate SourcesFirst(edges: seq<Edge>, order: seq<Id>) {
    forall e, i | e in edges && 0 <= i < |order| && e.to == order[i] :: e.from in order[..i]
  }

  lemma OrderIsNumbering(edges: seq<Edge>, order: seq<Id>)
    requires Distinct(order) && SourcesFirst(edges, order)
    requires forall e | e in edges :: e.from in order && e.to in order
    ensures Acyclic(edges)
  {
    var rank: map<Id, nat> := map v | v in Elems(order) :: IndexOf(order, v);
    forall e | e in edges
      ensures e.from in rank && e.to in rank && rank[e.from] < rank[e.to]
    {
      var i := IndexOf(order, e.to);
      var j :| 0 <= j < i && order[..i][j] == e.from;
      assert order[j] == e.from == order[IndexOf(order, e.from)];
    }
    assert Ranked(edges, rank);
  }

  ghost function IndexOf(s: seq<Id>, v: Id): (i: nat)
    requires v in s
    ensures i < |s| && s[i] == v
  {
    var i :| 0 <= i < |s| && s[i] == v; i
  }

  /** In a numbered graph, a nonempty set of nodes contains one with no predecessor in the set. */
  lemma {:induction false} LowestNode(edges: seq<Edge>, rank: map<Id, nat>, s: set<Id>) returns (v: Id)
    requires Ranked(edges, rank) && s != {}
    ensures v in s && forall e | e in edges && e.to == v :: e.from !in s
    decreases |s|
  {
    v :| v in s;
    var preds := set u | u in s && u in rank && v in rank && rank[u] < rank[v];
    if preds != {} {
      ghost var top := v;
      assert v !in preds && preds < s;
      LowerSetIsSmaller(preds, s);
      v := LowestNode(edges, rank, preds);
      assert forall e | e in edges && e.to == v :: rank[e.from] < rank[top];
    } else {
      assert forall e | e in edges && e.to == v && e.from in s :: e.from in preds;
    }
  }

  lemma LowerSetIsSmaller<T>(a: set<T>, b: set<T>)
    requires a < b
    ensures |a| < |b|
  {
    assert exists x :: x in b && x !in a;
    var x :| x in b && x !in a;
    assert a <= b - {x};
    SubsetSize(a, b - {x});
  }

  lemma {:induction false} SubsetSize<T>(a: set<T>, b: set<T>)
    requires a <= b
    ensures |a| <= |b|
  {
    if a != {} {
      var x :| x in a;
      SubsetSize(a - {x}, b - {x});
    }
  }

  /** Loop state of Kahn's algorithm: `gone` has been popped, `order` is popped + queue, and the
      first `k` edges have been scanned for the node `cur` popped last. */
  ghost predicate KahnInv(ids: set<Id>, edges: seq<Edge>, indeg: map<Id, int>, order: seq<Id>,
                          gone: set<Id>, cur: Id, k: nat)
    requires k <= |edges|
  {
    && indeg.Keys == ids
    && Distinct(order) && SourcesFirst(edges, order)
    && (forall v | v in order :: v in ids)
    && (forall v | v in ids :: indeg[v] == InCount(edges, v, gone) - EdgeCount(edges[..k], cur, v))
    && (forall v | v in ids :: v in order <==> indeg[v] == 0)
  }

  /** One step of the inner loop: the edge at `k` is scanned for the node `cur`. */
  lemma ScanEdge(ids: set<Id>, edges: seq<Edge>, indeg: map<Id, int>, order: seq<Id>,
                 gone: set<Id>, cur: Id, k: nat)
    requires k < |edges| && edges[k].to in ids && cur in order && cur !in gone
    requires forall v | v in gone :: v in order
    requires KahnInv(ids, edges, indeg, order, gone, cur, k)
    ensures var v := edges[k].to;
            if edges[k].from != cur then KahnInv(ids, edges, indeg, order, gone, cur, k + 1)
            else
              && KahnInv(ids, edges, indeg[v := indeg[v] - 1],
                         if indeg[v] == 1 then order + [v] else order, gone, cur, k + 1)
  {
    var e := edges[k];
    forall v
      ensures EdgeCount(edges[..k + 1], cur, v) ==
              EdgeCount(edges[..k], cur, v) + if e.from == cur && e.to == v then 1 else 0
    {
      EdgeCountStep(edges, k, cur, v);
    }
    if e.from == cur {
      PopCount(edges, e.to, gone, cur);
      EdgeCountPrefix(edges, k + 1, cur, e.to);
      assert indeg[e.to] >= 1;
      if indeg[e.to] == 1 {
        InCountZero(edges, e.to, gone + {cur});
        Enqueue(edges, order, e.to);
      }
    }
  }

  /** When every edge has been scanned, the node `cur` counts as popped. */
  lemma Scanned(ids: set<Id>, edges: seq<Edge>, indeg: map<Id, int>, order: seq<Id>, gone: set<Id>, cur: Id)
    requires cur !in gone
    requires KahnInv(ids, edges, indeg, order, gone, cur, |edges|)
    ensures KahnInv(ids, edges, indeg, order, gone + {cur}, "", 0)
  {
    assert edges[..|edges|] == edges;
    forall v | v in ids
      ensures indeg[v] == InCount(edges, v, gone + {cur})
    {
      PopCount(edges, v, gone, cur);
    }
  }

  method InDegrees(ids: set<Id>, edges: seq<Edge>) returns (indeg: map<Id, int>)
    requires forall e | e in edges :: e.to in ids
    ensures indeg.Keys == ids && forall v | v in ids :: indeg[v] == InCount(edges, v, {})
  {
    indeg := map id | id in ids :: 0;
    for k := 0 to |edges|
      invariant indeg.Keys == ids
      invariant forall v | v in ids :: indeg[v] == InCount(edges[..k], v, {})
    {
      indeg := indeg[edges[k].to := indeg[edges[k].to] + 1];
      assert edges[..k + 1][..k] == edges[..k];
    }
    assert edges[..|edges|] == edges;
  }

  /** Map iteration visits the nodes in any order, so the initial queue is in any order. */
  method InitialQueue(ids: set<Id>, indeg: map<Id, int>) returns (queue: seq<Id>)
    requires indeg.Keys == ids
    ensures Distinct(queue) && forall v :: v in queue <==> v in ids && indeg[v] == 0
  {
    queue := [];
    var rest := ids;
    while rest != {}
      invariant rest <= ids && Distinct(queue)
      invariant forall v :: v in queue <==> v in ids - rest && indeg[v] == 0
      decreases |rest|
    {
      var id :| id in rest;
      rest := rest - {id};
      if indeg[id] == 0 {
        queue := queue + [id];
      }
    }
  }

  /** The inner loop: the out-edges of the popped node `id` give up one in-degree each. */
  method ScanOutEdges(ids: set<Id>, edges: seq<Edge>, indeg0: map<Id, int>, queue0: seq<Id>,
                      ghost popped: seq<Id>, id: Id)
    returns (indeg: map<Id, int>, queue: seq<Id>)
    requires forall e | e in edges :: e.from in ids && e.to in ids
    requires id !in popped
    requires KahnInv(ids, edges, indeg0, popped + [id] + queue0, Elems(popped), id, 0)
    ensures KahnInv(ids, edges, indeg, popped + [id] + queue, Elems(popped) + {id}, "", 0)
  {
    indeg, queue := indeg0, queue0;
    ghost var gone := Elems(popped);
    for k := 0 to |edges|
      invariant KahnInv(ids, edges, indeg, popped + [id] + queue, gone, id, k)
    {
      var e := edges[k];
      ScanEdge(ids, edges, indeg, popped + [id] + queue, gone, id, k);
      if e.from == id {
        indeg := indeg[e.to := indeg[e.to] - 1];
        if indeg[e.to] == 0 {
          assert popped + [id] + (queue + [e.to]) == (popped + [id] + queue) + [e.to];
          queue := queue + [e.to];
        }
      }
    }
    Scanned(ids, edges, indeg, popped + [id] + queue, gone, id);
  }

  lemma InitialInv(ids: set<Id>, edges: seq<Edge>, indeg: map<Id, int>, queue: seq<Id>)
    requires indeg.Keys == ids && forall v | v in ids :: indeg[v] == InCount(edges, v, {})
    requires Distinct(queue) && forall v :: v in queue <==> v in ids && indeg[v] == 0
    ensures KahnInv(ids, edges, indeg, queue, {}, "", 0)
  {
    forall v | v in queue
      ensures forall e | e in edges :: e.to != v
    {
      InCountZero(edges, v, {});
    }
    assert forall i | 0 <= i < |queue| :: queue[i] in queue;
  }

  /** The queue ran dry: the graph has a numbering exactly when every node was popped. */
  lemma AllPopped(ids: set<Id>, edges: seq<Edge>, indeg: map<Id, int>, popped: seq<Id>)
    requires forall e | e in edges :: e.from in ids && e.to in ids
    requires KahnInv(ids, edges, indeg, popped, Elems(popped), "", 0)
    ensures |popped| == |ids| <==> Acyclic(edges)
  {
    DistinctCount(popped);
    if |popped| == |ids| {
      SubsetFull(Elems(popped), ids);
      OrderIsNumbering(edges, popped);
    } else if rank: map<Id, nat> :| Ranked(edges, rank) {
      var left := ids - Elems(popped);
      assert Elems(popped) + left == ids && Elems(popped) != ids;
      var v := LowestNode(edges, rank, left);
      InCountZero(edges, v, Elems(popped));
      assert false;
    }
  }

  /** Taking the head off the queue keeps the enqueued order and starts a scan of its edges. */
  lemma PopHead(ids: set<Id>, edges: seq<Edge>, indeg: map<Id, int>, popped: seq<Id>, queue: seq<Id>)
    requires queue != []
    requires KahnInv(ids, edges, indeg, popped + queue, Elems(popped), "", 0)
    ensures |popped| < |ids| && queue[0] !in popped
    ensures KahnInv(ids, edges, indeg, popped + [queue[0]] + queue[1..], Elems(popped), queue[0], 0)
  {
    var order := popped + queue;
    DistinctCount(order);
    SubsetSize(Elems(order), ids);
    assert order == popped + [queue[0]] + queue[1..];
    assert order[|popped|] == queue[0];
    assert forall i | 0 <= i < |popped| :: popped[i] == order[i];
    assert forall u, v :: EdgeCount(edges[..0], u, v) == 0;
  }

  method Kahn(ids: set<Id>, edges: seq<Edge>) returns (acyclic: bool)
    requires forall e | e in edges :: e.from in ids && e.to in ids
    ensures acyclic <==> Acyclic(edges)
  {
    hide KahnInv, Acyclic, InCount;
    var indeg := InDegrees(ids, edges);
    var queue := InitialQueue(ids, indeg);
    var seen := 0;
    ghost var popped: seq<Id> := [];
    InitialInv(ids, edges, indeg, queue);
    assert popped + queue == queue && Elems(popped) == {};
    while queue != []
      invariant seen == |popped|
      invariant KahnInv(ids, edges, indeg, popped + queue, Elems(popped), "", 0)
      decreases |ids| - seen
    {
      var id := queue[0];
      PopHead(ids, edges, indeg, popped, queue);
      seen := seen + 1;
      indeg, queue := ScanOutEdges(ids, edges, indeg, queue[1..], popped, id);
      assert Elems(popped + [id]) == Elems(popped) + {id};
      popped := popped + [id];
    }
    assert popped + queue == popped;
    AllPopped(ids, edges, indeg, popped);
    acyclic := seen == |ids|;
  }

  lemma Enqueue(edges: seq<Edge>, order: seq<Id>, v: Id)
    requires SourcesFirst(edges, order) && Distinct(order) && v !in order
    requires forall e | e in edges && e.to == v :: e.from in order
    ensures SourcesFirst(edges, order + [v]) && Distinct(order + [v])
  {
    forall e, i | e in edges && 0 <= i < |order + [v]| && e.to == (order + [v])[i]
      ensures e.from in (order + [v])[..i]
    {
      assert (order + [v])[..i] == order[..i];
    }
  }

  lemma SubsetFull<T>(a: set<T>, b: set<T>)
    requires a <= b && |a| == |b|
    ensures a == b
  {
    if a != b {
      LowerSetIsSmaller(a, b);
    }
  }

  // ----- Validate -----

  method Validate(d: WorkflowDef) returns (v: Verdict)
    ensures v.Valid? <==> HasHeader(d) && UniqueIds(d) && EdgesKnown(d) && Acyclic(d.edges)
                          && GatesRouted(d) && FieldsOk(d)
    ensures v.Valid? ==> forall n | n in d.nodes :: !Refused(n)
    ensures v.Invalid? ==> Has(d, v.problem)
    ensures v == Invalid(Cyclic) <==> HasHeader(d) && UniqueIds(d) && EdgesKnown(d) && !Acyclic(d.edges)
  {
    if d.id == "" {
      return Invalid(MissingId);
    }
    if d.version == "" {
      return Invalid(MissingVersion);
    }
    var ids: set<Id> := {};
    for i := 0 to |d.nodes|
      invariant forall j | 0 <= j < i :: d.nodes[j].id != ""
      invariant forall j, k | 0 <= j < k < i :: d.nodes[j].id != d.nodes[k].id
      invariant ids == set j | 0 <= j < i :: d.nodes[j].id
      invariant ids == {} <==> i == 0
    {
      var n := d.nodes[i];
      if n.id == "" {
        return Invalid(MissingNodeId(i));
      }
      if n.id in ids {
        return Invalid(DuplicateNode(n.id));
      }
      ids := ids + {n.id};
    }
    if ids == {} {
      return Invalid(NoNodes);
    }
    assert ids == NodeIds(d);
    for i := 0 to |d.edges|
      invariant forall j | 0 <= j < i :: d.edges[j].from in ids && d.edges[j].to in ids && !d.edges[j].cond.Other?
    {
      var e := d.edges[i];
      if e.from !in ids {
        return Invalid(UnknownFrom(e));
      }
      if e.to !in ids {
        return Invalid(UnknownTo(e));
      }
      if e.cond.Other? {
        return Invalid(BadSelector(e));
      }
    }
    var acyclic := Kahn(ids, d.edges);
    if !acyclic {
      return Invalid(Cyclic);
    }
    for i := 0 to |d.nodes|
      invariant forall n, e | n in d.nodes[..i] && n.kind.HumanApproval? && e in d.edges && e.from == n.id ::
                  e.cond.OnApproved? || e.cond.OnRejected?
    {
      var n := d.nodes[i];
      if n.kind.HumanApproval? {
        for j := 0 to |d.edges|
          invariant forall e | e in d.edges[..j] && e.from == n.id :: e.cond.OnApproved? || e.cond.OnRejected?
        {
          var e := d.edges[j];
          if e.from == n.id && !e.cond.OnApproved? && !e.cond.OnRejected? {
            assert n in d.nodes && e in d.edges;
            return Invalid(BadApprovalEdge(e));
          }
        }
      }
    }
    var problem := FieldProblem(d);
    return if problem.Some? then Invalid(problem.value) else Valid;
  }

  method FieldProblem(d: WorkflowDef) returns (p: Option<Problem>)
    ensures p.None? <==> FieldsOk(d)
    ensures p.None? ==> forall n | n in d.nodes :: !Refused(n)
    ensures p.Some? ==> p.value.BadFields? && Has(d, p.value)
  {
    for i := 0 to |d.nodes|
      invariant forall n | n in d.nodes[..i] :: NodeFieldsOk(n) && !Refused(n)
    {
      RefusedIff(d.nodes[i]);
      if !NodeFieldsOk(d.nodes[i]) {
        assert d.nodes[i] in d.nodes;
        return Some(BadFields(d.nodes[i].id));
      }
      assert forall n | n in d.nodes[..i + 1] :: n in d.nodes[..i] || n == d.nodes[i];
    }
    assert d.nodes[..|d.nodes|] == d.nodes;
    p := None;
  }
}
