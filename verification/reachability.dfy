/** Reachability along edges, which is how loop bodies are found. */
module Reachability {
  import opened WorkflowDef

  ghost predicate HasEdge(edges: seq<Edge>, a: Id, b: Id) {
    exists e :: e in edges && e.from == a && e.to == b
  }

  ghost predicate IsPath(edges: seq<Edge>, p: seq<Id>) {
    p != [] && (|p| > 1 ==> HasEdge(edges, p[0], p[1]) && IsPath(edges, p[1..]))
  }

  ghost predicate Reaches(edges: seq<Edge>, a: Id, b: Id) {
    exists p :: IsPath(edges, p) && p[0] == a && p[|p| - 1] == b
  }

  ghost predicate Closed(edges: seq<Edge>, s: set<Id>) {
    forall e | e in edges && e.from in s :: e.to in s
  }

  lemma ReachesSelf(edges: seq<Edge>, a: Id)
    ensures Reaches(edges, a, a)
  {
    assert IsPath(edges, [a]);
  }

  lemma ReachesStep(edges: seq<Edge>, e: Edge, b: Id)
    requires e in edges && Reaches(edges, e.to, b)
    ensures Reaches(edges, e.from, b)
  {
    var p :| IsPath(edges, p) && p[0] == e.to && p[|p| - 1] == b;
    var q := [e.from] + p;
    assert q[1..] == p && HasEdge(edges, q[0], q[1]);
    assert IsPath(edges, q);
  }

  lemma {:induction false} PathOn(edges: seq<Edge>, p: seq<Id>, b: Id)
    requires IsPath(edges, p) && HasEdge(edges, p[|p| - 1], b)
    ensures IsPath(edges, p + [b])
    decreases |p|
  {
    if |p| > 1 {
      PathOn(edges, p[1..], b);
      assert (p + [b])[1..] == p[1..] + [b];
    } else {
      assert (p + [b])[1..] == [b];
    }
  }

  lemma ReachesOn(edges: seq<Edge>, a: Id, e: Edge)
    requires e in edges && Reaches(edges, a, e.from)
    ensures Reaches(edges, a, e.to)
  {
    var p :| IsPath(edges, p) && p[0] == a && p[|p| - 1] == e.from;
    PathOn(edges, p, e.to);
    assert (p + [e.to])[0] == a;
  }

  lemma {:induction false} ClosedContains(edges: seq<Edge>, s: set<Id>, p: seq<Id>)
    requires Closed(edges, s) && IsPath(edges, p) && p[0] in s
    ensures p[|p| - 1] in s
    decreases |p|
  {
    if |p| > 1 {
      ClosedContains(edges, s, p[1..]);
    }
  }

  /** A set that holds `a`, is closed, and holds only reachable nodes is the closure of `a`. */
  lemma ClosureExact(edges: seq<Edge>, s: set<Id>, a: Id)
    requires Closed(edges, s) && a in s && forall v | v in s :: Reaches(edges, a, v)
    ensures forall v :: v in s <==> Reaches(edges, a, v)
  {
    forall v | Reaches(edges, a, v)
      ensures v in s
    {
      var p :| IsPath(edges, p) && p[0] == a && p[|p| - 1] == v;
      ClosedContains(edges, s, p);
    }
  }

  /** A numbering that goes down along every edge bounds everything reachable. */
  lemma {:induction false} RankAlongPath(edges: seq<Edge>, rank: map<Id, nat>, p: seq<Id>)
    requires forall e | e in edges :: e.from in rank && e.to in rank && rank[e.to] < rank[e.from]
    requires IsPath(edges, p) && p[0] in rank
    ensures p[|p| - 1] in rank && rank[p[|p| - 1]] <= rank[p[0]]
    decreases |p|
  {
    if |p| > 1 {
      RankAlongPath(edges, rank, p[1..]);
    }
  }

  // ----- The search -----

  /** `outs` lists the edges of the graph by source. */
  ghost predicate Indexes(outs: map<Id, seq<Edge>>, edges: seq<Edge>) {
    && (forall k, e | k in outs && e in outs[k] :: e in edges && e.from == k)
    && (forall e | e in edges :: e.from in outs && e in outs[e.from])
  }

  /** The search from `start` has found `found` beyond `seen`, all of it reachable and new. */
  ghost predicate Search(edges: seq<Edge>, start: Id, seen: set<Id>, found: seq<Id>, seen': set<Id>) {
    && seen' == seen + (set v | v in found)
    && Distinct(found) && (forall v | v in found :: v !in seen)
    && (forall v | v in found :: Reaches(edges, start, v))
  }

  /** The edges out of the found nodes, except those of `open`, lead to seen nodes. */
  ghost predicate Explored(edges: seq<Edge>, found: seq<Id>, seen': set<Id>, open: set<Id>) {
    forall e | e in edges && e.from in found && e.from !in open :: e.to in seen'
  }

  lemma SearchOn(edges: seq<Edge>, seen: set<Id>, found: seq<Id>, seen1: set<Id>, e: Edge, more: seq<Id>,
                 seen2: set<Id>)
    requires e in edges && Search(edges, e.from, seen, found, seen1) && Search(edges, e.to, seen1, more, seen2)
    requires Explored(edges, found, seen1, {e.from}) && Explored(edges, more, seen2, {})
    ensures Search(edges, e.from, seen, found + more, seen2) && Explored(edges, found + more, seen2, {e.from})
  {
    forall v | v in more
      ensures Reaches(edges, e.from, v)
    {
      ReachesStep(edges, e, v);
    }
    assert forall v :: v in found + more <==> v in found || v in more;
    forall i, j | 0 <= i < j < |found + more|
      ensures (found + more)[i] != (found + more)[j]
    {
      assert i < |found| ==> (found + more)[i] in found;
      assert j >= |found| ==> (found + more)[j] in more;
    }
  }

  /** The nodes reachable from `start` that are not in `seen`, each once, in depth-first order. */
  method Reachable(outs: map<Id, seq<Edge>>, start: Id, seen: set<Id>, ghost edges: seq<Edge>, ghost all: set<Id>)
    returns (found: seq<Id>, seen': set<Id>)
    requires Indexes(outs, edges) && forall e | e in edges :: e.to in all
    requires start in all && seen <= all
    ensures Search(edges, start, seen, found, seen') && Explored(edges, found, seen', {})
    ensures start in seen' && seen' <= all
    decreases all - seen
  {
    if start in seen {
      return [], seen;
    }
    found, seen' := [start], seen + {start};
    ReachesSelf(edges, start);
    var next := if start in outs then outs[start] else [];
    for i := 0 to |next|
      invariant seen' <= all && seen + {start} <= seen'
      invariant Search(edges, start, seen, found, seen') && Explored(edges, found, seen', {start})
      invariant forall e | e in next[..i] :: e.to in seen'
    {
      hide Search, Explored;
      var e := next[i];
      var more: seq<Id>;
      ghost var before := seen';
      more, seen' := Reachable(outs, e.to, seen', edges, all);
      assert before <= seen' by {
        SearchGrows(edges, e.to, before, more, seen');
      }
      SearchOn(edges, seen, found, before, e, more, seen');
      found := found + more;
      assert next[..i + 1] == next[..i] + [e];
    }
    assert next[..|next|] == next;
  }

  lemma SearchGrows(edges: seq<Edge>, start: Id, seen: set<Id>, found: seq<Id>, seen': set<Id>)
    requires Search(edges, start, seen, found, seen')
    ensures seen <= seen'
  {
  }
}
