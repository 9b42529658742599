/** The last pass of a run, whose outcome can depend on the order of map iteration. */
module SkipPass {
  // Nodes that never ran become Skipped, or the run reports a deadlock.

  import opened WorkflowDef
  import opened EngineState

  datatype SkipResult = AllSkipped(s: State) | Deadlock(s: State, at: Id)

  /** Visits the pending nodes in the given order. */
  function SkipAll(s: State, order: seq<Id>): SkipResult
    requires forall id | id in order :: id in s.states
    decreases |order|
  {
    if order == [] then AllSkipped(s)
    else if AnyActiveIn(s, order[0]) then Deadlock(s, order[0])
    else SkipAll(Mark(s, order[0], Skipped, NoOutput, ""), order[1..])
  }

  /** `order` visits exactly the nodes of `pending`, each once. */
  ghost predicate Visits(order: seq<Id>, pending: set<Id>) {
    && (forall id :: id in order <==> id in pending)
    && (forall i, j | 0 <= i < j < |order| :: order[i] != order[j])
  }

  ghost predicate AllPending(s: State, pending: set<Id>) {
    forall id | id in pending :: id in s.states && s.states[id].status.Pending?
  }

  /** Skipping `x` makes the in-edge of `y` from `x` active. */
  ghost predicate Triggers(s: State, x: Id, y: Id) {
    && x in s.states && !s.states[x].node.kind.Condition?
    && exists e :: e in Ins(s, y) && e.from == x && e.cond.Always?
  }

  ghost predicate Free(s: State, pending: set<Id>) {
    forall y | y in pending :: !AnyActiveIn(s, y)
  }

  /** The effect of one skip on the activity of another node. */
  lemma SkipEffect(s: State, x: Id, y: Id)
    requires x in s.states && s.states[x].status.Pending?
    ensures AnyActiveIn(Mark(s, x, Skipped, NoOutput, ""), y) <==> AnyActiveIn(s, y) || Triggers(s, x, y)
  {
    var s' := Mark(s, x, Skipped, NoOutput, "");
    forall e | e in Ins(s, y) && e.from in s.states
      ensures EdgeHolds(s', e) <==>
              EdgeHolds(s, e) || (e.from == x && e.cond.Always? && !s.states[x].node.kind.Condition?)
    {
      assert Outs(s', e.from) == Outs(s, e.from);
    }
    assert Ins(s', y) == Ins(s, y) && s'.states.Keys == s.states.Keys;
    if AnyActiveIn(s', y) {
      var e :| e in Ins(s', y) && e.from in s'.states && EdgeHolds(s', e);
      assert e in Ins(s, y);
    }
    if AnyActiveIn(s, y) {
      var e :| e in Ins(s, y) && e.from in s.states && EdgeHolds(s, e);
      assert e in Ins(s', y) && EdgeHolds(s', e);
    }
    if Triggers(s, x, y) {
      var e :| e in Ins(s, y) && e.from == x && e.cond.Always?;
      assert e in Ins(s', y) && EdgeHolds(s', e);
    }
  }

  lemma SkipKeepsTriggers(s: State, x: Id, a: Id, b: Id)
    requires x in s.states
    ensures Triggers(Mark(s, x, Skipped, NoOutput, ""), a, b) <==> Triggers(s, a, b)
  {
    assert Ins(Mark(s, x, Skipped, NoOutput, ""), b) == Ins(s, b);
  }

  lemma Rest(s: State, order: seq<Id>, pending: set<Id>)
    requires order != [] && Visits(order, pending) && AllPending(s, pending)
    ensures Visits(order[1..], pending - {order[0]})
    ensures AllPending(Mark(s, order[0], Skipped, NoOutput, ""), pending - {order[0]})
  {
    assert forall id :: id in order <==> id == order[0] || id in order[1..];
    assert forall i | 0 <= i < |order| - 1 :: order[1..][i] == order[i + 1];
  }

  /** An active pending node deadlocks the pass in every order. */
  lemma {:induction false} ActiveDeadlocks(s: State, order: seq<Id>, pending: set<Id>, y: Id)
    requires Visits(order, pending) && AllPending(s, pending) && y in pending && AnyActiveIn(s, y)
    ensures SkipAll(s, order).Deadlock?
    decreases |order|
  {
    var x := order[0];
    if !AnyActiveIn(s, x) {
      Rest(s, order, pending);
      SkipEffect(s, x, y);
      ActiveDeadlocks(Mark(s, x, Skipped, NoOutput, ""), order[1..], pending - {x}, y);
    }
  }

  /** The pass succeeds in an order in which no skip triggers a node that comes later. */
  lemma {:induction false} QuietOrder(s: State, order: seq<Id>, pending: set<Id>)
    requires Visits(order, pending) && AllPending(s, pending) && Free(s, pending)
    requires forall i, j | 0 <= i < j < |order| :: !Triggers(s, order[i], order[j])
    ensures SkipAll(s, order).AllSkipped?
    decreases |order|
  {
    if order != [] {
      var x, s' := order[0], Mark(s, order[0], Skipped, NoOutput, "");
      Rest(s, order, pending);
      forall y | y in pending - {x}
        ensures !AnyActiveIn(s', y)
      {
        SkipEffect(s, x, y);
        var j :| 0 < j < |order| && order[j] == y;
      }
      forall i, j | 0 <= i < j < |order[1..]|
        ensures !Triggers(s', order[1..][i], order[1..][j])
      {
        SkipKeepsTriggers(s, x, order[i + 1], order[j + 1]);
      }
      QuietOrder(s', order[1..], pending - {x});
    }
  }

  /** Every edge but those from a node to itself goes up in `rank`. */
  ghost predicate Upward(s: State, rank: map<Id, nat>) {
    forall y, e | e in Ins(s, y) && e.from != y :: e.from in rank && y in rank && rank[e.from] < rank[y]
  }

  /** Some order visits every node before its sources. */
  lemma {:induction false} SinksFirst(s: State, rank: map<Id, nat>, pending: set<Id>) returns (order: seq<Id>)
    requires Upward(s, rank)
    ensures Visits(order, pending)
    ensures forall i, j | 0 <= i < j < |order| :: !Triggers(s, order[i], order[j])
    decreases |pending|
  {
    if pending == {} {
      order := [];
    } else {
      var x := Highest(rank, pending);
      var rest := SinksFirst(s, rank, pending - {x});
      order := [x] + rest;
      forall j | 0 < j < |order|
        ensures !Triggers(s, x, order[j])
      {
        assert order[j] == rest[j - 1] && rest[j - 1] in rest && order[j] != x;
        assert RankOf(rank, order[j]) <= RankOf(rank, x);
      }
      assert forall i | 0 < i < |order| :: order[i] == rest[i - 1];
    }
  }

  lemma {:induction false} Highest(rank: map<Id, nat>, left: set<Id>) returns (x: Id)
    requires left != {}
    ensures x in left && forall y | y in left :: RankOf(rank, y) <= RankOf(rank, x)
    decreases |left|
  {
    x :| x in left;
    if left != {x} {
      var z := Highest(rank, left - {x});
      if RankOf(rank, z) > RankOf(rank, x) {
        x := z;
      }
    }
  }

  lemma {:induction false} SomeOrder(pending: set<Id>) returns (order: seq<Id>)
    ensures Visits(order, pending)
    decreases |pending|
  {
    if pending == {} {
      order := [];
    } else {
      var x :| x in pending;
      var rest := SomeOrder(pending - {x});
      order := [x] + rest;
    }
  }

  ghost predicate SomeDeadlocks(s: State, pending: set<Id>)
    requires AllPending(s, pending)
  {
    exists order :: Visits(order, pending) && SkipAll(s, order).Deadlock?
  }

  ghost predicate SomeSucceeds(s: State, pending: set<Id>)
    requires AllPending(s, pending)
  {
    exists order :: Visits(order, pending) && SkipAll(s, order).AllSkipped?
  }

  /** Some order succeeds exactly when no pending node is active at the start. */
  lemma SucceedsIff(s: State, pending: set<Id>, rank: map<Id, nat>)
    requires AllPending(s, pending) && Upward(s, rank)
    ensures SomeSucceeds(s, pending) <==> Free(s, pending)
  {
    if Free(s, pending) {
      var order := SinksFirst(s, rank, pending);
      QuietOrder(s, order, pending);
    }
    forall order, y | Visits(order, pending) && y in pending && AnyActiveIn(s, y)
      ensures SkipAll(s, order).Deadlock?
    {
      ActiveDeadlocks(s, order, pending, y);
    }
  }

  /** Some order deadlocks exactly when a pending node is active at the start, or skipping one
      pending node makes another active. */
  lemma DeadlocksIff(s: State, pending: set<Id>)
    requires AllPending(s, pending)
    ensures SomeDeadlocks(s, pending) <==>
            !Free(s, pending) || exists x, y :: x in pending && y in pending && x != y && Triggers(s, x, y)
  {
    if !Free(s, pending) {
      var y :| y in pending && AnyActiveIn(s, y);
      var order := SomeOrder(pending);
      ActiveDeadlocks(s, order, pending, y);
    } else if x, y :| x in pending && y in pending && x != y && Triggers(s, x, y) {
      var rest := SomeOrder(pending - {x, y});
      var order := [x, y] + rest;
      assert Visits(order, pending);
      SkipEffect(s, x, y);
      assert order[1..] == [y] + rest;
      assert SkipAll(s, order).Deadlock?;
    } else {
      forall order | Visits(order, pending)
        ensures SkipAll(s, order).AllSkipped?
      {
        QuietOrder(s, order, pending);
      }
    }
  }

  /** The outcome depends on the iteration order exactly when no pending node is active at the
      start and an always edge leads from one pending node, not a condition, to another. */
  lemma OrderMattersIff(s: State, pending: set<Id>, rank: map<Id, nat>)
    requires AllPending(s, pending) && Upward(s, rank)
    ensures SomeDeadlocks(s, pending) && SomeSucceeds(s, pending) <==>
            Free(s, pending) && exists x, y :: x in pending && y in pending && x != y && Triggers(s, x, y)
  {
    SucceedsIff(s, pending, rank);
    DeadlocksIff(s, pending);
  }

  // ----- The pass one node at a time -----

  /** Skipping the nodes of `done` in order leads from `s` to `s'`, whatever comes after. */
  ghost predicate Passed(s: State, done: seq<Id>, s': State) {
    && s'.states.Keys == s.states.Keys
    && (forall id | id in done :: id in s.states)
    && forall rest: seq<Id> | (forall id | id in rest :: id in s.states) :: AfterSkips(s, done, s', rest)
  }

  ghost predicate AfterSkips(s: State, done: seq<Id>, s': State, rest: seq<Id>)
    requires s'.states.Keys == s.states.Keys
    requires forall id | id in done :: id in s.states
    requires forall id | id in rest :: id in s.states
  {
    (forall id | id in done + rest :: id in s.states) && SkipAll(s, done + rest) == SkipAll(s', rest)
  }

  lemma SkipNone(s: State)
    ensures Passed(s, [], s)
  {
    forall rest: seq<Id> | forall id | id in rest :: id in s.states
      ensures AfterSkips(s, [], s, rest)
    {
      assert [] + rest == rest;
    }
  }

  lemma SkipOne(s: State, done: seq<Id>, s': State, id: Id)
    requires Passed(s, done, s') && id in s.states && !AnyActiveIn(s', id)
    ensures Passed(s, done + [id], Mark(s', id, Skipped, NoOutput, ""))
  {
    var s'' := Mark(s', id, Skipped, NoOutput, "");
    forall rest: seq<Id> | forall k | k in rest :: k in s.states
      ensures AfterSkips(s, done + [id], s'', rest)
    {
      assert AfterSkips(s, done, s', [id] + rest);
      assert (done + [id]) + rest == done + ([id] + rest);
      assert ([id] + rest)[1..] == rest;
    }
  }

  lemma PassedAll(s: State, done: seq<Id>, s': State)
    requires Passed(s, done, s')
    ensures (forall id | id in done :: id in s.states) && SkipAll(s, done) == AllSkipped(s')
  {
    assert AfterSkips(s, done, s', []);
    assert done + [] == done;
  }

  lemma VisitNext(pending: set<Id>, todo: set<Id>, id: Id)
    requires id in todo
    ensures pending - (todo - {id}) == if id in pending then pending - todo + {id} else pending - todo
  {
  }

  lemma VisitNone()
    ensures Visits([], {})
  {
  }

  lemma VisitOne(done: seq<Id>, visited: set<Id>, id: Id)
    requires Visits(done, visited) && id !in visited
    ensures Visits(done + [id], visited + {id})
  {
  }

  /** A deadlock after `done` is a deadlock of some order of all the pending nodes. */
  lemma DeadlockOrder(s: State, done: seq<Id>, s': State, pending: set<Id>, visited: set<Id>, at: Id)
    requires Passed(s, done, s') && Visits(done, visited) && visited <= pending && pending <= s.states.Keys
    requires at in pending && at !in visited && AnyActiveIn(s', at)
    ensures exists order :: Visits(order, pending) && (forall id | id in order :: id in s.states) &&
                            SkipAll(s, order) == Deadlock(s', at)
  {
    var rest := SomeOrder(pending - visited - {at});
    DeadlockAt(s', at, rest);
    hide SkipAll, AnyActiveIn;
    assert forall id | id in [at] + rest :: id in s.states;
    assert AfterSkips(s, done, s', [at] + rest);
    var order := done + ([at] + rest);
    JoinVisits(done, visited, at, rest, pending);
  }

  lemma DeadlockAt(s: State, at: Id, rest: seq<Id>)
    requires at in s.states && AnyActiveIn(s, at) && forall id | id in rest :: id in s.states
    ensures forall id | id in [at] + rest :: id in s.states
    ensures SkipAll(s, [at] + rest) == Deadlock(s, at)
  {
  }

  lemma JoinVisits(done: seq<Id>, visited: set<Id>, at: Id, rest: seq<Id>, pending: set<Id>)
    requires Visits(done, visited) && visited <= pending && at in pending && at !in visited
    requires Visits(rest, pending - visited - {at})
    ensures Visits(done + ([at] + rest), pending)
  {
    var order := done + ([at] + rest);
    assert forall id :: id in order <==> id in done || id == at || id in rest;
    forall i, j | 0 <= i < j < |order|
      ensures order[i] != order[j]
    {
      assert i < |done| ==> order[i] in done;
      assert j > |done| ==> order[j] in rest;
      assert i > |done| ==> order[i] == rest[i - |done| - 1];
      assert j > |done| ==> order[j] == rest[j - |done| - 1];
    }
  }
}
