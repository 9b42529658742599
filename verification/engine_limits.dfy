/** The starts of a whole run are bounded, node by node. */
module EngineLimits {
  import opened WorkflowDef
  import opened EngineState
  import opened EngineInvariants
  import opened EngineSteps
  import opened EngineFrames
  import opened EngineLoops
  import opened EngineBounds
  import opened EngineSetup

  /** Loops and the nodes in their bodies. Two bodies may share nodes; `top` is a highest rank. */
  datatype Nest = Nest(g: Graph, bodyOf: map<Id, seq<Id>>, rank: map<Id, nat>, top: nat)

  ghost predicate NestOk(e: Nest) {
    Disciplined(e.g, e.bodyOf, e.rank) && forall k | k in e.rank :: e.rank[k] <= e.top
  }

  /** The loops whose body holds `k`. */
  function Owners(e: Nest, k: Id): set<Id> {
    set l | l in e.bodyOf && k in e.bodyOf[l]
  }

  function Attempts(e: Nest, k: Id): nat {
    if k in e.g.nodes then MaxAttempts(e.g.nodes[k]) else 0
  }

  function Iter(e: Nest, l: Id): nat {
    if l in e.g.nodes && e.g.nodes[l].kind.Loop? && e.g.nodes[l].kind.loop.Some?
      then Iterations(e.g.nodes[l].kind.loop.value) else 0
  }

  ghost function Height(e: Nest, k: Id): nat {
    if RankOf(e.rank, k) <= e.top then e.top - RankOf(e.rank, k) else 0
  }

  /** Loops are higher than their bodies. */
  ghost predicate Climbs(e: Nest) {
    forall k, l | l in Owners(e, k) :: Height(e, l) < Height(e, k)
  }

  lemma OwnersHigher(e: Nest)
    requires NestOk(e)
    ensures Climbs(e) && forall k, l | l in Owners(e, k) :: l in e.g.nodes && k in e.g.nodes
  {
    forall k, l | l in Owners(e, k)
      ensures l in e.g.nodes && k in e.g.nodes && Height(e, l) < Height(e, k)
    {
      BodyRank(e.g, e.bodyOf, e.rank, l, k);
    }
  }

  /** How often `k` may start: its attempts at the beginning of the run, or, in loop bodies, its attempts
      for each round of each loop around it. */
  ghost function Allowance(e: Nest, k: Id): nat
    requires Climbs(e)
    decreases Height(e, k)
  {
    if Owners(e, k) == {} then Attempts(e, k)
    else Attempts(e, k) * Sum(map l | l in Owners(e, k) :: Iter(e, l) * Allowance(e, l))
  }

  // ----- Sums over a map -----

  ghost function Sum(m: map<Id, nat>): nat {
    if m == map[] then 0 else var k :| k in m; m[k] + Sum(m - {k})
  }

  lemma {:induction false} SumSplit(m: map<Id, nat>, k: Id)
    requires k in m
    ensures Sum(m) == m[k] + Sum(m - {k})
    decreases |m|
  {
    var j :| j in m && Sum(m) == m[j] + Sum(m - {j});
    if j != k {
      Smaller(m, j);
      Smaller(m, k);
      SumSplit(m - {j}, k);
      SumSplit(m - {k}, j);
      assert m - {j} - {k} == m - {k} - {j};
    }
  }

  lemma Smaller(m: map<Id, nat>, k: Id)
    requires k in m
    ensures |m - {k}| < |m| && (m - {k}).Keys == m.Keys - {k}
  {
    assert (m - {k}).Keys == m.Keys - {k};
    assert |m.Keys - {k}| == |m.Keys| - 1;
    assert |m - {k}| == |(m - {k}).Keys| && |m| == |m.Keys|;
  }

  /** `a` and `b` together are at most `c`, with `d` to spare at `id`. */
  ghost predicate Within(a: map<Id, nat>, b: map<Id, nat>, c: map<Id, nat>, id: Id, d: nat) {
    && a.Keys == b.Keys == c.Keys
    && forall k | k in a :: a[k] + b[k] + (if k == id then d else 0) <= c[k]
  }

  lemma {:induction false} SumWithin(a: map<Id, nat>, b: map<Id, nat>, c: map<Id, nat>, id: Id, d: nat)
    requires Within(a, b, c, id, d)
    ensures Sum(a) + Sum(b) + (if id in a then d else 0) <= Sum(c)
    decreases |a|
  {
    assert a.Keys == b.Keys == c.Keys;
    if k :| k in a {
      WithinRest(a, b, c, id, d, k);
      SumSplit(a, k);
      SumSplit(b, k);
      SumSplit(c, k);
      Smaller(a, k);
      hide Within, Sum;
      SumWithin(a - {k}, b - {k}, c - {k}, id, d);
    } else {
      assert a == map[] && b == map[];
    }
  }

  lemma WithinRest(a: map<Id, nat>, b: map<Id, nat>, c: map<Id, nat>, id: Id, d: nat, k: Id)
    requires Within(a, b, c, id, d) && k in a
    ensures k in b && k in c && a[k] + b[k] + (if k == id then d else 0) <= c[k]
            && Within(a - {k}, b - {k}, c - {k}, id, d)
  {
    Smaller(a, k);
    Smaller(b, k);
    Smaller(c, k);
    var a', b', c' := a - {k}, b - {k}, c - {k};
    forall j | j in a'
      ensures a'[j] + b'[j] + (if j == id then d else 0) <= c'[j]
    {
      assert a'[j] == a[j] && b'[j] == b[j] && c'[j] == c[j];
    }
  }

  lemma SumOne(m: map<Id, nat>, k: Id)
    requires m.Keys == {k}
    ensures Sum(m) == m[k]
  {
    SumSplit(m, k);
    assert m - {k} == map[];
  }

  lemma SumAtMost(a: map<Id, nat>, b: map<Id, nat>)
    requires a.Keys == b.Keys && forall k | k in a :: a[k] <= b[k]
    ensures Sum(a) <= Sum(b)
  {
    var zero: map<Id, nat> := map k | k in a :: 0;
    SumWithin(a, zero, b, "", 0);
  }

  // ----- Rounds -----

  // The rounds the starts of its owners allow.

  ghost function StepRounds(e: Nest, st: Step, k: Id): map<Id, nat> {
    map l | l in Owners(e, k) :: Iter(e, l) * RunsIn(st, l)
  }

  ghost function StepsRounds(e: Nest, steps: Steps, k: Id): map<Id, nat> {
    map l | l in Owners(e, k) :: Iter(e, l) * RunsInSteps(steps, l)
  }

  ghost function RoundsRounds(e: Nest, rounds: Rounds, k: Id): map<Id, nat> {
    map l | l in Owners(e, k) :: Iter(e, l) * RunsInRounds(rounds, l)
  }

  lemma StepRefilled(e: Nest, w: World, s: State, st: Step, k: Id)
    requires NestOk(e) && Inv(e.g, s) && ValidStep(w, e.bodyOf, s, st)
    ensures Refills(e.bodyOf, st, k, None) <= Sum(StepRounds(e, st, k))
    decreases st
  {
    hide NestOk, Inv, Execute, LoopOutcome, Settled, Ended, InEdgesAllow, Mark, Below, Sum, Iter;
    if st.Looped? {
      var s1 := Mark(s, st.id, Running, NoOutput, "");
      NestFacts(e);
      NodeFacts(e.g, s, st.id);
      GraphFacts(e.g, e.bodyOf, e.rank);
      StartKeeps(e.g, s, st.id);
      LoopStarts(s, st.id);
      RoundsOutcome(e.g, e.bodyOf, e.rank, w, s1, st.id, st.rounds);
      RoundsRefilled(e, w, s1, st.id, st.rounds, k);
      EndedInTime(e, w, s1, AfterRounds(w, e.bodyOf, s1, st.id, st.rounds), st.id, st.rounds);
      LoopTurn(e, st, k);
    }
  }

  lemma NestFacts(e: Nest)
    requires NestOk(e)
    ensures Disciplined(e.g, e.bodyOf, e.rank)
  {
  }

  lemma LoopStatic(e: Nest, s: State, id: Id)
    requires NestOk(e) && Inv(e.g, s) && id in s.states && id in e.bodyOf
    ensures id in e.g.nodes && s.states[id].node == e.g.nodes[id]
  {
    assert NodeShape(e.g, s);
  }

  lemma EndedInTime(e: Nest, w: World, s: State, t: State, id: Id, rounds: Rounds)
    requires NestOk(e) && Inv(e.g, s) && id in s.states && id in t.states && t.states[id] == s.states[id]
    requires s.states[id].node.kind.Loop? && Ended(w, e.bodyOf, t, id, rounds)
    ensures id in e.bodyOf ==> Count(rounds) <= Iter(e, id)
  {
    if id in e.bodyOf {
      NestFacts(e);
      LoopStatic(e, s, id);
    }
    hide NestOk, Inv, JudgeLoop, Disciplined;
  }

  /** The rounds of one execution of a loop are paid for by that execution. */
  lemma LoopTurn(e: Nest, st: Step, k: Id)
    requires st.Looped? && (st.id in e.bodyOf ==> Count(st.rounds) <= Iter(e, st.id))
    requires RoundRefills(e.bodyOf, st.id, st.rounds, k, None)
               <= Sum(RoundsRounds(e, st.rounds, k)) + if k in BodyOf(e.bodyOf, st.id) then Count(st.rounds) else 0
    ensures Refills(e.bodyOf, st, k, None) <= Sum(StepRounds(e, st, k))
  {
    var zero: map<Id, nat> := map l | l in Owners(e, k) :: 0;
    var a, c := RoundsRounds(e, st.rounds, k), StepRounds(e, st, k);
    assert st.id in Owners(e, k) <==> k in BodyOf(e.bodyOf, st.id);
    forall l | l in Owners(e, k)
      ensures a[l] + (if l == st.id then Iter(e, l) else 0) == c[l]
    {
      DistributeSum(Iter(e, l), RunsInRounds(st.rounds, l), if l == st.id then 1 else 0);
    }
    hide Iter, Count, Sum, RoundRefills;
    SumWithin(a, zero, c, st.id, Iter(e, st.id));
  }

  lemma StepsRefilled(e: Nest, w: World, s: State, l: Id, steps: Steps, k: Id)
    requires NestOk(e) && Inv(e.g, s) && ValidAll(w, e.bodyOf, s, BodyOf(e.bodyOf, l), steps)
    ensures StepsRefills(e.bodyOf, steps, k, None) <= Sum(StepsRounds(e, steps, k))
    decreases steps
  {
    hide NestOk, Inv, ValidStep, After, Below, Sum, Iter, Refills;
    if steps.Then? {
      NestFacts(e);
      StepsRefilled(e, w, s, l, steps.before, k);
      StepsOutcome(e.g, e.bodyOf, e.rank, w, s, l, steps.before);
      StepRefilled(e, w, AfterAll(w, e.bodyOf, s, steps.before), steps.last, k);
      StepsAdd(e, steps, k);
    }
  }

  lemma StepsAdd(e: Nest, steps: Steps, k: Id)
    requires steps.Then?
    ensures Sum(StepsRounds(e, steps.before, k)) + Sum(StepRounds(e, steps.last, k)) <= Sum(StepsRounds(e, steps, k))
  {
    forall l | l in Owners(e, k)
      ensures Iter(e, l) * RunsInSteps(steps.before, l) + Iter(e, l) * RunsIn(steps.last, l)
                == Iter(e, l) * RunsInSteps(steps, l)
    {
      DistributeSum(Iter(e, l), RunsInSteps(steps.before, l), RunsIn(steps.last, l));
    }
    hide Iter;
    SumWithin(StepsRounds(e, steps.before, k), StepRounds(e, steps.last, k), StepsRounds(e, steps, k), "", 0);
  }

  lemma RoundsRefilled(e: Nest, w: World, s: State, id: Id, rounds: Rounds, k: Id)
    requires NestOk(e) && Inv(e.g, s) && id in s.states && ValidRounds(w, e.bodyOf, s, id, rounds)
    ensures RoundRefills(e.bodyOf, id, rounds, k, None)
              <= Sum(RoundsRounds(e, rounds, k)) + if k in BodyOf(e.bodyOf, id) then Count(rounds) else 0
    decreases rounds
  {
    hide NestOk, Inv, ValidAll, Quiet, Below, ResetAll, Sum, Iter;
    if rounds.Round? {
      var t := AfterRounds(w, e.bodyOf, s, id, rounds.before);
      NestFacts(e);
      RoundsRefilled(e, w, s, id, rounds.before, k);
      RoundsOutcome(e.g, e.bodyOf, e.rank, w, s, id, rounds.before);
      ResetOutcome(e.g, e.bodyOf, e.rank, t, id);
      StepsRefilled(e, w, ResetAll(t, BodyOf(e.bodyOf, id)), id, rounds.steps, k);
      RoundsAdd(e, rounds, k);
    }
  }

  lemma RoundsAdd(e: Nest, rounds: Rounds, k: Id)
    requires rounds.Round?
    ensures Sum(RoundsRounds(e, rounds.before, k)) + Sum(StepsRounds(e, rounds.steps, k)) <= Sum(RoundsRounds(e, rounds,
                k))
  {
    forall l | l in Owners(e, k)
      ensures Iter(e, l) * RunsInRounds(rounds.before, l) + Iter(e, l) * RunsInSteps(rounds.steps, l)
                == Iter(e, l) * RunsInRounds(rounds, l)
    {
      DistributeSum(Iter(e, l), RunsInRounds(rounds.before, l), RunsInSteps(rounds.steps, l));
    }
    hide Iter;
    SumWithin(RoundsRounds(e, rounds.before, k), StepsRounds(e, rounds.steps, k), RoundsRounds(e, rounds, k), "", 0);
  }

  lemma {:induction false} ScheduleRefilled(e: Nest, w: World, templates: set<Id>, s: State, steps: Steps, k: Id)
    requires NestOk(e) && Inv(e.g, s) && Scheduled(w, e.bodyOf, templates, s, steps)
    ensures StepsRefills(e.bodyOf, steps, k, None) <= Sum(StepsRounds(e, steps, k))
    decreases steps
  {
    hide NestOk, Inv, ValidStep, After, Below, Sum, Iter, Refills, IsLoopBody;
    if steps.Then? {
      NestFacts(e);
      ScheduleRefilled(e, w, templates, s, steps.before, k);
      ScheduleKeeps(e.g, e.bodyOf, templates, e.rank, w, s, steps.before);
      StepRefilled(e, w, AfterAll(w, e.bodyOf, s, steps.before), steps.last, k);
      StepsAdd(e, steps, k);
    }
  }

  // ----- Whole runs -----

  ghost predicate RunOf(e: Nest, w: World, templates: set<Id>, s: State, steps: Steps) {
    NestOk(e) && FreshRun(e.g, s) && Scheduled(w, e.bodyOf, templates, s, steps)
  }

  /** The log of a run agrees with its tree. */
  lemma RunCounts(e: Nest, w: World, templates: set<Id>, s: State, steps: Steps, k: Id)
    requires RunOf(e, w, templates, s, steps)
    ensures Inv(e.g, s) && Starts(AfterAll(w, e.bodyOf, s, steps).events, k) == RunsInSteps(steps, k)
  {
    GraphFacts(e.g, e.bodyOf, e.rank);
    FreshInv(e.g, s);
    hide Disciplined, FreshRun, Inv, Scheduled, AfterAll;
    ScheduleCounts(e.g, e.bodyOf, templates, e.rank, w, s, steps, k);
  }

  /** In a run from a fresh start a node starts at most as often as its attempts, for each round of each
      loop around it; loop bodies may share nodes. */
  lemma {:induction false} StartsBounded(e: Nest, w: World, templates: set<Id>, s: State, steps: Steps, k: Id)
    requires RunOf(e, w, templates, s, steps) && k in e.g.nodes
    ensures Climbs(e) && Starts(AfterAll(w, e.bodyOf, s, steps).events, k) <= Allowance(e, k)
    decreases Height(e, k)
  {
    RunCounts(e, w, templates, s, steps, k);
    RunsPaid(e, w, templates, s, steps, k);
    OwnersHigher(e);
    hide NestOk, Inv, FreshRun, Scheduled, AfterAll, Starts, Sum, Iter, Attempts;
    forall l | l in Owners(e, k)
      ensures RunsInSteps(steps, l) <= Allowance(e, l)
    {
      StartsBounded(e, w, templates, s, steps, l);
      RunCounts(e, w, templates, s, steps, l);
    }
    if Owners(e, k) != {} {
      hide Owners, RunsInSteps;
      var a, b := StepsRounds(e, steps, k), map l | l in Owners(e, k) :: Iter(e, l) * Allowance(e, l);
      forall l | l in Owners(e, k)
        ensures a[l] <= b[l]
      {
        Grows(Iter(e, l), RunsInSteps(steps, l), Allowance(e, l));
      }
      SumAtMost(a, b);
      Grows(Attempts(e, k), Sum(a), Sum(b));
    }
  }

  lemma Grows(c: nat, x: nat, y: nat)
    requires x <= y
    ensures c * x <= c * y
  {
  }

  /** What the starts of a node cost. */
  lemma RunsPaid(e: Nest, w: World, templates: set<Id>, s: State, steps: Steps, k: Id)
    requires RunOf(e, w, templates, s, steps) && Inv(e.g, s) && k in e.g.nodes
    ensures Owners(e, k) == {} ==> RunsInSteps(steps, k) <= Attempts(e, k)
    ensures Owners(e, k) != {} ==> RunsInSteps(steps, k) <= Attempts(e, k) * Sum(StepsRounds(e, steps, k))
  {
    NestFacts(e);
    FreshLeft(e, s, k);
    hide NestOk, Disciplined, Inv, FreshRun, Scheduled, AfterAll, Sum, Iter, RunsInSteps, StepsRefills, LeftIn,
      MaxAttempts;
    SchedulePays(e.g, e.bodyOf, templates, e.rank, w, s, steps, k, None);
    ScheduleRefilled(e, w, templates, s, steps, k);
    OwnedPays(e, steps, k, StepsRefills(e.bodyOf, steps, k, None), RunsInSteps(steps, k));
  }

  lemma OwnedPays(e: Nest, steps: Steps, k: Id, refills: nat, runs: nat)
    requires refills <= Sum(StepsRounds(e, steps, k))
    requires runs <= Attempts(e, k) + Attempts(e, k) * refills
    requires IsLoopBody(e.bodyOf, k) ==> runs <= Attempts(e, k) * refills
    ensures Owners(e, k) == {} ==> runs <= Attempts(e, k)
    ensures Owners(e, k) != {} ==> runs <= Attempts(e, k) * Sum(StepsRounds(e, steps, k))
  {
    hide Sum, Attempts, Iter, RunsInSteps;
    if Owners(e, k) != {} {
      var l :| l in Owners(e, k);
      assert IsLoopBody(e.bodyOf, k);
      Grows(Attempts(e, k), refills, Sum(StepsRounds(e, steps, k)));
    } else {
      assert StepsRounds(e, steps, k) == map[];
      NoSum();
    }
  }

  lemma NoSum()
    ensures Sum(map[]) == 0
  {
  }

  lemma FreshLeft(e: Nest, s: State, k: Id)
    requires FreshRun(e.g, s)
    ensures LeftIn(s, k) == Attempts(e, k)
  {
  }

  /** A clone starts at most as often as its template's attempts, for each start of its fork. */
  lemma CloneStartsBounded(e: Nest, w: World, templates: set<Id>, s: State, steps: Steps, f: Id, k: Id)
    requires RunOf(e, w, templates, s, steps) && IsFork(e.g, f) && CloneOf(e.g, k, f)
    ensures var t := AfterAll(w, e.bodyOf, s, steps);
            && Climbs(e) && Starts(t.events, k) <= Attempts(e, Tpl(e.g, f)) * Starts(t.events, f)
            && Starts(t.events, k) <= Attempts(e, Tpl(e.g, f)) * Allowance(e, f)
  {
    RunCounts(e, w, templates, s, steps, k);
    RunCounts(e, w, templates, s, steps, f);
    StartsBounded(e, w, templates, s, steps, f);
    NestFacts(e);
    GraphFacts(e.g, e.bodyOf, e.rank);
    CloneIsNew(e.g, f, k);
    SchedulePays(e.g, e.bodyOf, templates, e.rank, w, s, steps, k, Some(f));
    FreshLeft(e, s, k);
    CloneRefills(e, steps, f, k);
    hide NestOk, Inv, FreshRun, Scheduled, AfterAll, RunsInSteps, StepsRefills, LeftIn, CloneOf;
    Grows(Attempts(e, Tpl(e.g, f)), StepsRefills(e.bodyOf, steps, k, Some(f)), RunsInSteps(steps, f));
    Grows(Attempts(e, Tpl(e.g, f)), RunsInSteps(steps, f), Allowance(e, f));
  }

  lemma CloneRefills(e: Nest, steps: Steps, f: Id, k: Id)
    requires NestOk(e) && k !in e.g.nodes
    ensures StepsRefills(e.bodyOf, steps, k, Some(f)) <= RunsInSteps(steps, f)
    decreases steps
  {
    hide NestOk;
    if steps.Then? {
      CloneRefills(e, steps.before, f, k);
      if steps.last.Looped? {
        CloneRoundRefills(e, steps.last.id, steps.last.rounds, f, k);
      }
    }
  }

  lemma CloneRoundRefills(e: Nest, id: Id, rounds: Rounds, f: Id, k: Id)
    requires NestOk(e) && k !in e.g.nodes
    ensures RoundRefills(e.bodyOf, id, rounds, k, Some(f)) <= RunsInRounds(rounds, f)
    decreases rounds
  {
    if rounds.Round? {
      OwnersHigher(e);
      assert k in BodyOf(e.bodyOf, id) ==> id in Owners(e, k);
      hide NestOk;
      CloneRoundRefills(e, id, rounds.before, f, k);
      CloneRefills(e, rounds.steps, f, k);
    }
  }

  // ----- Disjoint bodies -----

  ghost predicate DisjointBodies(e: Nest) {
    forall k, l, m | l in Owners(e, k) && m in Owners(e, k) :: l == m
  }

  /** The attempts of `k` times the iterations of the loops around it, one loop inside another. */
  ghost function Product(e: Nest, k: Id): nat
    requires Climbs(e)
    decreases Height(e, k)
  {
    if Owners(e, k) == {} then Attempts(e, k)
    else
      var l :| l in Owners(e, k);
      Attempts(e, k) * (Iter(e, l) * Product(e, l))
  }

  /** When no node is in two bodies the bound is the product. */
  lemma {:induction false} DisjointProduct(e: Nest, k: Id)
    requires Climbs(e) && DisjointBodies(e)
    ensures Allowance(e, k) == Product(e, k)
    decreases Height(e, k)
  {
    if l :| l in Owners(e, k) {
      DisjointProduct(e, l);
      assert Owners(e, k) == {l};
      SumOne(map j | j in Owners(e, k) :: Iter(e, j) * Allowance(e, j), l);
      hide Owners, Iter, Attempts, Sum;
    }
  }
}
