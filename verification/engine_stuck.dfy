/** Which loop bodies get stuck: in no world, or in some world always. */
module EngineStuck {
  import opened WorkflowDef
  import opened EngineState
  import opened EngineInvariants
  import opened EngineMeasure
  import opened EngineFrames
  import opened EngineLoops
  import opened EngineOrigin
  import opened EngineRounds
  import Setup = EngineSetup
  import V = Validation

  /** What a round of the loop `id` leaves behind. */
  ghost predicate RoundOf(g: Graph, bodyOf: map<Id, seq<Id>>, rank: map<Id, nat>, w: World, s: State, id: Id,
                          rounds: Rounds) {
    && Disciplined(g, bodyOf, rank) && Inv(g, s) && OriginOk(g, s) && id in s.states
       && ValidRounds(w, bodyOf, s, id, rounds)
    && rounds.Round? && FlatBody(g, BodyOf(bodyOf, id)) && SpecOf(s, id).Some?
  }

  ghost predicate StuckAfter(bodyOf: map<Id, seq<Id>>, w: World, s: State, id: Id, rounds: Rounds) {
    JudgeLoop(w, bodyOf, AfterRounds(w, bodyOf, s, id, rounds), id).Stuck?
  }

  /** The end of a round in which every body node is terminal: all in-edges let their nodes run. */
  ghost predicate AllRan(g: Graph, w: World, t: State, body: seq<Id>) {
    && Shape(g, t) && OriginOk(g, t) && RoundOk(g, w, t, body)
    && forall b | b in body :: b in t.states && Terminal(t.states[b].status) && InEdgesAllow(t, b)
  }

  lemma NotStuckRan(g: Graph, bodyOf: map<Id, seq<Id>>, rank: map<Id, nat>, w: World, s: State, id: Id, rounds: Rounds)
    requires RoundOf(g, bodyOf, rank, w, s, id, rounds)
    ensures var t := AfterRounds(w, bodyOf, s, id, rounds);
            AllRan(g, w, t, BodyOf(bodyOf, id)) <==> !StuckAfter(bodyOf, w, s, id, rounds)
  {
    var t := AfterRounds(w, bodyOf, s, id, rounds);
    var body := BodyOf(bodyOf, id);
    RoundIsOk(g, bodyOf, rank, w, s, id, rounds);
    RoundsOutcome(g, bodyOf, rank, w, s, id, rounds);
    RoundsOrigin(g, bodyOf, rank, w, s, id, rounds);
    LoopStuck(w, bodyOf, s, t, id);
    StuckMeans(t, body);
    hide Disciplined, Below, OriginOk, FlatBody, RoundOk, Quiet, AfterRounds, ValidRounds, JudgeLoop, FirstStuck,
      InEdgesAllow, Shape;
    ShapeOf(g, t);
    hide Inv;
    forall b | b in body
      ensures b in t.states && (Terminal(t.states[b].status) <==> InEdgesAllow(t, b))
    {
      TerminalIff(g, w, t, body, b);
    }
  }

  /** A loop is stuck after a round in which a fork of its body made a clone, if its join is in the body. */
  lemma ForkedBodySticks(g: Graph, bodyOf: map<Id, seq<Id>>, rank: map<Id, nat>, w: World, s: State, id: Id,
                         rounds: Rounds, f: Id, n: nat)
    requires RoundOf(g, bodyOf, rank, w, s, id, rounds)
    requires f in BodyOf(bodyOf, id) && IsFork(g, f) && JoinOf(g, f).Some? && JoinOf(g, f).value in BodyOf(bodyOf, id)
             && n > 0
    requires var t := AfterRounds(w, bodyOf, s, id, rounds);
             f in t.states && t.states[f].status.Completed? && t.states[f].output == Single("count", Num(n))
    ensures StuckAfter(bodyOf, w, s, id, rounds)
  {
    NotStuckRan(g, bodyOf, rank, w, s, id, rounds);
    hide RoundOf, StuckAfter, AfterRounds, AllRan;
    var t := AfterRounds(w, bodyOf, s, id, rounds);
    if AllRan(g, w, t, BodyOf(bodyOf, id)) {
      ForkHeldBack(g, w, t, BodyOf(bodyOf, id), f, n);
    }
  }

  lemma HeldEdge(g: Graph, t: State, f: Id, n: nat, j: Id)
    requires IsFork(g, f) && f in t.states && ClonesWait(g, t, f) && JoinOf(g, f) == Some(j) && j in g.nodes && n > 0
    requires t.states[f].status.Completed? && t.states[f].output == Single("count", Num(n))
    ensures exists e :: e in Ins(t, j) && !SourceTerminal(t, e)
  {
    var m: nat :| t.states[f].output == Single("count", Num(m)) && HoldBack(g, t, f, m);
    SameCount(n, m);
    hide CloneId, JoinOf;
    assert Edge(CloneId(Tpl(g, f), 0), j, Always, "") in Ins(t, j);
  }

  lemma ForkHeldBack(g: Graph, w: World, t: State, body: seq<Id>, f: Id, n: nat)
    requires f in body && IsFork(g, f) && JoinOf(g, f).Some? && JoinOf(g, f).value in body && n > 0
    requires f in t.states && t.states[f].status.Completed? && t.states[f].output == Single("count", Num(n))
    ensures !AllRan(g, w, t, body)
  {
    if AllRan(g, w, t, body) {
      var j := JoinOf(g, f).value;
      assert NodeOk(g, w, t, f);
      assert j in t.states && InEdgesAllow(t, j);
      hide AllRan, NodeOk, ClonesWait, JoinOf, EdgeHolds;
      JoinKnown(g, f);
      HeldEdge(g, t, f, n, j);
    }
  }

  lemma JoinKnown(g: Graph, f: Id)
    requires IsFork(g, f) && JoinOf(g, f).Some?
    ensures JoinOf(g, f).value in g.nodes
  {
    JoinEdge(g, f);
  }

  lemma SameCount(n: nat, m: nat)
    requires Single("count", Num(n)) == Single("count", Num(m))
    ensures n == m
  {
    assert Single("count", Num(n)).json.fields["count"] == Num(n);
    assert Single("count", Num(m)).json.fields["count"] == Num(m);
  }

  // ----- Contrary edges -----

  predicate SuccessLike(c: Selector) {
    c.Unset? || c.OnSuccess? || c.OnApproved? || c.OnRejected?
  }

  /** Two edges out of one node of which at most one can hold. */
  predicate Contrary(n: Node, a: Edge, b: Edge) {
    if n.kind.Condition? then a.branchKey != "" && b.branchKey != "" && a.branchKey != b.branchKey
    else (a.cond.OnApproved? && b.cond.OnRejected?) || (SuccessLike(a.cond) && b.cond.OnFailed?)
  }

  lemma NeverBoth(s: State, a: Edge, b: Edge)
    requires a.from == b.from && a.from in s.states && Contrary(s.states[a.from].node, a, b)
    ensures !(EdgeHolds(s, a) && EdgeHolds(s, b))
  {
  }

  lemma StaticHolds(g: Graph, w: World, t: State, body: seq<Id>, e: Edge)
    requires GraphOk(g) && AllRan(g, w, t, body) && e in g.edges && e.to in body && !g.nodes[e.to].kind.Join?
    ensures e.from in t.states && t.states[e.from].node == g.nodes[e.from] && EdgeHolds(t, e)
  {
    assert e in Ins(t, e.to) && NodeOk(g, w, t, e.to) && InEdgesAllow(t, e.to);
  }

  /** A loop whose body has contrary edges to two nodes that are no joins, two branches of a condition or
      the two answers of a gate, say, is stuck after its first round. */
  lemma {:induction false} BranchedBodySticks(g: Graph, bodyOf: map<Id, seq<Id>>, rank: map<Id, nat>, w: World,
                                              s: State, id: Id, rounds: Rounds, a: Edge, b: Edge)
    requires RoundOf(g, bodyOf, rank, w, s, id, rounds)
    requires a in g.edges && b in g.edges && a.from == b.from && a.from in g.nodes && Contrary(g.nodes[a.from], a, b)
    requires a.to in BodyOf(bodyOf, id) && b.to in BodyOf(bodyOf, id) && a.to in g.nodes && b.to in g.nodes
    requires !g.nodes[a.to].kind.Join? && !g.nodes[b.to].kind.Join?
    ensures StuckAfter(bodyOf, w, s, id, rounds) && Count(rounds) == 1
    decreases rounds
  {
    NotStuckRan(g, bodyOf, rank, w, s, id, rounds);
    GraphFacts(g, bodyOf, rank);
    var t := AfterRounds(w, bodyOf, s, id, rounds);
    if AllRan(g, w, t, BodyOf(bodyOf, id)) {
      StaticHolds(g, w, t, BodyOf(bodyOf, id), a);
      StaticHolds(g, w, t, BodyOf(bodyOf, id), b);
      hide AllRan, EdgeHolds;
      NeverBoth(t, a, b);
      assert false;
    }
    hide AllRan, Disciplined, Inv, OriginOk, FlatBody, ValidAll, Quiet;
    if rounds.before.Round? {
      BranchedBodySticks(g, bodyOf, rank, w, s, id, rounds.before, a, b);
    }
  }

  // ----- Bodies that never stick, and bodies that do -----

  /** Every edge into the body starts in the body. */
  ghost predicate SelfContained(g: Graph, body: seq<Id>) {
    forall e | e in g.edges && e.to in body :: e.from in body
  }

  /** No edge out of a join waits for its failure. */
  ghost predicate JoinsNotAwaited(g: Graph, body: seq<Id>) {
    forall e | e in g.edges && e.to in body && e.from in g.nodes && g.nodes[e.from].kind.Join? :: !e.cond.OnFailed?
  }

  /** A node that can fail by itself. */
  predicate Fallible(g: Graph, k: Id) {
    k in g.nodes && var kind := g.nodes[k].kind;
    kind.Agent? || kind.HumanApproval? || kind.Condition? || kind.Transform? || kind.ParallelFork? || kind.Subworkflow?
      || kind.Unknown?
  }

  /** A way from a node that can fail through joins. */
  ghost predicate FailPath(g: Graph, p: seq<Id>) {
    && p != [] && Fallible(g, p[0])
    && forall i | 0 < i < |p| :: p[i] in g.nodes && g.nodes[p[i]].kind.Join? && Linked(g, p[i - 1], p[i])
  }

  ghost predicate Linked(g: Graph, a: Id, b: Id) {
    exists e :: e in g.edges && e.from == a && e.to == b
  }

  ghost predicate MayFail(g: Graph, k: Id) {
    exists p :: FailPath(g, p) && p[|p| - 1] == k
  }

  predicate AlwaysFails(g: Graph, k: Id) {
    k in g.nodes &&
    match g.nodes[k].kind
    case Subworkflow => true
    case Unknown(_) => true
    case ParallelFork(Some(f)) => f.template !in g.nodes
    case _ => false
  }

  /** An edge that holds however its source ends. */
  ghost predicate Sure(g: Graph, e: Edge)
    requires e.from in g.nodes
  {
    if g.nodes[e.from].kind.Condition? then
      e.branchKey == "" && e.cond.Always? && forall o | o in g.edges && o.from == e.from :: o.branchKey == ""
    else
      match e.cond
      case Always => true
      case Unset => !MayFail(g, e.from)
      case OnSuccess => !MayFail(g, e.from)
      case OnRejected => !MayFail(g, e.from)
      case OnFailed => AlwaysFails(g, e.from)
      case _ => false
  }

  /** Every edge into a node that is no join holds for sure, and no fork can feed a join. */
  ghost predicate Smooth(g: Graph, body: seq<Id>) {
    && (forall e | e in g.edges && e.to in body && e.to in g.nodes && e.from in g.nodes
        && !g.nodes[e.to].kind.Join? :: Sure(g, e))
    && (forall f | f in body && IsFork(g, f) :: JoinOf(g, f).None? || Tpl(g, f) !in g.nodes)
  }

  /** A body node that failed can fail. */
  lemma {:induction false} FailedMayFail(g: Graph, w: World, t: State, body: seq<Id>, num: map<Id, nat>, k: Id)
    requires GraphOk(g) && Shape(g, t) && OriginOk(g, t) && RoundOk(g, w, t, body) && FlatBody(g, body)
             && SelfContained(g, body)
    requires V.Ranked(g.edges, num) && k in body && k in t.states && t.states[k].status.Failed?
    ensures MayFail(g, k)
    decreases if k in num then num[k] else 0
  {
    assert NodeOk(g, w, t, k);
    if g.nodes[k].kind.Join? {
      var e :| e in Ins(t, k) && FailedSource(t, e);
      FailedSourceMay(g, t, body, k, e);
      if e in g.edges {
        FailedMayFail(g, w, t, body, num, e.from);
        Further(g, e.from, k);
      }
    } else {
      assert Fallible(g, k);
      Itself(g, k);
    }
  }

  lemma FailedSourceMay(g: Graph, t: State, body: seq<Id>, k: Id, e: Edge)
    requires GraphOk(g) && Shape(g, t) && OriginOk(g, t) && SelfContained(g, body)
    requires k in body && k in g.nodes && g.nodes[k].kind.Join? && e in Ins(t, k)
    ensures e.to == k
    ensures e in g.edges ==> e.from in body && Linked(g, e.from, k)
    ensures e !in g.edges ==> MayFail(g, k)
  {
    InTarget(g, t, k, e);
    EdgeOrClone(g, t, k, e);
    hide Shape, OriginOk, GraphOk, MayFail, FromClone;
    if e !in g.edges {
      CloneMayFail(g, k, e);
    }
  }

  lemma InTarget(g: Graph, t: State, k: Id, e: Edge)
    requires Shape(g, t) && e in Ins(t, k)
    ensures e.to == k
  {
    TargetOf(g, t, k, e);
  }

  lemma EdgeOrClone(g: Graph, t: State, k: Id, e: Edge)
    requires OriginOk(g, t) && k in g.nodes && e in Ins(t, k)
    ensures e in g.edges || FromClone(g, e)
  {
    hide FromClone;
  }

  /** The join behind a fork can fail, because the fork can. */
  lemma CloneMayFail(g: Graph, k: Id, e: Edge)
    requires FromClone(g, e) && e.to == k && k in g.nodes && g.nodes[k].kind.Join?
    ensures MayFail(g, k)
  {
    hide CloneId, JoinOf;
    var f, i: nat :| IsFork(g, f) && Tpl(g, f) in g.nodes && e.from == CloneId(Tpl(g, f), i)
      && JoinOf(g, f) == Some(e.to);
    JoinEdge(g, f);
    Itself(g, f);
    hide MayFail;
    assert Linked(g, f, k);
    Further(g, f, k);
  }

  lemma Itself(g: Graph, k: Id)
    requires Fallible(g, k)
    ensures MayFail(g, k)
  {
    assert FailPath(g, [k]);
  }

  lemma Further(g: Graph, a: Id, k: Id)
    requires MayFail(g, a) && k in g.nodes && g.nodes[k].kind.Join? && Linked(g, a, k)
    ensures MayFail(g, k)
  {
    var p :| FailPath(g, p) && p[|p| - 1] == a;
    var q := p + [k];
    assert forall i | 0 <= i < |p| :: q[i] == p[i];
    hide Fallible, Linked;
    assert FailPath(g, q);
  }

  // ----- No world gets a smooth body stuck -----

  lemma SureHolds(g: Graph, w: World, t: State, body: seq<Id>, num: map<Id, nat>, e: Edge)
    requires GraphOk(g) && Shape(g, t) && OriginOk(g, t) && RoundOk(g, w, t, body) && FlatBody(g, body)
             && SelfContained(g, body)
    requires V.Ranked(g.edges, num) && e in g.edges && e.from in body && Sure(g, e)
    requires e.from in t.states && Terminal(t.states[e.from].status)
    ensures EdgeHolds(t, e)
  {
    var k := e.from;
    assert NodeOk(g, w, t, k);
    if g.nodes[k].kind.Condition? {
      SureBranch(g, t, e);
    } else {
      if t.states[k].status.Failed? {
        FailedMayFail(g, w, t, body, num, k);
      }
      SureSelector(g, w, t, e);
    }
  }

  lemma SureBranch(g: Graph, t: State, e: Edge)
    requires OriginOk(g, t) && e in g.edges && e.from in g.nodes && e.from in t.states
             && t.states[e.from].node == g.nodes[e.from]
    requires g.nodes[e.from].kind.Condition? && Sure(g, e)
    ensures EdgeHolds(t, e)
  {
    StaticOutsAre(g.edges, e.from);
    assert Outs(t, e.from) == StaticOuts(g.edges, e.from);
  }

  lemma SureSelector(g: Graph, w: World, t: State, e: Edge)
    requires e.from in g.nodes && NodeOk(g, w, t, e.from) && Sure(g, e) && !g.nodes[e.from].kind.Condition?
    requires Terminal(t.states[e.from].status) && (t.states[e.from].status.Failed? ==> MayFail(g, e.from))
    ensures EdgeHolds(t, e)
  {
    hide InEdgesAllow, JoinSettled, ClonesWait;
    if e.cond.OnRejected? && g.nodes[e.from].kind.HumanApproval? {
      Itself(g, e.from);
    }
    hide MayFail;
  }

  /** In a smooth body every node runs, sources first. */
  lemma {:induction false} SmoothRuns(g: Graph, w: World, t: State, body: seq<Id>, num: map<Id, nat>, b: Id)
    requires GraphOk(g) && Shape(g, t) && OriginOk(g, t) && RoundOk(g, w, t, body) && FlatBody(g, body)
             && SelfContained(g, body)
    requires V.Ranked(g.edges, num) && Smooth(g, body) && Quiet(t, body) && b in body
    ensures b in t.states && InEdgesAllow(t, b) && Terminal(t.states[b].status)
    decreases if b in num then num[b] else 0
  {
    TerminalIff(g, w, t, body, b);
    assert NodeOk(g, w, t, b);
    forall e | e in Ins(t, b)
      ensures SourceTerminal(t, e) && (t.states[b].node.kind.Join? || EdgeHolds(t, e))
    {
      SmoothSource(g, t, body, b, e);
      SmoothRuns(g, w, t, body, num, e.from);
      if !t.states[b].node.kind.Join? {
        SureHolds(g, w, t, body, num, e);
      }
    }
  }

  lemma SmoothSource(g: Graph, t: State, body: seq<Id>, b: Id, e: Edge)
    requires GraphOk(g) && Shape(g, t) && OriginOk(g, t) && SelfContained(g, body) && Smooth(g, body)
    requires b in body && b in g.nodes && e in Ins(t, b)
    ensures e in g.edges && e.to == b && e.from in body && e.from in g.nodes && (!g.nodes[b].kind.Join? ==> Sure(g, e))
  {
    InTarget(g, t, b, e);
    EdgeOrClone(g, t, b, e);
    NoCloneFeeds(g, body, b, e);
    hide Shape, OriginOk, Sure, FromClone;
  }

  lemma NoCloneFeeds(g: Graph, body: seq<Id>, b: Id, e: Edge)
    requires SelfContained(g, body) && Smooth(g, body) && b in body && e.to == b
    ensures !FromClone(g, e)
  {
    hide CloneId, JoinOf, Sure;
    forall f | IsFork(g, f) && JoinOf(g, f) == Some(b)
      ensures f in body
    {
      JoinEdge(g, f);
    }
  }

  /** Whatever the executor and the expressions do, a loop with a smooth body is never stuck. */
  lemma SmoothNeverSticks(g: Graph, bodyOf: map<Id, seq<Id>>, rank: map<Id, nat>, w: World, s: State, id: Id,
                          rounds: Rounds)
    requires RoundOf(g, bodyOf, rank, w, s, id, rounds) && V.Acyclic(g.edges)
    requires SelfContained(g, BodyOf(bodyOf, id)) && Smooth(g, BodyOf(bodyOf, id))
    ensures !StuckAfter(bodyOf, w, s, id, rounds)
  {
    var t := AfterRounds(w, bodyOf, s, id, rounds);
    var body := BodyOf(bodyOf, id);
    NotStuckRan(g, bodyOf, rank, w, s, id, rounds);
    RoundIsOk(g, bodyOf, rank, w, s, id, rounds);
    RoundsOutcome(g, bodyOf, rank, w, s, id, rounds);
    RoundsOrigin(g, bodyOf, rank, w, s, id, rounds);
    GraphFacts(g, bodyOf, rank);
    var num: map<Id, nat> :| V.Ranked(g.edges, num);
    hide Disciplined, Below, OriginOk, RoundOk, Quiet, AfterRounds, ValidRounds, StuckAfter, InEdgesAllow, Shape,
      Smooth, SelfContained, GraphOk;
    ShapeOf(g, t);
    hide Inv;
    forall b | b in body
      ensures b in t.states && InEdgesAllow(t, b) && Terminal(t.states[b].status)
    {
      SmoothRuns(g, w, t, body, num, b);
    }
  }

  // ----- Some world gets any other body stuck -----

  /** Every call fails. */
  function FailWorld(): World {
    World((n: Node, a: nat, i: Scope, c: nat) => AgentErr("no"), (n: Node, c: nat) => GateErr("no"),
          (x: Expr, sc: Scope) => EvalErr("no"), (v: Json) => "", (n: Node, a: nat, c: nat) => false)
  }

  /** Every call succeeds and every expression evaluates to `v`. */
  function GiveWorld(v: Json): World {
    World((n: Node, a: nat, i: Scope, c: nat) => AgentOk(NoOutput), (n: Node, c: nat) => Decided(true, None),
          (x: Expr, sc: Scope) => Evaluated(v), (u: Json) => "", (n: Node, a: nat, c: nat) => false)
  }

  lemma FailWorldFails()
    ensures var w := FailWorld(); AgentsErr(w) && GatesErr(w) && EvalsErr(w)
  {
  }

  lemma GiveWorldGives(v: Json)
    ensures var w := GiveWorld(v); AgentsOk(w) && GatesOk(w) && EvalsOk(w) && Evals(w, Evaluated(v))
  {
  }

  /** A loop that every round leaves stuck. */
  ghost predicate AlwaysSticks(g: Graph, bodyOf: map<Id, seq<Id>>, rank: map<Id, nat>, w: World, id: Id) {
    forall s, rounds | RoundOf(g, bodyOf, rank, w, s, id, rounds) :: StuckAfter(bodyOf, w, s, id, rounds)
  }

  /** It is enough that no end of a round has run all of the body. */
  lemma SticksIfNoneRan(g: Graph, bodyOf: map<Id, seq<Id>>, rank: map<Id, nat>, w: World, id: Id)
    requires forall t :: !AllRan(g, w, t, BodyOf(bodyOf, id))
    ensures AlwaysSticks(g, bodyOf, rank, w, id)
  {
    forall s, rounds | RoundOf(g, bodyOf, rank, w, s, id, rounds)
      ensures StuckAfter(bodyOf, w, s, id, rounds)
    {
      NotStuckRan(g, bodyOf, rank, w, s, id, rounds);
      hide RoundOf, AllRan, StuckAfter;
    }
  }

  lemma OwnFailure(g: Graph, t: State, k: Id)
    requires NodeOk(g, FailWorld(), t, k) && Fallible(g, k) && Terminal(t.states[k].status)
    ensures t.states[k].status.Failed?
  {
    FailWorldFails();
    hide InEdgesAllow, JoinSettled, ClonesWait, FailWorld, AgentsErr, GatesErr, EvalsErr, AgentsOk, GatesOk, EvalsOk;
  }

  /** A join with a failed source has failed. */
  lemma JoinFailed(g: Graph, w: World, t: State, a: Id, k: Id)
    requires NodeOk(g, w, t, k) && EdgeShape(g, t) && t.states[k].node.kind.Join? && Terminal(t.states[k].status)
    requires Linked(g, a, k) && a in t.states && t.states[a].status.Failed?
    ensures t.states[k].status.Failed?
  {
    hide InEdgesAllow, ClonesWait, Explained;
    var e :| e in g.edges && e.from == a && e.to == k;
    assert e in Ins(t, k) && FailedSource(t, e);
  }

  lemma PathStep(g: Graph, body: seq<Id>, p: seq<Id>)
    requires FailPath(g, p) && SelfContained(g, body) && |p| > 1 && p[|p| - 1] in body
    ensures FailPath(g, p[..|p| - 1]) && p[|p| - 2] in body && Linked(g, p[|p| - 2], p[|p| - 1])
    ensures p[|p| - 1] in g.nodes && g.nodes[p[|p| - 1]].kind.Join?
  {
    hide Fallible;
    assert Linked(g, p[|p| - 2], p[|p| - 1]);
    var q := p[..|p| - 1];
    forall i | 0 < i < |q|
      ensures q[i] in g.nodes && g.nodes[q[i]].kind.Join? && Linked(g, q[i - 1], q[i])
    {
      assert q[i] == p[i] && q[i - 1] == p[i - 1] && Linked(g, p[i - 1], p[i]);
    }
  }

  /** When everything fails, what may fail has failed. */
  lemma {:induction false} PathFailed(g: Graph, t: State, body: seq<Id>, p: seq<Id>)
    requires AllRan(g, FailWorld(), t, body) && SelfContained(g, body) && FailPath(g, p) && p[|p| - 1] in body
    ensures p[|p| - 1] in t.states && t.states[p[|p| - 1]].status.Failed?
    decreases |p|
  {
    var k := p[|p| - 1];
    assert NodeOk(g, FailWorld(), t, k) && Terminal(t.states[k].status) && EdgeShape(g, t);
    if |p| == 1 {
      assert Fallible(g, k);
      hide NodeOk, AllRan;
      OwnFailure(g, t, k);
    } else {
      PathStep(g, body, p);
      assert t.states[k].node == g.nodes[k];
      hide NodeOk, FailPath, FailWorld;
      assert p[..|p| - 1][|p| - 2] == p[|p| - 2];
      PathFailed(g, t, body, p[..|p| - 1]);
      hide AllRan;
      JoinFailed(g, FailWorld(), t, p[|p| - 2], k);
    }
  }

  /** When everything fails, no edge holds that waits for success of a node that may fail, or for a branch. */
  lemma FailsAgainst(g: Graph, t: State, body: seq<Id>, e: Edge)
    requires AllRan(g, FailWorld(), t, body) && SelfContained(g, body) && e in g.edges && e.from in body
             && e.from in g.nodes
    requires if g.nodes[e.from].kind.Condition? then e.branchKey != "" || !e.cond.Always?
             else !e.cond.Always? && !e.cond.OnFailed? && (e.cond.OnApproved? || e.cond.Other? || MayFail(g, e.from))
    ensures e.from in t.states && !EdgeHolds(t, e)
  {
    var k := e.from;
    FailWorldFails();
    assert NodeOk(g, FailWorld(), t, k) && Terminal(t.states[k].status);
    if MayFail(g, k) {
      var p :| FailPath(g, p) && p[|p| - 1] == k;
      PathFailed(g, t, body, p);
    }
    if g.nodes[k].kind.HumanApproval? {
      OwnFailure(g, t, k);
    }
    hide AllRan, FailWorld, MayFail, SelfContained;
    NoHold(g, FailWorld(), t, e);
  }

  lemma NoHold(g: Graph, w: World, t: State, e: Edge)
    requires EvalsErr(w) && NodeOk(g, w, t, e.from) && Terminal(t.states[e.from].status)
    requires g.nodes[e.from].kind.HumanApproval? ==> t.states[e.from].status.Failed?
    requires if g.nodes[e.from].kind.Condition? then e.branchKey != "" || !e.cond.Always?
             else !e.cond.Always? && !e.cond.OnFailed? && (e.cond.OnApproved? || e.cond.Other?
                                                           || t.states[e.from].status.Failed?)
    ensures !EdgeHolds(t, e)
  {
    hide InEdgesAllow, JoinSettled, ClonesWait;
  }

  /** When everything succeeds and every list has an item, no edge holds that waits for a failure. */
  lemma GivesAgainst(g: Graph, t: State, body: seq<Id>, e: Edge)
    requires AllRan(g, GiveWorld(Arr([Null])), t, body) && FlatBody(g, body) && e.from in body && e.from in g.nodes
             && e.cond.OnFailed?
    requires !g.nodes[e.from].kind.Condition? && !g.nodes[e.from].kind.Join? && !AlwaysFails(g, e.from)
    requires g.nodes[e.from].kind.ParallelFork? ==> IsFork(g, e.from)
    ensures e.from in t.states && !EdgeHolds(t, e)
  {
    GiveWorldGives(Arr([Null]));
    var w := GiveWorld(Arr([Null]));
    assert NodeOk(g, w, t, e.from) && Terminal(t.states[e.from].status);
    assert Evals(w, Evaluated(Arr([Null])));
    hide AllRan, GiveWorld, InEdgesAllow, JoinSettled, ClonesWait, AgentsOk, GatesOk, EvalsOk, Evals;
  }

  /** When every expression evaluates to a key of the condition, its fallback does not hold. */
  lemma KeyAgainst(g: Graph, t: State, body: seq<Id>, e: Edge, o: Edge)
    requires AllRan(g, GiveWorld(Str(o.branchKey)), t, body) && e.from in body && e.from in g.nodes
    requires g.nodes[e.from].kind.Condition? && e.branchKey == "" && o in g.edges && o.from == e.from
             && o.branchKey != ""
    ensures e.from in t.states && !EdgeHolds(t, e)
  {
    var w := GiveWorld(Str(o.branchKey));
    GiveWorldGives(Str(o.branchKey));
    assert NodeOk(g, w, t, e.from) && Terminal(t.states[e.from].status);
    assert StaticOuts(g.edges, e.from) <= Outs(t, e.from);
    StaticOutsAre(g.edges, e.from);
    assert o in Outs(t, e.from);
    assert t.states[e.from].branch == Stringify(w, Str(o.branchKey));
    hide AllRan, GiveWorld, InEdgesAllow, JoinSettled, ClonesWait, AgentsOk, GatesOk, EvalsOk, Evals, Explained;
  }

  lemma ForkGave(g: Graph, w: World, t: State, f: Id)
    requires NodeOk(g, w, t, f) && Terminal(t.states[f].status) && IsFork(g, f) && Tpl(g, f) in g.nodes
    requires Evals(w, Evaluated(Arr([Null])))
    ensures t.states[f].status.Completed? && t.states[f].output == Single("count", Num(1))
  {
    hide InEdgesAllow, JoinSettled, ClonesWait, Evals;
    assert |[Null]| == 1;
  }

  /** A fork with a join gets the join stuck as soon as there is an item. */
  lemma ForkAgainst(g: Graph, t: State, body: seq<Id>, f: Id)
    requires f in body && IsFork(g, f) && JoinOf(g, f).Some? && JoinOf(g, f).value in body && Tpl(g, f) in g.nodes
    ensures !AllRan(g, GiveWorld(Arr([Null])), t, body)
  {
    var w := GiveWorld(Arr([Null]));
    if AllRan(g, w, t, body) {
      GiveWorldGives(Arr([Null]));
      assert NodeOk(g, w, t, f) && Terminal(t.states[f].status);
      hide AllRan, NodeOk, GiveWorld, Evals, AgentsOk, GatesOk, EvalsOk;
      ForkGave(g, w, t, f);
      ForkHeldBack(g, w, t, body, f, 1);
    }
  }

  /** The edge or the fork that makes a body not smooth. */
  lemma UnsureEdgeSticks(g: Graph, bodyOf: map<Id, seq<Id>>, rank: map<Id, nat>, id: Id, e: Edge) returns (w: World)
    requires Disciplined(g, bodyOf, rank) && FlatBody(g, BodyOf(bodyOf, id)) && SelfContained(g, BodyOf(bodyOf, id))
    requires JoinsNotAwaited(g, BodyOf(bodyOf, id))
    requires e in g.edges && e.to in BodyOf(bodyOf, id) && e.from in g.nodes && e.to in g.nodes
             && !g.nodes[e.to].kind.Join? && !Sure(g, e)
    ensures AlwaysSticks(g, bodyOf, rank, w, id)
  {
    var body := BodyOf(bodyOf, id);
    var k := e.from;
    GraphFacts(g, bodyOf, rank);
    ForkHasItems(g, bodyOf, rank, k);
    hide Disciplined;
    if g.nodes[k].kind.Condition? && e.branchKey == "" && e.cond.Always? {
      var o :| o in g.edges && o.from == k && o.branchKey != "";
      w := GiveWorld(Str(o.branchKey));
    } else if !g.nodes[k].kind.Condition? && e.cond.OnFailed? {
      w := GiveWorld(Arr([Null]));
    } else {
      w := FailWorld();
    }
    forall t
      ensures !AllRan(g, w, t, body)
    {
      if AllRan(g, w, t, body) {
        StaticHolds(g, w, t, body, e);
        hide AllRan, MayFail, EdgeHolds, FlatBody, GraphOk, FailWorld, GiveWorld;
        if g.nodes[k].kind.Condition? && e.branchKey == "" && e.cond.Always? {
          var o :| o in g.edges && o.from == k && o.branchKey != "" && w == GiveWorld(Str(o.branchKey));
          KeyAgainst(g, t, body, e, o);
        } else if !g.nodes[k].kind.Condition? && e.cond.OnFailed? {
          GivesAgainst(g, t, body, e);
        } else {
          FailsAgainst(g, t, body, e);
        }
      }
    }
    SticksIfNoneRan(g, bodyOf, rank, w, id);
  }

  lemma ForkHasItems(g: Graph, bodyOf: map<Id, seq<Id>>, rank: map<Id, nat>, k: Id)
    requires Disciplined(g, bodyOf, rank) && k in g.nodes
    ensures g.nodes[k].kind.ParallelFork? ==> IsFork(g, k)
  {
    assert V.NodeFieldsOk(g.nodes[k]);
  }

  /** The join of a body fork is in the body. */
  ghost predicate ClosedBody(g: Graph, body: seq<Id>) {
    forall e | e in g.edges && e.from in body :: e.to in body
  }

  lemma ForkSticks(g: Graph, bodyOf: map<Id, seq<Id>>, rank: map<Id, nat>, id: Id, f: Id) returns (w: World)
    requires ClosedBody(g, BodyOf(bodyOf, id)) && f in BodyOf(bodyOf, id) && IsFork(g, f) && JoinOf(g, f).Some?
             && Tpl(g, f) in g.nodes
    ensures AlwaysSticks(g, bodyOf, rank, w, id)
  {
    w := GiveWorld(Arr([Null]));
    JoinEdge(g, f);
    forall t
      ensures !AllRan(g, w, t, BodyOf(bodyOf, id))
    {
      ForkAgainst(g, t, BodyOf(bodyOf, id), f);
    }
    SticksIfNoneRan(g, bodyOf, rank, w, id);
  }

  // ----- Rounds exist -----

  /** A round that has begun can be finished. */
  lemma {:induction false} FinishRound(g: Graph, bodyOf: map<Id, seq<Id>>, rank: map<Id, nat>, w: World, r: State,
                                       l: Id, steps: Steps)
    returns (all: Steps)
    requires Disciplined(g, bodyOf, rank) && FlatBody(g, BodyOf(bodyOf, l)) && Inv(g, r)
             && ValidAll(w, bodyOf, r, BodyOf(bodyOf, l), steps)
    requires forall b | b in BodyOf(bodyOf, l) :: b in AfterAll(w, bodyOf, r, steps).states && b in rank
    ensures ValidAll(w, bodyOf, r, BodyOf(bodyOf, l), all) && Quiet(AfterAll(w, bodyOf, r, all), BodyOf(bodyOf, l))
    decreases Load(AfterAll(w, bodyOf, r, steps).states, BodyOf(bodyOf, l), rank, |BodyOf(bodyOf, l)|, 10)
  {
    hide Disciplined, Inv, Execute, Load, Below, Changed, InEdgesAllow;
    var body := BodyOf(bodyOf, l);
    var t := AfterAll(w, bodyOf, r, steps);
    StepsOutcome(g, bodyOf, rank, w, r, l, steps);
    if b :| b in body && Ready(t, b) {
      FlatNode(g, t, body, b);
      StepOutcome(g, bodyOf, rank, w, t, Plain(b));
      var t' := After(w, bodyOf, t, Plain(b));
      BodyStep(g, bodyOf, rank, l, body, b, t, t');
      BodyFacts(g, bodyOf, rank, l, t');
      all := FinishRound(g, bodyOf, rank, w, r, l, Then(steps, Plain(b)));
    } else {
      all := steps;
    }
  }

  lemma FlatNode(g: Graph, t: State, body: seq<Id>, b: Id)
    requires Inv(g, t) && FlatBody(g, body) && b in body && b in t.states
    ensures !t.states[b].node.kind.Loop?
  {
    StaticNode(g, t, b);
  }

  function FreshState(g: Graph): State {
    State(map k | k in g.nodes :: Fresh(g.nodes[k]), map k | k in g.nodes :: StaticOuts(g.edges, k),
          map k | k in g.nodes :: Setup.StaticIns(g.edges, k), map[], map[], 0, [], [])
  }

  lemma FreshIsFresh(g: Graph)
    requires GraphOk(g)
    ensures Setup.FreshRun(g, FreshState(g))
  {
    var s := FreshState(g);
    forall k
      ensures Outs(s, k) == StaticOuts(g.edges, k) && Ins(s, k) == Setup.StaticIns(g.edges, k)
    {
      if k !in g.nodes {
        StaticOutsAre(g.edges, k);
        Setup.StaticInsStatic(g.edges, k);
        Nothing(StaticOuts(g.edges, k));
        Nothing(Setup.StaticIns(g.edges, k));
      }
    }
  }

  lemma Nothing(edges: seq<Edge>)
    ensures edges == [] || edges[0] in edges
  {
  }

  ghost predicate SomeRound(g: Graph, bodyOf: map<Id, seq<Id>>, rank: map<Id, nat>, w: World, id: Id) {
    exists s, rounds :: RoundOf(g, bodyOf, rank, w, s, id, rounds)
  }

  lemma FirstRound(w: World, bodyOf: map<Id, seq<Id>>, s: State, id: Id, all: Steps)
    requires ValidAll(w, bodyOf, ResetAll(s, BodyOf(bodyOf, id)), BodyOf(bodyOf, id), all)
    requires Quiet(AfterAll(w, bodyOf, ResetAll(s, BodyOf(bodyOf, id)), all), BodyOf(bodyOf, id))
    ensures ValidRounds(w, bodyOf, s, id, Round(NoRound, all))
  {
    hide Quiet, ResetAll, AfterAll, ValidAll;
    assert AfterRounds(w, bodyOf, s, id, NoRound) == s;
    assert ValidRounds(w, bodyOf, s, id, NoRound);
  }

  lemma FreshSpec(g: Graph, id: Id)
    requires id in g.nodes && g.nodes[id].kind.Loop? && g.nodes[id].kind.loop.Some?
    ensures id in FreshState(g).states && SpecOf(FreshState(g), id).Some?
  {
  }

  /** Every loop has a round in every world. */
  lemma RoundExists(g: Graph, bodyOf: map<Id, seq<Id>>, rank: map<Id, nat>, w: World, id: Id)
    requires Disciplined(g, bodyOf, rank) && FlatBody(g, BodyOf(bodyOf, id))
    requires id in g.nodes && g.nodes[id].kind.Loop? && g.nodes[id].kind.loop.Some?
    ensures SomeRound(g, bodyOf, rank, w, id)
  {
    var s := FreshState(g);
    GraphFacts(g, bodyOf, rank);
    FreshSpec(g, id);
    hide Disciplined, Inv, OriginOk, Below, FlatBody, Load, ResetBody, FreshState, Setup.FreshRun, SpecOf, ValidAll,
      ValidRounds, Quiet, ResetAll;
    FreshIsFresh(g);
    Setup.FreshInv(g, s);
    FreshOrigin(g, s);
    ResetOutcome(g, bodyOf, rank, s, id);
    var r := ResetAll(s, BodyOf(bodyOf, id));
    BodyFacts(g, bodyOf, rank, id, r);
    NoSteps(w, bodyOf, r, BodyOf(bodyOf, id));
    var all := FinishRound(g, bodyOf, rank, w, r, id, Start);
    FirstRound(w, bodyOf, s, id, all);
    assert RoundOf(g, bodyOf, rank, w, s, id, Round(NoRound, all));
  }

  lemma NoSteps(w: World, bodyOf: map<Id, seq<Id>>, s: State, body: seq<Id>)
    ensures ValidAll(w, bodyOf, s, body, Start) && AfterAll(w, bodyOf, s, Start) == s
  {
  }

  /** Which loop bodies get stuck, for bodies without loops that are entered only from inside: a smooth one in
      no world, and any other in every round of some world. */
  lemma SmoothIff(g: Graph, bodyOf: map<Id, seq<Id>>, rank: map<Id, nat>, id: Id)
    requires Disciplined(g, bodyOf, rank) && V.Acyclic(g.edges)
    requires var body := BodyOf(bodyOf, id);
             FlatBody(g, body) && ClosedBody(g, body) && SelfContained(g, body) && JoinsNotAwaited(g, body)
    requires id in g.nodes && g.nodes[id].kind.Loop? && g.nodes[id].kind.loop.Some?
    ensures Smooth(g, BodyOf(bodyOf, id)) ==>
              forall w, s, rounds | RoundOf(g, bodyOf, rank, w, s, id, rounds) :: !StuckAfter(bodyOf, w, s, id, rounds)
    ensures !Smooth(g, BodyOf(bodyOf, id)) ==> exists w :: AlwaysSticks(g, bodyOf, rank, w, id)
    ensures forall w :: SomeRound(g, bodyOf, rank, w, id)
  {
    forall w
      ensures SomeRound(g, bodyOf, rank, w, id)
    {
      RoundExists(g, bodyOf, rank, w, id);
    }
    var body := BodyOf(bodyOf, id);
    hide RoundOf, StuckAfter, AlwaysSticks, FlatBody;
    if Smooth(g, body) {
      forall w, s, rounds | RoundOf(g, bodyOf, rank, w, s, id, rounds)
        ensures !StuckAfter(bodyOf, w, s, id, rounds)
      {
        SmoothNeverSticks(g, bodyOf, rank, w, s, id, rounds);
      }
    } else {
      hide Sure, Disciplined, V.Acyclic;
      if e :| e in g.edges && e.to in body && e.to in g.nodes && e.from in g.nodes && !g.nodes[e.to].kind.Join? &&
              !Sure(g, e) {
        var w := UnsureEdgeSticks(g, bodyOf, rank, id, e);
      } else {
        var f :| f in body && IsFork(g, f) && JoinOf(g, f).Some? && Tpl(g, f) in g.nodes;
        var w := ForkSticks(g, bodyOf, rank, id, f);
      }
    }
  }
}
