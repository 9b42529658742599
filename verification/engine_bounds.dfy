/** How often a node can start. A node is started as often as its attempts allow each time it is made
    fresh: at the beginning of a run, by each round of a loop around it, or by its fork if it is a clone.
    The starts are counted in the tree of executions, which the event log agrees with. */
module EngineBounds {
  import opened WorkflowDef
  import opened EngineState
  import opened EngineInvariants
  import opened EngineSteps
  import opened EngineFork
  import opened EngineMeasure
  import opened EngineFrames
  import opened EngineLoops

  /** The number of Running events of `k`. */
  function Starts(events: seq<Event>, k: Id): nat {
    if events == [] then 0
    else
      var last := events[|events| - 1];
      Starts(events[..|events| - 1], k) + if last.node == k && last.status.Running? then 1 else 0
  }

  // ----- Counting in the tree -----

  /** How often `k` is executed in a step, in steps, in rounds. */
  function RunsIn(st: Step, k: Id): nat
    decreases st
  {
    (if st.id == k then 1 else 0) + match st case Plain(_) => 0 case Looped(_, rounds) => RunsInRounds(rounds, k)
  }

  function RunsInSteps(steps: Steps, k: Id): nat
    decreases steps
  {
    match steps
    case Start => 0
    case Then(before, last) => RunsInSteps(before, k) + RunsIn(last, k)
  }

  function RunsInRounds(rounds: Rounds, k: Id): nat
    decreases rounds
  {
    match rounds
    case NoRound => 0
    case Round(before, steps) => RunsInRounds(before, k) + RunsInSteps(steps, k)
  }

  /** How often `k` is made fresh: by a round of a loop whose body it is in, or by an execution of its
      fork `f`. */
  function Refills(bodyOf: map<Id, seq<Id>>, st: Step, k: Id, f: Option<Id>): nat
    decreases st
  {
    match st
    case Plain(id) => if f == Some(id) then 1 else 0
    case Looped(id, rounds) => RoundRefills(bodyOf, id, rounds, k, f)
  }

  function StepsRefills(bodyOf: map<Id, seq<Id>>, steps: Steps, k: Id, f: Option<Id>): nat
    decreases steps
  {
    match steps
    case Start => 0
    case Then(before, last) => StepsRefills(bodyOf, before, k, f) + Refills(bodyOf, last, k, f)
  }

  function RoundRefills(bodyOf: map<Id, seq<Id>>, id: Id, rounds: Rounds, k: Id, f: Option<Id>): nat
    decreases rounds
  {
    match rounds
    case NoRound => 0
    case Round(before, steps) =>
      RoundRefills(bodyOf, id, before, k, f) + (if k in BodyOf(bodyOf, id) then 1 else 0)
          + StepsRefills(bodyOf, steps, k, f)
  }

  // ----- Counting starts -----

  /** No node starts between `s` and `s'`. */
  ghost predicate NoStarts(s: State, s': State) {
    forall k :: Starts(s'.events, k) == Starts(s.events, k)
  }

  lemma MarkStarts(s: State, id: Id, st: Status, out: Output, msg: string)
    requires id in s.states
    ensures forall k :: Starts(Mark(s, id, st, out, msg).events, k) ==
                        Starts(s.events, k) + if k == id && st.Running? then 1 else 0
  {
    var s' := Mark(s, id, st, out, msg);
    assert s'.events[..|s.events|] == s.events;
  }

  lemma FinishStarts(s: State, id: Id, out: Output)
    requires id in s.states
    ensures NoStarts(s, Finish(s, id, out))
  {
    MarkStarts(UpdateScope(Put(s, id, s.states[id].(output := out)), id), id, Completed, out, "");
    hide Starts;
  }

  lemma SettleStarts(w: World, s: State, id: Id, msg: string)
    requires id in s.states
    ensures NoStarts(s, FailOrRetry(w, s, id, msg))
  {
    var s0 := Put(s, id, s.states[id].(err := msg));
    var r := ScheduleRetry(w, s0, id, msg);
    RetryStarts(w, s0, id, msg);
    hide ScheduleRetry;
    if !r.again {
      MarkStarts(r.s, id, Failed, NoOutput, msg);
    }
    hide Starts;
  }

  lemma RetryStarts(w: World, s: State, id: Id, msg: string)
    requires id in s.states
    ensures NoStarts(s, ScheduleRetry(w, s, id, msg).s) && id in ScheduleRetry(w, s, id, msg).s.states
  {
    var s1 := Put(s, id, s.states[id].(attempts := s.states[id].attempts + 1));
    MarkStarts(s1, id, Retrying, NoOutput, msg);
    hide Starts, BacksOff, MaxAttempts;
  }

  lemma {:induction false} ClonesStarts(s: State, f: Id, tpl: Node, template: Id, join: Option<Id>, items: seq<Json>,
                                        k: nat)
    requires k <= |items|
    ensures AddClones(s, f, tpl, template, join, items, k).events == s.events
  {
    hide CloneId;
    if k > 0 {
      ClonesStarts(s, f, tpl, template, join, items, k - 1);
    }
  }

  lemma RunStarts(w: World, s: State, id: Id)
    requires id in s.states && !s.states[id].node.kind.Loop?
    ensures NoStarts(s, RunNode(w, s, id).s)
  {
    hide Starts, Finish, Mark, AgentInput, GiveFeedback, BranchTaken, HasFallback, FirstFailed, AddClones, FirstJoin,
      Stringify;
    match s.states[id].node.kind
    case Trigger(src) => FinishStarts(s, id, Single("trigger", Str(if src.Some? then src.value else "")));
    case Agent(_) => AgentStarts(w, s, id);
    case HumanApproval(_) => GateStarts(w, s, id);
    case Condition(_) => ConditionStarts(w, s, id);
    case Transform(x) =>
      var r := w.eval(x, s.scope);
      if r.Evaluated? {
        FinishStarts(s, id, Value(r.value));
      }
    case ParallelFork(Some(_)) => ForkStarts(w, s, id);
    case Join => FinishStarts(s, id, Single("join", Str("ok")));
    case _ =>
  }

  lemma AgentStarts(w: World, s: State, id: Id)
    requires id in s.states
    ensures NoStarts(s, RunAgent(w, s, id).s)
  {
    hide Starts, Finish, AgentInput;
    var ns := s.states[id];
    var input := AgentInput(s, id);
    var reply := w.runAgent(ns.node, ns.attempts, input, |s.calls|);
    if reply.AgentOk? {
      var called := s.(calls := s.calls + [AgentCall(id, input, true)]);
      FinishStarts(Put(called, id, ns.(err := "")).(feedback := s.feedback - {id}), id, reply.output);
    }
  }

  lemma GateStarts(w: World, s: State, id: Id)
    requires id in s.states
    ensures NoStarts(s, RunGate(w, s, id).s)
  {
    var s1 := Mark(s, id, WaitingApproval, NoOutput, "");
    MarkStarts(s, id, WaitingApproval, NoOutput, "");
    var reply := w.approve(s.states[id].node, |s.calls|);
    var called := s1.(calls := s1.calls + [GateCall(id, reply)]);
    hide Starts, Finish, GiveFeedback;
    if reply.Decided? {
      var t := Put(called, id, called.states[id].(approved := reply.ok));
      var told := if !reply.ok && reply.feedback.Some?
                  then t.(feedback := GiveFeedback(s.feedback, Outs(s, id), reply.feedback.value)) else t;
      FinishStarts(told, id, Single("approved", Bool(reply.ok)));
    }
  }

  lemma ConditionStarts(w: World, s: State, id: Id)
    requires id in s.states && s.states[id].node.kind.Condition?
    ensures NoStarts(s, RunCondition(w, s, id).s)
  {
    var r := w.eval(s.states[id].node.kind.expr, s.scope);
    if r.Evaluated? {
      var branch := Stringify(w, r.value);
      var out := Single("branch", Str(branch));
      MarkStarts(UpdateScope(Put(s, id, s.states[id].(branch := branch, output := out)), id), id, Completed, out, "");
    }
    hide Starts, Mark, BranchTaken, HasFallback, Stringify;
  }

  lemma ForkStarts(w: World, s: State, id: Id)
    requires id in s.states && s.states[id].node.kind.ParallelFork? && s.states[id].node.kind.fanOut.Some?
    ensures NoStarts(s, RunFork(w, s, id).s)
  {
    hide Starts, Finish, AddClones, FirstJoin;
    var f := s.states[id].node.kind.fanOut.value;
    var r := w.eval(f.itemsExpr, s.scope);
    if r.Evaluated? && r.value.Arr? && f.template in s.states {
      var items := r.value.elems;
      var join := FirstJoin(s.states, Outs(s, id));
      ClonesStarts(s, id, s.states[f.template].node, f.template, join, items, |items|);
      AddClonesKeepsStates(s, id, s.states[f.template].node, f.template, join, items, |items|);
      FinishStarts(AddClones(s, id, s.states[f.template].node, f.template, join, items, |items|), id,
                   Single("count", Num(|items|)));
    }
  }

  lemma ExecuteStarts(w: World, s: State, id: Id)
    requires id in s.states && !s.states[id].node.kind.Loop?
    ensures forall k :: Starts(Execute(w, s, id).events, k) == Starts(s.events, k) + if k == id then 1 else 0
  {
    var s1 := Mark(s, id, Running, NoOutput, "");
    MarkStarts(s, id, Running, NoOutput, "");
    RunStarts(w, s1, id);
    var o := RunNode(w, s1, id);
    hide Starts, RunNode, FailOrRetry;
    if o.err.Some? {
      SettleStarts(w, o.s, id, o.err.value);
    }
  }

  lemma {:induction false} ResetStarts(s: State, body: seq<Id>, k: nat)
    requires k <= |body| && forall b | b in body :: b in s.states
    ensures ResetBody(s, body, k).events == s.events
  {
    if k > 0 {
      ResetStarts(s, body, k - 1);
    }
  }

  lemma ResetShape(s: State, body: seq<Id>)
    requires forall b | b in body :: b in s.states
    ensures var r := ResetAll(s, body);
            && r.events == s.events && r.states.Keys == s.states.Keys
            && forall k | k in s.states :: r.states[k] == if k in body then Reset(s.states[k]) else s.states[k]
  {
    ResetStarts(s, body, |body|);
    ResetEffect(s, body, |body|);
    assert body[..|body|] == body;
    hide ResetBody, Reset;
  }

  lemma {:induction false} ResetEffect(s: State, body: seq<Id>, n: nat)
    requires n <= |body| && forall b | b in body :: b in s.states
    ensures var r := ResetBody(s, body, n);
            forall k | k in s.states :: r.states[k] == if k in body[..n] then Reset(s.states[k]) else s.states[k]
  {
    if n > 0 {
      ResetEffect(s, body, n - 1);
      assert body[..n] == body[..n - 1] + [body[n - 1]];
    }
  }

  // ----- The log agrees with the tree -----

  ghost predicate Counted(s: State, t: State, k: Id, n: nat) {
    Starts(t.events, k) == Starts(s.events, k) + n
  }

  lemma EndStarts(w: World, bodyOf: map<Id, seq<Id>>, s: State, id: Id, n: nat)
    requires id in s.states
    ensures NoStarts(s, Settled(w, LoopOutcome(w, bodyOf, s, id, n), id))
  {
    LoopOutcomeIs(w, bodyOf, s, id, n);
    var o := LoopOutcome(w, bodyOf, s, id, n);
    if o.err.Some? {
      SettleStarts(w, s, id, o.err.value);
    } else {
      FinishStarts(s, id, Single("iterations", Num(n)));
    }
    hide Starts, FailOrRetry, Finish, LoopOutcome;
  }

  lemma StepCounts(g: Graph, bodyOf: map<Id, seq<Id>>, rank: map<Id, nat>, w: World, s: State, st: Step, k: Id)
    requires Disciplined(g, bodyOf, rank) && Inv(g, s) && ValidStep(w, bodyOf, s, st)
    ensures Counted(s, After(w, bodyOf, s, st), k, RunsIn(st, k))
    decreases st
  {
    hide Disciplined, Inv, Starts, Execute, LoopOutcome, Settled, Ended, InEdgesAllow, Mark, Below;
    var id := st.id;
    match st
    case Plain(_) => ExecuteStarts(w, s, id);
    case Looped(_, rounds) =>
      var s1 := Mark(s, id, Running, NoOutput, "");
      MarkStarts(s, id, Running, NoOutput, "");
      NodeFacts(g, s, id);
      StartKeeps(g, s, id);
      LoopStarts(s, id);
      RoundsCount(g, bodyOf, rank, w, s1, id, rounds, k);
      RoundsOutcome(g, bodyOf, rank, w, s1, id, rounds);
      EndStarts(w, bodyOf, AfterRounds(w, bodyOf, s1, id, rounds), id, Count(rounds));
  }

  lemma StepsCount(g: Graph, bodyOf: map<Id, seq<Id>>, rank: map<Id, nat>, w: World, s: State, l: Id, steps: Steps,
                   k: Id)
    requires Disciplined(g, bodyOf, rank) && Inv(g, s) && ValidAll(w, bodyOf, s, BodyOf(bodyOf, l), steps)
    ensures Counted(s, AfterAll(w, bodyOf, s, steps), k, RunsInSteps(steps, k))
    decreases steps
  {
    hide Disciplined, Inv, Starts, After, ValidStep, Below;
    if steps.Then? {
      StepsCount(g, bodyOf, rank, w, s, l, steps.before, k);
      StepsOutcome(g, bodyOf, rank, w, s, l, steps.before);
      StepCounts(g, bodyOf, rank, w, AfterAll(w, bodyOf, s, steps.before), steps.last, k);
    }
  }

  lemma RoundsCount(g: Graph, bodyOf: map<Id, seq<Id>>, rank: map<Id, nat>, w: World, s: State, id: Id, rounds: Rounds,
                    k: Id)
    requires Disciplined(g, bodyOf, rank) && Inv(g, s) && id in s.states && ValidRounds(w, bodyOf, s, id, rounds)
    ensures Counted(s, AfterRounds(w, bodyOf, s, id, rounds), k, RunsInRounds(rounds, k))
    decreases rounds
  {
    hide Disciplined, Inv, Starts, ValidAll, Quiet, Below, ResetAll;
    if rounds.Round? {
      var t := AfterRounds(w, bodyOf, s, id, rounds.before);
      RoundsCount(g, bodyOf, rank, w, s, id, rounds.before, k);
      RoundsOutcome(g, bodyOf, rank, w, s, id, rounds.before);
      ResetOutcome(g, bodyOf, rank, t, id);
      ResetShape(t, BodyOf(bodyOf, id));
      StepsCount(g, bodyOf, rank, w, ResetAll(t, BodyOf(bodyOf, id)), id, rounds.steps, k);
    }
  }

  // ----- What a refill is worth -----

  /** A static node is refilled by loops only, a clone by its fork only. */
  ghost predicate RefilledBy(g: Graph, k: Id, f: Option<Id>) {
    if k in g.nodes then f == None else f.Some? && IsFork(g, f.value) && CloneOf(g, k, f.value)
  }

  /** The attempts of a node, or of the template of a clone. */
  function Worth(g: Graph, k: Id, f: Option<Id>): nat {
    if k in g.nodes then MaxAttempts(g.nodes[k])
    else if f.Some? && IsFork(g, f.value) && Tpl(g, f.value) in g.nodes then MaxAttempts(g.nodes[Tpl(g, f.value)])
    else 0
  }

  function LeftIn(s: State, k: Id): nat {
    if k in s.states then Left(s.states[k]) else 0
  }

  lemma LeftWorth(g: Graph, s: State, k: Id, f: Option<Id>)
    requires Inv(g, s) && ForksApart(g) && RefilledBy(g, k, f)
    ensures LeftIn(s, k) <= Worth(g, k, f)
  {
    assert NodeShape(g, s);
    hide Inv;
    if k in s.states && k !in g.nodes {
      var h :| IsFork(g, h) && CloneOf(g, k, h) && LikeTemplate(g, s.states[k].node, h);
      OneFork(g, k, f.value, h);
      hide ForksApart, CloneOf;
      SameAttempts(s.states[k].node, g.nodes[Tpl(g, h)]);
    }
  }

  lemma SameAttempts(a: Node, b: Node)
    requires a.kind == b.kind
    ensures MaxAttempts(a) == MaxAttempts(b)
  {
  }

  lemma OneFork(g: Graph, k: Id, f: Id, h: Id)
    requires ForksApart(g) && IsFork(g, f) && IsFork(g, h) && CloneOf(g, k, f) && CloneOf(g, k, h)
    ensures f == h
  {
    hide CloneId;
    var i: nat :| k == CloneId(Tpl(g, f), i);
    var j: nat :| k == CloneId(Tpl(g, h), j);
    OtherFork(g, f, i, h, j);
  }

  ghost predicate Paid(g: Graph, s: State, t: State, k: Id, f: Option<Id>, runs: nat, refills: nat) {
    runs + LeftIn(t, k) <= LeftIn(s, k) + Worth(g, k, f) * refills
  }

  lemma DistributeSum(c: nat, x: nat, y: nat)
    ensures c * (x + y) == c * x + c * y
  {
  }

  lemma PaidTwice(g: Graph, s: State, t: State, u: State, k: Id, f: Option<Id>, a: nat, b: nat, x: nat, y: nat)
    requires Paid(g, s, t, k, f, a, x) && Paid(g, t, u, k, f, b, y)
    ensures Paid(g, s, u, k, f, a + b, x + y)
  {
    DistributeSum(Worth(g, k, f), x, y);
    hide Worth, LeftIn;
  }

  lemma PaidNothing(g: Graph, s: State, t: State, k: Id, f: Option<Id>)
    requires LeftIn(t, k) <= LeftIn(s, k)
    ensures Paid(g, s, t, k, f, 0, 0)
  {
  }

  /** An execution that is no loop. */
  lemma PlainPays(g: Graph, bodyOf: map<Id, seq<Id>>, rank: map<Id, nat>, w: World, s: State, id: Id, k: Id,
                  f: Option<Id>)
    requires Disciplined(g, bodyOf, rank) && Inv(g, s) && Ready(s, id) && !s.states[id].node.kind.Loop?
             && RefilledBy(g, k, f)
    ensures Paid(g, s, Execute(w, s, id), k, f, if id == k then 1 else 0, if f == Some(id) then 1 else 0)
  {
    var t := Execute(w, s, id);
    GraphFacts(g, bodyOf, rank);
    NodeFacts(g, s, id);
    ForkStatic(g, bodyOf, rank, s, id);
    ExecuteFrame(g, w, s, id);
    ExecuteKeeps(g, w, s, id);
    LeftWorth(g, t, k, f);
    hide Disciplined, Inv, Execute, InEdgesAllow, Left, Worth;
    OnlyAtLeft(g, s, t, id, k, f);
  }

  lemma OnlyAtLeft(g: Graph, s: State, t: State, id: Id, k: Id, f: Option<Id>)
    requires ForksApart(g) && OnlyAt(g, s, t, id) && RefilledBy(g, k, f) && Left(t.states[id]) < Left(s.states[id])
    ensures k == id ==> LeftIn(t, k) < LeftIn(s, k) && f != Some(id)
    ensures k != id && f != Some(id) ==> LeftIn(t, k) <= LeftIn(s, k)
  {
    hide Left;
    if k != id && f != Some(id) && IsFork(g, id) && CloneOf(g, k, id) {
      CloneIsNew(g, id, k);
      OneFork(g, k, f.value, id);
    }
  }

  lemma CloneIsNew(g: Graph, f: Id, k: Id)
    requires ForksApart(g) && IsFork(g, f) && CloneOf(g, k, f)
    ensures k !in g.nodes
  {
  }

  /** A loop changes only its body and what is nested in it. */
  lemma RunsBelow(g: Graph, bodyOf: map<Id, seq<Id>>, rank: map<Id, nat>, w: World, s: State, st: Step, k: Id)
    requires Disciplined(g, bodyOf, rank) && ValidStep(w, bodyOf, s, st) && RunsIn(st, k) > 0 && k != st.id
    ensures RankOf(rank, k) < RankOf(rank, st.id)
    decreases st
  {
    hide Disciplined, Ended, Execute, LoopOutcome, Settled, InEdgesAllow;
    RoundsBelow(g, bodyOf, rank, w, Mark(s, st.id, Running, NoOutput, ""), st.id, st.rounds, k);
  }

  lemma RoundsBelow(g: Graph, bodyOf: map<Id, seq<Id>>, rank: map<Id, nat>, w: World, s: State, id: Id, rounds: Rounds,
                    k: Id)
    requires Disciplined(g, bodyOf, rank) && ValidRounds(w, bodyOf, s, id, rounds) && RunsInRounds(rounds, k) > 0
    ensures RankOf(rank, k) < RankOf(rank, id)
    decreases rounds
  {
    hide Disciplined, Quiet, AfterRounds, AfterAll, ResetAll;
    if RunsInRounds(rounds.before, k) > 0 {
      RoundsBelow(g, bodyOf, rank, w, s, id, rounds.before, k);
    } else {
      StepsBelow(g, bodyOf, rank, w, ResetAll(AfterRounds(w, bodyOf, s, id, rounds.before), BodyOf(bodyOf, id)), id,
                 rounds.steps, k);
    }
  }

  lemma StepsBelow(g: Graph, bodyOf: map<Id, seq<Id>>, rank: map<Id, nat>, w: World, s: State, l: Id, steps: Steps,
                   k: Id)
    requires Disciplined(g, bodyOf, rank) && ValidAll(w, bodyOf, s, BodyOf(bodyOf, l), steps)
             && RunsInSteps(steps, k) > 0
    ensures RankOf(rank, k) < RankOf(rank, l)
    decreases steps
  {
    hide Disciplined, ValidStep, AfterAll;
    if RunsInSteps(steps.before, k) > 0 {
      StepsBelow(g, bodyOf, rank, w, s, l, steps.before, k);
    } else {
      BodyRank(g, bodyOf, rank, l, steps.last.id);
      if k != steps.last.id {
        RunsBelow(g, bodyOf, rank, w, AfterAll(w, bodyOf, s, steps.before), steps.last, k);
      }
    }
  }

  lemma BodyRank(g: Graph, bodyOf: map<Id, seq<Id>>, rank: map<Id, nat>, l: Id, b: Id)
    requires Disciplined(g, bodyOf, rank) && b in BodyOf(bodyOf, l)
    ensures RankOf(rank, b) < RankOf(rank, l) && b in g.nodes && l in g.nodes
  {
  }

  lemma StepPays(g: Graph, bodyOf: map<Id, seq<Id>>, rank: map<Id, nat>, w: World, s: State, st: Step, k: Id,
                 f: Option<Id>)
    requires Disciplined(g, bodyOf, rank) && Inv(g, s) && ValidStep(w, bodyOf, s, st) && RefilledBy(g, k, f)
    ensures Paid(g, s, After(w, bodyOf, s, st), k, f, RunsIn(st, k), Refills(bodyOf, st, k, f))
    ensures k != st.id ==> RunsIn(st, k) <= Worth(g, k, f) * Refills(bodyOf, st, k, f)
    decreases st
  {
    hide Disciplined, Inv, Execute, LoopOutcome, Settled, Ended, InEdgesAllow, Mark, Below, Worth, Left, RefilledBy,
      Paid, Changed;
    var id := st.id;
    match st
    case Plain(_) => PlainPays(g, bodyOf, rank, w, s, id, k, f);
    case Looped(_, rounds) =>
      var s1 := Mark(s, id, Running, NoOutput, "");
      NodeFacts(g, s, id);
      StartKeeps(g, s, id);
      LoopStarts(s, id);
      RoundsPay(g, bodyOf, rank, w, s1, id, rounds, k, f);
      RoundsOutcome(g, bodyOf, rank, w, s1, id, rounds);
      var s2 := AfterRounds(w, bodyOf, s1, id, rounds);
      if k == id {
        if RunsInRounds(rounds, id) > 0 {
          RoundsBelow(g, bodyOf, rank, w, s1, id, rounds, id);
        }
        StepOutcome(g, bodyOf, rank, w, s, st);
        LoopPays(g, s, After(w, bodyOf, s, st), id, rank, f, Refills(bodyOf, st, k, f));
      } else {
        OthersLeft(w, bodyOf, s, s1, s2, id, Count(rounds), k);
        SameLeft(g, s, s1, s2, After(w, bodyOf, s, st), k, f, RunsIn(st, k), Refills(bodyOf, st, k, f));
      }
  }

  lemma LoopPays(g: Graph, s: State, t: State, id: Id, rank: map<Id, nat>, f: Option<Id>, refills: nat)
    requires Changed(g, s, t, id, rank)
    ensures Paid(g, s, t, id, f, 1, refills)
  {
    hide Left, Worth;
  }

  lemma SameLeft(g: Graph, s: State, s1: State, s2: State, t: State, k: Id, f: Option<Id>, runs: nat, refills: nat)
    requires Paid(g, s1, s2, k, f, runs, refills) && LeftIn(s1, k) == LeftIn(s, k) && LeftIn(t, k) == LeftIn(s2, k)
    ensures Paid(g, s, t, k, f, runs, refills)
  {
    hide LeftIn, Worth;
  }

  lemma OthersLeft(w: World, bodyOf: map<Id, seq<Id>>, s: State, s1: State, s2: State, id: Id, n: nat, k: Id)
    requires id in s.states && s1 == Mark(s, id, Running, NoOutput, "") && id in s2.states && k != id
    ensures LeftIn(s1, k) == LeftIn(s, k) && LeftIn(Settled(w, LoopOutcome(w, bodyOf, s2, id, n), id), k)
              == LeftIn(s2, k)
  {
    LoopOutcomeIs(w, bodyOf, s2, id, n);
    EndLeaves(w, s2, id, k);
    hide LoopOutcome, FailOrRetry, Left;
  }

  lemma EndLeaves(w: World, s: State, id: Id, k: Id)
    requires id in s.states && k != id
    ensures forall msg :: k in FailOrRetry(w, s, id, msg).states <==> k in s.states
    ensures forall msg | k in s.states :: FailOrRetry(w, s, id, msg).states[k] == s.states[k]
  {
    forall msg
      ensures k in FailOrRetry(w, s, id, msg).states <==> k in s.states
      ensures k in s.states ==> FailOrRetry(w, s, id, msg).states[k] == s.states[k]
    {
      RetryCases(w, Put(s, id, s.states[id].(err := msg)), id, msg);
      hide ScheduleRetry;
    }
  }

  lemma StepsPay(g: Graph, bodyOf: map<Id, seq<Id>>, rank: map<Id, nat>, w: World, s: State, l: Id, steps: Steps, k: Id,
                 f: Option<Id>)
    requires Disciplined(g, bodyOf, rank) && Inv(g, s) && ValidAll(w, bodyOf, s, BodyOf(bodyOf, l), steps)
             && RefilledBy(g, k, f)
    ensures Paid(g, s, AfterAll(w, bodyOf, s, steps), k, f, RunsInSteps(steps, k), StepsRefills(bodyOf, steps, k, f))
    ensures k !in BodyOf(bodyOf, l) ==> RunsInSteps(steps, k) <= Worth(g, k, f) * StepsRefills(bodyOf, steps, k, f)
    decreases steps
  {
    hide Disciplined, Inv, After, ValidStep, Below, Worth, LeftIn, RefilledBy, Paid;
    match steps
    case Start => PaidNothing(g, s, s, k, f);
    case Then(before, last) =>
      var t := AfterAll(w, bodyOf, s, before);
      StepsPay(g, bodyOf, rank, w, s, l, before, k, f);
      StepsOutcome(g, bodyOf, rank, w, s, l, before);
      StepPays(g, bodyOf, rank, w, t, last, k, f);
      PaidTwice(g, s, t, After(w, bodyOf, t, last), k, f, RunsInSteps(before, k), RunsIn(last, k),
                StepsRefills(bodyOf, before, k, f), Refills(bodyOf, last, k, f));
      DistributeSum(Worth(g, k, f), StepsRefills(bodyOf, before, k, f), Refills(bodyOf, last, k, f));
  }

  lemma RoundsPay(g: Graph, bodyOf: map<Id, seq<Id>>, rank: map<Id, nat>, w: World, s: State, id: Id, rounds: Rounds,
                  k: Id, f: Option<Id>)
    requires Disciplined(g, bodyOf, rank) && Inv(g, s) && id in s.states && ValidRounds(w, bodyOf, s, id, rounds)
             && RefilledBy(g, k, f)
    ensures Paid(g, s, AfterRounds(w, bodyOf, s, id, rounds), k, f, RunsInRounds(rounds, k),
                 RoundRefills(bodyOf, id, rounds, k, f))
    ensures RunsInRounds(rounds, k) <= Worth(g, k, f) * RoundRefills(bodyOf, id, rounds, k, f)
    decreases rounds
  {
    hide Disciplined, Inv, ValidAll, Quiet, Below, ResetAll, Worth, LeftIn, RefilledBy, Paid, JudgeLoop, AfterAll;
    match rounds
    case NoRound => PaidNothing(g, s, s, k, f);
    case Round(before, steps) =>
      var body := BodyOf(bodyOf, id);
      var t := AfterRounds(w, bodyOf, s, id, before);
      var r := ResetAll(t, body);
      var u := AfterRounds(w, bodyOf, s, id, rounds);
      RoundsPay(g, bodyOf, rank, w, s, id, before, k, f);
      RoundsOutcome(g, bodyOf, rank, w, s, id, before);
      ResetOutcome(g, bodyOf, rank, t, id);
      ResetShape(t, body);
      StepsPay(g, bodyOf, rank, w, r, id, steps, k, f);
      var x, y, n := RoundRefills(bodyOf, id, before, k, f), StepsRefills(bodyOf, steps, k, f), if k in body then 1
        else 0;
      LeftAfterReset(g, bodyOf, rank, t, r, id, k, f);
      OneRoundPays(g, t, r, u, k, f, RunsInSteps(steps, k), y, k in body);
      PaidTwice(g, s, t, u, k, f, RunsInRounds(before, k), RunsInSteps(steps, k), x, n + y);
      DistributeSum(Worth(g, k, f), x, n + y);
  }

  lemma LeftAfterReset(g: Graph, bodyOf: map<Id, seq<Id>>, rank: map<Id, nat>, t: State, r: State, id: Id, k: Id,
                       f: Option<Id>)
    requires Disciplined(g, bodyOf, rank) && Inv(g, t)
    requires r.states.Keys == t.states.Keys && forall j | j in t.states ::
               r.states[j] == if j in BodyOf(bodyOf, id) then Reset(t.states[j]) else t.states[j]
    ensures if k in BodyOf(bodyOf, id) then LeftIn(r, k) <= Worth(g, k, f) else LeftIn(r, k) == LeftIn(t, k)
  {
    hide Disciplined;
    if k in BodyOf(bodyOf, id) {
      BodyRank(g, bodyOf, rank, id, k);
      assert NodeShape(g, t);
      hide Inv;
    }
  }

  lemma OneRoundPays(g: Graph, t: State, r: State, u: State, k: Id, f: Option<Id>, runs: nat, y: nat, mine: bool)
    requires Paid(g, r, u, k, f, runs, y) && (if mine then LeftIn(r, k) <= Worth(g, k, f)
                                              else LeftIn(r, k) == LeftIn(t, k))
    requires !mine ==> runs <= Worth(g, k, f) * y
    ensures Paid(g, t, u, k, f, runs, (if mine then 1 else 0) + y)
    ensures runs <= Worth(g, k, f) * ((if mine then 1 else 0) + y)
  {
    DistributeSum(Worth(g, k, f), 1, y);
    hide LeftIn, Worth;
  }

  // ----- Whole runs -----

  lemma {:induction false} ScheduleCounts(g: Graph, bodyOf: map<Id, seq<Id>>, templates: set<Id>, rank: map<Id, nat>,
                                          w: World, s: State, steps: Steps, k: Id)
    requires Disciplined(g, bodyOf, rank) && Inv(g, s) && Scheduled(w, bodyOf, templates, s, steps)
    ensures Counted(s, AfterAll(w, bodyOf, s, steps), k, RunsInSteps(steps, k))
    decreases steps
  {
    hide Disciplined, Inv, Starts, After, ValidStep, IsLoopBody;
    if steps.Then? {
      ScheduleCounts(g, bodyOf, templates, rank, w, s, steps.before, k);
      ScheduleKeeps(g, bodyOf, templates, rank, w, s, steps.before);
      StepCounts(g, bodyOf, rank, w, AfterAll(w, bodyOf, s, steps.before), steps.last, k);
    }
  }

  lemma {:induction false} SchedulePays(g: Graph, bodyOf: map<Id, seq<Id>>, templates: set<Id>, rank: map<Id, nat>,
                                        w: World, s: State, steps: Steps, k: Id, f: Option<Id>)
    requires Disciplined(g, bodyOf, rank) && Inv(g, s) && Scheduled(w, bodyOf, templates, s, steps)
             && RefilledBy(g, k, f)
    ensures Paid(g, s, AfterAll(w, bodyOf, s, steps), k, f, RunsInSteps(steps, k), StepsRefills(bodyOf, steps, k, f))
    ensures IsLoopBody(bodyOf, k) ==> RunsInSteps(steps, k) <= Worth(g, k, f) * StepsRefills(bodyOf, steps, k, f)
    decreases steps
  {
    hide Disciplined, Inv, After, ValidStep, Worth, LeftIn, RefilledBy, Paid, IsLoopBody;
    match steps
    case Start => PaidNothing(g, s, s, k, f);
    case Then(before, last) =>
      var t := AfterAll(w, bodyOf, s, before);
      SchedulePays(g, bodyOf, templates, rank, w, s, before, k, f);
      ScheduleKeeps(g, bodyOf, templates, rank, w, s, before);
      StepPays(g, bodyOf, rank, w, t, last, k, f);
      PaidTwice(g, s, t, After(w, bodyOf, t, last), k, f, RunsInSteps(before, k), RunsIn(last, k),
                StepsRefills(bodyOf, before, k, f), Refills(bodyOf, last, k, f));
      DistributeSum(Worth(g, k, f), StepsRefills(bodyOf, before, k, f), Refills(bodyOf, last, k, f));
  }
}
