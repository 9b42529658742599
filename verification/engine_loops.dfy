/** What a run does, loops included, as a tree of executions; and what each part of the tree keeps and changes. */
module EngineLoops {
  // A loop is executed as a list of rounds, each a reset of its body followed by executions of body
  // nodes.

  import opened WorkflowDef
  import opened EngineState
  import opened EngineInvariants
  import opened EngineSteps
  import opened EngineFork
  import opened EngineMeasure
  import opened EngineFrames
  import opened EngineSchedule
  import V = Validation

  /** One execution of a node. */
  datatype Step = Plain(id: Id) | Looped(id: Id, rounds: Rounds)
  datatype Steps = Start | Then(before: Steps, last: Step)
  datatype Rounds = NoRound | Round(before: Rounds, steps: Steps)

  function Count(rounds: Rounds): nat {
    if rounds.NoRound? then 0 else Count(rounds.before) + 1
  }

  function BodyOf(bodyOf: map<Id, seq<Id>>, id: Id): seq<Id> {
    if id in bodyOf then bodyOf[id] else []
  }

  function ResetAll(s: State, body: seq<Id>): State {
    if forall b | b in body :: b in s.states then ResetBody(s, body, |body|) else s
  }

  /** The first body node that is not terminal. */
  function FirstStuck(s: State, body: seq<Id>): Option<Id> {
    if body == [] then None
    else if body[0] in s.states && Terminal(s.states[body[0]].status) then FirstStuck(s, body[1..])
    else Some(body[0])
  }

  /** What a loop finds after a round. */
  datatype Verdict = Stuck(at: Id) | CondError(msg: string) | Converged | Again

  function Judge(w: World, s: State, body: seq<Id>, condition: Expr): Verdict {
    match FirstStuck(s, body)
    case Some(b) => Stuck(b)
    case None =>
      match w.eval(condition, s.scope)
      case EvalErr(msg) => CondError(msg)
      case Evaluated(v) => if Truthy(v) then Converged else Again
  }

  function SpecOf(s: State, id: Id): Option<LoopSpec> {
    if id in s.states && s.states[id].node.kind.Loop? then s.states[id].node.kind.loop else None
  }

  function JudgeLoop(w: World, bodyOf: map<Id, seq<Id>>, s: State, id: Id): Verdict {
    if SpecOf(s, id).Some? then Judge(w, s, BodyOf(bodyOf, id), SpecOf(s, id).value.condition) else Again
  }

  /** The end of a loop after `n` rounds. */
  function LoopOutcome(w: World, bodyOf: map<Id, seq<Id>>, s: State, id: Id, n: nat): Outcome {
    if id !in s.states then Outcome(s, None)
    else if SpecOf(s, id).None? then Outcome(s, Some("loop without spec"))
    else if n == 0 then Outcome(s, Some("loop " + id + " did not converge"))
    else
      match JudgeLoop(w, bodyOf, s, id)
      case Stuck(b) => Outcome(s, Some("loop body stuck at node " + b))
      case CondError(msg) => Outcome(s, Some(msg))
      case Converged => Outcome(Finish(s, id, Single("iterations", Num(n))), None)
      case Again => Outcome(s, Some("loop " + id + " did not converge"))
  }

  function Settled(w: World, o: Outcome, id: Id): State {
    if o.err.Some? && id in o.s.states then FailOrRetry(w, o.s, id, o.err.value) else o.s
  }

  // ----- The state after -----

  function After(w: World, bodyOf: map<Id, seq<Id>>, s: State, st: Step): State
    decreases st
  {
    if st.id !in s.states then s
    else
      match st
      case Plain(id) => if s.states[id].node.kind.Loop? then s else Execute(w, s, id)
      case Looped(id, rounds) =>
        var s2 := AfterRounds(w, bodyOf, Mark(s, id, Running, NoOutput, ""), id, rounds);
        Settled(w, LoopOutcome(w, bodyOf, s2, id, Count(rounds)), id)
  }

  function AfterAll(w: World, bodyOf: map<Id, seq<Id>>, s: State, steps: Steps): State
    decreases steps
  {
    match steps
    case Start => s
    case Then(before, last) => After(w, bodyOf, AfterAll(w, bodyOf, s, before), last)
  }

  function AfterRounds(w: World, bodyOf: map<Id, seq<Id>>, s: State, id: Id, rounds: Rounds): State
    decreases rounds
  {
    match rounds
    case NoRound => s
    case Round(before, steps) =>
      AfterAll(w, bodyOf, ResetAll(AfterRounds(w, bodyOf, s, id, before), BodyOf(bodyOf, id)), steps)
  }

  // ----- What may happen -----

  ghost predicate Quiet(s: State, body: seq<Id>) {
    forall b | b in body :: !Ready(s, b)
  }

  /** A loop stops when a round ends it, or when its iterations are used up. */
  predicate Ended(w: World, bodyOf: map<Id, seq<Id>>, s: State, id: Id, rounds: Rounds) {
    match SpecOf(s, id)
    case None => rounds.NoRound?
    case Some(loop) =>
      && Count(rounds) <= Iterations(loop)
      && (Count(rounds) < Iterations(loop) ==> rounds.Round? && !JudgeLoop(w, bodyOf, s, id).Again?)
  }

  function Iterations(loop: LoopSpec): nat {
    if loop.maxIterations > 0 then loop.maxIterations else 0
  }

  ghost predicate ValidStep(w: World, bodyOf: map<Id, seq<Id>>, s: State, st: Step)
    decreases st
  {
    && Ready(s, st.id)
    && match st
       case Plain(id) => !s.states[id].node.kind.Loop?
       case Looped(id, rounds) =>
         && s.states[id].node.kind.Loop?
         && ValidRounds(w, bodyOf, Mark(s, id, Running, NoOutput, ""), id, rounds)
         && Ended(w, bodyOf, AfterRounds(w, bodyOf, Mark(s, id, Running, NoOutput, ""), id, rounds), id, rounds)
  }

  ghost predicate ValidAll(w: World, bodyOf: map<Id, seq<Id>>, s: State, body: seq<Id>, steps: Steps)
    decreases steps
  {
    match steps
    case Start => true
    case Then(before, last) =>
      && ValidAll(w, bodyOf, s, body, before)
      && last.id in body && ValidStep(w, bodyOf, AfterAll(w, bodyOf, s, before), last)
  }

  /** Each round starts from the reset body, runs until no body node is ready, and follows only a
      round that left the loop to go on. */
  ghost predicate ValidRounds(w: World, bodyOf: map<Id, seq<Id>>, s: State, id: Id, rounds: Rounds)
    decreases rounds
  {
    match rounds
    case NoRound => true
    case Round(before, steps) =>
      && ValidRounds(w, bodyOf, s, id, before)
      && (before.Round? ==> JudgeLoop(w, bodyOf, AfterRounds(w, bodyOf, s, id, before), id).Again?)
      && var t := ResetAll(AfterRounds(w, bodyOf, s, id, before), BodyOf(bodyOf, id));
         ValidAll(w, bodyOf, t, BodyOf(bodyOf, id), steps) && Quiet(AfterAll(w, bodyOf, t, steps), BodyOf(bodyOf, id))
  }

  /** The executions of the main scheduler: never a body node, never a template. */
  ghost predicate Scheduled(w: World, bodyOf: map<Id, seq<Id>>, templates: set<Id>, s: State, steps: Steps)
    decreases steps
  {
    match steps
    case Start => true
    case Then(before, last) =>
      && Scheduled(w, bodyOf, templates, s, before)
      && !IsLoopBody(bodyOf, last.id) && last.id !in templates
      && ValidStep(w, bodyOf, AfterAll(w, bodyOf, s, before), last)
  }

  // ----- What an execution keeps -----

  lemma StepOutcome(g: Graph, bodyOf: map<Id, seq<Id>>, rank: map<Id, nat>, w: World, s: State, st: Step)
    requires Disciplined(g, bodyOf, rank) && Inv(g, s) && ValidStep(w, bodyOf, s, st)
    ensures var s' := After(w, bodyOf, s, st); Inv(g, s') && Changed(g, s, s', st.id, rank)
    decreases st
  {
    hide Inv, Live, Changed, Below, Execute, Disciplined, Mark, LoopOutcome, Settled, Ended, InEdgesAllow;
    var id := st.id;
    GraphFacts(g, bodyOf, rank);
    NodeFacts(g, s, id);
    ForkStatic(g, bodyOf, rank, s, id);
    match st
    case Plain(_) =>
      ExecuteKeeps(g, w, s, id);
      ExecuteFrame(g, w, s, id);
      ExecuteChanged(g, s, Execute(w, s, id), id, rank);
    case Looped(_, rounds) =>
      var s1 := Mark(s, id, Running, NoOutput, "");
      StartKeeps(g, s, id);
      LoopStarts(s, id);
      RoundsOutcome(g, bodyOf, rank, w, s1, id, rounds);
      LoopEnds(g, bodyOf, rank, w, s, s1, AfterRounds(w, bodyOf, s1, id, rounds), id, Count(rounds));
  }

  lemma GraphFacts(g: Graph, bodyOf: map<Id, seq<Id>>, rank: map<Id, nat>)
    requires Disciplined(g, bodyOf, rank)
    ensures GraphOk(g) && ForksApart(g)
  {
  }

  lemma ForkStatic(g: Graph, bodyOf: map<Id, seq<Id>>, rank: map<Id, nat>, s: State, id: Id)
    requires Disciplined(g, bodyOf, rank) && NodeShape(g, s) && id in s.states
    ensures s.states[id].node.kind.ParallelFork? ==> IsFork(g, id)
  {
    if s.states[id].node.kind.ParallelFork? {
      assert id in g.nodes && V.NodeFieldsOk(g.nodes[id]);
    }
  }

  lemma LoopStarts(s: State, id: Id)
    requires id in s.states && s.states[id].status.Pending? && s.states[id].node.kind.Loop?
    requires s.states[id].attempts < MaxAttempts(s.states[id].node)
    ensures var s1 := Mark(s, id, Running, NoOutput, "");
            && s1.states == s.states[id := s.states[id].(status := Running)] && s.states[id].attempts == 0
            && MaxAttempts(s.states[id].node) == 1
  {
  }

  lemma LoopEnds(g: Graph, bodyOf: map<Id, seq<Id>>, rank: map<Id, nat>, w: World, s: State, s1: State, s2: State,
                 id: Id, n: nat)
    requires Inv(g, s2) && Ready(s, id) && s.states[id].node.kind.Loop? && s.states[id].attempts == 0
    requires s1.states == s.states[id := s.states[id].(status := Running)]
    requires Below(g, s1, s2, id, rank) && id in s2.states && s2.states[id] == s1.states[id]
    ensures var s3 := Settled(w, LoopOutcome(w, bodyOf, s2, id, n), id);
            Inv(g, s3) && Changed(g, s, s3, id, rank)
  {
    var o := LoopOutcome(w, bodyOf, s2, id, n);
    LoopOutcomeIs(w, bodyOf, s2, id, n);
    hide Inv, Live, Below, Changed, FailOrRetry, LoopOutcome, InEdgesAllow, Finish;
    if o.err.Some? {
      LoopStaysLive(g, s2, id);
      FailOrRetryKeeps(g, w, s2, id, o.err.value);
      FailOrRetryFrame(w, s2, id, o.err.value);
    } else {
      LoopFinishes(g, s2, id, Single("iterations", Num(n)));
    }
    var s3 := Settled(w, o, id);
    LoopLeft(s, s3, id);
    LoopChanged(g, s, s1, s2, s3, id, rank);
  }

  lemma LoopOutcomeIs(w: World, bodyOf: map<Id, seq<Id>>, s: State, id: Id, n: nat)
    requires id in s.states
    ensures var o := LoopOutcome(w, bodyOf, s, id, n);
            if o.err.Some? then o.s == s else o.s == Finish(s, id, Single("iterations", Num(n)))
  {
    hide Finish;
  }

  lemma LoopLeft(s: State, s3: State, id: Id)
    requires Ready(s, id) && s.states[id].attempts == 0 && s.states[id].node.kind.Loop?
    requires id in s3.states
    requires s3.states[id].status.Completed?
             || Left(s3.states[id]) < MaxAttempts(s.states[id].node) - s.states[id].attempts
    ensures Left(s3.states[id]) < Left(s.states[id]) && s.states[id].attempts < MaxAttempts(s.states[id].node)
  {
  }

  lemma RoundsOutcome(g: Graph, bodyOf: map<Id, seq<Id>>, rank: map<Id, nat>, w: World, s: State, id: Id,
                      rounds: Rounds)
    requires Disciplined(g, bodyOf, rank) && Inv(g, s) && id in s.states && ValidRounds(w, bodyOf, s, id, rounds)
    ensures var s' := AfterRounds(w, bodyOf, s, id, rounds);
            Inv(g, s') && Below(g, s, s', id, rank) && id in s'.states && s'.states[id] == s.states[id]
    decreases rounds
  {
    hide Inv, Below, Disciplined, ResetAll, Quiet;
    match rounds
    case NoRound => BelowSelf(g, s, id, rank);
    case Round(before, steps) =>
      var body := BodyOf(bodyOf, id);
      RoundsOutcome(g, bodyOf, rank, w, s, id, before);
      var t := AfterRounds(w, bodyOf, s, id, before);
      var r := ResetAll(t, body);
      ResetOutcome(g, bodyOf, rank, t, id);
      StepsOutcome(g, bodyOf, rank, w, r, id, steps);
      var s' := AfterAll(w, bodyOf, r, steps);
      BelowTrans(g, s, t, r, id, rank);
      BelowTrans(g, s, r, s', id, rank);
      BelowKeepsLoop(g, s, s', id, rank);
  }

  lemma ResetOutcome(g: Graph, bodyOf: map<Id, seq<Id>>, rank: map<Id, nat>, s: State, id: Id)
    requires Disciplined(g, bodyOf, rank) && Inv(g, s)
    ensures var body := BodyOf(bodyOf, id);
            && (forall b | b in body :: b in s.states)
            && Inv(g, ResetAll(s, body)) && Below(g, s, ResetAll(s, body), id, rank)
  {
    hide Inv, Below, Disciplined;
    BodyFacts(g, bodyOf, rank, id, s);
    var body := BodyOf(bodyOf, id);
    ResetKeeps(g, s, body, |body|);
    if body == [] {
      BelowSelf(g, s, id, rank);
    } else {
      ResetBelow(g, s, body, |body|, id, rank);
    }
  }

  lemma StepsOutcome(g: Graph, bodyOf: map<Id, seq<Id>>, rank: map<Id, nat>, w: World, s: State, l: Id, steps: Steps)
    requires Disciplined(g, bodyOf, rank) && Inv(g, s) && ValidAll(w, bodyOf, s, BodyOf(bodyOf, l), steps)
    ensures var s' := AfterAll(w, bodyOf, s, steps); Inv(g, s') && Below(g, s, s', l, rank)
    decreases steps
  {
    hide Inv, Below, Changed, Disciplined, ValidStep;
    match steps
    case Start => BelowSelf(g, s, l, rank);
    case Then(before, last) =>
      StepsOutcome(g, bodyOf, rank, w, s, l, before);
      var t := AfterAll(w, bodyOf, s, before);
      StepOutcome(g, bodyOf, rank, w, t, last);
      var s' := After(w, bodyOf, t, last);
      BodyFacts(g, bodyOf, rank, l, t);
      ChangedBelow(g, t, s', last.id, l, rank);
      BelowTrans(g, s, t, s', l, rank);
  }

  /** Every schedule keeps the invariant. */
  lemma {:induction false} ScheduleKeeps(g: Graph, bodyOf: map<Id, seq<Id>>, templates: set<Id>, rank: map<Id, nat>,
                                         w: World, s: State, steps: Steps)
    requires Disciplined(g, bodyOf, rank) && Inv(g, s) && Scheduled(w, bodyOf, templates, s, steps)
    ensures Inv(g, AfterAll(w, bodyOf, s, steps))
    decreases steps
  {
    hide Inv, Changed, Disciplined, ValidStep, IsLoopBody;
    if steps.Then? {
      ScheduleKeeps(g, bodyOf, templates, rank, w, s, steps.before);
      StepOutcome(g, bodyOf, rank, w, AfterAll(w, bodyOf, s, steps.before), steps.last);
    }
  }

  // ----- Without loops -----

  function Ids(steps: Steps): seq<Id> {
    if steps.Start? then [] else Ids(steps.before) + [steps.last.id]
  }

  /** In a loop-free definition a schedule is a sequence of node executions. */
  lemma {:induction false} PlainSchedule(g: Graph, bodyOf: map<Id, seq<Id>>, templates: set<Id>, rank: map<Id, nat>,
                                         w: World, s: State, steps: Steps)
    requires LoopFree(g) && Disciplined(g, bodyOf, rank) && Inv(g, s) && Scheduled(w, bodyOf, templates, s, steps)
    ensures Follows(w, bodyOf, templates, s, Ids(steps), AfterAll(w, bodyOf, s, steps))
    decreases steps
  {
    hide Inv, Disciplined, IsLoopBody, Execute, InEdgesAllow, Follows;
    if steps.Start? {
      FollowsNone(w, bodyOf, templates, s);
    } else {
      var t := AfterAll(w, bodyOf, s, steps.before);
      PlainSchedule(g, bodyOf, templates, rank, w, s, steps.before);
      ScheduleKeeps(g, bodyOf, templates, rank, w, s, steps.before);
      NoLoopNode(g, t, steps.last.id);
      FollowsSnoc(w, bodyOf, templates, s, Ids(steps.before), t, steps.last.id);
    }
  }
}
