/** The life of every node since it was last reset, in any nest of loops. */
module EngineLives {
  import opened WorkflowDef
  import opened EngineState
  import opened EngineInvariants
  import opened EngineSteps
  import opened EngineMeasure
  import opened EngineFrames
  import opened EngineLoops
  import opened EngineBounds
  import opened EngineSetup
  import opened EngineTheorems
  import opened EngineTraces

  // ----- Where the log of a node begins -----

  // The position in the log at which `k` was last reset, or `from` if it was not.

  function SinceStep(w: World, bodyOf: map<Id, seq<Id>>, s: State, st: Step, k: Id, from: nat): nat
    decreases st
  {
    match st
    case Plain(_) => from
    case Looped(id, rounds) =>
      if id in s.states then SinceRounds(w, bodyOf, Mark(s, id, Running, NoOutput, ""), id, rounds, k, from) else from
  }

  function SinceSteps(w: World, bodyOf: map<Id, seq<Id>>, s: State, steps: Steps, k: Id, from: nat): nat
    decreases steps
  {
    match steps
    case Start => from
    case Then(before, last) =>
      SinceStep(w, bodyOf, AfterAll(w, bodyOf, s, before), last, k, SinceSteps(w, bodyOf, s, before, k, from))
  }

  function SinceRounds(w: World, bodyOf: map<Id, seq<Id>>, s: State, id: Id, rounds: Rounds, k: Id, from: nat): nat
    decreases rounds
  {
    match rounds
    case NoRound => from
    case Round(before, steps) =>
      var t := AfterRounds(w, bodyOf, s, id, before);
      var start := if k in BodyOf(bodyOf, id) then |t.events| else SinceRounds(w, bodyOf, s, id, before, k, from);
      SinceSteps(w, bodyOf, ResetAll(t, BodyOf(bodyOf, id)), steps, k, start)
  }

  /** The events of `k` from `from` on agree with its status. */
  ghost predicate Living(s: State, k: Id, from: nat) {
    from <= |s.events| && k in s.states && PhaseFits(s.states[k], PhaseOf(s.events[from..], s.states[k].node, k))
  }

  // ----- What keeps it -----

  lemma OthersLive(s: State, t: State, id: Id, sts: seq<Status>, k: Id, from: nat)
    requires Living(s, k, from) && Logs(s.events, t.events, id, sts) && k != id && k in t.states
             && t.states[k] == s.states[k]
    ensures Living(t, k, from)
  {
    LogsPhase(s.events, t.events, id, sts, from, s.states[k].node, k);
    hide PhaseFits, PhaseOf;
  }

  lemma OwnLives(s: State, t: State, id: Id, sts: seq<Status>, from: nat)
    requires Living(s, id, from) && Logs(s.events, t.events, id, sts) && id in t.states
             && t.states[id].node == s.states[id].node
    requires forall p | PhaseFits(s.states[id], p) :: PhaseFits(t.states[id], AdvanceAll(s.states[id].node, p, sts))
    ensures Living(t, id, from)
  {
    LogsPhase(s.events, t.events, id, sts, from, s.states[id].node, id);
    hide PhaseFits, PhaseOf, AdvanceAll;
  }

  lemma PlainLives(g: Graph, bodyOf: map<Id, seq<Id>>, rank: map<Id, nat>, w: World, s: State, id: Id, k: Id, from: nat)
    requires Disciplined(g, bodyOf, rank) && Inv(g, s) && Ready(s, id) && !s.states[id].node.kind.Loop?
    requires k in g.nodes && Living(s, k, from)
    ensures Living(Execute(w, s, id), k, from)
  {
    var t := Execute(w, s, id);
    GraphFacts(g, bodyOf, rank);
    NodeFacts(g, s, id);
    ForkStatic(g, bodyOf, rank, s, id);
    ExecuteFrame(g, w, s, id);
    hide Disciplined, Inv, Execute, InEdgesAllow, GraphOk, Living, Logs, Left, PhaseFits, NodeShape;
    var sts := ExecuteLogs(g, w, s, id);
    if k == id {
      OwnLives(s, t, id, [Running] + sts, from);
    } else {
      LivingIn(s, k, from);
      StaticLeft(g, s, t, id, k);
      OthersLive(s, t, id, [Running] + sts, k, from);
    }
  }

  lemma LivingIn(s: State, k: Id, from: nat)
    requires Living(s, k, from)
    ensures k in s.states
  {
  }

  lemma StaticLeft(g: Graph, s: State, t: State, id: Id, k: Id)
    requires ForksApart(g) && OnlyAt(g, s, t, id) && k in g.nodes && k in s.states && k != id
    ensures k in t.states && t.states[k] == s.states[k]
  {
    hide CloneId;
    if IsFork(g, id) && CloneOf(g, k, id) {
      CloneIsNew(g, id, k);
    }
  }

  lemma StartLives(s: State, id: Id, k: Id, from: nat)
    requires id in s.states && s.states[id].status.Pending? && s.states[id].attempts < MaxAttempts(s.states[id].node)
             && Living(s, k, from)
    ensures Living(Mark(s, id, Running, NoOutput, ""), k, from)
  {
    var t := Mark(s, id, Running, NoOutput, "");
    MarkLogs(s, id, Running, NoOutput, "");
    if k == id {
      forall p | PhaseFits(s.states[id], p)
        ensures PhaseFits(t.states[id], AdvanceAll(s.states[id].node, p, [Running]))
      {
        AdvanceOne(s.states[id].node, p, Running);
      }
      OwnLives(s, t, id, [Running], from);
    } else {
      OthersLive(s, t, id, [Running], k, from);
    }
  }

  /** A loop ends in one event. */
  lemma EndLives(w: World, bodyOf: map<Id, seq<Id>>, s: State, id: Id, n: nat, k: Id, from: nat)
    requires id in s.states && s.states[id].status.Running? && s.states[id].node.kind.Loop? && Living(s, k, from)
    ensures Living(Settled(w, LoopOutcome(w, bodyOf, s, id, n), id), k, from)
  {
    var o := LoopOutcome(w, bodyOf, s, id, n);
    var t := Settled(w, o, id);
    LoopOutcomeIs(w, bodyOf, s, id, n);
    var st := if o.err.Some? then Failed else Completed;
    if o.err.Some? {
      LoopFails(w, s, id, o.err.value, k);
    } else {
      LoopCompletes(s, id, Single("iterations", Num(n)), k);
    }
    hide LoopOutcome, FailOrRetry, Finish;
    if k == id {
      forall p | PhaseFits(s.states[id], p)
        ensures PhaseFits(t.states[id], AdvanceAll(s.states[id].node, p, [st]))
      {
        AdvanceOne(s.states[id].node, p, st);
      }
      OwnLives(s, t, id, [st], from);
    } else {
      OthersLive(s, t, id, [st], k, from);
    }
  }

  lemma LoopFails(w: World, s: State, id: Id, msg: string, k: Id)
    requires id in s.states && s.states[id].node.kind.Loop?
    ensures var t := FailOrRetry(w, s, id, msg);
            && Logs(s.events, t.events, id, [Failed]) && id in t.states && t.states[id].node == s.states[id].node
            && t.states[id].status.Failed? && (k in s.states && k != id ==> k in t.states && t.states[k] == s.states[k])
  {
    FailureLogs(w, s, id, msg);
    if k != id {
      EndLeaves(w, s, id, k);
    }
    hide FailOrRetry;
  }

  lemma LoopCompletes(s: State, id: Id, out: Output, k: Id)
    requires id in s.states
    ensures var t := Finish(s, id, out);
            && Logs(s.events, t.events, id, [Completed]) && id in t.states && t.states[id].node == s.states[id].node
            && t.states[id].status.Completed?
            && (k in s.states && k != id ==> k in t.states && t.states[k] == s.states[k])
  {
    FinishLogs(s, id, out);
  }

  lemma ResetLives(g: Graph, bodyOf: map<Id, seq<Id>>, rank: map<Id, nat>, s: State, id: Id, k: Id, from: nat)
    requires Disciplined(g, bodyOf, rank) && Inv(g, s) && Living(s, k, from)
    ensures var body := BodyOf(bodyOf, id);
            Living(ResetAll(s, body), k, if k in body then |s.events| else from)
  {
    var body := BodyOf(bodyOf, id);
    ResetOutcome(g, bodyOf, rank, s, id);
    ResetShape(s, body);
    hide Disciplined, Inv, Below, ResetAll;
    if k in body {
      JustReset(s, ResetAll(s, body), k);
    } else {
      SameLives(s, ResetAll(s, body), k, from);
    }
  }

  lemma JustReset(s: State, t: State, k: Id)
    requires t.events == s.events && k in s.states && k in t.states && t.states[k] == Reset(s.states[k])
    ensures Living(t, k, |s.events|)
  {
    assert t.events[|s.events|..] == [];
  }

  lemma SameLives(s: State, t: State, k: Id, from: nat)
    requires Living(s, k, from) && t.events == s.events && k in t.states && t.states[k] == s.states[k]
    ensures Living(t, k, from)
  {
  }

  lemma FreshLives(g: Graph, s: State, k: Id)
    requires FreshRun(g, s) && k in g.nodes
    ensures Living(s, k, 0)
  {
    assert s.events[0..] == [];
  }

  lemma LivingGrammar(t: State, k: Id, from: nat)
    requires Living(t, k, from)
    ensures from <= |t.events| && k in t.states
    ensures var trace := Trace(t.events[from..], k);
            && Grammatical(t.states[k].node, trace)
            && (forall i | 0 <= i < |trace| - 1 :: !Terminal(trace[i]))
            && (Terminal(t.states[k].status) <==> trace != [] && Terminal(trace[|trace| - 1]))
            && (Terminal(t.states[k].status) ==> trace[|trace| - 1] == t.states[k].status)
  {
    PhaseTrace(t.events[from..], t.states[k].node, k);
    TraceMeaning(t.states[k], PhaseOf(t.events[from..], t.states[k].node, k), Trace(t.events[from..], k));
  }

  // ----- Whole runs -----

  lemma StepLives(g: Graph, bodyOf: map<Id, seq<Id>>, rank: map<Id, nat>, w: World, s: State, st: Step, k: Id,
                  from: nat)
    requires Disciplined(g, bodyOf, rank) && Inv(g, s) && ValidStep(w, bodyOf, s, st) && k in g.nodes
             && Living(s, k, from)
    ensures Living(After(w, bodyOf, s, st), k, SinceStep(w, bodyOf, s, st, k, from))
    decreases st
  {
    hide Disciplined, Inv, Execute, LoopOutcome, Settled, Ended, InEdgesAllow, Mark, Below, Living, NodeShape;
    var id := st.id;
    match st
    case Plain(_) => PlainLives(g, bodyOf, rank, w, s, id, k, from);
    case Looped(_, rounds) =>
      var s1 := Mark(s, id, Running, NoOutput, "");
      NodeFacts(g, s, id);
      StartKeeps(g, s, id);
      LoopStarts(s, id);
      StartLives(s, id, k, from);
      RoundsLive(g, bodyOf, rank, w, s1, id, rounds, k, from);
      RoundsOutcome(g, bodyOf, rank, w, s1, id, rounds);
      EndLives(w, bodyOf, AfterRounds(w, bodyOf, s1, id, rounds), id, Count(rounds), k,
               SinceStep(w, bodyOf, s, st, k, from));
  }

  lemma StepsLive(g: Graph, bodyOf: map<Id, seq<Id>>, rank: map<Id, nat>, w: World, s: State, l: Id, steps: Steps,
                  k: Id, from: nat)
    requires Disciplined(g, bodyOf, rank) && Inv(g, s) && ValidAll(w, bodyOf, s, BodyOf(bodyOf, l), steps)
    requires k in g.nodes && Living(s, k, from)
    ensures Living(AfterAll(w, bodyOf, s, steps), k, SinceSteps(w, bodyOf, s, steps, k, from))
    decreases steps
  {
    hide Disciplined, Inv, After, ValidStep, Below, Living;
    if steps.Then? {
      var t := AfterAll(w, bodyOf, s, steps.before);
      StepsLive(g, bodyOf, rank, w, s, l, steps.before, k, from);
      StepsOutcome(g, bodyOf, rank, w, s, l, steps.before);
      StepLives(g, bodyOf, rank, w, t, steps.last, k, SinceSteps(w, bodyOf, s, steps.before, k, from));
    }
  }

  lemma RoundsLive(g: Graph, bodyOf: map<Id, seq<Id>>, rank: map<Id, nat>, w: World, s: State, id: Id, rounds: Rounds,
                   k: Id, from: nat)
    requires Disciplined(g, bodyOf, rank) && Inv(g, s) && id in s.states && ValidRounds(w, bodyOf, s, id, rounds)
    requires k in g.nodes && Living(s, k, from)
    ensures Living(AfterRounds(w, bodyOf, s, id, rounds), k, SinceRounds(w, bodyOf, s, id, rounds, k, from))
    decreases rounds
  {
    hide Disciplined, Inv, ValidAll, Quiet, Below, ResetAll, Living;
    if rounds.Round? {
      var body := BodyOf(bodyOf, id);
      var t := AfterRounds(w, bodyOf, s, id, rounds.before);
      var since := SinceRounds(w, bodyOf, s, id, rounds.before, k, from);
      RoundsLive(g, bodyOf, rank, w, s, id, rounds.before, k, from);
      RoundsOutcome(g, bodyOf, rank, w, s, id, rounds.before);
      ResetOutcome(g, bodyOf, rank, t, id);
      ResetLives(g, bodyOf, rank, t, id, k, since);
      StepsLive(g, bodyOf, rank, w, ResetAll(t, body), id, rounds.steps, k, if k in body then |t.events| else since);
    }
  }

  lemma {:induction false} RunLives(g: Graph, bodyOf: map<Id, seq<Id>>, templates: set<Id>, rank: map<Id, nat>,
                                    w: World, s: State, steps: Steps, k: Id)
    requires Disciplined(g, bodyOf, rank) && Inv(g, s) && Scheduled(w, bodyOf, templates, s, steps)
    requires k in g.nodes && Living(s, k, 0)
    ensures Living(AfterAll(w, bodyOf, s, steps), k, SinceSteps(w, bodyOf, s, steps, k, 0))
    decreases steps
  {
    hide Disciplined, Inv, After, ValidStep, Below, Living, IsLoopBody;
    if steps.Then? {
      var t := AfterAll(w, bodyOf, s, steps.before);
      RunLives(g, bodyOf, templates, rank, w, s, steps.before, k);
      ScheduleKeeps(g, bodyOf, templates, rank, w, s, steps.before);
      StepLives(g, bodyOf, rank, w, t, steps.last, k, SinceSteps(w, bodyOf, s, steps.before, k, 0));
    }
  }

  /** In every run, loops in loops included, the events of each node of the definition since its last reset
      follow the grammar: at most MaxAttempts runs, a terminal event last and only last, and that is the
      status of the node. */
  lemma NodeGrammar(g: Graph, bodyOf: map<Id, seq<Id>>, templates: set<Id>, rank: map<Id, nat>, w: World, s: State,
                    steps: Steps, k: Id)
    requires Disciplined(g, bodyOf, rank) && FreshRun(g, s) && Scheduled(w, bodyOf, templates, s, steps) && k in g.nodes
    ensures var t := AfterAll(w, bodyOf, s, steps);
            var from := SinceSteps(w, bodyOf, s, steps, k, 0);
            && from <= |t.events| && k in t.states
            && var trace := Trace(t.events[from..], k);
               && Grammatical(t.states[k].node, trace)
               && (forall i | 0 <= i < |trace| - 1 :: !Terminal(trace[i]))
               && (Terminal(t.states[k].status) <==> trace != [] && Terminal(trace[|trace| - 1]))
               && (Terminal(t.states[k].status) ==> trace[|trace| - 1] == t.states[k].status)
  {
    GraphFacts(g, bodyOf, rank);
    hide Disciplined, Inv, FreshRun, Scheduled, AfterAll, SinceSteps, GraphOk, ForksApart, Living, Grammatical, Trace;
    FreshInv(g, s);
    FreshLives(g, s, k);
    RunLives(g, bodyOf, templates, rank, w, s, steps, k);
    LivingGrammar(AfterAll(w, bodyOf, s, steps), k, SinceSteps(w, bodyOf, s, steps, k, 0));
  }
}
