/** Between two executions every node is pending or terminal, and a finished run leaves none pending. */
module EngineRest {
  import opened WorkflowDef
  import opened EngineState
  import opened EngineInvariants
  import opened EngineSchedule
  import opened EngineSetup
  import opened EngineLoops
  import opened EngineFrames
  import opened EngineTheorems
  import S = SkipPass

  predicate Resting(st: Status) {
    Terminal(st) || st.Pending?
  }

  /** All nodes but those being executed, a loop and the loops around it, are at rest. */
  ghost predicate Rests(s: State, busy: set<Id>) {
    forall k | k in s.states && k !in busy :: Resting(s.states[k].status)
  }

  lemma FinishRests(s: State, id: Id, out: Output, busy: set<Id>)
    requires Rests(s, busy + {id}) && id in s.states
    ensures Rests(Finish(s, id, out), busy)
  {
  }

  lemma {:induction false} ClonesRest(s: State, fork: Id, tpl: Node, template: Id, join: Option<Id>, items: seq<Json>,
                                      k: nat, busy: set<Id>)
    requires Rests(s, busy) && k <= |items|
    ensures Rests(AddClones(s, fork, tpl, template, join, items, k), busy)
  {
    hide CloneId;
    if k > 0 {
      ClonesRest(s, fork, tpl, template, join, items, k - 1, busy);
    }
  }

  lemma ForkRests(w: World, s: State, id: Id, busy: set<Id>)
    requires Rests(s, busy + {id}) && id in s.states
    requires s.states[id].node.kind.ParallelFork? && s.states[id].node.kind.fanOut.Some?
    ensures var o := RunFork(w, s, id); Rests(o.s, busy + {id}) && (o.err.None? ==> Rests(o.s, busy))
  {
    hide Finish, AddClones, Rests;
    var f := s.states[id].node.kind.fanOut.value;
    var reply := w.eval(f.itemsExpr, s.scope);
    if reply.Evaluated? && reply.value.Arr? && f.template in s.states {
      var items := reply.value.elems;
      var tpl, join := s.states[f.template].node, FirstJoin(s.states, Outs(s, id));
      ClonesRest(s, id, tpl, f.template, join, items, |items|, busy + {id});
      AddClonesKeepsStates(s, id, tpl, f.template, join, items, |items|);
      FinishRests(AddClones(s, id, tpl, f.template, join, items, |items|), id, Single("count", Num(|items|)), busy);
      FewerBusy(Finish(AddClones(s, id, tpl, f.template, join, items, |items|), id, Single("count", Num(|items|))), id,
                busy);
    }
  }

  lemma FewerBusy(s: State, id: Id, busy: set<Id>)
    requires Rests(s, busy)
    ensures Rests(s, busy + {id})
  {
  }

  lemma AgentRests(w: World, s: State, id: Id, busy: set<Id>)
    requires Rests(s, busy + {id}) && id in s.states
    ensures var o := RunAgent(w, s, id); Rests(o.s, busy + {id}) && (o.err.None? ==> Rests(o.s, busy))
  {
    hide AgentInput;
  }

  lemma GateRests(w: World, s: State, id: Id, busy: set<Id>)
    requires Rests(s, busy + {id}) && id in s.states
    ensures var o := RunGate(w, s, id); Rests(o.s, busy + {id}) && (o.err.None? ==> Rests(o.s, busy))
  {
    hide GiveFeedback;
  }

  lemma ConditionRests(w: World, s: State, id: Id, busy: set<Id>)
    requires Rests(s, busy + {id}) && id in s.states && s.states[id].node.kind.Condition?
    ensures var o := RunCondition(w, s, id); Rests(o.s, busy + {id}) && (o.err.None? ==> Rests(o.s, busy))
  {
  }

  /** An execution that succeeds leaves its own node at rest too. */
  lemma NodeRests(w: World, s: State, id: Id, busy: set<Id>)
    requires Rests(s, busy + {id}) && id in s.states && !s.states[id].node.kind.Loop?
    ensures var o := RunNode(w, s, id); Rests(o.s, busy + {id}) && (o.err.None? ==> Rests(o.s, busy))
  {
    hide RunAgent, RunGate, RunCondition, RunFork, Rests, Finish;
    match s.states[id].node.kind
    case Agent(_) => AgentRests(w, s, id, busy);
    case HumanApproval(_) => GateRests(w, s, id, busy);
    case Condition(_) => ConditionRests(w, s, id, busy);
    case ParallelFork(Some(_)) => ForkRests(w, s, id, busy);
    case Trigger(src) =>
      var out := Single("trigger", Str(if src.Some? then src.value else ""));
      FinishRests(s, id, out, busy);
      FewerBusy(Finish(s, id, out), id, busy);
    case Transform(e) =>
      if w.eval(e, s.scope).Evaluated? {
        var out := Value(w.eval(e, s.scope).value);
        FinishRests(s, id, out, busy);
        FewerBusy(Finish(s, id, out), id, busy);
      }
    case Join =>
      FinishRests(s, id, Single("join", Str("ok")), busy);
      FewerBusy(Finish(s, id, Single("join", Str("ok"))), id, busy);
    case _ =>
  }

  lemma FailureRests(w: World, s: State, id: Id, msg: string, busy: set<Id>)
    requires Rests(s, busy + {id}) && id in s.states
    ensures Rests(FailOrRetry(w, s, id, msg), busy)
  {
    hide MaxAttempts, BacksOff;
  }

  lemma ExecuteRests(w: World, s: State, id: Id, busy: set<Id>)
    requires Rests(s, busy) && id in s.states && !s.states[id].node.kind.Loop?
    ensures Rests(Execute(w, s, id), busy)
  {
    hide RunNode, FailOrRetry;
    var s1 := Mark(s, id, Running, NoOutput, "");
    assert Rests(s1, busy + {id});
    hide Rests;
    NodeRests(w, s1, id, busy);
    var o := RunNode(w, s1, id);
    if o.err.Some? {
      FailureRests(w, o.s, id, o.err.value, busy);
    }
  }

  // ----- Loops -----

  lemma {:induction false} ResetRests(s: State, body: seq<Id>, k: nat, busy: set<Id>)
    requires Rests(s, busy) && k <= |body| && forall b | b in body :: b in s.states
    ensures Rests(ResetBody(s, body, k), busy)
  {
    if k > 0 {
      ResetRests(s, body, k - 1, busy);
    }
  }

  lemma EndRests(w: World, bodyOf: map<Id, seq<Id>>, s: State, id: Id, n: nat, busy: set<Id>)
    requires Rests(s, busy + {id})
    ensures Rests(Settled(w, LoopOutcome(w, bodyOf, s, id, n), id), busy)
  {
    hide FailOrRetry, Finish;
    if id in s.states {
      LoopOutcomeIs(w, bodyOf, s, id, n);
      hide Rests, LoopOutcome;
      var o := LoopOutcome(w, bodyOf, s, id, n);
      if o.err.Some? {
        FailureRests(w, s, id, o.err.value, busy);
      } else {
        FinishRests(s, id, Single("iterations", Num(n)), busy);
      }
    }
  }

  lemma StepRests(w: World, bodyOf: map<Id, seq<Id>>, s: State, st: Step, busy: set<Id>)
    requires Rests(s, busy)
    ensures Rests(After(w, bodyOf, s, st), busy)
    decreases st
  {
    hide Execute, LoopOutcome, Settled;
    if st.id in s.states {
      match st
      case Plain(id) =>
        if !s.states[id].node.kind.Loop? {
          ExecuteRests(w, s, id, busy);
        }
      case Looped(id, rounds) =>
        var s1 := Mark(s, id, Running, NoOutput, "");
        assert Rests(s1, busy + {id});
        hide Rests;
        RoundsRest(w, bodyOf, s1, id, rounds, busy + {id});
        var s2 := AfterRounds(w, bodyOf, s1, id, rounds);
        EndRests(w, bodyOf, s2, id, Count(rounds), busy);
    }
  }

  lemma StepsRest(w: World, bodyOf: map<Id, seq<Id>>, s: State, steps: Steps, busy: set<Id>)
    requires Rests(s, busy)
    ensures Rests(AfterAll(w, bodyOf, s, steps), busy)
    decreases steps
  {
    hide Rests, After;
    if steps.Then? {
      StepsRest(w, bodyOf, s, steps.before, busy);
      StepRests(w, bodyOf, AfterAll(w, bodyOf, s, steps.before), steps.last, busy);
    }
  }

  lemma RoundsRest(w: World, bodyOf: map<Id, seq<Id>>, s: State, id: Id, rounds: Rounds, busy: set<Id>)
    requires Rests(s, busy)
    ensures Rests(AfterRounds(w, bodyOf, s, id, rounds), busy)
    decreases rounds
  {
    hide Rests, ResetBody;
    if rounds.Round? {
      var t := AfterRounds(w, bodyOf, s, id, rounds.before);
      var body := BodyOf(bodyOf, id);
      RoundsRest(w, bodyOf, s, id, rounds.before, busy);
      if forall b | b in body :: b in t.states {
        ResetRests(t, body, |body|, busy);
      }
      StepsRest(w, bodyOf, ResetAll(t, body), rounds.steps, busy);
    }
  }

  // ----- The end of a run -----

  /** A successful last pass makes exactly the visited nodes Skipped. */
  lemma {:induction false} SkipOutcome(s: State, order: seq<Id>, pending: set<Id>)
    requires S.Visits(order, pending) && S.AllPending(s, pending) && S.SkipAll(s, order).AllSkipped?
    ensures var s' := S.SkipAll(s, order).s;
            && s'.states.Keys == s.states.Keys
            && forall k | k in s.states ::
                 s'.states[k] == if k in pending then s.states[k].(status := Skipped) else s.states[k]
    decreases |order|
  {
    hide AnyActiveIn;
    if order != [] {
      S.Rest(s, order, pending);
      SkipOutcome(Mark(s, order[0], Skipped, NoOutput, ""), order[1..], pending - {order[0]});
    }
  }

  lemma NonePending(bodyOf: map<Id, seq<Id>>, templates: set<Id>, mid: State, final: State, k: Id)
    requires Rests(mid, {}) && final.states.Keys == mid.states.Keys
    requires k in final.states && k !in templates && !IsLoopBody(bodyOf, k)
    requires forall j | j in mid.states ::
               final.states[j] == if j in UntakenIn(bodyOf, templates, mid) then mid.states[j].(status := Skipped)
                 else mid.states[j]
    ensures Terminal(final.states[k].status)
  {
  }

  /** When a run ends without an error, every node that is neither a fork template nor in a loop body is
      terminal, and the last event logged for it is its status, which the status of the run is read
      off. The executor may answer as it likes. */
  lemma FinalStatuses(g: Graph, w: World, bodyOf: map<Id, seq<Id>>, templates: set<Id>, s: State, steps: Steps,
                      final: State, k: Id)
    requires FreshRun(g, s)
    requires var mid := AfterAll(w, bodyOf, s, steps);
             SkippedInSomeOrder(mid, UntakenIn(bodyOf, templates, mid), None, final)
    requires Inv(g, final) && k in final.states && k !in templates && !IsLoopBody(bodyOf, k)
    ensures Terminal(final.states[k].status)
    ensures Tame(g, k) ==>
              var trace := Trace(final.events, k); trace != [] && trace[|trace| - 1] == final.states[k].status
  {
    var mid := AfterAll(w, bodyOf, s, steps);
    assert Rests(s, {});
    hide FreshRun, Inv, Trace, Tame, IsLoopBody, AfterAll, Rests, Grammatical;
    StepsRest(w, bodyOf, s, steps, {});
    var pending := UntakenIn(bodyOf, templates, mid);
    var visits :| S.Visits(visits, pending) && (forall id | id in visits :: id in mid.states) &&
      S.SkipAll(mid, visits) == S.AllSkipped(final);
    SkipOutcome(mid, visits, pending);
    hide S.Visits, S.SkipAll;
    NonePending(bodyOf, templates, mid, final, k);
    if Tame(g, k) {
      TraceGrammar(g, final, k);
    }
  }
}
