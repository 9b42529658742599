/** The approval broker of one run, in every interleaving of its steps. */
module Broker {
  import opened WorkflowDef
  import opened Text

  const MAX_FIELD: nat := 4000

  datatype Category = Functional | Style | Deviation | Misc | Missing | Unlisted(text: string)

  datatype Feedback = Feedback(category: Category, location: string, expected: string, detail: string)

  predicate FeedbackOk(f: Feedback) {
    && (f.category.Functional? || f.category.Style? || f.category.Deviation? || f.category.Misc?)
    && f.detail != "" && Bytes(f.detail) <= MAX_FIELD && Bytes(f.location) <= MAX_FIELD
       && Bytes(f.expected) <= MAX_FIELD
  }

  datatype Decision = Decision(ok: bool, reason: string, feedback: Option<Feedback>)

  /** A rejection must carry valid feedback. */
  predicate Admissible(d: Decision) {
    d.ok || (d.feedback.Some? && FeedbackOk(d.feedback.value))
  }

  /** A rejection nobody may give: without feedback, in none of the four categories offered, without a
      text, or with one of more than 4000 bytes. */
  predicate Unfit(d: Decision) {
    && !d.ok
    && (d.feedback.None?
        || d.feedback.value.category !in {Functional, Style, Deviation, Misc}
        || |d.feedback.value.detail| == 0
        || exists text :: text in {d.feedback.value.detail, d.feedback.value.location, d.feedback.value.expected}
                          && Bytes(text) > 4000)
  }

  lemma UnfitIff(d: Decision)
    ensures Unfit(d) <==> !Admissible(d)
  {
    if d.feedback.Some? {
      var f := d.feedback.value;
      var texts := {f.detail, f.location, f.expected};
      assert f.detail in texts && f.location in texts && f.expected in texts;
    }
  }

  // ----- The state -----

  /** A wait and the channel it made have one number. */
  type WaitId = nat
  type CallId = nat

  datatype WaitPc = Blocked(gate: Id) | Returned(gate: Id, decision: Decision) | Refused | Cancelled(gate: Id)

  datatype CallPc =
    | Recorded(gate: Id, decision: Decision, channel: Option<WaitId>)
    | Announced(gate: Id, decision: Decision, channel: Option<WaitId>)
    | Done
    | Rejected

  datatype Announcement = Announcement(gate: Id, decision: Decision)

  datatype State = State(pending: map<Id, WaitId>, decided: map<Id, Decision>, buffers: map<WaitId, Option<Decision>>,
                         waits: map<WaitId, WaitPc>, calls: map<CallId, CallPc>, announced: seq<Announcement>)

  const EMPTY := State(map[], map[], map[], map[], map[], [])

  datatype Action =
    | Wait(w: WaitId, gate: Id)
    | Receive(w: WaitId)
    | Cancel(w: WaitId)
    | Resolve(c: CallId, gate: Id, decision: Decision)
    | Announce(c: CallId)
    | Send(c: CallId)

  predicate Enabled(s: State, a: Action) {
    match a
    case Wait(w, _) => w !in s.waits
    case Receive(w) => w in s.waits && s.waits[w].Blocked? && w in s.buffers && s.buffers[w].Some?
    case Cancel(w) => w in s.waits && s.waits[w].Blocked?
    case Resolve(c, _, _) => c !in s.calls
    case Announce(c) => c in s.calls && s.calls[c].Recorded?
    case Send(c) =>
      && c in s.calls && s.calls[c].Announced?
      && (s.calls[c].channel.Some? ==>
            s.calls[c].channel.value in s.buffers && s.buffers[s.calls[c].channel.value].None?)
  }

  function Do(s: State, a: Action): State
    requires Enabled(s, a)
  {
    match a
    case Wait(w, gate) =>
      if gate in s.decided then s.(waits := s.waits[w := Returned(gate, s.decided[gate])])
      else if gate in s.pending then s.(waits := s.waits[w := Refused])
      else s.(waits := s.waits[w := Blocked(gate)], pending := s.pending[gate := w], buffers := s.buffers[w := None])
    case Receive(w) =>
      s.(waits := s.waits[w := Returned(s.waits[w].gate, s.buffers[w].value)], buffers := s.buffers[w := None])
    case Cancel(w) => s.(waits := s.waits[w := Cancelled(s.waits[w].gate)])
    case Resolve(c, gate, d) =>
      if !Admissible(d) || gate in s.decided then s.(calls := s.calls[c := Rejected])
      else s.(decided := s.decided[gate := d],
              calls := s.calls[c := Recorded(gate, d, if gate in s.pending then Some(s.pending[gate]) else None)])
    case Announce(c) =>
      var pc := s.calls[c];
      s.(announced := s.announced + [Announcement(pc.gate, pc.decision)],
         calls := s.calls[c := Announced(pc.gate, pc.decision, pc.channel)])
    case Send(c) =>
      var pc := s.calls[c];
      var sent := if pc.channel.Some? then s.(buffers := s.buffers[pc.channel.value := Some(pc.decision)]) else s;
      sent.(calls := s.calls[c := Done])
  }

  ghost predicate Runs(s: State, actions: seq<Action>, t: State)
    decreases |actions|
  {
    if actions == [] then s == t
    else Enabled(s, actions[0]) && Runs(Do(s, actions[0]), actions[1..], t)
  }

  // ----- The invariant -----

  predicate InProgress(pc: CallPc) {
    pc.Recorded? || pc.Announced?
  }

  predicate WasAnnounced(s: State, gate: Id) {
    exists i :: 0 <= i < |s.announced| && s.announced[i].gate == gate
  }

  ghost predicate WaitsOk(s: State) {
    && (forall g | g in s.pending :: s.pending[g] in s.waits && s.pending[g] in s.buffers)
    && (forall w | w in s.buffers :: w in s.waits)
    && (forall g, h | g in s.pending && h in s.pending && s.pending[g] == s.pending[h] :: g == h)
    && (forall w | w in s.waits && s.waits[w].Blocked? ::
          s.waits[w].gate in s.pending && s.pending[s.waits[w].gate] == w)
    && (forall w | w in s.waits && s.waits[w].Returned? ::
          s.waits[w].gate in s.decided && s.waits[w].decision == s.decided[s.waits[w].gate])
  }

  /** A call in progress is the one that decided its gate, and no other call works on that gate. */
  ghost predicate CallsOk(s: State) {
    && (forall c | c in s.calls && InProgress(s.calls[c]) ::
          && s.calls[c].gate in s.decided && s.decided[s.calls[c].gate] == s.calls[c].decision
          && (s.calls[c].channel.Some? ==>
                s.calls[c].gate in s.pending && s.pending[s.calls[c].gate] == s.calls[c].channel.value)
          && (s.calls[c].channel.None? ==> s.calls[c].gate !in s.pending)
          && (s.calls[c].gate in s.pending ==> Empty(s, s.pending[s.calls[c].gate])))
    && (forall c, d | c in s.calls && d in s.calls && InProgress(s.calls[c]) && InProgress(s.calls[d])
          && s.calls[c].gate == s.calls[d].gate :: c == d)
  }

  predicate Empty(s: State, w: WaitId) {
    w in s.buffers && s.buffers[w].None?
  }

  /** Announcements are of decisions, one per gate, and none is early. */
  ghost predicate AnnouncedOk(s: State) {
    && (forall i | 0 <= i < |s.announced| ::
          s.announced[i].gate in s.decided && s.announced[i].decision == s.decided[s.announced[i].gate])
    && (forall i, j | 0 <= i < j < |s.announced| :: s.announced[i].gate != s.announced[j].gate)
    && (forall c, i | c in s.calls && s.calls[c].Recorded? && 0 <= i < |s.announced| ::
          s.announced[i].gate != s.calls[c].gate)
    && (forall c | c in s.calls && s.calls[c].Announced? :: WasAnnounced(s, s.calls[c].gate))
  }

  /** A decision in a channel is the gate's and has been announced; an undecided gate has none. */
  ghost predicate BuffersOk(s: State) {
    forall g | g in s.pending && s.pending[g] in s.buffers && s.buffers[s.pending[g]].Some? ::
      g in s.decided && s.buffers[s.pending[g]].value == s.decided[g] && WasAnnounced(s, g)
  }

  ghost predicate Inv(s: State) {
    && WaitsOk(s) && CallsOk(s) && AnnouncedOk(s) && BuffersOk(s)
    && forall g | g in s.decided :: Admissible(s.decided[g])
  }

  lemma WaitKeeps(s: State, a: Action)
    requires Inv(s) && Enabled(s, a) && a.Wait?
    ensures Inv(Do(s, a))
  {
    var s' := Do(s, a);
    assert forall g :: WasAnnounced(s', g) == WasAnnounced(s, g);
    WaitWaits(s, a);
    WaitRest(s, a);
    hide Do, Admissible, WaitsOk, CallsOk, AnnouncedOk, BuffersOk;
  }

  lemma WaitWaits(s: State, a: Action)
    requires Inv(s) && Enabled(s, a) && a.Wait?
    ensures WaitsOk(Do(s, a))
  {
    hide Admissible, CallsOk, AnnouncedOk, BuffersOk;
  }

  lemma WaitRest(s: State, a: Action)
    requires Inv(s) && Enabled(s, a) && a.Wait?
    ensures CallsOk(Do(s, a)) && AnnouncedOk(Do(s, a)) && BuffersOk(Do(s, a)) && Do(s, a).decided == s.decided
  {
    WaitCalls(s, a);
    WaitBuffers(s, a);
    hide Do, Inv, Admissible;
  }

  lemma WaitCalls(s: State, a: Action)
    requires Inv(s) && Enabled(s, a) && a.Wait?
    ensures CallsOk(Do(s, a)) && Do(s, a).decided == s.decided
  {
    hide Admissible, AnnouncedOk, BuffersOk;
  }

  lemma WaitBuffers(s: State, a: Action)
    requires Inv(s) && Enabled(s, a) && a.Wait?
    ensures AnnouncedOk(Do(s, a)) && BuffersOk(Do(s, a))
  {
    var s' := Do(s, a);
    hide Admissible, CallsOk;
    assert forall g :: WasAnnounced(s', g) == WasAnnounced(s, g);
  }

  lemma ReceiveKeeps(s: State, a: Action)
    requires Inv(s) && Enabled(s, a) && (a.Receive? || a.Cancel?)
    ensures Inv(Do(s, a))
  {
    var s' := Do(s, a);
    assert forall g :: WasAnnounced(s', g) == WasAnnounced(s, g);
  }

  lemma ResolveKeeps(s: State, a: Action)
    requires Inv(s) && Enabled(s, a) && a.Resolve?
    ensures Inv(Do(s, a))
  {
    if Admissible(a.decision) && a.gate !in s.decided {
      ResolveCalls(s, a, Do(s, a));
      ResolveRest(s, a, Do(s, a));
    } else {
      RejectKeeps(s, a.c);
    }
    hide CallsOk, WaitsOk, AnnouncedOk, BuffersOk, Admissible;
  }

  lemma RejectKeeps(s: State, c: CallId)
    requires Inv(s) && c !in s.calls
    ensures Inv(s.(calls := s.calls[c := Rejected]))
  {
    var s' := s.(calls := s.calls[c := Rejected]);
    hide Admissible;
    assert forall g :: WasAnnounced(s', g) == WasAnnounced(s, g);
  }

  lemma ResolveCalls(s: State, a: Action, s': State)
    requires Inv(s) && Enabled(s, a) && a.Resolve? && Admissible(a.decision) && a.gate !in s.decided && s' == Do(s, a)
    ensures CallsOk(s')
  {
    hide Admissible, AnnouncedOk;
    assert forall c | c in s.calls && InProgress(s.calls[c]) :: s.calls[c].gate != a.gate;
    assert a.gate in s.pending ==> Empty(s, s.pending[a.gate]);
  }

  lemma ResolveRest(s: State, a: Action, s': State)
    requires Inv(s) && Enabled(s, a) && a.Resolve? && Admissible(a.decision) && a.gate !in s.decided && s' == Do(s, a)
    ensures WaitsOk(s') && AnnouncedOk(s') && BuffersOk(s') && forall g | g in s'.decided :: Admissible(s'.decided[g])
  {
    hide Admissible, CallsOk;
    assert forall g :: WasAnnounced(s', g) == WasAnnounced(s, g);
  }

  lemma AnnounceKeeps(s: State, a: Action)
    requires Inv(s) && Enabled(s, a) && a.Announce?
    ensures Inv(Do(s, a))
  {
    var s' := Do(s, a);
    var m := |s.announced|;
    assert s'.announced[m].gate == s.calls[a.c].gate;
    forall g | WasAnnounced(s, g)
      ensures WasAnnounced(s', g)
    {
      var i :| 0 <= i < m && s.announced[i].gate == g;
      assert s'.announced[i] == s.announced[i];
    }
    assert s'.decided == s.decided;
    AnnounceCalls(s, a);
    hide Admissible, WaitsOk, CallsOk;
  }

  lemma AnnounceCalls(s: State, a: Action)
    requires Inv(s) && Enabled(s, a) && a.Announce?
    ensures WaitsOk(Do(s, a)) && CallsOk(Do(s, a))
  {
    hide Admissible, AnnouncedOk, BuffersOk;
  }

  lemma SendKeeps(s: State, a: Action)
    requires Inv(s) && Enabled(s, a) && a.Send?
    ensures Inv(Do(s, a))
  {
    var s' := Do(s, a);
    assert forall g :: WasAnnounced(s', g) == WasAnnounced(s, g);
  }

  lemma StepKeeps(s: State, a: Action)
    requires Inv(s) && Enabled(s, a)
    ensures Inv(Do(s, a))
    ensures forall g | g in s.decided :: g in Do(s, a).decided && Do(s, a).decided[g] == s.decided[g]
  {
    match a
    case Wait(_, _) => WaitKeeps(s, a);
    case Receive(_) => ReceiveKeeps(s, a);
    case Cancel(_) => ReceiveKeeps(s, a);
    case Resolve(_, _, _) => ResolveKeeps(s, a);
    case Announce(_) => AnnounceKeeps(s, a);
    case Send(_) => SendKeeps(s, a);
  }

  // ----- The theorems -----

  /** In every interleaving each gate gets at most one decision, it never changes, every wait that
      returns a decision returns that one, and it is announced at most once. */
  lemma {:induction false} OneDecision(s: State, actions: seq<Action>, t: State)
    requires Inv(s) && Runs(s, actions, t)
    ensures Inv(t) && (forall g | g in s.decided :: g in t.decided && t.decided[g] == s.decided[g])
    ensures forall w | w in t.waits && t.waits[w].Returned? ::
              t.waits[w].gate in t.decided && t.waits[w].decision == t.decided[t.waits[w].gate]
                && Admissible(t.waits[w].decision)
    ensures forall i, j | 0 <= i < j < |t.announced| :: t.announced[i].gate != t.announced[j].gate
    decreases |actions|
  {
    hide Enabled, Do;
    if actions != [] {
      StepKeeps(s, actions[0]);
      hide Inv;
      OneDecision(Do(s, actions[0]), actions[1..], t);
    }
  }

  lemma EmptyHolds()
    ensures Inv(EMPTY) && Accounted(EMPTY)
  {
  }

  /** The send of a decision never blocks: its channel is empty. */
  lemma SendNeverBlocks(s: State, c: CallId)
    requires Inv(s) && c in s.calls && s.calls[c].Announced?
    ensures Enabled(s, Send(c))
  {
  }

  /** A wait that had to block gets its decision only after it was announced. */
  lemma BlockedWaitIsLate(s: State, w: WaitId)
    requires Inv(s) && Enabled(s, Receive(w))
    ensures var s' := Do(s, Receive(w));
            s'.waits[w] == Returned(s.waits[w].gate, s.decided[s.waits[w].gate]) && WasAnnounced(s', s.waits[w].gate)
  {
    var g := s.waits[w].gate;
    assert s.pending[g] == w;
    var i :| 0 <= i < |s.announced| && s.announced[i].gate == g;
    assert Do(s, Receive(w)).announced[i].gate == g;
  }

  // ----- When a wait returns before its decision is announced -----

  /** Some Resolve of `g` has recorded its decision and not announced it yet. */
  ghost predicate Between(s: State, g: Id) {
    exists c :: c in s.calls && s.calls[c].Recorded? && s.calls[c].gate == g
  }

  /** Every decision is announced, or is about to be. */
  ghost predicate Accounted(s: State) {
    forall g | g in s.decided :: WasAnnounced(s, g) || Between(s, g)
  }

  lemma SameCalls(s: State, a: Action, g: Id)
    requires Enabled(s, a) && !a.Announce?
    ensures WasAnnounced(Do(s, a), g) <==> WasAnnounced(s, g)
    ensures Between(s, g) ==> Between(Do(s, a), g)
  {
    var s' := Do(s, a);
    assert s'.announced == s.announced;
    if c :| c in s.calls && s.calls[c].Recorded? && s.calls[c].gate == g {
      assert c in s'.calls && s'.calls[c] == s.calls[c];
    }
  }

  lemma AnnounceAccounts(s: State, a: Action, g: Id)
    requires Enabled(s, a) && a.Announce? && (WasAnnounced(s, g) || Between(s, g))
    ensures WasAnnounced(Do(s, a), g) || Between(Do(s, a), g)
  {
    var s' := Do(s, a);
    assert s'.announced[|s.announced|].gate == s.calls[a.c].gate;
    if WasAnnounced(s, g) {
      var i :| 0 <= i < |s.announced| && s.announced[i].gate == g;
      assert s'.announced[i].gate == g;
    } else {
      var c :| c in s.calls && s.calls[c].Recorded? && s.calls[c].gate == g;
      assert c != a.c ==> c in s'.calls && s'.calls[c] == s.calls[c];
    }
  }

  lemma AccountedKept(s: State, a: Action)
    requires Inv(s) && Accounted(s) && Enabled(s, a)
    ensures Accounted(Do(s, a))
  {
    var s' := Do(s, a);
    hide Inv, WasAnnounced, Admissible;
    forall g | g in s'.decided
      ensures WasAnnounced(s', g) || Between(s', g)
    {
      if g in s.decided {
        if a.Announce? {
          AnnounceAccounts(s, a, g);
        } else {
          SameCalls(s, a, g);
        }
      } else {
        assert a.Resolve? && s'.calls[a.c].Recorded? && s'.calls[a.c].gate == g;
      }
    }
  }

  /** A decision is not announced exactly while its Resolve stands between recording and announcing. */
  lemma UnannouncedIff(s: State, g: Id)
    requires Inv(s) && Accounted(s)
    ensures Between(s, g) <==> g in s.decided && !WasAnnounced(s, g)
  {
    if c :| c in s.calls && s.calls[c].Recorded? && s.calls[c].gate == g {
      assert InProgress(s.calls[c]);
    }
  }

  predicate HasReturned(s: State, w: WaitId) {
    w in s.waits && s.waits[w].Returned?
  }

  /** In the run `w` returns at a moment when the decision of its gate is not announced. */
  ghost predicate ReturnsEarly(s: State, actions: seq<Action>, w: WaitId)
    decreases |actions|
  {
    && actions != [] && Enabled(s, actions[0])
    && var s' := Do(s, actions[0]);
       || (!HasReturned(s, w) && HasReturned(s', w) && !WasAnnounced(s', s'.waits[w].gate))
       || ReturnsEarly(s', actions[1..], w)
  }

  /** In the run `w` arrives while a Resolve of its gate is between recording and announcing. */
  ghost predicate ArrivesBetween(s: State, actions: seq<Action>, w: WaitId)
    decreases |actions|
  {
    && actions != [] && Enabled(s, actions[0])
    && ((actions[0].Wait? && actions[0].w == w && Between(s, actions[0].gate))
        || ArrivesBetween(Do(s, actions[0]), actions[1..], w))
  }

  /** One step of a wait that has arrived is not an early return. */
  lemma ArrivedIsLate(s: State, a: Action, w: WaitId)
    requires Inv(s) && Enabled(s, a) && w in s.waits
    ensures w in Do(s, a).waits
    ensures var s' := Do(s, a); !HasReturned(s, w) && HasReturned(s', w) ==> WasAnnounced(s', s'.waits[w].gate)
  {
    hide WasAnnounced;
    if a.Receive? && a.w == w {
      BlockedWaitIsLate(s, w);
    }
    hide Inv, Admissible;
  }

  lemma {:induction false} ArrivedSettled(s: State, actions: seq<Action>, w: WaitId)
    requires Inv(s) && w in s.waits
    ensures !ReturnsEarly(s, actions, w) && !ArrivesBetween(s, actions, w)
    decreases |actions|
  {
    hide Inv, Do, WasAnnounced, Between;
    if actions != [] && Enabled(s, actions[0]) {
      StepKeeps(s, actions[0]);
      ArrivedIsLate(s, actions[0], w);
      ArrivedSettled(Do(s, actions[0]), actions[1..], w);
    }
  }

  /** A wait returns at once exactly if the decision was recorded before, and then it is early exactly if
      the decision was not announced. */
  lemma ArrivalReturns(s: State, w: WaitId, g: Id)
    requires Inv(s) && Accounted(s) && Enabled(s, Wait(w, g))
    ensures var s' := Do(s, Wait(w, g));
            && w in s'.waits
            && (HasReturned(s', w) && !WasAnnounced(s', s'.waits[w].gate) <==> Between(s, g))
  {
    UnannouncedIff(s, g);
    SameCalls(s, Wait(w, g), g);
    hide Inv, Accounted, WasAnnounced, Between;
  }

  lemma NotArrived(s: State, a: Action, w: WaitId)
    requires Inv(s) && Enabled(s, a) && w !in s.waits && !(a.Wait? && a.w == w)
    ensures w !in Do(s, a).waits
  {
    hide Inv, Admissible;
  }

  /** In every run a wait returns before its decision is announced if and only if it arrived while a
      Resolve of its gate stood between recording the decision and announcing it. */
  lemma {:induction false} EarlyIff(s: State, actions: seq<Action>, t: State, w: WaitId)
    requires Inv(s) && Accounted(s) && Runs(s, actions, t) && w !in s.waits
    ensures ReturnsEarly(s, actions, w) <==> ArrivesBetween(s, actions, w)
    decreases |actions|
  {
    hide Inv, Do, WasAnnounced, Between, Accounted, Enabled;
    if actions != [] {
      var a, s' := actions[0], Do(s, actions[0]);
      StepKeeps(s, a);
      AccountedKept(s, a);
      if a.Wait? && a.w == w {
        ArrivalReturns(s, w, a.gate);
        ArrivedSettled(s', actions[1..], w);
      } else {
        NotArrived(s, a, w);
        EarlyIff(s', actions[1..], t, w);
      }
    }
  }

  lemma EarlyReturnExample(g: Id, d: Decision)
    requires Admissible(d)
    ensures exists actions, t, w ::
              Runs(EMPTY, actions, t) && w in t.waits && t.waits[w] == Returned(g, d) && !WasAnnounced(t, g)
  {
    var s1 := Do(EMPTY, Resolve(0, g, d));
    var t := Do(s1, Wait(0, g));
    var actions := [Resolve(0, g, d), Wait(0, g)];
    assert actions[1..] == [Wait(0, g)] && actions[1..][1..] == [];
    assert Runs(t, [], t);
    assert Runs(s1, actions[1..], t);
    assert Runs(EMPTY, actions, t) && t.waits[0] == Returned(g, d);
  }

  // ----- The broker object -----

  class ApprovalBroker {
    var pending: map<Id, WaitId>
    var decided: map<Id, Decision>
    var buffers: map<WaitId, Option<Decision>>

    constructor ()
      ensures pending == map[] && decided == map[] && buffers == map[]
    {
      pending, decided, buffers := map[], map[], map[];
    }

    /** This object's share of the state, with the goroutines and the announcements around it. */
    function In(waits: map<WaitId, WaitPc>, calls: map<CallId, CallPc>, announced: seq<Announcement>): State
      reads this
    {
      State(pending, decided, buffers, waits, calls, announced)
    }

    method Register(w: WaitId, gate: Id) returns (pc: WaitPc)
      modifies this
      ensures forall ws, cs, an | w !in ws ::
                In(ws[w := pc], cs, an) == Do(old(In(ws, cs, an)), Wait(w, gate))
    {
      if gate in decided {
        return Returned(gate, decided[gate]);
      }
      if gate in pending {
        return Refused;
      }
      pending := pending[gate := w];
      buffers := buffers[w := None];
      pc := Blocked(gate);
    }

    method Record(gate: Id, d: Decision) returns (pc: CallPc)
      modifies this`decided
      ensures forall ws, cs, an, c | c !in cs ::
                In(ws, cs[c := pc], an) == Do(old(In(ws, cs, an)), Resolve(c, gate, d))
      ensures if gate in old(decided) || Unfit(d) then pc == Rejected && decided == old(decided)
              else pc.Recorded? && decided == old(decided)[gate := d]
    {
      UnfitIff(d);
      if !d.ok && (d.feedback.None? || !FeedbackOk(d.feedback.value)) {
        return Rejected;
      }
      if gate in decided {
        return Rejected;
      }
      decided := decided[gate := d];
      pc := Recorded(gate, d, if gate in pending then Some(pending[gate]) else None);
    }
  }
}
