/** Which closes can be followed by a live worker. */
module WuidClose {
  import opened Clock
  import opened WorkflowDef
  import opened Wuid
  import E = WuidExact

  /** A step of a closed worker that is not live. */
  lemma DownStep(c: Config, s: State, a: Action, p: Pid)
    requires Enabled(c, s, a) && p in s.workers && s.workers[p].closed && !s.workers[p].alive
    ensures p in Do(c, s, a).workers && Do(c, s, a).workers[p].closed
    ensures a != Store(p) ==> !Do(c, s, a).workers[p].alive
    ensures a == Store(p) ==> InClaim(s.workers[p].pc) && Do(c, s, a).workers[p].alive
    ensures InClaim(Do(c, s, a).workers[p].pc) ==> InClaim(s.workers[p].pc) || (a.Begin? && a.pid == p)
  {
  }

  /** After a close a worker is live again only by storing an id that it was claiming when it was closed,
      or that it began to claim before its loop ended. */
  lemma {:induction false} LiveAgain(c: Config, s: State, p: Pid, actions: seq<Action>, t: State)
    requires Runs(c, s, actions, t) && p in s.workers && s.workers[p].closed && !s.workers[p].alive
    ensures p in t.workers && (t.workers[p].alive ==> Store(p) in actions)
    ensures Store(p) in actions ==> InClaim(s.workers[p].pc) || exists token, skew :: Begin(p, token, skew) in actions
    decreases |actions|
  {
    hide Do, Enabled;
    if actions != [] {
      var a, rest := actions[0], actions[1..];
      assert forall b :: b in actions <==> b == a || b in rest;
      DownStep(c, s, a, p);
      if a != Store(p) {
        LiveAgain(c, Do(c, s, a), p, rest, t);
        if Store(p) in rest && !InClaim(s.workers[p].pc) {
          assert InClaim(Do(c, s, a).workers[p].pc) ==> Begin(p, a.token, a.skew) in actions;
          if token, skew :| Begin(p, token, skew) in rest {
            assert Begin(p, token, skew) in actions;
          }
        }
      } else {
        KnownRun(c, Do(c, s, a), p, rest, t);
      }
    }
  }

  lemma {:induction false} KnownRun(c: Config, s: State, p: Pid, actions: seq<Action>, t: State)
    requires Runs(c, s, actions, t) && p in s.workers
    ensures p in t.workers
    decreases |actions|
  {
    if actions != [] {
      KnownRun(c, Do(c, s, actions[0]), p, actions[1..], t);
    }
  }

  /** A loop that has ended stays ended, so a worker whose loop ended while it was down stays down. */
  lemma {:induction false} EndedStaysDown(c: Config, s: State, p: Pid, actions: seq<Action>, t: State)
    requires Runs(c, s, actions, t) && p in s.workers && s.workers[p].pc.Stopped? && s.workers[p].closed
    ensures p in t.workers && t.workers[p] == s.workers[p]
    decreases |actions|
  {
    if actions != [] {
      EndedStaysDown(c, Do(c, s, actions[0]), p, actions[1..], t);
    }
  }

  // ----- Which claims succeed -----

  /** What every run keeps beside the invariant: a live worker has a token, and a selected slot is a row. */
  ghost predicate Sound(s: State) {
    forall p | p in s.workers ::
      (s.workers[p].alive ==> s.workers[p].token.Some?)
        && (s.workers[p].pc.Selected? ==> s.workers[p].pc.slot in s.rows)
  }

  lemma SoundKept(c: Config, s: State, a: Action)
    requires Base(c, s) && Sound(s) && Enabled(c, s, a)
    ensures Sound(Do(c, s, a))
  {
    var s' := Do(c, s, a);
    forall i | i in s.rows
      ensures i in s'.rows
    {
      RowKept(c, s, a, i);
    }
    hide Base;
    forall p | p in s'.workers
      ensures s'.workers[p].alive ==> s'.workers[p].token.Some?
      ensures s'.workers[p].pc.Selected? ==> s'.workers[p].pc.slot in s'.rows
    {
      if Actor(a) != Some(p) {
        OthersKept(c, s, a, p);
      }
    }
  }

  lemma {:induction false} AlwaysSound(c: Config, s: State, actions: seq<Action>, t: State)
    requires Base(c, s) && Sound(s) && Runs(c, s, actions, t)
    ensures Base(c, t) && Sound(t)
    decreases |actions|
  {
    hide Base, Sound, Do, Enabled;
    if actions != [] {
      BaseKept(c, s, actions[0]);
      SoundKept(c, s, actions[0]);
      AlwaysSound(c, Do(c, s, actions[0]), actions[1..], t);
    }
  }

  ghost predicate NoBegin(p: Pid, actions: seq<Action>) {
    forall a | a in actions :: !(a.Begin? && a.pid == p)
  }

  /** Some run in which `p` begins no other claim makes it live. */
  ghost predicate MayLive(c: Config, s: State, p: Pid) {
    exists actions, t :: Runs(c, s, actions, t) && NoBegin(p, actions) && p in t.workers && t.workers[p].alive
  }

  /** The claim is not yet lost: an id to insert is still free. */
  predicate Promising(s: State, pc: Pc) {
    match pc
    case NoSlot(_) => MAX_WORKER_ID !in s.rows
    case MaxRead(_, next) => next !in s.rows
    case _ => InClaim(pc)
  }

  /** A lost claim stays lost. */
  lemma LostStep(c: Config, s: State, a: Action, p: Pid)
    requires Base(c, s) && Enabled(c, s, a) && p in s.workers && s.workers[p].closed && !s.workers[p].alive
    requires !Promising(s, s.workers[p].pc) && !(a.Begin? && a.pid == p)
    ensures var s' := Do(c, s, a);
            p in s'.workers && s'.workers[p].closed && !s'.workers[p].alive && !Promising(s', s'.workers[p].pc)
  {
    var s' := Do(c, s, a);
    forall i | i in s.rows
      ensures i in s'.rows
    {
      RowKept(c, s, a, i);
    }
    hide Base;
    if Actor(a) != Some(p) {
      OthersKept(c, s, a, p);
    }
  }

  lemma {:induction false} LostForGood(c: Config, s: State, p: Pid, actions: seq<Action>, t: State)
    requires Base(c, s) && Runs(c, s, actions, t) && NoBegin(p, actions)
    requires p in s.workers && s.workers[p].closed && !s.workers[p].alive && !Promising(s, s.workers[p].pc)
    ensures p in t.workers && !t.workers[p].alive
    decreases |actions|
  {
    hide Base, Do, Enabled, Promising;
    if actions != [] {
      BaseKept(c, s, actions[0]);
      LostStep(c, s, actions[0], p);
      LostForGood(c, Do(c, s, actions[0]), p, actions[1..], t);
    }
  }

  // ----- A run in which the claim succeeds -----

  /** A run from `s` to `t` in which `p` begins nothing. */
  ghost predicate Leads(c: Config, s: State, p: Pid, actions: seq<Action>, t: State) {
    Runs(c, s, actions, t) && NoBegin(p, actions)
  }

  lemma Go(c: Config, s: State, p: Pid, actions: seq<Action>, t: State, a: Action) returns (longer: seq<Action>)
    requires Leads(c, s, p, actions, t) && Enabled(c, t, a) && !a.Begin?
    ensures Leads(c, s, p, longer, Do(c, t, a))
  {
    hide Do, Enabled, Runs;
    longer := E.Next(c, s, actions, t, a);
  }

  /** A granted claim is stored. */
  lemma StoreLives(c: Config, s: State, p: Pid, actions: seq<Action>, t: State)
    requires Leads(c, s, p, actions, t) && p in t.workers && t.workers[p].pc.Granted?
    ensures MayLive(c, s, p)
  {
    hide Runs;
    var longer := Go(c, s, p, actions, t, Store(p));
    assert Do(c, t, Store(p)).workers[p].alive;
  }

  /** A free id is inserted. */
  lemma InsertLives(c: Config, s: State, p: Pid, actions: seq<Action>, t: State)
    requires Leads(c, s, p, actions, t) && Base(c, t) && p in t.workers && !Expects(t.workers[p].pc)
    requires Promising(t, t.workers[p].pc)
    ensures MayLive(c, s, p)
  {
    hide Runs, Leads;
    var longer, u := actions, t;
    if t.workers[p].pc.NoSlot? {
      var next := FreeId(t.rows);
      longer := Go(c, s, p, longer, u, SelectMax(p, next));
      u := Do(c, u, SelectMax(p, next));
    }
    if u.workers[p].pc.MaxRead? {
      longer := Go(c, s, p, longer, u, TryInsert(p));
      u := Do(c, u, TryInsert(p));
    }
    StoreLives(c, s, p, longer, u);
  }

  /** The claim is before its update of an expired row. */
  predicate Expects(pc: Pc) {
    pc.Drawn? || pc.Selected?
  }

  lemma FreeId(t: Table) returns (next: nat)
    requires Dense(t) && MAX_WORKER_ID !in t
    ensures NextId(t, next) && next <= MAX_WORKER_ID && next !in t
  {
    if t.Keys == {} {
      next := 0;
    } else {
      var most := Highest(t.Keys);
      next := most + 1;
    }
  }

  lemma {:induction false} Highest(ids: set<nat>) returns (most: nat)
    requires ids != {}
    ensures most in ids && forall i | i in ids :: i <= most
    decreases |ids|
  {
    most :| most in ids;
    if ids != {most} {
      var other := Highest(ids - {most});
      assert forall i | i in ids :: i == most || i in ids - {most};
      if other > most {
        most := other;
      }
    }
  }

  /** Nothing makes the worker hurry. */
  predicate Idle(w: Worker) {
    !w.pc.Granted? && (w.closed || !w.alive)
  }

  /** The others can be stopped while the claim waits. */
  lemma {:induction false} Calm(c: Config, s: State, p: Pid, run: seq<Action>, t: State, todo: set<Pid>)
    returns (longer: seq<Action>, u: State)
    requires Leads(c, s, p, run, t) && Sound(t) && p in t.workers && p !in todo
    requires forall q | q in t.workers && q != p && q !in todo :: Idle(t.workers[q])
    ensures Leads(c, s, p, longer, u) && p in u.workers && u.workers[p] == t.workers[p] && u.rows == t.rows
            && u.now == t.now
    ensures forall q | q in u.workers && q != p :: Idle(u.workers[q])
    decreases |todo|
  {
    hide Leads;
    longer, u := run, t;
    if q :| q in todo {
      if q in u.workers && u.workers[q].pc.Granted? {
        longer := Go(c, s, p, longer, u, ClaimFails(q));
        u := Do(c, u, ClaimFails(q));
      }
      if q in u.workers && u.workers[q].alive && !u.workers[q].closed {
        longer := Go(c, s, p, longer, u, Close(q));
        u := Do(c, u, Close(q));
      }
      longer, u := Calm(c, s, p, longer, u, todo - {q});
    }
  }

  /** A claim that waits until every lease has run out takes the first row, or the first id. */
  lemma WaitLives(c: Config, s: State, p: Pid)
    requires Base(c, s) && Sound(s) && p in s.workers && s.workers[p].closed && Expects(s.workers[p].pc)
    ensures MayLive(c, s, p)
  {
    assert Runs(c, s, [], s);
    var run, t := Calm(c, s, p, [], s, s.workers.Keys - {p});
    var to := t.now + Span(Lease(c) + 1);
    hide Leads, Runs;
    run := Go(c, s, p, run, t, Tick(to));
    var u := Do(c, t, Tick(to));
    AllExpired(c, s, to);
    assert u.rows == s.rows && u.workers[p] == s.workers[p] && DbNow(u) == Millis(to);
    TakeLives(c, s, p, run, u);
  }

  lemma AllExpired(c: Config, s: State, to: int)
    requires Base(c, s) && to == s.now + Span(Lease(c) + 1)
    ensures forall i | i in s.rows :: Expired(s.rows, i, Millis(to))
    ensures forall i | i in s.rows :: 0 in s.rows
    ensures Dense(s.rows)
  {
    Counts(s.now, to, Lease(c) + 1);
    hide Tokens, Inserts, Lease, Millis;
  }

  lemma TakeLives(c: Config, s: State, p: Pid, run: seq<Action>, t: State)
    requires Leads(c, s, p, run, t) && p in t.workers && Expects(t.workers[p].pc)
    requires (forall i | i in t.rows :: Expired(t.rows, i, DbNow(t)) && 0 in t.rows) && Dense(t.rows)
    requires t.workers[p].pc.Selected? ==> t.workers[p].pc.slot in t.rows
    ensures MayLive(c, s, p)
  {
    hide Leads, Runs, Dense;
    var longer, u := run, t;
    if t.workers[p].pc.Drawn? {
      var found := if 0 in t.rows then Some(0) else None;
      longer := Go(c, s, p, longer, u, Select(p, found));
      u := Do(c, u, Select(p, found));
    }
    if u.workers[p].pc.Selected? {
      longer := Go(c, s, p, longer, u, TryReuse(p));
      u := Do(c, u, TryReuse(p));
    } else {
      assert 0 !in u.rows && forall i :: i !in u.rows;
      longer := Go(c, s, p, longer, u, SelectMax(p, 0));
      u := Do(c, u, SelectMax(p, 0));
      longer := Go(c, s, p, longer, u, TryInsert(p));
      u := Do(c, u, TryInsert(p));
    }
    StoreLives(c, s, p, longer, u);
  }

  /** After a close, and unless it begins another claim before its loop ends, a worker can come back to
      life if and only if it is in the middle of a claim that is not yet lost: it is granted, it can still
      find an expired row, or the id it would insert is still free. */
  lemma LiveAgainIff(c: Config, s: State, p: Pid)
    requires Base(c, s) && Sound(s) && p in s.workers && s.workers[p].closed && !s.workers[p].alive
    ensures MayLive(c, s, p) <==> Promising(s, s.workers[p].pc)
  {
    hide Base, Sound, Runs;
    if Promising(s, s.workers[p].pc) {
      assert Runs(c, s, [], s) by {
        E.Nothing(c, s);
      }
      if Expects(s.workers[p].pc) {
        WaitLives(c, s, p);
      } else {
        InsertLives(c, s, p, [], s);
      }
    } else if MayLive(c, s, p) {
      var actions, t :| Runs(c, s, actions, t) && NoBegin(p, actions) && p in t.workers && t.workers[p].alive;
      LostForGood(c, s, p, actions, t);
    }
  }
}
