/** For which leases and delays a live lock is a held lock. */
module KeepAliveExact {
  import opened Clock
  import opened DLock
  import opened KeepAlive
  import opened WorkflowDef

  // ----- The condition -----

  // Ticks are an interval apart. A renewal is noted some time after the tick it started at, and the
  // acquisition is noted before the first tick of all by at most an interval.

  function Tick(tau: int, k: nat, i: nat): int {
    if k == 0 then tau else Tick(tau, k - 1, i) + i
  }

  lemma {:induction false} Shift(tau: int, d: int, k: nat, i: nat)
    ensures Tick(tau + d, k, i) == Tick(tau, k, i) + d
  {
    if k > 0 {
      Shift(tau, d, k - 1, i);
    }
  }

  lemma {:induction false} LaterTick(tau: int, k: nat, m: nat, i: nat)
    ensures k <= m ==> Tick(tau, k, i) <= Tick(tau, m, i)
    ensures k < m ==> Tick(tau, k, i) + i <= Tick(tau, m, i)
    decreases m
  {
    if k < m {
      LaterTick(tau, k, m - 1, i);
    }
  }

  lemma FirstTicks(tau: int, i: nat)
    ensures Tick(tau, 0, i) == tau && Tick(tau, 1, i) == tau + i && Tick(tau, 2, i) == tau + 2 * i
            && Tick(tau, 3, i) == tau + 3 * i
  {
  }

  /** The `k`-th tick after a renewal can find the lock alive: the one before it came early enough to fail
      and be tolerated. The renewal was noted `x` after tick 0. */
  predicate Reaches(c: Config, x: int, k: nat) {
    k >= 1 && (k == 1 || Tick(0, k - 1, Interval(c)) < Span(GiveUp(c)) + x)
  }

  /** How long after its tick a renewal noted `x` after it was executed, at least. */
  function Behind(c: Config, x: int): int {
    if x > c.call then x - c.call else 0
  }

  /** From the acquisition on: no tick that can find the lock alive is answered after the lease. */
  ghost predicate FirstExact(c: Config) {
    forall x, k: nat | 0 - c.late <= x <= 0 && Reaches(c, x, k) ::
      Tick(0, k, Interval(c)) + c.late + c.call <= Span(Lease(c)) + x - c.call
  }

  /** From a renewal on. */
  ghost predicate LaterExact(c: Config) {
    forall x, k: nat | 0 <= x <= c.late + c.call && Reaches(c, x, k) ::
      Tick(0, k, Interval(c)) + c.late + c.call <= Span(Lease(c)) + Behind(c, x)
  }

  ghost predicate Exact(c: Config) {
    FirstExact(c) && LaterExact(c)
  }

  /** If a refresh can still be under way when the next tick comes, the first tick or the second one is
      answered too late. */
  lemma OverrunIsLate(c: Config)
    requires c.late + c.call > Interval(c)
    ensures !FirstExact(c)
  {
    var i, g := Interval(c), Span(GiveUp(c));
    FirstTicks(0, i);
    assert Reaches(c, 0 - c.late, 1);
    if i + 2 * (c.late + c.call) <= Span(Lease(c)) {
      OverrunFacts(c);
      var x := if g >= i + 1 + c.late then 0 - c.late else i + 1 - g;
      hide Interval, GiveUp, Lease, Tick;
      assert Reaches(c, x, 2);
    }
  }

  lemma OverrunFacts(c: Config)
    requires c.late + c.call > Interval(c) && Interval(c) + 2 * (c.late + c.call) <= Span(Lease(c))
    ensures var i, g, l := Interval(c), Span(GiveUp(c)), Span(Lease(c));
            var x := if g >= i + 1 + c.late then 0 - c.late else i + 1 - g;
            i < g && l <= 3 * i + 2 && 2 * i + c.late + c.call > l + x - c.call
  {
  }

  /** Exact timing keeps every refresh within its interval. */
  lemma NoOverrun(c: Config)
    requires FirstExact(c)
    ensures c.late + c.call <= Interval(c) && c.late + c.call <= Span(Lease(c))
  {
    if c.late + c.call > Interval(c) {
      OverrunIsLate(c);
    }
    FirstTicks(0, Interval(c));
    assert Reaches(c, 0 - c.late, 1);
    hide Interval, Lease;
  }

  // ----- Exact timing is safe -----

  /** Tick 0 was that of the last renewal, or the start of the ticker. */
  predicate Fits(c: Config, s: State, tau: int) {
    var x, y := s.lastRenew - tau, s.given - tau;
    y >= x - c.call && ((0 <= x <= c.late + c.call && y >= 0) || 0 - c.late <= x <= 0)
  }

  /** The next tick is tick `k`, and the attempt that waits or runs is that of tick `n`. */
  ghost predicate Tracks(c: Config, s: State, tau: int, k: nat, n: nat) {
    var i := Interval(c);
    var x := s.lastRenew - tau;
    match s.phase
    case Resting(None) => s.tick == Tick(tau, k, i) && Fits(c, s, tau) && Reaches(c, x, k)
    case Resting(Some(due)) =>
      && s.tick == Tick(tau, k, i) && Fits(c, s, tau) && Reaches(c, x, n) && k >= n + 1
      && Tick(tau, n, i) <= s.now && Tick(tau, k - 1, i) <= s.now && due <= Tick(tau, n, i) + c.late
    case Refreshing(started, _) =>
      && s.tick == Tick(tau, k, i) && Fits(c, s, tau) && Reaches(c, x, n) && k >= n + 1
      && Tick(tau, n, i) <= started <= Tick(tau, n, i) + c.late && Tick(tau, k - 1, i) <= s.now
      && (if s.buffered then k == n + 2 else Tick(tau, k - 1, i) <= started)
    case _ => true
  }

  ghost predicate Tracked(c: Config, s: State) {
    exists tau, k: nat, n: nat :: Tracks(c, s, tau, k, n)
  }

  lemma FireTracks(c: Config, s: State, tau: int, k: nat, n: nat)
    requires FirstExact(c) && Inv(c, s) && Tracks(c, s, tau, k, n) && Enabled(c, s, Fire)
    ensures Tracked(c, Do(c, s, Fire))
  {
    NoOverrun(c);
    var t := Do(c, s, Fire);
    hide Interval, GiveUp, RowOk, Exact, FirstExact, LaterExact, Lasts, Apply;
    if s.phase.Resting? && s.phase.due.None? {
      assert Tracks(c, t, tau, k + 1, k);
    } else {
      LaterTick(tau, n + 1, k, Interval(c));
      LaterTick(tau, n + 2, k, Interval(c));
      hide Tick;
      assert Tracks(c, t, tau, k + 1, n);
    }
  }

  lemma Halted(c: Config, s: State)
    requires s.phase.Stopped?
    ensures Tracked(c, s)
  {
    assert Tracks(c, s, 0, 0, 0);
  }

  /** Where an answer finds the loop. */
  lemma AnswerFacts(c: Config, s: State, tau: int, k: nat, n: nat)
    requires FirstExact(c) && Inv(c, s) && Tracks(c, s, tau, k, n) && s.phase.Refreshing?
    ensures var i := Interval(c);
            var own, last := Tick(tau, n, i), Tick(tau, k - 1, i);
            && own <= last <= s.now <= s.phase.started + c.call && own <= s.phase.started <= own + c.late
            && s.tick == last + i && (s.phase.reply == Some(Ok) ==> s.phase.started <= s.given)
            && (if s.buffered then k == n + 2 && s.now == last == own + i else last <= s.phase.started)
  {
    NoOverrun(c);
    var i := Interval(c);
    LaterTick(tau, n, k - 1, i);
    hide Interval, GiveUp, RowOk, FirstExact, Lasts, Tick, Fits, Reaches;
  }

  lemma SuccessTracks(c: Config, s: State, a: Action, tau: int, k: nat, n: nat)
    requires FirstExact(c) && Inv(c, s) && Tracks(c, s, tau, k, n) && Enabled(c, s, a) && a.Answer? && !a.lost
    ensures Tracked(c, Do(c, s, a))
  {
    var t := Do(c, s, a);
    var i := Interval(c);
    AnswerFacts(c, s, tau, k, n);
    hide Interval, GiveUp, Inv, FirstExact, Tracks;
    if t.phase.Stopped? {
      Halted(c, t);
    } else if s.buffered {
      var base := Tick(tau, n, i);
      FirstTicks(base, i);
      hide Tick, Ends;
      BufferedSuccess(c, t, base);
    } else {
      var base := Tick(tau, k - 1, i);
      FirstTicks(base, i);
      hide Tick, Ends;
      PlainSuccess(c, t, base);
    }
  }

  lemma BufferedSuccess(c: Config, t: State, base: int)
    requires t.phase == Resting(Some(t.now + c.late)) && t.tick == base + 2 * Interval(c) && t.now == base + Interval(c)
    requires t.lastRenew == t.now && Fits(c, t, base)
    ensures Tracked(c, t)
  {
    FirstTicks(base, Interval(c));
    assert Tracks(c, t, base, 2, 1);
  }

  lemma PlainSuccess(c: Config, t: State, base: int)
    requires t.phase == Resting(None) && t.tick == base + Interval(c) && Fits(c, t, base)
    ensures Tracked(c, t)
  {
    FirstTicks(base, Interval(c));
    assert Tracks(c, t, base, 1, 0);
  }

  lemma FailureTracks(c: Config, s: State, a: Action, tau: int, k: nat, n: nat)
    requires FirstExact(c) && Inv(c, s) && Tracks(c, s, tau, k, n) && Enabled(c, s, a) && a.Answer? && a.lost
    ensures Tracked(c, Do(c, s, a))
  {
    var t := Do(c, s, a);
    var i := Interval(c);
    if t.phase.Stopped? {
      Halted(c, t);
    } else {
      Tolerated(c, s);
      AnswerFacts(c, s, tau, k, n);
      assert Fits(c, s, tau);
      hide Interval, GiveUp, Inv, FirstExact, Tick, Ends, Tracks;
      if s.buffered {
        BufferedFailure(c, t, tau, k);
      } else {
        PlainFailure(c, t, tau, k);
      }
    }
  }

  lemma BufferedFailure(c: Config, t: State, tau: int, k: nat)
    requires k >= 2 && t.phase == Resting(Some(t.now + c.late)) && t.tick == Tick(tau, k, Interval(c))
             && Fits(c, t, tau)
    requires t.now == Tick(tau, k - 1, Interval(c)) && t.now - t.lastRenew < Span(GiveUp(c))
    ensures Tracked(c, t)
  {
    Shift(0, tau, k - 2, Interval(c));
    hide Interval, GiveUp, Tick;
    assert Tracks(c, t, tau, k, k - 1);
  }

  lemma PlainFailure(c: Config, t: State, tau: int, k: nat)
    requires k >= 1 && t.phase == Resting(None) && t.tick == Tick(tau, k, Interval(c)) && Fits(c, t, tau)
    requires Tick(tau, k - 1, Interval(c)) <= t.now && t.now - t.lastRenew < Span(GiveUp(c))
    ensures Tracked(c, t)
  {
    Shift(0, tau, k - 1, Interval(c));
    hide Interval, GiveUp, Tick;
    assert Tracks(c, t, tau, k, 0);
  }

  lemma StartTracks(c: Config, s: State)
    requires Inv(c, s) && Enabled(c, s, StartTicker)
    ensures Tracked(c, Do(c, s, StartTicker))
  {
    assert Tracks(c, Do(c, s, StartTicker), s.now, 1, 0);
  }

  lemma OtherTracks(c: Config, s: State, a: Action, tau: int, k: nat, n: nat)
    requires Inv(c, s) && Tracks(c, s, tau, k, n) && Enabled(c, s, a) && !a.Answer? && !a.Fire? && !a.StartTicker?
    ensures Tracked(c, Do(c, s, a))
  {
    hide Interval, GiveUp, Lasts, Apply, Tick, Ends;
    assert s.given <= s.now;
    assert Tracks(c, Do(c, s, a), tau, k, n);
  }

  lemma StepTracks(c: Config, s: State, a: Action)
    requires FirstExact(c) && Inv(c, s) && Tracked(c, s) && Enabled(c, s, a)
    ensures Tracked(c, Do(c, s, a))
  {
    hide Inv, Do, Enabled, FirstExact, Tracks;
    var tau, k: nat, n: nat :| Tracks(c, s, tau, k, n);
    match a
    case Fire => FireTracks(c, s, tau, k, n);
    case StartTicker => StartTracks(c, s);
    case Answer(lost, _) =>
      if lost {
        FailureTracks(c, s, a, tau, k, n);
      } else {
        SuccessTracks(c, s, a, tau, k, n);
      }
    case _ => OtherTracks(c, s, a, tau, k, n);
  }

  /** What tracks is within its lease. */
  lemma TrackedLasts(c: Config, s: State)
    requires Exact(c) && Inv(c, s) && Tracked(c, s) && s.alive
    ensures s.now - s.given <= Span(Lease(c))
  {
    NoOverrun(c);
    var tau, k: nat, n: nat :| Tracks(c, s, tau, k, n);
    if s.phase.Resting? || s.phase.Refreshing? {
      var m := if s.phase.Resting? && s.phase.due.None? then k else n;
      TrackedTick(c, s, tau, k, n, m);
      hide Tracks, Inv;
      FitsLasts(c, s, tau, m);
    } else {
      hide Interval, GiveUp, RowOk, Lasts, Tick, Lease, FirstExact, LaterExact;
    }
  }

  /** The tick that the loop waits for or attends to. */
  lemma TrackedTick(c: Config, s: State, tau: int, k: nat, n: nat, m: nat)
    requires Inv(c, s) && Tracks(c, s, tau, k, n) && (s.phase.Resting? || s.phase.Refreshing?)
    requires m == if s.phase.Resting? && s.phase.due.None? then k else n
    ensures Fits(c, s, tau) && Reaches(c, s.lastRenew - tau, m)
    ensures s.now <= Tick(tau, m, Interval(c)) + c.late + c.call
  {
    hide Interval, GiveUp, RowOk, Lasts, Tick, Reaches, Fits;
  }

  lemma FitsLasts(c: Config, s: State, tau: int, m: nat)
    requires Exact(c) && Fits(c, s, tau) && Reaches(c, s.lastRenew - tau, m)
    requires s.now <= Tick(tau, m, Interval(c)) + c.late + c.call
    ensures s.now - s.given <= Span(Lease(c))
  {
    Shift(0, tau, m, Interval(c));
    hide Interval, GiveUp, Tick, Lease, Reaches;
  }

  lemma LastsUnexpired(c: Config, s: State)
    requires Inv(c, s) && (s.alive ==> s.now - s.given <= Span(Lease(c)))
    ensures Unexpired(c, s)
  {
    Counts(s.given, s.now, Lease(c));
    hide Millis, Lease, OnTime;
    assert s.alive ==> !s.closed by {
      assert OnTime(c, s) && s.phase.Stopped? ==> !s.alive by {
        StoppedIsDead(c, s);
      }
    }
  }

  lemma StoppedIsDead(c: Config, s: State)
    requires Inv(c, s)
    ensures s.phase.Stopped? ==> !s.alive
    ensures s.closed ==> !s.alive
  {
  }

  lemma {:induction false} ExactIsSafe(c: Config, s: State, actions: seq<Action>, t: State)
    requires Exact(c) && Inv(c, s) && Tracked(c, s) && Runs(c, s, actions, t)
    ensures Unexpired(c, t)
    decreases |actions|
  {
    hide Inv, Tracked, Do, Enabled, FirstExact, LaterExact, Unexpired;
    if actions == [] {
      if s.alive {
        TrackedLasts(c, s);
      }
      LastsUnexpired(c, s);
    } else {
      StepKeeps(c, s, actions[0]);
      StepTracks(c, s, actions[0]);
      ExactIsSafe(c, Do(c, s, actions[0]), actions[1..], t);
    }
  }

  // ----- Runs that stay alive too long -----

  lemma {:induction false} Then(c: Config, s: State, first: seq<Action>, t: State, more: seq<Action>, u: State)
    requires Runs(c, s, first, t) && Runs(c, t, more, u)
    ensures Runs(c, s, first + more, u)
    decreases |first|
  {
    hide Do, Enabled;
    if first == [] {
      assert first + more == more;
    } else {
      Then(c, Do(c, s, first[0]), first[1..], t, more, u);
      assert (first + more)[1..] == first[1..] + more;
    }
  }

  /** The state can be reached from an acquisition. */
  ghost predicate Reached(c: Config, t: State) {
    exists s, actions :: Init(c, s) && Runs(c, s, actions, t)
  }

  lemma Step(c: Config, s: State, a: Action) returns (t: State)
    requires Reached(c, s) && Enabled(c, s, a)
    ensures Reached(c, t) && t == Do(c, s, a)
  {
    hide Do, Enabled, Init;
    t := Do(c, s, a);
    var start, actions :| Init(c, start) && Runs(c, start, actions, s);
    assert [a][1..] == [];
    assert Runs(c, t, [], t);
    assert Runs(c, s, [a], t);
    Then(c, start, actions, s, [a], t);
  }

  /** The lock is acquired at `at`, by a holder whose clock has the given skew. */
  function Start(c: Config, at: nat, skew: nat): State {
    State(Table(map[c.name := Row(c.owner, Millis(at) + Lease(c))], Millis(at)), at, skew, false, false, 0, 0, 0, false,
          Acquiring(at), 0, at)
  }

  /** A live lock, leased at `given` and noted at `noted`, whose loop waits for the tick at `tick`. Its clock
      had just counted when it noted the renewal. */
  predicate Waiting(c: Config, s: State, given: int, noted: int, tick: int) {
    && s.alive && !s.closed && !s.buffered && s.phase == Resting(None) && s.now <= s.tick == tick
    && s.given == given && s.lastRenew == noted && Held(s.table, c.name, c.owner)
  }

  /** The cap on holding lets a refresh start at `at`. */
  predicate Uncapped(c: Config, s: State, at: int) {
    c.maxHold == 0 || at - s.acquiredAt < c.maxHold
  }

  /** The answer to the acquisition takes `ack`, and the loop starts `delay` after it. */
  lemma FirstWait(c: Config, at: nat, skew: nat, ack: nat, delay: nat) returns (s: State)
    requires c.owner != "" && ack <= c.call && delay <= c.late
    ensures Reached(c, s) && Waiting(c, s, at, at + ack, at + ack + delay + Interval(c))
    ensures s.skew == skew && s.acquiredAt == at + ack && s.now == at + ack + delay
  {
    s := Start(c, at, skew);
    assert Reached(c, s) by {
      assert Init(c, s) && Runs(c, s, [], s);
    }
    hide Reached, Interval, Millis, Lease;
    s := Step(c, s, Wait(ack));
    s := Step(c, s, Acquired);
    s := Step(c, s, Wait(delay));
    s := Step(c, s, StartTicker);
  }

  /** The refresh of the next tick starts `delay` late, is executed at once, and answered `lag` later. */
  lemma RenewedWait(c: Config, s: State, given: int, noted: int, tick: int, delay: nat, lag: nat) returns (t: State)
    requires Reached(c, s) && Waiting(c, s, given, noted, tick) && Uncapped(c, s, tick + delay)
    requires delay <= c.late && lag <= c.call && delay + lag <= Interval(c)
    ensures Reached(c, t) && Waiting(c, t, tick + delay, tick + delay + lag, tick + Interval(c))
    ensures t.skew == s.skew && t.acquiredAt == s.acquiredAt
  {
    hide Reached, Interval, Millis, Lease, GiveUp;
    t := Step(c, s, Wait(tick - s.now));
    t := Step(c, t, Fire);
    t := Step(c, t, Wait(delay));
    t := Step(c, t, Begin);
    t := Step(c, t, Execute);
    t := Step(c, t, Wait(lag));
    t := Step(c, t, Answer(false, false));
  }

  /** The refresh of the next tick starts on time and fails at once. */
  lemma FailedWait(c: Config, s: State, given: int, noted: int, tick: int) returns (t: State)
    requires Reached(c, s) && Waiting(c, s, given, noted, tick) && Uncapped(c, s, tick)
    requires tick - noted < Span(GiveUp(c)) && (noted + s.skew) % MILLI == 0
    ensures Reached(c, t) && Waiting(c, t, given, noted, tick + Interval(c)) && t.skew == s.skew
            && t.acquiredAt == s.acquiredAt
  {
    JustCounted(noted + s.skew, tick - noted);
    assert Millis(tick - noted) < GiveUp(c);
    hide Reached, Interval, Millis, Lease, GiveUp;
    t := Step(c, s, Wait(tick - s.now));
    t := Step(c, t, Fire);
    t := Step(c, t, Begin);
    t := Step(c, t, Answer(true, false));
  }

  /** The next `m` ticks fail at once. */
  lemma {:induction false} FailedWaits(c: Config, s: State, given: int, noted: int, tick: int, m: nat)
    returns (t: State)
    requires Reached(c, s) && Waiting(c, s, given, noted, tick) && (noted + s.skew) % MILLI == 0
    requires m > 0 ==>
               var last := Tick(tick, m - 1, Interval(c));
               last - noted < Span(GiveUp(c)) && Uncapped(c, s, last)
    ensures Reached(c, t) && Waiting(c, t, given, noted, Tick(tick, m, Interval(c))) && t.acquiredAt == s.acquiredAt
    decreases m
  {
    t := s;
    if m > 0 {
      var i := Interval(c);
      LaterTick(tick, 0, m - 1, i);
      FirstTicks(tick, i);
      t := FailedWait(c, s, given, noted, tick);
      Shift(tick, i, m - 1, i);
      if m > 1 {
        Shift(tick, i, m - 2, i);
      }
      t := FailedWaits(c, t, given, noted, tick + i, m - 1);
    } else {
      FirstTicks(tick, Interval(c));
    }
  }

  /** Time goes on to `until` while nothing but the ticker moves. */
  lemma {:induction false} WaitUntil(c: Config, s: State, until: int) returns (t: State)
    requires Reached(c, s) && s.alive && s.now <= until && s.now <= s.tick
    requires (s.phase.Resting? && s.phase.due.Some? && until <= s.phase.due.value)
             || (s.phase.Refreshing? && until <= s.phase.started + c.call)
    ensures Reached(c, t) && t.alive && t.phase == s.phase && t.given == s.given && t.acquiredAt == s.acquiredAt
    ensures t.now == until && until <= t.tick
    decreases until - s.now
  {
    hide Reached, Millis, Lease;
    if s.now == until {
      t := s;
    } else if s.now == s.tick {
      t := Step(c, s, Fire);
      t := Step(c, t, Wait(1));
      t := WaitUntil(c, t, until);
    } else {
      t := Step(c, s, Wait(1));
      t := WaitUntil(c, t, until);
    }
  }

  /** The refresh of the next tick is as late and as slow as it can be. */
  lemma SlowTick(c: Config, s: State, given: int, noted: int, tick: int) returns (t: State)
    requires Reached(c, s) && Waiting(c, s, given, noted, tick) && Uncapped(c, s, tick + c.late)
    ensures Reached(c, t) && t.alive && t.now == tick + c.late + c.call && t.given == given
  {
    hide Reached, Millis, Lease, Interval;
    t := Step(c, s, Wait(tick - s.now));
    t := Step(c, t, Fire);
    t := WaitUntil(c, t, tick + c.late);
    t := Step(c, t, Begin);
    t := WaitUntil(c, t, tick + c.late + c.call);
  }

  /** Some run reaches a live lock whose lease has run out. */
  ghost predicate Overstays(c: Config) {
    exists t :: Reached(c, t) && t.alive && Millis(t.now) > Millis(t.given) + Lease(c)
  }

  /** A lease given just before a millisecond ends runs out as soon as it can. */
  lemma Overdue(c: Config, t: State)
    requires Reached(c, t) && t.alive && t.given % MILLI == MILLI - 1 && t.now - t.given > Span(Lease(c))
    ensures Overstays(c)
  {
    AboutToCount(t.given, t.now - t.given);
    hide Lease;
  }

  /** The cap on holding, if there is one, is too long to matter. */
  predicate LongHold(c: Config) {
    c.maxHold == 0 || c.maxHold > 2 * Interval(c) + Span(GiveUp(c)) + 2 * c.late + c.call
  }

  /** The skew with which a clock has just counted at `t`. */
  function SkewFor(t: int): (k: nat)
    ensures (t + k) % MILLI == 0
  {
    (MILLI - t % MILLI) % MILLI
  }

  /** The ticks from `first` on fail, until the `k`-th comes too late. */
  lemma EndsLate(c: Config, s: State, given: int, noted: int, first: int, k: nat)
    requires Reached(c, s) && Waiting(c, s, given, noted, first) && (noted + s.skew) % MILLI == 0
             && given % MILLI == MILLI - 1
    requires k > 1 ==> Tick(first, k - 2, Interval(c)) - noted < Span(GiveUp(c))
    requires k >= 1 && Uncapped(c, s, Tick(first, k - 1, Interval(c)) + c.late)
    requires Tick(first, k - 1, Interval(c)) + c.late + c.call - given > Span(Lease(c))
    ensures Overstays(c)
  {
    LaterTick(first, if k > 1 then k - 2 else 0, k - 1, Interval(c));
    hide Reached, Waiting, Lease, Overstays, GiveUp, Interval, Tick;
    var t := FailedWaits(c, s, given, noted, first, k - 1);
    t := SlowTick(c, t, given, noted, Tick(first, k - 1, Interval(c)));
    Overdue(c, t);
  }

  /** The ticks after the acquisition fail until one comes too late. */
  lemma FirstOverstays(c: Config, x: int, k: nat)
    requires LongHold(c) && c.owner != "" && 0 - c.late <= x <= 0 && Reaches(c, x, k)
    requires Tick(0, k, Interval(c)) + c.late + c.call > Span(Lease(c)) + x - c.call
    ensures Overstays(c)
  {
    var i := Interval(c);
    var at := EarlyBy(0);
    var noted := at + c.call;
    var first := noted - x + i;
    var s := FirstWait(c, at, SkewFor(noted), c.call, 0 - x);
    ShiftBoth(first, k, i);
    hide Reached, Waiting, Lease, Overstays, Tick, GiveUp, Interval, SkewFor, EarlyBy;
    EndsLate(c, s, at, noted, first, k);
  }

  /** The ticks from `first` on, counted from a tick before. */
  lemma ShiftBoth(first: int, k: nat, i: nat)
    requires k >= 1
    ensures Tick(first, k - 1, i) == Tick(0, k, i) + first - i
    ensures k > 1 ==> Tick(first, k - 2, i) == Tick(0, k - 1, i) + first - i && Tick(0, k, i) == Tick(0, k - 1, i) + i
    ensures k == 1 ==> Tick(0, k, i) == i
  {
    Shift(0, first, k - 1, i);
    if k > 1 {
      Shift(0, first, k - 2, i);
    }
  }

  /** A moment `d` after which a millisecond is about to end. */
  function EarlyBy(d: nat): (at: nat)
    ensures (at + d) % MILLI == MILLI - 1
  {
    MILLI - 1 - d % MILLI
  }

  /** The first tick renews, and the ticks after it fail until one comes too late. */
  lemma LaterOverstays(c: Config, x: int, k: nat)
    requires LongHold(c) && c.owner != "" && 0 <= x <= c.late + c.call <= Interval(c) && Reaches(c, x, k)
    requires Tick(0, k, Interval(c)) + c.late + c.call > Span(Lease(c)) + Behind(c, x)
    ensures Overstays(c)
  {
    var i := Interval(c);
    var delay: nat := Behind(c, x);
    var at := EarlyBy(i + delay);
    var given, noted, first := at + i + delay, at + i + x, at + 2 * i;
    var s := FirstWait(c, at, SkewFor(noted), 0, 0);
    ShiftBoth(first, k, i);
    hide Reached, Waiting, Lease, Overstays, Tick, GiveUp, Interval, SkewFor, EarlyBy;
    s := RenewedWait(c, s, at, at, at + i, delay, x - delay);
    EndsLate(c, s, given, noted, first, k);
  }

  lemma InexactOverstays(c: Config)
    requires LongHold(c) && c.owner != "" && !Exact(c)
    ensures Overstays(c)
  {
    hide Overstays, LongHold;
    if !FirstExact(c) {
      var x, k: nat :| 0 - c.late <= x <= 0 && Reaches(c, x, k)
        && !(Tick(0, k, Interval(c)) + c.late + c.call <= Span(Lease(c)) + x - c.call);
      FirstOverstays(c, x, k);
    } else {
      NoOverrun(c);
      var x, k: nat :| 0 <= x <= c.late + c.call && Reaches(c, x, k)
        && !(Tick(0, k, Interval(c)) + c.late + c.call <= Span(Lease(c)) + Behind(c, x));
      LaterOverstays(c, x, k);
    }
  }

  // ----- The theorems -----

  lemma {:induction false} RunKeeps(c: Config, s: State, actions: seq<Action>, t: State)
    requires Inv(c, s) && Runs(c, s, actions, t)
    ensures Inv(c, t)
    decreases |actions|
  {
    if actions != [] {
      StepKeeps(c, s, actions[0]);
      hide Inv, Do, Enabled;
      RunKeeps(c, Do(c, s, actions[0]), actions[1..], t);
    }
  }

  lemma ReachedKeeps(c: Config, t: State)
    requires Reached(c, t)
    ensures Inv(c, t)
  {
    var s, actions :| Init(c, s) && Runs(c, s, actions, t);
    InitHolds(c, s);
    hide Inv, Runs, Init;
    RunKeeps(c, s, actions, t);
  }

  /** A lock that overstays is alive while its row has expired, and another owner can take the row. */
  lemma OverstayShows(c: Config)
    requires Overstays(c)
    ensures !AlwaysUnexpired(c) && !AlwaysHolds(c)
  {
    var t :| Reached(c, t) && t.alive && Millis(t.now) > Millis(t.given) + Lease(c);
    ReachedKeeps(c, t);
    StoppedIsDead(c, t);
    LateIsExpired(c, t);
    var u := t;
    if HoldsRow(c, t) {
      u := TakenAway(c, t);
    }
    hide Inv, Unexpired, HoldsRow, Runs, Init;
    var s, actions :| Init(c, s) && Runs(c, s, actions, t);
    var s', actions' :| Init(c, s') && Runs(c, s', actions', u);
  }

  lemma LateIsExpired(c: Config, t: State)
    requires Inv(c, t) && !t.closed && t.alive && Millis(t.now) > Millis(t.given) + Lease(c)
    ensures !Unexpired(c, t)
  {
    hide OnTime;
  }

  /** Another owner takes the expired row while the lock is alive. */
  lemma TakenAway(c: Config, t: State) returns (u: State)
    requires Reached(c, t) && Inv(c, t) && t.alive && !Unexpired(c, t) && HoldsRow(c, t)
    ensures Reached(c, u) && !HoldsRow(c, u)
  {
    hide Reached, OnTime;
    assert |c.owner + "'"| != |c.owner|;
    u := Step(c, t, Rival(Take(c.name, c.owner + "'", 1)));
  }

  /** Without a cap on holding, or with one too long to matter: in every run a live lock holds its row
      unexpired, and in every run it holds its row at all, if and only if the timing is exact. */
  lemma AliveIff(c: Config)
    requires LongHold(c) && c.owner != ""
    ensures AlwaysUnexpired(c) <==> Exact(c)
    ensures AlwaysHolds(c) <==> Exact(c)
  {
    if Exact(c) {
      ExactIsHeld(c);
    } else {
      InexactOverstays(c);
      OverstayShows(c);
    }
  }

  /** Whatever the cap on holding, exact timing is enough. */
  lemma ExactIsHeld(c: Config)
    requires Exact(c)
    ensures AlwaysUnexpired(c) && AlwaysHolds(c)
  {
    hide Runs, Init, Exact;
    forall s, actions, t | Init(c, s) && Runs(c, s, actions, t)
      ensures Unexpired(c, t) && HoldsRow(c, t)
    {
      InitHolds(c, s);
      InitTracked(c, s);
      ExactIsSafe(c, s, actions, t);
    }
  }

  lemma InitTracked(c: Config, s: State)
    requires Init(c, s)
    ensures Tracked(c, s)
  {
    assert Tracks(c, s, 0, 0, 0);
  }

  // ----- Leases in milliseconds -----

  /** How much earlier than two intervals a failure has to be answered to be tolerated. */
  function Slack(c: Config): int {
    2 * Interval(c) - Span(GiveUp(c))
  }

  lemma MilliInterval(c: Config, millis: nat)
    requires millis >= 10 && c.ttl == Span(millis)
    ensures Lease(c) == millis && Interval(c) == c.ttl / 3 && c.ttl == 3 * Interval(c) + millis % 3
    ensures c.ttl - Interval(c) == 2 * MILLI * (millis / 3) + [0, 666_667, 1_333_334][millis % 3]
  {
    assert millis == 3 * (millis / 3) + millis % 3;
  }

  lemma MilliLease(c: Config, millis: nat)
    requires millis >= 10 && c.ttl == Span(millis)
    ensures Lease(c) == millis && Interval(c) >= 3 * MILLI && 0 <= c.ttl - 3 * Interval(c) == millis % 3 <= 2
    ensures Slack(c) == [0, 666_666, 333_332][millis % 3]
  {
    MilliInterval(c, millis);
    var rest := [0, 666_667, 1_333_334][millis % 3];
    assert WholeMillis(2 * MILLI * (millis / 3) + rest) == 2 * (millis / 3) + if rest > MILLI then 1 else 0;
    hide Interval, WholeMillis;
  }

  /** For a lease of at least 10 milliseconds, in whole milliseconds, the timing is exact only if calls and
      timers together take less than a millisecond: two thirds of one, one third, or nothing, by what the
      lease leaves when divided by three. A longer lease does not help, because the third tick is always
      due when the lease ends. */
  lemma ExactInMillis(c: Config, millis: nat)
    requires millis >= 10 && c.ttl == millis * 1_000_000
    ensures var slack := [0, 666_666, 333_332][millis % 3];
            Exact(c) <==> c.late + c.call <= slack || c.late + 2 * c.call <= slack + 1 + millis % 3
    ensures Slack(c) == [0, 666_666, 333_332][millis % 3] && c.ttl - 3 * Interval(c) == millis % 3
  {
    MilliLease(c, millis);
    FirstTicks(0, Interval(c));
    hide Interval, GiveUp, Lease, Tick;
    if c.late + c.call <= Slack(c) || c.late + 2 * c.call <= Slack(c) + 1 + c.ttl - 3 * Interval(c) {
      forall x, k: nat | 0 - c.late <= x <= c.late + c.call && Reaches(c, x, k)
        ensures k <= 2 || (k == 3 && x > Slack(c))
      {
        LaterTick(0, 3, k - 1, Interval(c));
      }
      assert Exact(c);
    } else {
      assert Reaches(c, Slack(c) + 1, 3);
    }
  }

  /** A lock of five seconds holds its row while it is alive if and only if calls and timers take no more
      than a third of a millisecond. */
  lemma FiveSeconds(c: Config)
    requires c.ttl == 5_000_000_000 && LongHold(c) && c.owner != ""
    ensures AlwaysHolds(c) <==> c.late + c.call <= 333_332 || c.late + 2 * c.call <= 333_335
  {
    MilliLease(c, 5000);
    ExactInMillis(c, 5000);
    hide Exact, AlwaysHolds, AlwaysUnexpired, LongHold, Interval, Slack;
    AliveIff(c);
  }

  // ----- Short caps -----

  /** With a cap of at most an interval the first tick ends the loop. */
  ghost predicate FirstTickOnly(c: Config, s: State) {
    && s.given <= s.now
    && match s.phase
       case Acquiring(sent) => sent <= s.given && s.now <= sent + c.call && !s.alive
       case Starting(latest) =>
         s.acquiredAt <= s.now <= latest && latest <= s.acquiredAt + c.late && s.acquiredAt <= s.given + c.call
       case Resting(None) => SoonTicks(c, s) && s.tick <= s.acquiredAt + c.late + Interval(c)
       case Resting(Some(due)) => SoonTicks(c, s) && s.now <= due <= s.acquiredAt + 2 * c.late + Interval(c)
                                  && s.now >= s.acquiredAt + Interval(c)
       case Refreshing(_, _) => false
       case Stopped => !s.alive
  }

  predicate SoonTicks(c: Config, s: State) {
    s.now <= s.tick && s.tick >= s.acquiredAt + Interval(c) && s.acquiredAt <= s.given + c.call
  }

  lemma FirstTickOnlyKept(c: Config, s: State, a: Action)
    requires 0 < c.maxHold <= Interval(c) && FirstTickOnly(c, s) && Enabled(c, s, a)
    ensures FirstTickOnly(c, Do(c, s, a))
  {
    hide Interval, Apply;
  }

  lemma {:induction false} ShortHoldIsSafe(c: Config, s: State, actions: seq<Action>, t: State)
    requires 0 < c.maxHold <= Interval(c) && Interval(c) + 2 * c.late + c.call <= Span(Lease(c))
    requires Inv(c, s) && FirstTickOnly(c, s) && Runs(c, s, actions, t)
    ensures Unexpired(c, t)
    decreases |actions|
  {
    hide Inv, Do, Enabled, Interval, Unexpired, Lease;
    if actions == [] {
      LastsUnexpired(c, s);
    } else {
      StepKeeps(c, s, actions[0]);
      FirstTickOnlyKept(c, s, actions[0]);
      ShortHoldIsSafe(c, Do(c, s, actions[0]), actions[1..], t);
    }
  }

  lemma ShortHoldOverstays(c: Config)
    requires 0 < c.maxHold <= Interval(c) && c.owner != "" && Interval(c) + 2 * c.late + c.call > Span(Lease(c))
    ensures Overstays(c)
  {
    var at := MILLI - 1;
    var s := FirstWait(c, at, 0, c.call, c.late);
    hide Reached, Millis, Lease, Overstays, Interval;
    s := Step(c, s, Wait(s.tick - s.now));
    s := Step(c, s, Fire);
    s := WaitUntil(c, s, s.now + c.late);
    Overdue(c, s);
  }

  /** With a cap on holding of at most a third of the lease, a live lock holds its row in every run if and
      only if the first tick, as late as it can be, comes within the lease. */
  lemma ShortHoldIff(c: Config)
    requires 0 < c.maxHold <= Interval(c) && c.owner != ""
    ensures AlwaysUnexpired(c) <==> Interval(c) + 2 * c.late + c.call <= Span(Lease(c))
    ensures AlwaysHolds(c) <==> Interval(c) + 2 * c.late + c.call <= Span(Lease(c))
  {
    hide Runs;
    if Interval(c) + 2 * c.late + c.call <= Span(Lease(c)) {
      forall s, actions, t | Init(c, s) && Runs(c, s, actions, t)
        ensures Unexpired(c, t) && HoldsRow(c, t)
      {
        InitHolds(c, s);
        ShortHoldIsSafe(c, s, actions, t);
      }
    } else {
      ShortHoldOverstays(c);
      OverstayShows(c);
    }
  }
}
