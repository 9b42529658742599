/** The timing condition of the worker-id protocol is exact. */
module WuidExact {
  import opened Clock
  import opened WorkflowDef
  import opened Wuid

  // ----- What a caller can compute -----

  /** How often `r` fits in `room`. */
  function Fits(room: nat, r: nat): (n: nat)
    requires r > 0
    ensures n * r <= room < (n + 1) * r
  {
    if room < r then 0 else Fits(room - r, r) + 1
  }

  lemma FitsMost(n: nat, r: nat, room: nat)
    requires r > 0 && n * r <= room
    ensures n <= Fits(room, r)
  {
    var most := Fits(room, r);
    hide Fits;
    if n > most {
      Grows(most + 1, n, r);
      assert false;
    }
  }

  lemma Grows(m: nat, n: nat, x: nat)
    requires m <= n
    ensures m * x <= n * x
  {
  }

  /** How many failures after the first the worker can tolerate. */
  function Retries(c: Config): nat
    requires RenewInterval(c) < Span(GiveUp(c))
  {
    Fits(Span(GiveUp(c)) - 1 - RenewInterval(c), RetryInterval(c))
  }

  /** The latest failure the worker can tolerate, after the last renewal. */
  function LatestFailure(c: Config): int
    requires RenewInterval(c) < Span(GiveUp(c))
  {
    var o := RenewInterval(c) + Retries(c) * RetryInterval(c) + (Retries(c) + 1) * (c.late + c.call);
    if o < Span(GiveUp(c)) then o else Span(GiveUp(c)) - 1
  }

  lemma LatestIsTolerated(c: Config)
    requires RenewInterval(c) < Span(GiveUp(c))
    ensures Tolerated(c, LatestFailure(c))
  {
    assert Retries(c) * RetryInterval(c) <= Span(GiveUp(c)) - 1 - RenewInterval(c);
    hide Retries, RenewInterval, RetryInterval, GiveUp;
    Grows(0, Retries(c) + 1, c.late + c.call);
    assert AnswerAt(c, Retries(c), LatestFailure(c));
  }

  lemma LatestIsLatest(c: Config, o: int)
    requires Tolerated(c, o)
    ensures RenewInterval(c) < Span(GiveUp(c)) && o <= LatestFailure(c)
  {
    var n: nat :| AnswerAt(c, n, o);
    Grows(0, n, RetryInterval(c));
    FitsMost(n, RetryInterval(c), Span(GiveUp(c)) - 1 - RenewInterval(c));
    assert n <= Retries(c);
    hide RenewInterval, RetryInterval, GiveUp, Retries;
    Grows(n, Retries(c), RetryInterval(c));
    Grows(n + 1, Retries(c) + 1, c.late + c.call);
  }

  /** Whether the timing is prompt is an inequality between durations. */
  lemma PromptIff(c: Config)
    ensures Prompt(c) <==>
            && RenewInterval(c) + c.late + 3 * c.call <= Span(Lease(c))
            && (RenewInterval(c) < Span(GiveUp(c)) ==>
                  LatestFailure(c) + RetryInterval(c) + c.late + 3 * c.call <= Span(Lease(c)))
  {
    if RenewInterval(c) < Span(GiveUp(c)) {
      LatestIsTolerated(c);
    }
    hide LatestFailure, RenewInterval, RetryInterval, GiveUp, Tolerated, Lease;
    forall o | Tolerated(c, o)
      ensures RenewInterval(c) < Span(GiveUp(c)) && o <= LatestFailure(c)
    {
      LatestIsLatest(c, o);
    }
  }

  /** Two simple cases: a quick renewal retry, or a second failure that always comes too late to be
      tolerated, as in every lease of less than 15 seconds that is a whole number of milliseconds. */
  lemma PromptEnough(c: Config)
    requires RenewInterval(c) + c.late + 3 * c.call <= Span(Lease(c))
    requires || Span(GiveUp(c)) + RetryInterval(c) + 3 * c.call + c.late <= Span(Lease(c)) + 1
             || (RenewInterval(c) + RetryInterval(c) >= Span(GiveUp(c))
                 && RenewInterval(c) + RetryInterval(c) + 4 * c.call + 2 * c.late <= Span(Lease(c)))
    ensures Prompt(c)
  {
    hide RenewInterval, RetryInterval, GiveUp, Lease;
    forall o | Tolerated(c, o)
      ensures o + RetryInterval(c) + c.late + 3 * c.call <= Span(Lease(c))
    {
      var n: nat :| AnswerAt(c, n, o);
      if n >= 1 {
        Grows(1, n, RetryInterval(c));
      }
    }
  }

  /** The default lease of one hour is safe while three calls and a late timer fit in 1195 seconds. */
  lemma DefaultIsPrompt(call: nat, late: nat)
    requires 3 * call + late <= 1_195_000_000_000
    ensures Prompt(Config(3_600_000_000_000, call, late))
  {
    PromptEnough(Config(3600 * SECOND, call, late));
  }

  /** In a lease of 10 milliseconds to 15 seconds, in whole milliseconds, one failure can be tolerated, and
      the lease is safe exactly while four calls and two late timers fit in its last third. */
  lemma ShortIsPrompt(millis: nat, call: nat, late: nat)
    requires 10 <= millis < 15000
    ensures var lease := millis * 1_000_000;
            Prompt(Config(lease, call, late)) <==> 4 * call + 2 * late <= lease - 2 * (lease / 3)
  {
    var c := Config(Span(millis), call, late);
    ShortLease(millis, call, late);
    PromptIff(c);
    hide Prompt, RenewInterval, RetryInterval, GiveUp, Lease;
    if RenewInterval(c) + call + late < Span(GiveUp(c)) {
      assert Retries(c) == 0;
    }
  }

  lemma ShortLease(millis: nat, call: nat, late: nat)
    requires 10 <= millis < 15000
    ensures var c := Config(Span(millis), call, late);
            && Lease(c) == millis && RetryInterval(c) == RenewInterval(c)
            && RenewInterval(c) < Span(GiveUp(c)) <= 2 * RenewInterval(c) < Span(GiveUp(c)) + MILLI
            && 3 * RenewInterval(c) <= Span(millis) < 3 * RenewInterval(c) + 3
  {
  }

  // ----- A run that shares an id -----

  /** The moment just before the database counts a millisecond: what is granted then expires soonest. */
  const GRANT: int := MILLI - 1

  /** When worker 0 notes its grant. */
  function Noted(c: Config): int {
    GRANT + 2 * c.call
  }

  /** The skew with which its clock has just counted then. */
  function Skewed(c: Config): nat {
    (MILLI - Noted(c) % MILLI) % MILLI
  }

  /** Worker 0 holds id 0, granted just before a millisecond ends and noted two calls later. */
  function Holding(c: Config, now: int, pc: Pc): State {
    State(now, map[0 := Row(0, Lease(c))], map[0 := Worker(0, Some(0), true, false, Noted(c), Skewed(c), pc)],
          map[0 := 0], {})
  }

  function Start(): State {
    State(GRANT, map[], map[], map[], {})
  }

  ghost predicate Shares(s: State) {
    exists p, q :: Serving(s, p) && Serving(s, q) && p != q && s.workers[p].id == s.workers[q].id
  }

  ghost predicate AlwaysUnique(c: Config) {
    forall s, actions, t | Init(s) && s.now >= 0 && Runs(c, s, actions, t) :: !Shares(t)
  }

  lemma {:induction false} Then(c: Config, s: State, first: seq<Action>, t: State, more: seq<Action>, u: State)
    requires Runs(c, s, first, t) && Runs(c, t, more, u)
    ensures Runs(c, s, first + more, u)
    decreases |first|
  {
    hide Do, Enabled;
    if first == [] {
      assert first + more == more;
    } else {
      Then(c, Do(c, s, first[0]), first[1..], t, more, u);
      assert (first + more)[1..] == first[1..] + more;
    }
  }

  lemma One(c: Config, s: State, a: Action)
    requires Enabled(c, s, a)
    ensures Runs(c, s, [a], Do(c, s, a))
  {
    assert [a][1..] == [];
    assert Runs(c, Do(c, s, a), [], Do(c, s, a));
  }

  /** One more step at the end of a run. */
  lemma Next(c: Config, s: State, actions: seq<Action>, t: State, a: Action) returns (longer: seq<Action>)
    requires Runs(c, s, actions, t) && Enabled(c, t, a)
    ensures longer == actions + [a] && Runs(c, s, longer, Do(c, t, a))
  {
    hide Do, Enabled;
    One(c, t, a);
    Then(c, s, actions, t, [a], Do(c, t, a));
    longer := actions + [a];
  }

  /** Worker 0 claims id 0 in an empty table. */
  lemma FirstClaim(c: Config) returns (run: seq<Action>)
    ensures Runs(c, Start(), run, Holding(c, Noted(c), Sleeping(Noted(c) + RenewInterval(c))))
  {
    hide RenewInterval, Runs, Skewed, Lease;
    var s, k := Start(), Skewed(c);
    run := [];
    assert Runs(c, s, [], s) by {
      Nothing(c, s);
    }
    var w := Worker(0, None, false, false, GRANT, k, Sleeping(GRANT));
    run := Next(c, s, run, s, Begin(0, 0, k));
    var s1 := State(GRANT, map[], map[0 := w.(pc := Drawn(0))], map[0 := 0], {});
    assert Do(c, s, Begin(0, 0, k)) == s1;
    run := Next(c, s, run, s1, Select(0, None));
    var s2 := s1.(workers := map[0 := w.(pc := NoSlot(0))]);
    assert Do(c, s1, Select(0, None)) == s2;
    run := Next(c, s, run, s2, SelectMax(0, 0));
    var s3 := s1.(workers := map[0 := w.(pc := MaxRead(0, 0))]);
    assert Do(c, s2, SelectMax(0, 0)) == s3;
    run := FirstGrant(c, run, s3, w);
  }

  lemma FirstGrant(c: Config, start: seq<Action>, s3: State, w: Worker) returns (run: seq<Action>)
    requires w == Worker(0, None, false, false, GRANT, Skewed(c), Sleeping(GRANT))
    requires s3 == State(GRANT, map[], map[0 := w.(pc := MaxRead(0, 0))], map[0 := 0], {})
             && Runs(c, Start(), start, s3)
    ensures Runs(c, Start(), run, Holding(c, Noted(c), Sleeping(Noted(c) + RenewInterval(c))))
  {
    hide RenewInterval, Runs, Skewed, Lease;
    run := Next(c, Start(), start, s3, TryInsert(0));
    var s4 := State(GRANT, map[0 := Row(0, Lease(c))], map[0 := w.(pc := Granted(0, 0, GRANT))], map[0 := 0], {});
    assert Do(c, s3, TryInsert(0)) == s4;
    run := Next(c, Start(), run, s4, Tick(Noted(c)));
    var s5 := s4.(now := Noted(c));
    assert Do(c, s4, Tick(Noted(c))) == s5;
    run := Next(c, Start(), run, s5, Store(0));
    assert Do(c, s5, Store(0)) == Holding(c, Noted(c), Sleeping(Noted(c) + RenewInterval(c)));
  }

  lemma Nothing(c: Config, s: State)
    ensures Runs(c, s, [], s)
  {
  }

  /** From sleep to the middle of an unanswered renewal that starts at `start`. */
  lemma WakeAt(c: Config, run: seq<Action>, now: int, wake: int, start: int) returns (longer: seq<Action>)
    requires Runs(c, Start(), run, Holding(c, now, Sleeping(wake))) && now <= wake <= start <= wake + c.late
    ensures Runs(c, Start(), longer, Holding(c, start, Renewing(start, Waiting)))
  {
    hide Runs;
    var s := Holding(c, now, Sleeping(wake));
    longer := Next(c, Start(), run, s, Tick(start));
    var s' := Holding(c, start, Sleeping(wake));
    assert Do(c, s, Tick(start)) == s';
    longer := Next(c, Start(), longer, s', Wake(0));
    assert Do(c, s', Wake(0)) == Holding(c, start, Renewing(start, Waiting));
  }

  /** The worker's clock counts the time since the renewal as little as it can. */
  lemma Counted(c: Config, o: int)
    requires o < Span(GiveUp(c))
    ensures Millis(Noted(c) + o + Skewed(c)) - Millis(Noted(c) + Skewed(c)) < GiveUp(c)
  {
    assert (Noted(c) + Skewed(c)) % MILLI == 0;
    JustCounted(Noted(c) + Skewed(c), o);
    hide GiveUp, Noted, Skewed;
  }

  /** The renewal fails `o` after the last one noted, and is tolerated. */
  lemma FailAt(c: Config, run: seq<Action>, start: int, o: int) returns (longer: seq<Action>)
    requires Runs(c, Start(), run, Holding(c, start, Renewing(start, Waiting)))
    requires start <= Noted(c) + o <= start + c.call && o < Span(GiveUp(c))
    ensures Runs(c, Start(), longer, Holding(c, Noted(c) + o, Sleeping(Noted(c) + o + RetryInterval(c))))
  {
    Counted(c, o);
    hide Runs, RetryInterval, GiveUp, Noted, Skewed, Lease;
    var now := Noted(c) + o;
    var s := Holding(c, start, Renewing(start, Waiting));
    longer := Next(c, Start(), run, s, Tick(now));
    var s' := Holding(c, now, Renewing(start, Waiting));
    assert Do(c, s, Tick(now)) == s';
    longer := Next(c, Start(), longer, s', Answer(0, true));
    assert Do(c, s', Answer(0, true)) == Holding(c, now, Sleeping(now + RetryInterval(c)));
  }

  /** Every tolerated failure can happen. */
  lemma {:induction false} Reach(c: Config, n: nat, o: int) returns (run: seq<Action>)
    requires AnswerAt(c, n, o)
    ensures Runs(c, Start(), run, Holding(c, Noted(c) + o, Sleeping(Noted(c) + o + RetryInterval(c))))
  {
    hide Runs, Holding, Noted, GiveUp;
    var d, i, r, e := Noted(c), RenewInterval(c), RetryInterval(c), c.late + c.call;
    if n == 0 {
      run := FirstClaim(c);
      var start := if o <= i + c.late then o else i + c.late;
      run := WakeAt(c, run, d, d + i, d + start);
      run := FailAt(c, run, d + start, o);
    } else {
      var before := Earlier(c, n, o);
      run := Reach(c, n - 1, before);
      var start := if o <= before + r + c.late then o else before + r + c.late;
      run := WakeAt(c, run, d + before, d + before + r, d + start);
      run := FailAt(c, run, d + start, o);
    }
  }

  /** The attempt before a tolerated failure can have failed just in time for it. */
  lemma Earlier(c: Config, n: nat, o: int) returns (before: int)
    requires n > 0 && AnswerAt(c, n, o)
    ensures AnswerAt(c, n - 1, before) && before + RetryInterval(c) <= o <= before + RetryInterval(c) + c.late + c.call
  {
    var i, r, e := RenewInterval(c), RetryInterval(c), c.late + c.call;
    assert n * r == (n - 1) * r + r && (n + 1) * e == n * e + e && n * e >= 0;
    before := if o - r - e >= i + (n - 1) * r then o - r - e else i + (n - 1) * r;
  }

  /** A worker that may still be renewing when its lease has run out loses its id to another. */
  lemma Overtaken(c: Config, run: seq<Action>, now: int, wake: int) returns (longer: seq<Action>, t: State)
    requires Runs(c, Start(), run, Holding(c, now, Sleeping(wake))) && now <= wake
    requires wake + c.late + c.call > GRANT + Span(Lease(c))
    ensures Runs(c, Start(), longer, t) && Shares(t)
  {
    var start, end := wake + c.late, wake + c.late + c.call;
    longer := WakeAt(c, run, now, wake, start);
    hide Runs, RenewInterval, Noted, Skewed, Lease;
    var s := Holding(c, start, Renewing(start, Waiting));
    longer := Next(c, Start(), longer, s, Tick(end));
    var first := Worker(0, Some(0), true, false, Noted(c), Skewed(c), Renewing(start, Waiting));
    var s0 := Holding(c, end, first.pc);
    assert Do(c, s, Tick(end)) == s0;
    assert Millis(end) > Lease(c);
    longer, t := Steal(c, longer, end, first);
  }

  lemma Steal(c: Config, run: seq<Action>, end: int, first: Worker) returns (longer: seq<Action>, t: State)
    requires first == Worker(0, Some(0), true, false, Noted(c), Skewed(c), first.pc) && Millis(end) > Lease(c)
    requires Runs(c, Start(), run, Holding(c, end, first.pc))
    ensures Runs(c, Start(), longer, t) && Shares(t)
  {
    hide Runs, RenewInterval, Noted, Skewed, Lease, Millis;
    var s0 := Holding(c, end, first.pc);
    var w := Worker(0, None, false, false, end, 0, Sleeping(end));
    longer := Next(c, Start(), run, s0, Begin(1, 1, 0));
    var s1 := s0.(workers := map[0 := first, 1 := w.(pc := Drawn(1))], owner := map[0 := 0, 1 := 1]);
    assert Do(c, s0, Begin(1, 1, 0)) == s1;
    longer := Next(c, Start(), longer, s1, Select(1, Some(0)));
    var s2 := s1.(workers := map[0 := first, 1 := w.(pc := Selected(1, 0))]);
    assert Do(c, s1, Select(1, Some(0))) == s2;
    longer := Next(c, Start(), longer, s2, TryReuse(1));
    var s3 := s2.(rows := map[0 := Row(1, Millis(end) + Lease(c))],
                  workers := map[0 := first, 1 := w.(pc := Granted(1, 0, end))]);
    assert Do(c, s2, TryReuse(1)) == s3;
    longer := Next(c, Start(), longer, s3, Store(1));
    t := Do(c, s3, Store(1));
    assert Serving(t, 0) && Serving(t, 1) && t.workers[0].id == t.workers[1].id;
  }

  /** No run ever shares an id between unclosed live workers exactly when the timing is prompt. */
  lemma UniqueIffPrompt(c: Config)
    ensures AlwaysUnique(c) <==> Prompt(c)
  {
    hide Runs, Prompt;
    if Prompt(c) {
      forall s, actions, t | Init(s) && s.now >= 0 && Runs(c, s, actions, t)
        ensures !Shares(t)
      {
        InitHolds(c, s);
        NeverShared(c, s, actions, t);
      }
    } else {
      var run, t := SharingRun(c);
      assert Init(Start());
    }
  }

  lemma SharingRun(c: Config) returns (run: seq<Action>, t: State)
    requires !Prompt(c)
    ensures Runs(c, Start(), run, t) && Shares(t)
  {
    hide Runs, RenewInterval, RetryInterval, Shares;
    if RenewInterval(c) + c.late + 3 * c.call > Span(Lease(c)) {
      run := FirstClaim(c);
      run, t := Overtaken(c, run, Noted(c), Noted(c) + RenewInterval(c));
    } else {
      var o :| Tolerated(c, o) && o + RetryInterval(c) + c.late + 3 * c.call > Span(Lease(c));
      var n: nat :| AnswerAt(c, n, o);
      run := Reach(c, n, o);
      run, t := Overtaken(c, run, Noted(c) + o, Noted(c) + o + RetryInterval(c));
    }
  }

  // ----- Why the theorem speaks of unclosed workers -----

  /** Two live workers share an id, one of them closed. */
  ghost predicate ClosedShares(s: State) {
    exists p, q :: p in s.workers && s.workers[p].alive && s.workers[p].closed && Serving(s, q)
                   && s.workers[p].id == s.workers[q].id
  }

  /** A lease of three milliseconds in which nothing takes time. */
  const SHORT := Config(3 * MILLI, 0, 0)

  /** A heartbeat that is claiming a new id when the worker is closed makes it live again, and then
      the closing worker gives the row back. */
  lemma ClosedMayShare() returns (run: seq<Action>, t: State)
    ensures Prompt(SHORT) && Runs(SHORT, Start(), run, t) && ClosedShares(t)
  {
    var k := MILLI;
    PromptEnough(SHORT);
    assert AnswerAt(SHORT, 0, k);
    run := Reach(SHORT, 0, k);
    run := WakeAt(SHORT, run, GRANT + k, GRANT + 2 * k, GRANT + 2 * k);
    run, t := LosesLease(run);
  }

  lemma LosesLease(start: seq<Action>) returns (run: seq<Action>, t: State)
    requires Runs(SHORT, Start(), start, Holding(SHORT, GRANT + 2 * MILLI, Renewing(GRANT + 2 * MILLI, Waiting)))
    ensures Runs(SHORT, Start(), run, t) && ClosedShares(t)
  {
    hide Runs;
    var k := MILLI;
    var s := Holding(SHORT, GRANT + 2 * k, Renewing(GRANT + 2 * k, Waiting));
    run := Next(SHORT, Start(), start, s, Answer(0, true));
    var lost := Worker(0, Some(0), false, false, GRANT, 1, Sleeping(GRANT + 3 * k));
    var s1 := State(GRANT + 2 * k, map[0 := Row(0, 3)], map[0 := lost], map[0 := 0], {});
    assert Do(SHORT, s, Answer(0, true)) == s1;
    run := Next(SHORT, Start(), run, s1, Tick(GRANT + 3 * k));
    var s2 := s1.(now := GRANT + 3 * k);
    assert Do(SHORT, s1, Tick(GRANT + 3 * k)) == s2;
    run, t := ClaimAgain(run, s2, lost);
  }

  lemma ClaimAgain(start: seq<Action>, s2: State, lost: Worker) returns (run: seq<Action>, t: State)
    requires lost == Worker(0, Some(0), false, false, GRANT, 1, Sleeping(GRANT + 3 * MILLI))
    requires s2 == State(GRANT + 3 * MILLI, map[0 := Row(0, 3)], map[0 := lost], map[0 := 0], {})
    requires Runs(SHORT, Start(), start, s2)
    ensures Runs(SHORT, Start(), run, t) && ClosedShares(t)
  {
    hide Runs;
    run := Next(SHORT, Start(), start, s2, Begin(0, 1, 0));
    var s3 := s2.(workers := map[0 := lost.(pc := Drawn(1))], owner := map[0 := 0, 1 := 0]);
    assert Do(SHORT, s2, Begin(0, 1, 0)) == s3;
    run := Next(SHORT, Start(), run, s3, Select(0, None));
    var s4 := s3.(workers := map[0 := lost.(pc := NoSlot(1))]);
    assert Do(SHORT, s3, Select(0, None)) == s4;
    run := Next(SHORT, Start(), run, s4, SelectMax(0, 1));
    var s5 := s3.(workers := map[0 := lost.(pc := MaxRead(1, 1))]);
    assert Do(SHORT, s4, SelectMax(0, 1)) == s5;
    run, t := CloseDuringClaim(run, s5, lost);
  }

  lemma CloseDuringClaim(start: seq<Action>, s5: State, lost: Worker) returns (run: seq<Action>, t: State)
    requires lost == Worker(0, Some(0), false, false, GRANT, 1, Sleeping(GRANT + 3 * MILLI))
    requires s5 == State(GRANT + 3 * MILLI, map[0 := Row(0, 3)], map[0 := lost.(pc := MaxRead(1, 1))],
                         map[0 := 0, 1 := 0], {})
    requires Runs(SHORT, Start(), start, s5)
    ensures Runs(SHORT, Start(), run, t) && ClosedShares(t)
  {
    hide Runs;
    var at := GRANT + 3 * MILLI;
    run := Next(SHORT, Start(), start, s5, TryInsert(0));
    var s6 := s5.(rows := map[0 := Row(0, 3), 1 := Row(1, 6)], workers := map[0 := lost.(pc := Granted(1, 1, at))]);
    assert Do(SHORT, s5, TryInsert(0)) == s6;
    run := Next(SHORT, Start(), run, s6, Close(0));
    var s7 := s6.(workers := map[0 := lost.(pc := Granted(1, 1, at), closed := true)]);
    assert Do(SHORT, s6, Close(0)) == s7;
    run := Next(SHORT, Start(), run, s7, Store(0));
    var back := Worker(1, Some(1), true, true, at, 1, Sleeping(at + MILLI));
    var s8 := s7.(workers := map[0 := back]);
    assert Do(SHORT, s7, Store(0)) == s8;
    run := Next(SHORT, Start(), run, s8, LoopEnds(0));
    var s9 := s8.(workers := map[0 := back.(pc := Stopped)]);
    assert Do(SHORT, s8, LoopEnds(0)) == s9;
    run := Next(SHORT, Start(), run, s9, Free(0));
    var s10 := s9.(rows := map[0 := Row(0, 3), 1 := Row(1, 0)]);
    assert Do(SHORT, s9, Free(0)) == s10;
    run, t := TakeFreed(run, s10, back.(pc := Stopped));
  }

  lemma TakeFreed(start: seq<Action>, s10: State, back: Worker) returns (run: seq<Action>, t: State)
    requires back == Worker(1, Some(1), true, true, GRANT + 3 * MILLI, 1, Stopped)
    requires s10 == State(GRANT + 3 * MILLI, map[0 := Row(0, 3), 1 := Row(1, 0)], map[0 := back], map[0 := 0, 1 := 0],
                          {})
    requires Runs(SHORT, Start(), start, s10)
    ensures Runs(SHORT, Start(), run, t) && ClosedShares(t)
  {
    hide Runs;
    var at := GRANT + 3 * MILLI;
    var w := Worker(0, None, false, false, at, 0, Sleeping(at));
    run := Next(SHORT, Start(), start, s10, Begin(1, 2, 0));
    var s11 := s10.(workers := map[0 := back, 1 := w.(pc := Drawn(2))], owner := map[0 := 0, 1 := 0, 2 := 1]);
    assert Do(SHORT, s10, Begin(1, 2, 0)) == s11;
    run := Next(SHORT, Start(), run, s11, Select(1, Some(1)));
    var s12 := s11.(workers := map[0 := back, 1 := w.(pc := Selected(2, 1))]);
    assert Do(SHORT, s11, Select(1, Some(1))) == s12;
    run, t := TakesSelected(run, s12, back, w);
  }

  lemma TakesSelected(start: seq<Action>, s12: State, back: Worker, w: Worker) returns (run: seq<Action>, t: State)
    requires back == Worker(1, Some(1), true, true, GRANT + 3 * MILLI, 1, Stopped)
    requires w == Worker(0, None, false, false, GRANT + 3 * MILLI, 0, Sleeping(GRANT + 3 * MILLI))
    requires s12 == State(GRANT + 3 * MILLI, map[0 := Row(0, 3), 1 := Row(1, 0)],
                          map[0 := back, 1 := w.(pc := Selected(2, 1))], map[0 := 0, 1 := 0, 2 := 1], {})
    requires Runs(SHORT, Start(), start, s12)
    ensures Runs(SHORT, Start(), run, t) && ClosedShares(t)
  {
    hide Runs;
    var at := GRANT + 3 * MILLI;
    run := Next(SHORT, Start(), start, s12, TryReuse(1));
    var s13 := s12.(rows := map[0 := Row(0, 3), 1 := Row(2, 6)],
                    workers := map[0 := back, 1 := w.(pc := Granted(2, 1, at))]);
    assert Do(SHORT, s12, TryReuse(1)) == s13;
    run := Next(SHORT, Start(), run, s13, Store(1));
    t := Do(SHORT, s13, Store(1));
    assert Serving(t, 1) && t.workers[0].id == t.workers[1].id && t.workers[0].alive && t.workers[0].closed;
  }
}
