/** The keep-alive of an auto-refreshed lock, as a timed state machine. */
module KeepAlive {
  // Times are nanoseconds of a clock that runs equally fast at the holder and at the database. Each of the
  // two counts its milliseconds, the holder with a skew.

  import opened Clock
  import opened DLock
  import opened WorkflowDef

  /** The lease, the cap on holding (0 for none), a bound on every database call from start to answer,
      and a bound on how late a goroutine is after it could run. */
  datatype Config = Config(name: Name, owner: Owner, ttl: nat, maxHold: nat, call: nat, late: nat)

  function Interval(c: Config): (i: nat)
    ensures i > 0
  {
    if c.ttl / 3 > 0 then c.ttl / 3 else SECOND
  }

  /** The lease as the database counts it. */
  function Lease(c: Config): nat {
    WholeMillis(c.ttl)
  }

  /** The milliseconds without a renewal after which a failure ends the loop. */
  function GiveUp(c: Config): nat {
    WholeMillis(c.ttl - c.ttl / 3)
  }

  /** The acquisition is waiting for its answer; the ticker is not yet made; the loop waits for a tick, or
      has one and starts by `due`; a refresh is under way, with the reply it will get once its statement
      has been executed; the loop has ended. */
  datatype Phase =
    | Acquiring(sent: int)
    | Starting(latest: int)
    | Resting(due: Option<int>)
    | Refreshing(started: int, reply: Option<Outcome>)
    | Stopped

  /** `lastRenew` is the moment of the last renewal, of which the lock keeps only the stamp. `strays` counts
      statements whose caller was told of an error and that may still be executed, and `given` is the
      moment of the last statement that gave the lease. */
  datatype State = State(table: Table, now: int, skew: nat, alive: bool, closed: bool, lastRenew: int, acquiredAt: int,
                         tick: int, buffered: bool, phase: Phase, strays: nat, given: int)

  datatype Action =
    | Wait(nanos: nat)
    | Acquired
    | StartTicker
    | Fire
    | Begin
    | Execute
    | Answer(lost: bool, stray: bool)
    | Stray
    | Close
    | Release
    | Rival(st: Statement)

  /** The loop has a ticker. */
  predicate Ticking(p: Phase) {
    p.Resting? || p.Refreshing?
  }

  /** The latest time the state can stay as it is. */
  predicate InTime(c: Config, s: State, now: int) {
    && (Ticking(s.phase) ==> now <= s.tick)
    && match s.phase
       case Acquiring(sent) => now <= sent + c.call
       case Starting(latest) => now <= latest
       case Resting(due) => due.Some? ==> now <= due.value
       case Refreshing(started, _) => now <= started + c.call
       case Stopped => true
  }

  /** Other owners may issue any statement at any time. */
  predicate Foreign(c: Config, st: Statement) {
    match st
    case Ensure(_) => true
    case Take(_, owner, _) => owner != c.owner
    case Extend(_, owner, _) => owner != c.owner
    case Drop(_, owner) => owner != c.owner
    case Pass(_) => false
  }

  predicate Enabled(c: Config, s: State, a: Action) {
    match a
    case Wait(d) => InTime(c, s, s.now + d)
    case Acquired => s.phase.Acquiring?
    case StartTicker => s.phase.Starting?
    case Fire => Ticking(s.phase) && s.now == s.tick
    case Begin => s.phase.Resting? && s.phase.due.Some?
    case Execute => s.phase.Refreshing? && s.phase.reply.None?
    case Answer(lost, _) => s.phase.Refreshing? && (s.phase.reply.None? ==> lost)
    case Stray => s.strays > 0
    case Close => !s.closed && !s.phase.Acquiring?
    case Release => s.closed
    case Rival(st) => Foreign(c, st)
  }

  /** UnixMilli on the holder's own clock. */
  function Stamp(s: State, t: int): int {
    Millis(t + s.skew)
  }

  function Later(s: State, d: nat): State {
    MillisMonotone(s.now, s.now + d);
    s.(table := Apply(s.table, Pass(Millis(s.now + d) - Millis(s.now))), now := s.now + d)
  }

  function Renewed(c: Config, s: State): State {
    s.(table := Apply(s.table, Extend(c.name, c.owner, Lease(c))),
       given := if Held(s.table, c.name, c.owner) then s.now else s.given)
  }

  function Do(c: Config, s: State, a: Action): State
    requires Enabled(c, s, a)
  {
    match a
    case Wait(d) => Later(s, d)
    case Acquired => s.(alive := true, lastRenew := s.now, acquiredAt := s.now, phase := Starting(s.now + c.late))
    case StartTicker => s.(tick := s.now + Interval(c), phase := Resting(None))
    case Fire =>
      var t := s.(tick := s.tick + Interval(c));
      if s.phase.Refreshing? then t.(buffered := true)
      else if s.phase.due.None? then t.(phase := Resting(Some(s.now + c.late)))
      else t
    case Begin =>
      if c.maxHold > 0 && s.now - s.acquiredAt >= c.maxHold then s.(alive := false, phase := Stopped)
      else s.(phase := Refreshing(s.now, None))
    case Execute =>
      var reply := if Held(s.table, c.name, c.owner) then Ok else NotAcquired;
      Renewed(c, s).(phase := Refreshing(s.phase.started, Some(reply)))
    case Answer(lost, stray) =>
      var outcome := if lost then Error else s.phase.reply.value;
      var t := s.(strays := if s.phase.reply.None? && stray then s.strays + 1 else s.strays);
      if Ends(c, s, outcome) then t.(alive := false, phase := Stopped)
      else t.(lastRenew := if outcome.Ok? then s.now else s.lastRenew, buffered := false,
              phase := Resting(if s.buffered then Some(s.now + c.late) else None))
    case Stray => Renewed(c, s).(strays := s.strays - 1)
    case Close =>
      s.(alive := false, closed := true, phase := Stopped,
         strays := if s.phase.Refreshing? then s.strays + 1 else s.strays)
    case Release => s.(table := Apply(s.table, Statement.Drop(c.name, c.owner)))
    case Rival(st) => s.(table := Apply(s.table, st))
  }

  /** Whether the loop ends with the refresh that is answered now. */
  predicate Ends(c: Config, s: State, outcome: Outcome)
    requires s.phase.Refreshing?
  {
    TickEnds(c.ttl, c.maxHold, Stamp(s, s.lastRenew), outcome, s.phase.started - s.acquiredAt, Stamp(s, s.now))
  }

  ghost predicate Runs(c: Config, s: State, actions: seq<Action>, t: State)
    decreases |actions|
  {
    if actions == [] then s == t
    else Enabled(c, s, actions[0]) && Runs(c, Do(c, s, actions[0]), actions[1..], t)
  }

  /** The acquiring statement has just been executed. */
  predicate Init(c: Config, s: State) {
    && c.owner != "" && s.table.now == Millis(s.now) && s.given == s.now
    && Held(s.table, c.name, c.owner) && s.table.rows[c.name].expires == s.table.now + Lease(c)
    && !s.alive && !s.closed && !s.buffered && s.strays == 0 && s.phase == Acquiring(s.now)
  }

  /** A lock that says it is alive holds the row, and the row has not expired. */
  predicate Unexpired(c: Config, s: State) {
    s.alive ==> Held(s.table, c.name, c.owner) && s.table.now <= s.table.rows[c.name].expires
  }

  predicate HoldsRow(c: Config, s: State) {
    s.alive ==> Held(s.table, c.name, c.owner)
  }

  ghost predicate AlwaysUnexpired(c: Config) {
    forall s, actions, t | Init(c, s) && Runs(c, s, actions, t) :: Unexpired(c, t)
  }

  ghost predicate AlwaysHolds(c: Config) {
    forall s, actions, t | Init(c, s) && Runs(c, s, actions, t) :: HoldsRow(c, t)
  }

  // ----- What every run keeps -----

  /** The row is the holder's until its lease ends. */
  ghost predicate RowOk(c: Config, s: State) {
    && c.owner != "" && s.table.now == Millis(s.now) && s.given <= s.now
    && (!s.closed ==>
          && (s.table.now <= Millis(s.given) + Lease(c) ==> Held(s.table, c.name, c.owner))
          && (Held(s.table, c.name, c.owner) ==> s.table.rows[c.name].expires == Millis(s.given) + Lease(c)))
  }

  lemma RowKept(c: Config, s: State, a: Action)
    requires RowOk(c, s) && Enabled(c, s, a)
    ensures RowOk(c, Do(c, s, a))
  {
    hide Millis, Ends, WholeMillis, Interval;
    if a.Wait? {
      MillisMonotone(s.now, s.now + a.nanos);
    }
  }

  /** The latest time, as far as the loop can tell, that a tick can fail without ending the loop. */
  function Lasts(c: Config, s: State): int {
    s.lastRenew + if c.late < Span(GiveUp(c)) then Span(GiveUp(c)) - 1 else c.late
  }

  /** Where the loop can be: never further behind its last renewal than this. */
  ghost predicate OnTime(c: Config, s: State) {
    && InTime(c, s, s.now)
    && (Ticking(s.phase) ==> s.tick <= s.now + Interval(c))
    && (s.phase.Acquiring? ==> !s.alive && !s.buffered && s.phase.sent <= s.given)
    && (s.phase.Stopped? ==> !s.alive)
    && (!s.phase.Acquiring? && !s.phase.Stopped? ==> s.lastRenew <= s.now && s.lastRenew <= s.given + c.call)
    && match s.phase
       case Starting(latest) => latest <= s.lastRenew + c.late && !s.buffered
       case Resting(None) => s.tick <= Lasts(c, s) + Interval(c) && !s.buffered
       case Resting(Some(due)) => due <= Lasts(c, s) + Interval(c) + c.late && !s.buffered
       case Refreshing(started, reply) =>
         && started <= s.now && started <= Lasts(c, s) + Interval(c) + c.late
         && (reply == Some(Ok) ==> started <= s.given)
         && reply != Some(Error)
       case _ => true
  }

  /** A failure that does not end the loop comes soon enough after the last renewal. */
  lemma Tolerated(c: Config, s: State)
    requires s.phase.Refreshing? && !Ends(c, s, Error)
    ensures s.now - s.lastRenew < Span(GiveUp(c))
  {
    Counts(s.lastRenew + s.skew, s.now + s.skew, GiveUp(c));
    assert GiveUp(c) == (c.ttl - c.ttl / 3) / 1_000_000;
    hide Millis, WholeMillis;
  }

  lemma AnswerOnTime(c: Config, s: State, a: Action)
    requires OnTime(c, s) && Enabled(c, s, a) && a.Answer?
    ensures OnTime(c, Do(c, s, a))
  {
    if !Ends(c, s, Error) {
      Tolerated(c, s);
    }
    assert a.lost && Ends(c, s, Error) ==> Do(c, s, a).phase.Stopped?;
    hide Millis, WholeMillis, Interval, GiveUp;
  }

  lemma OnTimeKept(c: Config, s: State, a: Action)
    requires OnTime(c, s) && RowOk(c, s) && Enabled(c, s, a)
    ensures OnTime(c, Do(c, s, a))
  {
    hide Millis, WholeMillis, Interval, GiveUp;
    if a.Answer? {
      AnswerOnTime(c, s, a);
    }
  }

  ghost predicate Inv(c: Config, s: State) {
    RowOk(c, s) && OnTime(c, s) && (s.closed ==> s.phase.Stopped?)
  }

  lemma StepKeeps(c: Config, s: State, a: Action)
    requires Inv(c, s) && Enabled(c, s, a)
    ensures Inv(c, Do(c, s, a))
  {
    RowKept(c, s, a);
    OnTimeKept(c, s, a);
    hide RowOk, OnTime, InTime, Apply, Ends;
  }

  lemma InitHolds(c: Config, s: State)
    requires Init(c, s)
    ensures Inv(c, s)
  {
  }

  /** However late everything is, a live lock got its last lease no longer ago than the lease and twice
      the delays. */
  lemma {:induction false} OverstayBounded(c: Config, s: State, actions: seq<Action>, t: State)
    requires c.ttl >= 3 && Inv(c, s) && Runs(c, s, actions, t)
    ensures Inv(c, t)
    ensures t.alive ==> t.now <= t.given + c.ttl + 2 * (c.call + c.late)
    decreases |actions|
  {
    if actions != [] {
      StepKeeps(c, s, actions[0]);
      hide Inv, Do, Enabled;
      OverstayBounded(c, Do(c, s, actions[0]), actions[1..], t);
    }
  }
}
