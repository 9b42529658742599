/** Worker ids over a database lease, as a timed state machine. */
module Wuid {
  // Every SQL statement is one atomic step on the table, every interleaving of any number of workers
  // is a run, and nothing relies on the allocation lock. Times are nanoseconds of a clock that runs
  // equally fast everywhere; the database and each worker count its milliseconds, each worker with a
  // skew of its own.

  import opened Clock
  import opened WorkflowDef

  const MAX_WORKER_ID: nat := 65535

  type Token = nat
  type Pid = nat

  datatype Row = Row(token: Token, expires: int)

  type Table = map<nat, Row>

  /** The lease, a bound on every database call, and a bound on the lateness of a timer. */
  datatype Config = Config(lease: nat, call: nat, late: nat)

  function RenewInterval(c: Config): (r: nat)
    ensures r > 0
  {
    if c.lease / 3 > 0 then c.lease / 3 else SECOND
  }

  function RetryInterval(c: Config): (r: nat)
    ensures 0 < r <= RenewInterval(c)
  {
    if RenewInterval(c) < 5 * SECOND then RenewInterval(c) else 5 * SECOND
  }

  /** The lease as the database counts it. */
  function Lease(c: Config): nat {
    WholeMillis(c.lease)
  }

  /** The milliseconds without a renewal after which a failure is no longer tolerated. */
  function GiveUp(c: Config): nat {
    WholeMillis(c.lease - c.lease / 3)
  }

  // ----- The statements -----

  // Here `now` and `lease` are milliseconds of the database.

  predicate Expired(t: Table, id: nat, now: int) {
    id in t && t[id].expires < now
  }

  /** What `SELECT id WHERE expires_at < now ORDER BY id LIMIT 1` may return. */
  predicate LowestExpired(t: Table, now: int, found: Option<nat>) {
    match found
    case Some(id) => Expired(t, id, now) && forall i | i in t && i < id :: !Expired(t, i, now)
    case None => forall i | i in t :: !Expired(t, i, now)
  }

  /** `next` is `COALESCE(MAX(id), -1) + 1`. */
  predicate NextId(t: Table, next: nat) {
    (forall i | i in t :: i < next) && (next == 0 || next - 1 in t)
  }

  function Reuse(t: Table, id: nat, token: Token, now: int, lease: nat): Table {
    if Expired(t, id, now) then t[id := Row(token, now + lease)] else t
  }

  function Insert(t: Table, id: nat, token: Token, now: int, lease: nat): Table {
    if id in t then t else t[id := Row(token, now + lease)]
  }

  predicate Holds(t: Table, id: nat, token: Token) {
    id in t && t[id].token == token
  }

  function Extend(t: Table, id: nat, token: Token, now: int, lease: nat): Table {
    if Holds(t, id, token) then t[id := Row(token, now + lease)] else t
  }

  function Release(t: Table, id: nat, token: Token): Table {
    if Holds(t, id, token) then t[id := Row(token, 0)] else t
  }

  // ----- Workers -----

  datatype Reply = Waiting | Extended(at: int) | Missed

  /** Where the goroutine of a worker is. */
  datatype Pc =
    | Drawn(token: Token)
    | Selected(token: Token, slot: nat)
    | NoSlot(token: Token)
    | MaxRead(token: Token, next: nat)
    | Granted(token: Token, id: nat, at: int)
    | Sleeping(wake: int)
    | Renewing(start: int, reply: Reply)
    | Stopped

  /** `lastRenew` is the moment of the last renewal, of which the worker keeps only the stamp. */
  datatype Worker = Worker(id: nat, token: Option<Token>, alive: bool, closed: bool, lastRenew: int, skew: nat, pc: Pc)

  /** UnixMilli on the worker's own clock. */
  function Stamp(w: Worker, t: int): int {
    Millis(t + w.skew)
  }

  /** A claim statement whose caller was told of an error; it may still be executed. */
  datatype Stray = LateReuse(id: nat, token: Token) | LateInsert(id: nat, token: Token)

  datatype State = State(now: int, rows: Table, workers: map<Pid, Worker>, owner: map<Token, Pid>, strays: set<Stray>)

  /** The clock of the database. */
  function DbNow(s: State): int {
    Millis(s.now)
  }

  datatype Action =
    | Tick(to: int)
    | Begin(pid: Pid, token: Token, skew: nat)
    | Select(pid: Pid, found: Option<nat>)
    | TryReuse(pid: Pid)
    | SelectMax(pid: Pid, next: nat)
    | TryInsert(pid: Pid)
    | ClaimFails(pid: Pid)
    | Store(pid: Pid)
    | Wake(pid: Pid)
    | Renew(pid: Pid)
    | Answer(pid: Pid, error: bool)
    | Close(pid: Pid)
    | LoopEnds(pid: Pid)
    | Free(pid: Pid)
    | Late(stray: Stray)
    | LateRenew(id: nat, token: Token)

  predicate InClaim(pc: Pc) {
    pc.Drawn? || pc.Selected? || pc.NoSlot? || pc.MaxRead? || pc.Granted?
  }

  /** The latest time at which a worker may still be where it is. */
  predicate InTime(c: Config, w: Worker, now: int) {
    && (w.pc.Granted? ==> now <= w.pc.at + 2 * c.call)
    && (w.alive && !w.closed ==>
          && (w.pc.Sleeping? ==> now <= w.pc.wake + c.late)
          && (w.pc.Renewing? ==> now <= w.pc.start + c.call))
  }

  predicate Enabled(c: Config, s: State, a: Action) {
    match a
    case Tick(to) => s.now <= to && forall p | p in s.workers :: InTime(c, s.workers[p], to)
    case Begin(p, token, _) =>
      && token !in s.owner
      && (p in s.workers ==> s.workers[p].pc.Sleeping? && !s.workers[p].alive && s.workers[p].pc.wake <= s.now)
    case Select(p, found) => p in s.workers && s.workers[p].pc.Drawn? && LowestExpired(s.rows, DbNow(s), found)
    case TryReuse(p) => p in s.workers && s.workers[p].pc.Selected?
    case SelectMax(p, next) =>
      p in s.workers && s.workers[p].pc.NoSlot? && NextId(s.rows, next) && next <= MAX_WORKER_ID
    case TryInsert(p) => p in s.workers && s.workers[p].pc.MaxRead?
    case ClaimFails(p) => p in s.workers && InClaim(s.workers[p].pc)
    case Store(p) => p in s.workers && s.workers[p].pc.Granted?
    case Wake(p) => p in s.workers && s.workers[p].pc.Sleeping? && s.workers[p].alive && s.workers[p].pc.wake <= s.now
    case Renew(p) => p in s.workers && s.workers[p].pc.Renewing? && s.workers[p].pc.reply.Waiting?
      && s.workers[p].token.Some?
    case Answer(p, error) =>
      p in s.workers && s.workers[p].pc.Renewing? && (error || !s.workers[p].pc.reply.Waiting?)
    case Close(p) => p in s.workers && !s.workers[p].closed && s.workers[p].token.Some?
    case LoopEnds(p) => p in s.workers && s.workers[p].closed && s.workers[p].pc.Sleeping?
    case Free(p) => p in s.workers && s.workers[p].pc.Stopped? && s.workers[p].token.Some?
    case Late(stray) => stray in s.strays
    case LateRenew(_, _) => true
  }

  function Set(s: State, p: Pid, w: Worker): State {
    s.(workers := s.workers[p := w])
  }

  function Do(c: Config, s: State, a: Action): State
    requires Enabled(c, s, a)
  {
    match a
    case Tick(to) => s.(now := to)
    case Begin(p, token, skew) =>
      var w := if p in s.workers then s.workers[p] else Worker(0, None, false, false, s.now, skew, Sleeping(s.now));
      Set(s, p, w.(pc := Drawn(token))).(owner := s.owner[token := p])
    case Select(p, found) =>
      var w := s.workers[p];
      Set(s, p, w.(pc := if found.Some? then Selected(w.pc.token, found.value) else NoSlot(w.pc.token)))
    case TryReuse(p) =>
      var w := s.workers[p];
      var next := if Expired(s.rows, w.pc.slot, DbNow(s)) then Granted(w.pc.token, w.pc.slot, s.now)
        else NoSlot(w.pc.token);
      Set(s, p, w.(pc := next)).(rows := Reuse(s.rows, w.pc.slot, w.pc.token, DbNow(s), Lease(c)))
    case SelectMax(p, next) => Set(s, p, s.workers[p].(pc := MaxRead(s.workers[p].pc.token, next)))
    case TryInsert(p) =>
      var w := s.workers[p];
      if w.pc.next in s.rows then Set(s, p, w.(pc := Sleeping(s.now + RetryInterval(c))))
      else Set(s, p, w.(pc := Granted(w.pc.token, w.pc.next, s.now)))
             .(rows := Insert(s.rows, w.pc.next, w.pc.token, DbNow(s), Lease(c)))
    case ClaimFails(p) =>
      var w := s.workers[p];
      Set(s, p, w.(pc := Sleeping(s.now + RetryInterval(c)))).(strays := s.strays + InFlight(w.pc))
    case Store(p) =>
      var w := s.workers[p];
      Set(s, p, Acquired(c, w, w.pc.id, w.pc.token, s.now))
    case Wake(p) => Set(s, p, s.workers[p].(pc := Renewing(s.now, Waiting)))
    case Renew(p) =>
      var w := s.workers[p];
      var reply := if Holds(s.rows, w.id, w.token.value) then Extended(s.now) else Missed;
      Set(s, p, w.(pc := Renewing(w.pc.start, reply))).(rows := Extend(s.rows, w.id, w.token.value, DbNow(s), Lease(c)))
    case Answer(p, error) =>
      var w := s.workers[p];
      Set(s, p, Beat(c, w, s.now, if error then Waiting else w.pc.reply))
    case Close(p) => Set(s, p, s.workers[p].(closed := true, alive := false))
    case LoopEnds(p) => Set(s, p, s.workers[p].(pc := Stopped))
    case Free(p) => s.(rows := Release(s.rows, s.workers[p].id, s.workers[p].token.value))
    case Late(LateReuse(id, token)) => s.(rows := Reuse(s.rows, id, token, DbNow(s), Lease(c)))
    case Late(LateInsert(id, token)) => s.(rows := Insert(s.rows, id, token, DbNow(s), Lease(c)))
    case LateRenew(id, token) => s.(rows := Extend(s.rows, id, token, DbNow(s), Lease(c)))
  }

  /** The claim statement that may be on its way when the claim is given up. */
  function InFlight(pc: Pc): set<Stray> {
    match pc
    case Selected(token, slot) => {LateReuse(slot, token)}
    case MaxRead(token, next) => {LateInsert(next, token)}
    case _ => {}
  }

  /** A new id is stored and generation resumes. */
  function Acquired(c: Config, w: Worker, id: nat, token: Token, now: int): Worker {
    w.(id := id, token := Some(token), lastRenew := now, alive := true, pc := Sleeping(now + RenewInterval(c)))
  }

  /** The end of one heartbeat: renewed, taken over, or an error (reply Waiting) that is tolerated
      until the lease can no longer be guaranteed. */
  function Beat(c: Config, w: Worker, now: int, reply: Reply): Worker {
    match reply
    case Extended(_) => w.(lastRenew := now, pc := Sleeping(now + RenewInterval(c)))
    case Missed => w.(alive := false, pc := Sleeping(now + RetryInterval(c)))
    case Waiting =>
      w.(alive := w.alive && Stamp(w, now) - Stamp(w, w.lastRenew) < GiveUp(c), pc := Sleeping(now + RetryInterval(c)))
  }

  ghost predicate Runs(c: Config, s: State, actions: seq<Action>, t: State)
    decreases |actions|
  {
    if actions == [] then s == t
    else Enabled(c, s, actions[0]) && Runs(c, Do(c, s, actions[0]), actions[1..], t)
  }

  predicate Init(s: State) {
    s.rows == map[] && s.workers == map[] && s.owner == map[] && s.strays == {}
  }

  // ----- What must hold -----

  /** A failed heartbeat may be answered `o` after the last renewal and still be tolerated: it is the
      answer to attempt `n + 1`, each attempt a timer and a call late at most, and `o` is short of
      what the worker's clock can count as the time to give up. */
  predicate AnswerAt(c: Config, n: nat, o: int) {
    && RenewInterval(c) + n * RetryInterval(c) <= o <= RenewInterval(c) + n * RetryInterval(c)
         + (n + 1) * (c.late + c.call)
    && o < Span(GiveUp(c))
  }

  ghost predicate Tolerated(c: Config, o: int) {
    exists n: nat :: AnswerAt(c, n, o)
  }

  /** Whether the worker first tries to renew, and gives up after the last tolerated failure, before
      the lease runs out. The lease began up to two calls before the renewal was noted. */
  ghost predicate Prompt(c: Config) {
    && RenewInterval(c) + c.late + 3 * c.call <= Span(Lease(c))
    && forall o | Tolerated(c, o) :: o + RetryInterval(c) + c.late + 3 * c.call <= Span(Lease(c))
  }

  predicate Serving(s: State, p: Pid) {
    p in s.workers && s.workers[p].alive && !s.workers[p].closed
  }

  /** A serving worker's row carries its token and is unexpired, and no other serving worker has its id. */
  ghost predicate Safe(s: State) {
    && (forall p | Serving(s, p) ::
          && s.workers[p].id <= MAX_WORKER_ID && s.workers[p].token.Some?
          && Holds(s.rows, s.workers[p].id, s.workers[p].token.value) && !Expired(s.rows, s.workers[p].id, DbNow(s)))
    && (forall p, q | Serving(s, p) && Serving(s, q) && p != q :: s.workers[p].id != s.workers[q].id)
  }

  /** Row ids are exactly 0..max, and max fits in 16 bits. */
  ghost predicate Dense(t: Table) {
    forall i | i in t :: i <= MAX_WORKER_ID && forall j: nat | j < i :: j in t
  }

  // ----- The invariant -----

  /** `span` after the last renewal the next attempt starts, at most `slack` late. */
  ghost predicate AttemptAt(c: Config, span: int, slack: nat) {
    || RenewInterval(c) <= span <= RenewInterval(c) + slack
    || exists o :: Tolerated(c, o) && o + RetryInterval(c) <= span <= o + RetryInterval(c) + slack
  }

  ghost predicate Timely(c: Config, w: Worker) {
    && (w.pc.Sleeping? ==> AttemptAt(c, w.pc.wake - w.lastRenew, 0))
    && (w.pc.Renewing? ==> AttemptAt(c, w.pc.start - w.lastRenew, c.late))
  }

  /** A serving worker holds its row, for long enough. */
  ghost predicate Leased(c: Config, s: State, w: Worker) {
    && w.token.Some? && Holds(s.rows, w.id, w.token.value)
    && s.rows[w.id].expires >= Millis(w.lastRenew - 2 * c.call) + Lease(c)
    && (w.pc.Sleeping? || w.pc.Renewing?)
    && Timely(c, w)
    && (w.pc.Renewing? ==> w.pc.start <= s.now && !w.pc.reply.Missed?)
    && (w.pc.Renewing? && w.pc.reply.Extended? ==>
          w.pc.start <= w.pc.reply.at && s.rows[w.id].expires >= Millis(w.pc.reply.at) + Lease(c))
  }

  predicate GrantHeld(c: Config, s: State, pc: Pc) {
    pc.Granted? ==>
      pc.at <= s.now && Holds(s.rows, pc.id, pc.token) && s.rows[pc.id].expires >= Millis(pc.at) + Lease(c)
  }

  /** The tokens a worker has or is trying for. */
  predicate Uses(w: Worker, token: Token) {
    w.token == Some(token) || (InClaim(w.pc) && w.pc.token == token)
  }

  predicate InsertFits(t: Table, id: nat) {
    id <= MAX_WORKER_ID && (id == 0 || id - 1 in t)
  }

  ghost predicate Tokens(s: State) {
    && (forall p, token | p in s.workers && Uses(s.workers[p], token) :: token in s.owner && s.owner[token] == p)
    && (forall p | p in s.workers && InClaim(s.workers[p].pc) :: s.workers[p].token != Some(s.workers[p].pc.token))
    && (forall p | p in s.workers && s.workers[p].pc.Stopped? :: s.workers[p].closed)
    && (forall stray, p | stray in s.strays && p in s.workers :: !Uses(s.workers[p], stray.token))
    && (forall stray | stray in s.strays :: stray.token in s.owner)
  }

  ghost predicate Inserts(s: State) {
    && (forall p | p in s.workers && s.workers[p].pc.MaxRead? :: InsertFits(s.rows, s.workers[p].pc.next))
    && (forall stray | stray in s.strays && stray.LateInsert? :: InsertFits(s.rows, stray.id))
  }

  /** What holds under any timing. */
  ghost predicate Base(c: Config, s: State) {
    && Dense(s.rows) && Tokens(s) && Inserts(s)
    && (forall i | i in s.rows :: s.rows[i].expires <= DbNow(s) + Lease(c))
    && s.now >= 0
  }

  ghost predicate Leases(c: Config, s: State) {
    forall p | p in s.workers ::
      && InTime(c, s.workers[p], s.now) && GrantHeld(c, s, s.workers[p].pc)
      && (Serving(s, p) ==> Leased(c, s, s.workers[p]))
  }

  ghost predicate Inv(c: Config, s: State) {
    Base(c, s) && Leases(c, s)
  }

  // ----- What a step does to the table -----

  /** The row the step gives back, if any. */
  predicate Frees(s: State, a: Action, id: nat) {
    a.Free? && a.pid in s.workers && s.workers[a.pid].id == id && s.workers[a.pid].token.Some?
    && Holds(s.rows, id, s.workers[a.pid].token.value)
  }

  /** A row that is unexpired and not given back keeps its token, and its expiry only moves later. */
  lemma RowKept(c: Config, s: State, a: Action, id: nat)
    requires Base(c, s) && Enabled(c, s, a) && id in s.rows
    ensures var s' := Do(c, s, a);
            && id in s'.rows
            && (!Expired(s.rows, id, DbNow(s)) && !Frees(s, a, id) ==>
                  s'.rows[id].token == s.rows[id].token && s'.rows[id].expires >= s.rows[id].expires)
  {
    hide Tokens, Inserts, Dense;
  }

  /** Rows come into being only at the next free id. */
  lemma RowsDense(c: Config, s: State, a: Action)
    requires Base(c, s) && Enabled(c, s, a)
    ensures Dense(Do(c, s, a).rows) && Inserts(Do(c, s, a))
  {
    var s' := Do(c, s, a);
    forall i | i in s.rows
      ensures i in s'.rows
    {
      RowKept(c, s, a, i);
    }
    NewRow(c, s, a);
    hide Do, Enabled, Tokens;
    DenseGrows(s.rows, s'.rows);
    InsertsGrow(c, s, a);
  }

  lemma NewRow(c: Config, s: State, a: Action)
    requires Base(c, s) && Enabled(c, s, a)
    ensures forall i | i in Do(c, s, a).rows && i !in s.rows :: InsertFits(s.rows, i)
  {
    hide Tokens, Dense;
  }

  lemma DenseGrows(t: Table, t': Table)
    requires Dense(t) && (forall i | i in t :: i in t') && forall i | i in t' && i !in t :: InsertFits(t, i)
    ensures Dense(t')
  {
  }

  lemma InsertsGrow(c: Config, s: State, a: Action)
    requires Base(c, s) && Enabled(c, s, a) && forall i | i in s.rows :: i in Do(c, s, a).rows
    ensures Inserts(Do(c, s, a))
  {
    hide Tokens, Dense, Stamp, GiveUp, RetryInterval, RenewInterval, Extend, Release, LowestExpired;
  }

  function Actor(a: Action): Option<Pid> {
    match a
    case Tick(_) => None
    case Late(_) => None
    case LateRenew(_, _) => None
    case _ => Some(a.pid)
  }

  /** A step changes one worker at most. */
  lemma OthersKept(c: Config, s: State, a: Action, p: Pid)
    requires Enabled(c, s, a) && Actor(a) != Some(p)
    ensures var s' := Do(c, s, a);
            (p in s'.workers <==> p in s.workers) && (p in s.workers ==> s'.workers[p] == s.workers[p])
  {
  }

  /** The acting worker drops tokens, moves one along, or draws a new one. */
  lemma ActorTokens(c: Config, s: State, a: Action, p: Pid)
    requires Enabled(c, s, a) && Actor(a) == Some(p) && Tokens(s)
    ensures var s' := Do(c, s, a);
            && p in s'.workers
            && (forall token | Uses(s'.workers[p], token) ::
                  (p in s.workers && Uses(s.workers[p], token)) || (a.Begin? && a.token == token))
            && (InClaim(s'.workers[p].pc) ==> s'.workers[p].token != Some(s'.workers[p].pc.token))
            && (s'.workers[p].pc.Stopped? ==> s'.workers[p].closed)
  {
    hide Stamp, GiveUp, Lease, RetryInterval, RenewInterval, Reuse, Insert, Extend, Release, Expired, Holds,
      LowestExpired, NextId;
    if p in s.workers {
      assert forall token | Uses(s.workers[p], token) :: token in s.owner;
    }
  }

  lemma SharedKept(c: Config, s: State, a: Action)
    requires Enabled(c, s, a)
    ensures Do(c, s, a).owner == if a.Begin? then s.owner[a.token := a.pid] else s.owner
    ensures forall stray | stray in Do(c, s, a).strays :: stray in s.strays || NewStray(c, s, a, stray)
  {
  }

  predicate NewStray(c: Config, s: State, a: Action, stray: Stray) {
    && a.ClaimFails? && a.pid in s.workers && InClaim(s.workers[a.pid].pc) && s.workers[a.pid].pc.token == stray.token
    && Enabled(c, s, a) && a.pid in Do(c, s, a).workers && !InClaim(Do(c, s, a).workers[a.pid].pc)
    && Do(c, s, a).workers[a.pid].token == s.workers[a.pid].token
  }

  lemma StrayUnused(c: Config, s: State, a: Action, stray: Stray, p: Pid)
    requires Tokens(s) && Enabled(c, s, a) && stray in Do(c, s, a).strays && p in Do(c, s, a).workers
    ensures !Uses(Do(c, s, a).workers[p], stray.token) && stray.token in s.owner
  {
    SharedKept(c, s, a);
    assert a.Begin? ==> a.token !in s.owner;
    if Actor(a) == Some(p) {
      ActorTokens(c, s, a, p);
    } else {
      OthersKept(c, s, a, p);
    }
    hide Do, Enabled;
    if stray !in s.strays {
      assert NewStray(c, s, a, stray);
      assert Uses(s.workers[a.pid], stray.token) && s.owner[stray.token] == a.pid;
      if p == a.pid {
        assert s.workers[p].token != Some(stray.token);
      } else {
        assert Actor(a) == Some(a.pid);
        assert !Uses(s.workers[p], stray.token);
      }
    }
  }

  lemma TokensKept(c: Config, s: State, a: Action)
    requires Tokens(s) && Enabled(c, s, a)
    ensures Tokens(Do(c, s, a))
  {
    var s' := Do(c, s, a);
    SharedKept(c, s, a);
    assert a.Begin? ==> a.token !in s.owner;
    hide Do, Enabled;
    forall p | p in s'.workers
      ensures forall token | Uses(s'.workers[p], token) :: token in s'.owner && s'.owner[token] == p
      ensures InClaim(s'.workers[p].pc) ==> s'.workers[p].token != Some(s'.workers[p].pc.token)
      ensures s'.workers[p].pc.Stopped? ==> s'.workers[p].closed
      ensures forall stray | stray in s'.strays :: !Uses(s'.workers[p], stray.token)
    {
      if Actor(a) == Some(p) {
        ActorTokens(c, s, a, p);
      } else {
        OthersKept(c, s, a, p);
      }
      forall stray | stray in s'.strays
        ensures !Uses(s'.workers[p], stray.token)
      {
        StrayUnused(c, s, a, stray, p);
      }
    }
  }

  lemma BaseKept(c: Config, s: State, a: Action)
    requires Base(c, s) && Enabled(c, s, a)
    ensures Base(c, Do(c, s, a))
  {
    RowsDense(c, s, a);
    TokensKept(c, s, a);
    ExpiryBounded(c, s, a);
    hide Do, Dense, Tokens, Inserts;
  }

  lemma ExpiryBounded(c: Config, s: State, a: Action)
    requires Base(c, s) && Enabled(c, s, a)
    ensures var s' := Do(c, s, a);
            s'.now >= s.now && forall i | i in s'.rows :: s'.rows[i].expires <= DbNow(s') + Lease(c)
  {
    hide Dense, Tokens, Inserts;
  }

  // ----- Leases -----

  lemma Unexpired(c: Config, s: State, p: Pid)
    requires Prompt(c) && Leases(c, s) && Serving(s, p)
    ensures Holds(s.rows, s.workers[p].id, s.workers[p].token.value) && !Expired(s.rows, s.workers[p].id, DbNow(s))
  {
    hide RetryInterval, RenewInterval, Tolerated;
  }

  lemma GrantUnexpired(c: Config, s: State, p: Pid)
    requires Prompt(c) && Leases(c, s) && p in s.workers && s.workers[p].pc.Granted?
    ensures Holds(s.rows, s.workers[p].pc.id, s.workers[p].pc.token) && !Expired(s.rows, s.workers[p].pc.id, DbNow(s))
  {
    hide RetryInterval;
  }

  lemma OwnerOf(s: State, p: Pid, token: Token)
    requires Tokens(s) && p in s.workers && Uses(s.workers[p], token)
    ensures token in s.owner && s.owner[token] == p
  {
  }

  /** Only a closed worker gives a row back, and only its own. */
  lemma NotFreed(s: State, a: Action, p: Pid, id: nat, token: Token)
    requires Tokens(s) && p in s.workers && Uses(s.workers[p], token) && Holds(s.rows, id, token)
    requires !s.workers[p].pc.Stopped? && (a.Free? ==> a.pid in s.workers && s.workers[a.pid].pc.Stopped?)
    ensures !Frees(s, a, id)
  {
    OwnerOf(s, p, token);
    if Frees(s, a, id) {
      OwnerOf(s, a.pid, token);
    }
  }

  /** The rows of serving and of granted workers survive every step. */
  lemma OwnRowKept(c: Config, s: State, a: Action, p: Pid, id: nat, token: Token)
    requires Prompt(c) && Inv(c, s) && Enabled(c, s, a) && p in s.workers
    requires (Serving(s, p) && s.workers[p].id == id && s.workers[p].token == Some(token))
             || (s.workers[p].pc.Granted? && s.workers[p].pc.token == token && s.workers[p].pc.id == id)
    requires s.workers[p].pc.Granted? || s.workers[p].pc.Sleeping? || s.workers[p].pc.Renewing?
    ensures id in s.rows && Holds(Do(c, s, a).rows, id, token) && Do(c, s, a).rows[id].expires >= s.rows[id].expires
  {
    assert Uses(s.workers[p], token);
    assert a.Free? ==> s.workers[a.pid].pc.Stopped?;
    if s.workers[p].pc.Granted? {
      assert !Serving(s, p) by {
        hide Prompt;
      }
      GrantUnexpired(c, s, p);
    } else {
      Unexpired(c, s, p);
    }
    hide Do, Enabled, Leases, Prompt;
    NotFreed(s, a, p, id, token);
    RowKept(c, s, a, id);
  }

  lemma BystanderKept(c: Config, s: State, a: Action, p: Pid)
    requires Prompt(c) && Inv(c, s) && Enabled(c, s, a) && Actor(a) != Some(p) && p in s.workers
    ensures var s' := Do(c, s, a);
            && p in s'.workers && InTime(c, s'.workers[p], s'.now) && GrantHeld(c, s', s'.workers[p].pc)
            && (Serving(s', p) ==> Leased(c, s', s'.workers[p]))
  {
    var w := s.workers[p];
    OthersKept(c, s, a, p);
    TimeMoves(c, s, a, p);
    assert Serving(s, p) ==> Leased(c, s, w);
    assert GrantHeld(c, s, w.pc);
    if w.pc.Granted? {
      OwnRowKept(c, s, a, p, w.pc.id, w.pc.token);
    } else if Serving(s, p) {
      OwnRowKept(c, s, a, p, w.id, w.token.value);
    }
    hide Do, Enabled, Prompt, Base, Timely;
  }

  lemma TimeMoves(c: Config, s: State, a: Action, p: Pid)
    requires Enabled(c, s, a) && p in s.workers && InTime(c, s.workers[p], s.now)
    ensures Do(c, s, a).now >= s.now && InTime(c, s.workers[p], Do(c, s, a).now)
  {
  }

  /** Nothing serves while it is claiming. */
  lemma ClaimersIdle(c: Config, s: State, p: Pid)
    requires Leases(c, s) && p in s.workers && InClaim(s.workers[p].pc)
    ensures !Serving(s, p)
  {
  }

  lemma ClaimerKept(c: Config, s: State, a: Action, p: Pid)
    requires Prompt(c) && Inv(c, s) && Enabled(c, s, a) && Actor(a) == Some(p)
    requires a.Begin? || a.Select? || a.TryReuse? || a.SelectMax? || a.TryInsert? || a.ClaimFails?
    ensures var s' := Do(c, s, a);
            && p in s'.workers && !Serving(s', p)
            && InTime(c, s'.workers[p], s'.now) && GrantHeld(c, s', s'.workers[p].pc)
  {
    if p in s.workers && InClaim(s.workers[p].pc) {
      ClaimersIdle(c, s, p);
    }
    hide Base, Leases, RetryInterval;
  }

  lemma StoreKept(c: Config, s: State, a: Action, p: Pid)
    requires Prompt(c) && Inv(c, s) && Enabled(c, s, a) && a == Store(p)
    ensures var s' := Do(c, s, a);
            && InTime(c, s'.workers[p], s'.now) && GrantHeld(c, s', s'.workers[p].pc) && Leased(c, s', s'.workers[p])
  {
    assert GrantHeld(c, s, s.workers[p].pc) && InTime(c, s.workers[p], s.now);
    hide Base, Leases, RetryInterval, RenewInterval, Tolerated, Prompt;
  }

  lemma WakeKept(c: Config, s: State, a: Action, p: Pid)
    requires Prompt(c) && Inv(c, s) && Enabled(c, s, a) && a == Wake(p)
    ensures var s' := Do(c, s, a);
            && InTime(c, s'.workers[p], s'.now) && GrantHeld(c, s', s'.workers[p].pc)
            && (Serving(s', p) ==> Leased(c, s', s'.workers[p]))
  {
    assert Serving(s, p) ==> Leased(c, s, s.workers[p]) && InTime(c, s.workers[p], s.now);
    hide Base, Leases, RetryInterval, RenewInterval, Tolerated, Prompt;
  }

  lemma RenewKept(c: Config, s: State, a: Action, p: Pid)
    requires Prompt(c) && Inv(c, s) && Enabled(c, s, a) && a == Renew(p)
    ensures var s' := Do(c, s, a);
            && InTime(c, s'.workers[p], s'.now) && GrantHeld(c, s', s'.workers[p].pc)
            && (Serving(s', p) ==> Leased(c, s', s'.workers[p]))
  {
    assert InTime(c, s.workers[p], s.now) && (Serving(s, p) ==> Leased(c, s, s.workers[p]));
    assert Base(c, s) ==> forall i | i in s.rows :: s.rows[i].expires <= DbNow(s) + Lease(c);
    hide Base, Leases, RetryInterval, RenewInterval, Prompt, Tolerated;
  }

  lemma AnswerKept(c: Config, s: State, a: Action, p: Pid)
    requires Prompt(c) && Inv(c, s) && Enabled(c, s, a) && a.Answer? && a.pid == p
    ensures var s' := Do(c, s, a);
            && InTime(c, s'.workers[p], s'.now) && GrantHeld(c, s', s'.workers[p].pc)
            && (Serving(s', p) ==> Leased(c, s', s'.workers[p]))
  {
    assert InTime(c, s.workers[p], s.now) && (Serving(s, p) ==> Leased(c, s, s.workers[p]));
    hide Base, Leases, Tolerated, RetryInterval, RenewInterval;
    var w := s.workers[p];
    if Serving(s, p) && s.now - w.lastRenew < Span(GiveUp(c)) {
      StillTolerated(c, w.pc.start - w.lastRenew, s.now - w.lastRenew);
    }
  }

  /** A failure answered in time, before the worker gives up, is a tolerated one. */
  lemma StillTolerated(c: Config, start: int, now: int)
    requires AttemptAt(c, start, c.late) && start <= now <= start + c.call && now < Span(GiveUp(c))
    ensures Tolerated(c, now)
  {
    hide RenewInterval, RetryInterval;
    if RenewInterval(c) <= start <= RenewInterval(c) + c.late {
      assert AnswerAt(c, 0, now);
    } else {
      var o :| Tolerated(c, o) && o + RetryInterval(c) <= start <= o + RetryInterval(c) + c.late;
      var n: nat :| AnswerAt(c, n, o);
      assert (n + 1) * RetryInterval(c) == n * RetryInterval(c) + RetryInterval(c);
      assert (n + 2) * (c.late + c.call) == (n + 1) * (c.late + c.call) + (c.late + c.call);
      assert AnswerAt(c, n + 1, now);
    }
  }

  lemma ActorKept(c: Config, s: State, a: Action, p: Pid)
    requires Prompt(c) && Inv(c, s) && Enabled(c, s, a) && Actor(a) == Some(p)
    ensures var s' := Do(c, s, a);
            && p in s'.workers && InTime(c, s'.workers[p], s'.now) && GrantHeld(c, s', s'.workers[p].pc)
            && (Serving(s', p) ==> Leased(c, s', s'.workers[p]))
  {
    match a
    case Store(_) => StoreKept(c, s, a, p);
    case Wake(_) => WakeKept(c, s, a, p);
    case Renew(_) => RenewKept(c, s, a, p);
    case Answer(_, _) => AnswerKept(c, s, a, p);
    case Close(_) => CloserKept(c, s, a, p);
    case LoopEnds(_) => CloserKept(c, s, a, p);
    case Free(_) => CloserKept(c, s, a, p);
    case _ => ClaimerKept(c, s, a, p);
  }

  lemma CloserKept(c: Config, s: State, a: Action, p: Pid)
    requires Inv(c, s) && Enabled(c, s, a) && Actor(a) == Some(p) && (a.Close? || a.LoopEnds? || a.Free?)
    ensures var s' := Do(c, s, a);
            && p in s'.workers && InTime(c, s'.workers[p], s'.now) && GrantHeld(c, s', s'.workers[p].pc)
               && !Serving(s', p)
  {
    assert InTime(c, s.workers[p], s.now) && GrantHeld(c, s, s.workers[p].pc);
    assert Tokens(s);
    hide Leases, Base, Leased;
  }

  /** Every step keeps the invariant. */
  lemma StepKeeps(c: Config, s: State, a: Action)
    requires Prompt(c) && Inv(c, s) && Enabled(c, s, a)
    ensures Inv(c, Do(c, s, a))
  {
    BaseKept(c, s, a);
    hide Do, Enabled, Base, InTime, GrantHeld, Leased, Prompt;
    forall p | p in Do(c, s, a).workers
      ensures InTime(c, Do(c, s, a).workers[p], Do(c, s, a).now) && GrantHeld(c, Do(c, s, a), Do(c, s, a).workers[p].pc)
      ensures Serving(Do(c, s, a), p) ==> Leased(c, Do(c, s, a), Do(c, s, a).workers[p])
    {
      if Actor(a) == Some(p) {
        ActorKept(c, s, a, p);
      } else {
        OthersKept(c, s, a, p);
        BystanderKept(c, s, a, p);
      }
    }
  }

  // ----- The theorems -----

  lemma InvSafe(c: Config, s: State)
    requires Prompt(c) && Inv(c, s)
    ensures Safe(s)
  {
    hide Prompt;
    forall p | Serving(s, p)
      ensures s.workers[p].token.Some? && s.workers[p].id <= MAX_WORKER_ID
      ensures Holds(s.rows, s.workers[p].id, s.workers[p].token.value) && !Expired(s.rows, s.workers[p].id, DbNow(s))
    {
      Unexpired(c, s, p);
    }
    forall p, q | Serving(s, p) && Serving(s, q) && p != q
      ensures s.workers[p].id != s.workers[q].id
    {
      OwnerOf(s, p, s.workers[p].token.value);
      OwnerOf(s, q, s.workers[q].token.value);
    }
  }

  /** In every run, over any interleaving of claims, renewals, losses, errors and late statements:
      two unclosed live workers never share an id, and the row of each carries its token unexpired. */
  lemma {:induction false} NeverShared(c: Config, s: State, actions: seq<Action>, t: State)
    requires Prompt(c) && Inv(c, s) && Runs(c, s, actions, t)
    ensures Inv(c, t) && Safe(t)
    decreases |actions|
  {
    hide Prompt, Inv, Safe, Do, Enabled;
    if actions == [] {
      InvSafe(c, s);
    } else {
      StepKeeps(c, s, actions[0]);
      NeverShared(c, Do(c, s, actions[0]), actions[1..], t);
    }
  }

  /** Whatever the timing, the ids in use are exactly 0..max with max at most 65535. */
  lemma {:induction false} AlwaysDense(c: Config, s: State, actions: seq<Action>, t: State)
    requires Base(c, s) && Runs(c, s, actions, t)
    ensures Base(c, t) && forall i | i in t.rows :: i <= 65535 && forall j: nat | j < i :: j in t.rows
    decreases |actions|
  {
    assert Dense(s.rows) ==> forall i | i in s.rows :: i <= 65535 && forall j: nat | j < i :: j in s.rows;
    hide Do, Enabled, Dense, Tokens, Inserts;
    if actions != [] {
      BaseKept(c, s, actions[0]);
      AlwaysDense(c, Do(c, s, actions[0]), actions[1..], t);
    }
  }

  lemma InitHolds(c: Config, s: State)
    requires Init(s) && s.now >= 0
    ensures Inv(c, s)
  {
  }

  /** No step of the run gives back row `id`. */
  ghost predicate Unfreed(c: Config, s: State, actions: seq<Action>, id: nat)
    decreases |actions|
  {
    actions != [] && Enabled(c, s, actions[0]) ==>
      !Frees(s, actions[0], id) && Unfreed(c, Do(c, s, actions[0]), actions[1..], id)
  }

  /** Whatever the timing, with the allocation lock lost: no claim takes an unexpired row. Once id is
      granted, its token stays until the lease has run out, so two grants of one id are more than a
      lease apart unless the holder gave the id back. */
  lemma {:induction false} GrantLasts(c: Config, s: State, actions: seq<Action>, t: State, id: nat)
    requires Base(c, s) && Runs(c, s, actions, t) && Unfreed(c, s, actions, id) && id in s.rows
    ensures id in t.rows
    ensures (t.rows[id].token == s.rows[id].token && t.rows[id].expires >= s.rows[id].expires)
            || DbNow(t) > s.rows[id].expires
    decreases |actions|
  {
    hide Do, Enabled, Dense, Tokens, Inserts, Frees;
    if actions != [] {
      BaseKept(c, s, actions[0]);
      RowKept(c, s, actions[0], id);
      GrantLasts(c, Do(c, s, actions[0]), actions[1..], t, id);
      ClockAdvances(c, Do(c, s, actions[0]), actions[1..], t);
      ExpiryBounded(c, s, actions[0]);
    }
  }

  lemma {:induction false} ClockAdvances(c: Config, s: State, actions: seq<Action>, t: State)
    requires Base(c, s) && Runs(c, s, actions, t)
    ensures t.now >= s.now
    decreases |actions|
  {
    hide Do, Enabled, Dense, Tokens, Inserts;
    if actions != [] {
      BaseKept(c, s, actions[0]);
      ExpiryBounded(c, s, actions[0]);
      ClockAdvances(c, Do(c, s, actions[0]), actions[1..], t);
    }
  }
}
