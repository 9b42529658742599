/** The worker object and the claim, statement by statement, against the functions of the protocol. */
module WuidWorker {
  // The database counts milliseconds; the worker keeps the millisecond stamp of its last renewal.

  import opened Clock
  import opened WorkflowDef
  import opened Wuid

  datatype View = View(rows: Table, now: int)

  /** What other nodes and the clock may do between two statements of a claim. */
  datatype Other =
    | Passes(millis: nat)
    | Reuses(id: nat, token: Token)
    | Inserts(id: nat, token: Token)
    | Extends(id: nat, token: Token)
    | Releases(id: nat, token: Token)

  function After(v: View, o: Other, lease: nat): View {
    match o
    case Passes(millis) => v.(now := v.now + millis)
    case Reuses(id, token) => v.(rows := Reuse(v.rows, id, token, v.now, lease))
    case Inserts(id, token) => v.(rows := Insert(v.rows, id, token, v.now, lease))
    case Extends(id, token) => v.(rows := Extend(v.rows, id, token, v.now, lease))
    case Releases(id, token) => v.(rows := Release(v.rows, id, token))
  }

  function AfterAll(v: View, others: seq<Other>, lease: nat): View {
    if others == [] then v
    else After(AfterAll(v, others[..|others| - 1], lease), others[|others| - 1], lease)
  }

  /** Rows are never deleted. */
  lemma {:induction false} RowsStay(v: View, others: seq<Other>, lease: nat)
    ensures v.rows.Keys <= AfterAll(v, others, lease).rows.Keys
  {
    if others != [] {
      RowsStay(v, others[..|others| - 1], lease);
    }
  }

  datatype Claim = Claimed(id: nat) | Exhausted | Conflict

  class Database {
    const lease: nat
    var rows: Table
    var now: int

    constructor (lease: nat)
      ensures rows == map[] && now == 0 && this.lease == lease
    {
      this.lease, rows, now := lease, map[], 0;
    }

    function Contents(): View
      reads this
    {
      View(rows, now)
    }

    method Others(others: seq<Other>)
      modifies this
      ensures Contents() == AfterAll(old(Contents()), others, lease)
    {
      for i := 0 to |others|
        invariant Contents() == AfterAll(old(Contents()), others[..i], lease)
      {
        var v := After(Contents(), others[i], lease);
        assert others[..i + 1][..i] == others[..i];
        rows, now := v.rows, v.now;
      }
      assert others[..|others|] == others;
    }

    method SelectExpired() returns (found: Option<nat>)
      ensures LowestExpired(rows, now, found)
    {
      found := None;
      var todo := rows.Keys;
      while todo != {}
        invariant todo <= rows.Keys
        invariant LowestIn(rows.Keys - todo, found)
        decreases |todo|
      {
        var i :| i in todo;
        todo := todo - {i};
        if rows[i].expires < now && (found.None? || i < found.value) {
          found := Some(i);
        }
      }
      assert rows.Keys - todo == rows.Keys;
    }

    predicate LowestIn(seen: set<nat>, found: Option<nat>)
      reads this
    {
      match found
      case Some(id) => id in seen && Expired(rows, id, now) && forall i | i in seen && i < id :: !Expired(rows, i, now)
      case None => forall i | i in seen :: !Expired(rows, i, now)
    }

    method SelectNext() returns (next: nat)
      ensures NextId(rows, next)
    {
      next := 0;
      var todo := rows.Keys;
      while todo != {}
        invariant todo <= rows.Keys
        invariant (forall i | i in rows.Keys - todo :: i < next) && (next == 0 || next - 1 in rows)
        decreases |todo|
      {
        var i :| i in todo;
        assert forall j | j in rows.Keys - (todo - {i}) :: j == i || j in rows.Keys - todo;
        todo := todo - {i};
        if i >= next {
          next := i + 1;
        }
      }
      assert rows.Keys - todo == rows.Keys;
    }

    method UpdateExpired(id: nat, token: Token) returns (affected: nat)
      modifies this`rows
      ensures rows == Reuse(old(rows), id, token, now, lease)
              && affected == if Expired(old(rows), id, now) then 1 else 0
    {
      affected := 0;
      if id in rows && rows[id].expires < now {
        rows := rows[id := Row(token, now + lease)];
        affected := 1;
      }
    }

    method InsertRow(id: nat, token: Token) returns (ok: bool)
      modifies this`rows
      ensures rows == Insert(old(rows), id, token, now, lease) && ok == (id !in old(rows))
    {
      ok := id !in rows;
      if ok {
        rows := rows[id := Row(token, now + lease)];
      }
    }

    method UpdateOwned(id: nat, token: Token, expires: int) returns (affected: nat)
      modifies this`rows
      ensures affected == if Holds(old(rows), id, token) then 1 else 0
      ensures rows == if Holds(old(rows), id, token) then old(rows)[id := Row(token, expires)] else old(rows)
    {
      affected := 0;
      if id in rows && rows[id].token == token {
        rows := rows[id := Row(token, expires)];
        affected := 1;
      }
    }

    /** Claims an id while others act between the statements: `others[0]` after the search for an expired
        row, `others[1]` after its update or, if there was none, before the highest id is read, and
        `others[2]` before the insert. The lowest row expired at the search is the one claimed, if it is
        still expired at its update. Otherwise the claim takes the id after the highest one read: it is
        exhausted if that is above 65535, and in conflict if somebody inserted that id meanwhile. A claim
        takes one row for one lease and touches no other; a claim that fails touches nothing. */
    method ClaimId(token: Token, others: seq<seq<Other>>) returns (r: Claim, ghost before: View)
      requires |others| == 3
      modifies this
      ensures var v0 := old(Contents());
              var v1 := AfterAll(v0, others[0], lease);
              var v2 := AfterAll(v1, others[1], lease);
              var v3 := AfterAll(v2, others[2], lease);
              && (forall id | Due(v0, id) && id in v1.rows && v1.rows[id].expires < v1.now ::
                    r == Claimed(id) && before == v1)
              && ((forall id | Due(v0, id) :: id !in v1.rows || v1.rows[id].expires >= v1.now) ==>
                    forall next | FollowsAll(v2.rows, next) ::
                      if next > 65535 then r == Exhausted && before == v2
                      else before == v3 && r == if next in v3.rows then Conflict else Claimed(next))
      ensures Contents() ==
                if r.Claimed? then before.(rows := before.rows[r.id := Row(token, before.now + lease)]) else before
      ensures r.Claimed? ==>
                if r.id in before.rows then Expired(before.rows, r.id, before.now) else InsertFits(before.rows, r.id)
    {
      var found := SelectExpired();
      Others(others[0]);
      before := Contents();
      if found.Some? {
        var affected := UpdateExpired(found.value, token);
        if affected == 1 {
          return Claimed(found.value), before;
        }
      }
      Others(others[1]);
      before := Contents();
      var next := SelectNext();
      if next > MAX_WORKER_ID {
        return Exhausted, before;
      }
      RowsStay(Contents(), others[2], lease);
      Others(others[2]);
      before := Contents();
      var ok := InsertRow(next, token);
      if !ok {
        return Conflict, before;
      }
      return Claimed(next), before;
    }
  }

  /** The lowest expired row. */
  predicate Due(v: View, id: nat) {
    && id in v.rows && v.rows[id].expires < v.now
    && forall i | i in v.rows && i < id :: v.rows[i].expires >= v.now
  }

  /** The id after all those of the table. */
  predicate FollowsAll(t: Table, next: nat) {
    (forall i | i in t :: i < next) && (next == 0 || next - 1 in t)
  }

  /** Undisturbed, a claim is a function of the table: the lowest expired row, or the next id. */
  lemma AloneClaims(v: View, lease: nat)
    ensures AfterAll(v, [], lease) == v
    ensures forall i, j | Due(v, i) && Due(v, j) :: i == j
    ensures forall i, j | FollowsAll(v.rows, i) && FollowsAll(v.rows, j) :: i == j
  {
  }

  /** The outcome of one renewal, as the heartbeat sees it. */
  datatype Outcome = Ok | TakenOver | Error

  function ReplyOf(o: Outcome, at: int): Reply {
    match o
    case Ok => Extended(at)
    case TakenOver => Missed
    case Error => Waiting
  }

  class Worker {
    const config: Config
    const skew: nat
    const fixed: bool
    var id: nat
    var token: Option<Token>
    var alive: bool
    var closed: bool
    var lastRenew: int

    constructor Fixed(id: nat)
      ensures fixed && alive && !closed && this.id == id && token == None
    {
      config, skew, fixed, this.id := Config(0, 0, 0), 0, true, id;
      token, alive, closed, lastRenew := None, true, false, 0;
    }

    constructor Leased(c: Config, skew: nat, id: nat, token: Token, now: int)
      ensures config == c && this.skew == skew && !fixed && Stamped(now)
      ensures var blank := Wuid.Worker(id, None, false, false, 0, skew, Stopped);
              forall pc ::
                At(now, Sleeping(now + RenewInterval(c))) == Acquired(c, blank.(pc := pc), id, token, now)
    {
      config, this.skew, fixed, this.id, this.token, alive, closed := c, skew, false, id, Some(token), true, false;
      lastRenew := Millis(now + skew);
    }

    /** `lastRenew` is the stamp of a renewal at `renewed`. */
    predicate Stamped(renewed: int)
      reads this
    {
      lastRenew == Millis(renewed + skew)
    }

    /** The worker in the protocol, last renewed at `renewed`. */
    function At(renewed: int, pc: Pc): Wuid.Worker
      reads this
    {
      Wuid.Worker(id, token, alive, closed, renewed, skew, pc)
    }

    /** Declares the id lost; the callback fires once per loss. */
    method DeclareLost() returns (fired: bool)
      modifies this`alive
      ensures !alive && fired == old(alive)
    {
      fired := alive;
      alive := false;
    }

    /** The end of one heartbeat of a live worker: the delay until the next. */
    method Answered(outcome: Outcome, now: int, ghost at: int) returns (delay: nat, lost: bool)
      requires alive
      modifies this
      ensures forall renewed | old(Stamped(renewed)) :: Stamped(if outcome.Ok? then now else renewed)
      ensures forall renewed, pc | old(Stamped(renewed)) ::
                At(if outcome.Ok? then now else renewed, Sleeping(now + delay)) ==
                  Beat(config, old(At(renewed, pc)), now, ReplyOf(outcome, at))
      ensures lost <==> !alive
      ensures var third := if config.lease < 3 then 1_000_000_000 else config.lease / 3;
              delay == if outcome.Ok? || third < 5_000_000_000 then third else 5_000_000_000
      ensures lost <==> outcome.TakenOver? || (outcome.Error? && (now + skew) / 1_000_000 - old(lastRenew)
                                                                  >= (config.lease - config.lease / 3) / 1_000_000)
    {
      lost := false;
      match outcome
      case Ok =>
        lastRenew := Millis(now + skew);
        delay := RenewInterval(config);
      case TakenOver =>
        lost := DeclareLost();
        delay := RetryInterval(config);
      case Error =>
        if Millis(now + skew) - lastRenew >= GiveUp(config) {
          lost := DeclareLost();
        }
        delay := RetryInterval(config);
    }

    method Reacquired(id: nat, token: Token, now: int) returns (delay: nat)
      modifies this
      ensures delay == if config.lease < 3 then 1_000_000_000 else config.lease / 3
      ensures Stamped(now)
      ensures forall renewed, pc ::
                At(now, Sleeping(now + delay)) == Acquired(config, old(At(renewed, pc)), id, token, now)
    {
      this.id, this.token, lastRenew, alive := id, Some(token), Millis(now + skew), true;
      delay := RenewInterval(config);
    }

    /** Renews over the database: extends only a row that still carries the token. */
    method RenewLease(db: Database) returns (outcome: Outcome)
      requires token.Some? && db.lease == Lease(config)
      modifies db`rows
      ensures if id in old(db.rows) && old(db.rows)[id].token == token.value
              then outcome == Ok && db.rows == old(db.rows)[id := Row(token.value, db.now + config.lease / 1_000_000)]
              else outcome == TakenOver && db.rows == old(db.rows)
    {
      var affected := db.UpdateOwned(id, token.value, db.now + Lease(config));
      outcome := if affected == 1 then Ok else TakenOver;
    }

    /** Stops the worker. The heartbeat, which may be in the middle of a claim, runs to its end
        between the two halves, so the row given back is the one held then. */
    method BeginClose() returns (first: bool)
      modifies this`alive, this`closed
      ensures first == !old(closed)
      ensures forall renewed, pc ::
                At(renewed, pc) ==
                  if first then old(At(renewed, pc)).(closed := true, alive := false) else old(At(renewed, pc))
    {
      first := !closed;
      if first {
        closed := true;
        alive := false;
      }
    }

    method EndClose(db: Database)
      modifies db`rows
      ensures db.rows == if !fixed && token.Some? && id in old(db.rows) && old(db.rows)[id].token == token.value
                         then old(db.rows)[id := Row(token.value, 0)] else old(db.rows)
    {
      if !fixed && token.Some? {
        var _ := db.UpdateOwned(id, token.value, 0);
      }
    }
  }
}
