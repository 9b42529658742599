/** A distributed lock: one row per name, one atomic step per statement. */
module DLock {
  // A table and the leases in it are in milliseconds of the database clock; durations of a lock are
  // nanoseconds, and its last renewal is a millisecond stamp of its own clock.

  import opened Clock

  type Name = string
  type Owner = string

  datatype Row = Row(owner: Owner, expires: int)

  datatype Table = Table(rows: map<Name, Row>, now: int)

  /** An acquisition is Ensure then Take; Refresh is Extend; Unlock is Drop. `ttl` is the lease of
      the locker that issues the statement. */
  datatype Statement =
    | Pass(millis: nat)
    | Ensure(name: Name)
    | Take(name: Name, owner: Owner, ttl: nat)
    | Extend(name: Name, owner: Owner, ttl: nat)
    | Drop(name: Name, owner: Owner)

  predicate Held(t: Table, name: Name, owner: Owner) {
    name in t.rows && t.rows[name].owner == owner
  }

  predicate Free(t: Table, name: Name) {
    name in t.rows && t.rows[name].expires < t.now
  }

  function Apply(t: Table, st: Statement): Table {
    match st
    case Pass(millis) => t.(now := t.now + millis)
    case Ensure(name) => if name in t.rows then t else t.(rows := t.rows[name := Row("", 0)])
    case Take(name, owner, ttl) =>
      if Free(t, name) || Held(t, name, owner) then t.(rows := t.rows[name := Row(owner, t.now + ttl)]) else t
    case Extend(name, owner, ttl) => if Held(t, name, owner) then t.(rows := t.rows[name := Row(owner, t.now + ttl)])
      else t
    case Drop(name, owner) => if Held(t, name, owner) then t.(rows := t.rows[name := Row("", 0)]) else t
  }

  /** The rows affected, which is what a caller learns. */
  function Affected(t: Table, st: Statement): nat {
    match st
    case Take(name, owner, _) => if Free(t, name) || Held(t, name, owner) then 1 else 0
    case Extend(name, owner, _) => if Held(t, name, owner) then 1 else 0
    case Drop(name, owner) => if Held(t, name, owner) then 1 else 0
    case _ => 0
  }

  function ApplyAll(t: Table, history: seq<Statement>): Table {
    if history == [] then t
    else Apply(ApplyAll(t, history[..|history| - 1]), history[|history| - 1])
  }

  /** An owner token belongs to one lock, and its lease length is fixed. The empty owner is nobody. */
  predicate WellOwned(st: Statement, lease: map<Owner, nat>) {
    match st
    case Take(_, owner, ttl) => owner != "" && owner in lease && lease[owner] == ttl
    case Extend(_, owner, ttl) => owner != "" && owner in lease && lease[owner] == ttl
    case Drop(_, owner) => owner != ""
    case _ => true
  }

  ghost predicate AllOwned(history: seq<Statement>, lease: map<Owner, nat>) {
    forall i | 0 <= i < |history| :: WellOwned(history[i], lease)
  }

  /** No lease runs longer than its owner's, and an unowned row has expired. */
  ghost predicate Bounded(t: Table, lease: map<Owner, nat>) {
    && t.now > 0
    && forall n | n in t.rows ::
         var r := t.rows[n];
         if r.owner == "" then r.expires <= 0 else r.owner in lease && r.expires <= t.now + lease[r.owner]
  }

  lemma {:induction false} BoundedAlways(t: Table, history: seq<Statement>, lease: map<Owner, nat>)
    requires Bounded(t, lease) && AllOwned(history, lease)
    ensures Bounded(ApplyAll(t, history), lease) && ApplyAll(t, history).now >= t.now
  {
    if history != [] {
      var m := |history| - 1;
      BoundedAlways(t, history[..m], lease);
      assert WellOwned(history[m], lease);
    }
  }

  /** `o` unlocks `name` somewhere in the history. */
  ghost predicate Unlocks(history: seq<Statement>, name: Name, o: Owner) {
    exists i :: 0 <= i < |history| && history[i] == Drop(name, o)
  }

  /** Over any interleaving of any owners' statements, a held row stays with its owner, with an expiry
      that never moves earlier, until the lease has run out or the owner unlocks. */
  lemma {:induction false} LeaseLasts(t: Table, history: seq<Statement>, lease: map<Owner, nat>, name: Name, o: Owner)
    requires Bounded(t, lease) && AllOwned(history, lease) && o != "" && Held(t, name, o)
    requires !Unlocks(history, name, o)
    ensures var t' := ApplyAll(t, history);
            (Held(t', name, o) && t'.rows[name].expires >= t.rows[name].expires) || t'.now > t.rows[name].expires
  {
    if history != [] {
      var m := |history| - 1;
      var before := history[..m];
      BoundedAlways(t, before, lease);
      assert WellOwned(history[m], lease) && history[m] != Drop(name, o);
      assert forall i | 0 <= i < m :: before[i] == history[i];
      LeaseLasts(t, before, lease, name, o);
    }
  }

  /** After `o` acquires or refreshes at time u, nobody else acquires before u + ttl has passed,
      unless `o` unlocks. */
  lemma Exclusive(t: Table, mine: Statement, history: seq<Statement>, theirs: Statement, lease: map<Owner, nat>)
    requires Bounded(t, lease) && AllOwned([mine] + history + [theirs], lease)
    requires (mine.Take? || mine.Extend?) && Affected(t, mine) == 1
    requires theirs.Take? && theirs.name == mine.name && theirs.owner != mine.owner
    requires !Unlocks(history, mine.name, mine.owner)
    requires Affected(ApplyAll(Apply(t, mine), history), theirs) == 1
    ensures ApplyAll(Apply(t, mine), history).now > t.now + mine.ttl
  {
    var all := [mine] + history + [theirs];
    assert WellOwned(all[0], lease);
    assert forall i | 0 <= i < |history| :: history[i] == all[i + 1];
    BoundedAlways(t, [mine], lease);
    assert ApplyAll(t, [mine]) == Apply(t, mine) by {
      assert [mine][..0] == [];
    }
    LeaseLasts(Apply(t, mine), history, lease, mine.name, mine.owner);
  }

  /** A holder that lost the row changes nothing by refreshing or unlocking, and learns it from a
      refresh. */
  lemma LoserIsHarmless(t: Table, name: Name, o: Owner, ttl: nat)
    requires !Held(t, name, o)
    ensures Apply(t, Extend(name, o, ttl)) == t && Affected(t, Extend(name, o, ttl)) == 0
    ensures Apply(t, Drop(name, o)) == t
  {
  }

  /** Anyone can acquire a name that was never locked, was unlocked, or whose lease ran out, whatever
      others do between the two statements short of taking it. */
  lemma {:induction false} FreeCanBeTaken(t: Table, name: Name, o: Owner, ttl: nat, others: seq<Statement>,
                                          lease: map<Owner, nat>)
    requires Bounded(t, lease) && (name !in t.rows || Free(t, name))
    requires forall i | 0 <= i < |others| ::
               !(others[i].Take? && others[i].name == name) && !(others[i].Extend? && others[i].name == name)
    ensures var t1 := ApplyAll(Apply(t, Ensure(name)), others);
            && Free(t1, name) && Affected(t1, Take(name, o, ttl)) == 1
            && Held(Apply(t1, Take(name, o, ttl)), name, o)
  {
    StaysFree(Apply(t, Ensure(name)), name, others);
  }

  lemma {:induction false} StaysFree(t: Table, name: Name, others: seq<Statement>)
    requires t.now > 0 && Free(t, name)
    requires forall i | 0 <= i < |others| ::
               !(others[i].Take? && others[i].name == name) && !(others[i].Extend? && others[i].name == name)
    ensures Free(ApplyAll(t, others), name) && ApplyAll(t, others).now > 0
  {
    if others != [] {
      var m := |others| - 1;
      assert forall i | 0 <= i < m :: others[..m][i] == others[i];
      StaysFree(t, name, others[..m]);
    }
  }

  // ----- The locker and the lock -----

  class Database {
    var rows: map<Name, Row>
    var now: int

    constructor ()
      ensures rows == map[] && now == 1
    {
      rows, now := map[], 1;
    }

    function Contents(): Table
      reads this
    {
      Table(rows, now)
    }

    method Execute(st: Statement) returns (affected: nat)
      modifies this
      ensures Contents() == Apply(old(Contents()), st) && affected == Affected(old(Contents()), st)
    {
      affected := 0;
      match st
      case Pass(millis) =>
        now := now + millis;
      case Ensure(name) =>
        if name !in rows {
          rows := rows[name := Row("", 0)];
        }
      case Take(name, owner, ttl) =>
        if name in rows && (rows[name].expires < now || rows[name].owner == owner) {
          rows := rows[name := Row(owner, now + ttl)];
          affected := 1;
        }
      case Extend(name, owner, ttl) =>
        if name in rows && rows[name].owner == owner {
          rows := rows[name := Row(owner, now + ttl)];
          affected := 1;
        }
      case Drop(name, owner) =>
        if name in rows && rows[name].owner == owner {
          rows := rows[name := Row("", 0)];
          affected := 1;
        }
    }

    method ExecuteAll(others: seq<Statement>)
      modifies this
      ensures Contents() == ApplyAll(old(Contents()), others)
    {
      for i := 0 to |others|
        invariant Contents() == ApplyAll(old(Contents()), others[..i])
      {
        assert others[..i + 1][..i] == others[..i];
        var _ := Execute(others[i]);
      }
      assert others[..|others|] == others;
    }

    /** The two-step take, with others acting in between: it succeeds exactly when the row is free or
        already ours at the second step, and then it is ours for a whole lease. */
    method Acquire(name: Name, owner: Owner, ttl: nat, others: seq<Statement>) returns (ok: bool, ghost before: Table)
      modifies this
      ensures before == ApplyAll(Apply(old(Contents()), Ensure(name)), others)
      ensures ok <==> Free(before, name) || Held(before, name, owner)
      ensures ok ==> Contents() == before.(rows := before.rows[name := Row(owner, before.now + ttl)])
      ensures !ok ==> Contents() == before
    {
      var _ := Execute(Ensure(name));
      ExecuteAll(others);
      before := Contents();
      var affected := Execute(Take(name, owner, ttl));
      ok := affected == 1;
    }
  }

  datatype Outcome = Ok | NotAcquired | Error

  class Lock {
    const name: Name
    const owner: Owner
    const ttl: nat
    const maxHold: nat
    var alive: bool
    var lastRenew: int
    var closed: bool

    constructor (name: Name, owner: Owner, ttl: nat, maxHold: nat, stamp: int)
      ensures this.name == name && this.owner == owner && this.ttl == ttl && this.maxHold == maxHold
      ensures alive && !closed && lastRenew == stamp
    {
      this.name, this.owner, this.ttl, this.maxHold := name, owner, ttl, maxHold;
      alive, lastRenew, closed := true, stamp, false;
    }

    method Refresh(db: Database) returns (outcome: Outcome)
      modifies db
      ensures db.now == old(db.now)
      ensures if name in old(db.rows) && old(db.rows)[name].owner == owner
              then outcome == Ok && db.rows == old(db.rows)[name := Row(owner, db.now + ttl / 1_000_000)]
              else outcome == NotAcquired && db.rows == old(db.rows)
    {
      var affected := db.Execute(Extend(name, owner, WholeMillis(ttl)));
      outcome := if affected == 1 then Ok else NotAcquired;
    }

    /** What a keep-alive tick makes of the outcome of its refresh: `held` since the acquisition when it
        started, and answered at `stamp`. */
    method Ticked(outcome: Outcome, held: int, stamp: int) returns (done: bool)
      modifies this`alive, this`lastRenew
      ensures done == TickEnds(ttl, maxHold, old(lastRenew), outcome, held, stamp)
      ensures alive == (old(alive) && !done)
      ensures lastRenew == if outcome.Ok? && !done then stamp else old(lastRenew)
    {
      if maxHold > 0 && held >= maxHold {
        alive := false;
        return true;
      }
      match outcome
      case Ok =>
        lastRenew := stamp;
        done := false;
      case NotAcquired =>
        alive := false;
        done := true;
      case Error =>
        done := stamp - lastRenew >= WholeMillis(ttl - ttl / 3);
        if done {
          alive := false;
        }
    }

    method Unlock(db: Database)
      modifies this`alive, this`closed, db
      ensures closed && (!old(closed) ==> !alive)
      ensures db.Contents() == if old(closed) then old(db.Contents()) else Apply(old(db.Contents()), Drop(name, owner))
    {
      if closed {
        return;
      }
      closed := true;
      alive := false;
      var _ := db.Execute(Drop(name, owner));
    }
  }

  /** Whether a keep-alive tick is the last. */
  predicate TickEnds(ttl: nat, maxHold: nat, lastRenew: int, outcome: Outcome, held: int, stamp: int) {
    || (maxHold > 0 && held >= maxHold)
    || outcome.NotAcquired?
    || (outcome.Error? && stamp - lastRenew >= (ttl - ttl / 3) / 1_000_000)
  }
}
