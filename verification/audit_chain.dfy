/** The audit log of one tenant: a hash chain and its head. */
module AuditChain {
  // The head only advances by compare-and-set. The digest is a parameter; nothing is assumed of it
  // unless a lemma says so.

  import opened WorkflowDef

  type Hash = string

  datatype Row = Row(id: string, tenant: string, principal: string, eventType: string, targetType: string,
                     targetId: string, outcome: string, ip: string, agent: string, detail: string, createdAt: int,
                     sequence: int, previousHash: Hash, eventHash: Hash)

  /** The digest of an encoded row; the row's own hash is not part of what is encoded. */
  type Digest = Row -> Hash

  function HashOf(sha: Digest, r: Row): Hash {
    sha(r.(eventHash := ""))
  }

  /** The rows of a tenant by sequence, which a unique index keeps apart. */
  type Table = map<int, Row>

  predicate Keyed(t: Table) {
    forall k | k in t :: t[k].sequence == k
  }

  /** The rows with 0 < sequence <= n in order. */
  function UpTo(t: Table, n: int): (rows: seq<Row>)
    ensures |rows| <= if n >= 0 then n else 0
    decreases n
  {
    if n <= 0 then [] else UpTo(t, n - 1) + if n in t then [t[n]] else []
  }

  function LastHash(rows: seq<Row>): Hash {
    if rows == [] then "" else rows[|rows| - 1].eventHash
  }

  predicate Link(sha: Digest, previous: Hash, row: Row, k: int) {
    row.sequence == k && row.previousHash == previous && row.eventHash == HashOf(sha, row)
  }

  /** Numbered from 1, each row linked to the one before, the first to the empty hash. */
  predicate Linked(sha: Digest, rows: seq<Row>) {
    rows == [] || (Linked(sha, rows[..|rows| - 1]) && Link(sha, LastHash(rows[..|rows| - 1]), rows[|rows| - 1], |rows|))
  }

  datatype Integrity = Integrity(valid: bool, verified: nat, headSequence: int, headHash: Hash)

  /** The verdict of one scan over all the rows up to `max`. */
  function Scan(sha: Digest, rows: seq<Row>, max: int): Integrity {
    if Linked(sha, rows) then Integrity(max == |rows|, |rows|, max, LastHash(rows)) else Integrity(false, 0, max, "")
  }

  predicate Accepts(sha: Digest, t: Table, n: int, hash: Hash) {
    var r := Scan(sha, UpTo(t, n), n);
    r.valid && r.headHash == hash
  }

  /** Row `k` has that number, the digest of its own fields, and the hash of the row before it; the first has
      the empty text there. */
  ghost predicate RowFits(sha: Digest, t: Table, k: int) {
    && k in t && t[k].sequence == k && t[k].eventHash == sha(t[k].(eventHash := ""))
    && (k == 1 ==> t[k].previousHash == "")
    && (k > 1 ==> k - 1 in t && t[k].previousHash == t[k - 1].eventHash)
  }

  lemma {:induction false} LinkedFully(sha: Digest, t: Table, n: nat)
    ensures |UpTo(t, n)| == n && Linked(sha, UpTo(t, n)) <==> forall k | 1 <= k <= n :: RowFits(sha, t, k)
    ensures n > 0 && |UpTo(t, n)| == n ==> n in t && LastHash(UpTo(t, n)) == t[n].eventHash
  {
    if n > 0 {
      LinkedFully(sha, t, n - 1);
      var rows := UpTo(t, n);
      if n in t {
        assert rows[..|rows| - 1] == UpTo(t, n - 1) && rows[|rows| - 1] == t[n];
        if |rows| == n && Linked(sha, UpTo(t, n - 1)) {
          assert RowFits(sha, t, n) <==> Link(sha, LastHash(UpTo(t, n - 1)), t[n], n);
        }
      } else {
        assert !RowFits(sha, t, n);
      }
    }
  }

  /** What a table must hold to verify at a head: row by row, without paging or scanning. */
  lemma AcceptsIff(sha: Digest, t: Table, n: nat, hash: Hash)
    ensures Accepts(sha, t, n, hash) <==>
              && (forall k | 1 <= k <= n :: RowFits(sha, t, k))
              && (n == 0 ==> hash == "") && (n > 0 ==> n in t && hash == t[n].eventHash)
  {
    LinkedFully(sha, t, n);
    if n > 0 && forall k | 1 <= k <= n :: RowFits(sha, t, k) {
      assert RowFits(sha, t, n);
    }
  }

  // ----- Tamper evidence -----

  lemma {:induction false} FullUpTo(t: Table, n: nat)
    requires |UpTo(t, n)| == n
    ensures forall i | 1 <= i <= n :: i in t && UpTo(t, n)[i - 1] == t[i]
  {
    if n > 0 {
      FullUpTo(t, n - 1);
    }
  }

  /** Two different encodings with one digest. */
  ghost predicate Collision(sha: Digest, a: Row, b: Row) {
    a.(eventHash := "") != b.(eventHash := "") && HashOf(sha, a) == HashOf(sha, b)
  }

  ghost predicate Agree(t: Table, u: Table, n: int) {
    forall i | 1 <= i <= n :: i in t && i in u && t[i] == u[i]
  }

  ghost predicate CollisionIn(sha: Digest, t: Table, u: Table, n: int) {
    exists i :: 1 <= i <= n && i in t && i in u && Collision(sha, t[i], u[i])
  }

  /** Two tables that verify at the same sequence with the same head hash agree field by field on
      every row, or exhibit a collision of the digest. */
  lemma {:induction false} TamperEvident(sha: Digest, t: Table, u: Table, n: nat, hash: Hash)
    requires Accepts(sha, t, n, hash) && Accepts(sha, u, n, hash)
    ensures Agree(t, u, n) || CollisionIn(sha, t, u, n)
  {
    if n > 0 {
      var a, b := UpTo(t, n), UpTo(u, n);
      FullUpTo(t, n);
      FullUpTo(u, n);
      assert a[..n - 1] == UpTo(t, n - 1) && b[..n - 1] == UpTo(u, n - 1);
      assert HashOf(sha, t[n]) == HashOf(sha, u[n]) == hash;
      if !Collision(sha, t[n], u[n]) {
        assert t[n] == u[n];
        TamperEvident(sha, t, u, n - 1, t[n].previousHash);
      }
    }
  }

  ghost predicate Injective(sha: Digest) {
    forall a, b | sha(a) == sha(b) :: a == b
  }

  lemma TamperProof(sha: Digest, t: Table, u: Table, n: nat, hash: Hash)
    requires Injective(sha) && Accepts(sha, t, n, hash) && Accepts(sha, u, n, hash)
    ensures Agree(t, u, n)
  {
    TamperEvident(sha, t, u, n, hash);
    hide Accepts;
    if i :| 1 <= i <= n && i in t && i in u && Collision(sha, t[i], u[i]) {
      assert sha(t[i].(eventHash := "")) == sha(u[i].(eventHash := ""));
    }
  }

  // ----- Appending -----

  datatype Head = Head(sequence: int, hash: Hash)

  datatype Log = Log(rows: Table, head: Option<Head>)

  function HeadOf(log: Log): Head {
    if log.head.Some? then log.head.value else Head(0, "")
  }

  /** The row an append builds on the head it read. */
  function NextRow(sha: Digest, read: Head, draft: Row): Row {
    var r := draft.(sequence := read.sequence + 1, previousHash := read.hash);
    r.(eventHash := HashOf(sha, r))
  }

  predicate HashTaken(t: Table, hash: Hash) {
    exists k :: k in t && t[k].eventHash == hash
  }

  /** Whether the insert and the compare-and-set of an append go through: no such sequence, no such
      hash, and the head still at the sequence that was read. */
  predicate CanCommit(sha: Digest, log: Log, read: Head, draft: Row) {
    && read.sequence + 1 !in log.rows
    && !HashTaken(log.rows, NextRow(sha, read, draft).eventHash)
    && HeadOf(log).sequence == read.sequence
  }

  /** The rows of a table have different hashes. */
  ghost predicate HashesDiffer(t: Table) {
    forall i, j | i in t && j in t && t[i].eventHash == t[j].eventHash :: i == j
  }

  /** An append goes through exactly if the row of its number is not there, no row has its hash, and the head
      has not moved; the hashes stay different. */
  lemma CommitIff(sha: Digest, log: Log, read: Head, draft: Row)
    ensures var row := NextRow(sha, read, draft);
            (row.sequence in Commit(sha, log, read, draft).rows && row.sequence !in log.rows) <==>
              && row.sequence !in log.rows && (forall k | k in log.rows :: log.rows[k].eventHash != row.eventHash)
              && (log.head.Some? ==> log.head.value.sequence == read.sequence)
              && (log.head.None? ==> read.sequence == 0)
    ensures HashesDiffer(log.rows) ==> HashesDiffer(Commit(sha, log, read, draft).rows)
  {
    hide HashOf;
  }

  /** An append with a head read earlier; one that cannot commit rolls back. */
  function Commit(sha: Digest, log: Log, read: Head, draft: Row): Log {
    if CanCommit(sha, log, read, draft) then
      var row := NextRow(sha, read, draft);
      Log(log.rows[row.sequence := row], Some(Head(row.sequence, row.eventHash)))
    else log
  }

  /** The rows are exactly 1..head, linked from the empty hash to the head's. */
  ghost predicate Good(sha: Digest, log: Log) {
    var h := HeadOf(log);
    && h.sequence >= 0 && Keyed(log.rows)
    && (forall k :: k in log.rows <==> 1 <= k <= h.sequence)
    && Linked(sha, UpTo(log.rows, h.sequence)) && LastHash(UpTo(log.rows, h.sequence)) == h.hash
  }

  lemma {:induction false} SameUpTo(t: Table, u: Table, n: int)
    requires forall k | 1 <= k <= n :: (k in t <==> k in u) && (k in t ==> t[k] == u[k])
    ensures UpTo(t, n) == UpTo(u, n)
    decreases n
  {
    if n > 0 {
      SameUpTo(t, u, n - 1);
    }
  }

  lemma {:induction false} FullLength(t: Table, n: nat)
    requires forall k | 1 <= k <= n :: k in t
    ensures |UpTo(t, n)| == n
  {
    if n > 0 {
      FullLength(t, n - 1);
    }
  }

  /** A good log verifies at its head, and at every earlier sequence with that row's hash. */
  lemma GoodAccepts(sha: Digest, log: Log)
    requires Good(sha, log)
    ensures Accepts(sha, log.rows, HeadOf(log).sequence, HeadOf(log).hash)
  {
    FullLength(log.rows, HeadOf(log).sequence);
  }

  lemma {:induction false} PrefixAccepts(sha: Digest, t: Table, n: nat, hash: Hash, m: nat)
    requires Accepts(sha, t, n, hash) && 1 <= m <= n
    ensures m in t && Accepts(sha, t, m, t[m].eventHash)
    decreases n
  {
    AcceptsLast(sha, t, n, hash);
    hide Accepts;
    if m < n {
      PrefixAccepts(sha, t, n - 1, t[n].previousHash, m);
    }
  }

  /** What is accepted up to a row is accepted up to the row before. */
  lemma AcceptsLast(sha: Digest, t: Table, n: nat, hash: Hash)
    requires n >= 1 && Accepts(sha, t, n, hash)
    ensures n in t && t[n].eventHash == hash
    ensures n > 1 ==> Accepts(sha, t, n - 1, t[n].previousHash)
  {
    FullUpTo(t, n);
    assert UpTo(t, n)[..n - 1] == UpTo(t, n - 1);
    hide HashOf;
  }

  lemma CommitKeeps(sha: Digest, log: Log, read: Head, draft: Row)
    requires Good(sha, log) && (read.sequence == HeadOf(log).sequence ==> read == HeadOf(log))
    ensures Good(sha, Commit(sha, log, read, draft))
  {
    if CanCommit(sha, log, read, draft) {
      var log' := Commit(sha, log, read, draft);
      var n := HeadOf(log).sequence;
      var row := NextRow(sha, read, draft);
      FullLength(log.rows, n);
      SameUpTo(log.rows, log'.rows, n);
      var rows := UpTo(log'.rows, n + 1);
      assert rows == UpTo(log.rows, n) + [row];
      assert rows[..|rows| - 1] == UpTo(log.rows, n);
      assert row.eventHash == HashOf(sha, row);
    }
  }

  // ----- Interleaved transactions -----

  datatype Action = Read(tx: nat) | Write(tx: nat, draft: Row) | Abort(tx: nat)

  datatype State = State(log: Log, seen: map<nat, Head>)

  function Do(sha: Digest, s: State, a: Action): State {
    match a
    case Read(tx) => s.(seen := s.seen[tx := HeadOf(s.log)])
    case Write(tx, draft) =>
      if tx in s.seen then State(Commit(sha, s.log, s.seen[tx], draft), s.seen - {tx}) else s
    case Abort(tx) => s.(seen := s.seen - {tx})
  }

  function DoAll(sha: Digest, s: State, actions: seq<Action>): State {
    if actions == [] then s else Do(sha, DoAll(sha, s, actions[..|actions| - 1]), actions[|actions| - 1])
  }

  /** A head read earlier is behind, or still the head. */
  ghost predicate Inv(sha: Digest, s: State) {
    && Good(sha, s.log)
    && forall tx | tx in s.seen ::
         s.seen[tx].sequence <= HeadOf(s.log).sequence
         && (s.seen[tx].sequence == HeadOf(s.log).sequence ==> s.seen[tx] == HeadOf(s.log))
  }

  lemma DoKeeps(sha: Digest, s: State, a: Action)
    requires Inv(sha, s)
    ensures Inv(sha, Do(sha, s, a))
    ensures Extends(s.log, Do(sha, s, a).log)
  {
    hide Linked, UpTo;
    if a.Write? && a.tx in s.seen {
      CommitKeeps(sha, s.log, s.seen[a.tx], a.draft);
    }
  }

  /** Rows are only added. */
  ghost predicate Extends(a: Log, b: Log) {
    HeadOf(a).sequence <= HeadOf(b).sequence && forall k | k in a.rows :: k in b.rows && b.rows[k] == a.rows[k]
  }

  /** Over any interleaving of append transactions, with stale reads and aborts: the rows of the tenant
      are exactly 1..head, linked from the empty hash, and no row ever changes. */
  lemma {:induction false} AppendsKeepChain(sha: Digest, s: State, actions: seq<Action>)
    requires Inv(sha, s)
    ensures Inv(sha, DoAll(sha, s, actions)) && Extends(s.log, DoAll(sha, s, actions).log)
  {
    hide Inv, Do;
    if actions != [] {
      AppendsKeepChain(sha, s, actions[..|actions| - 1]);
      DoKeeps(sha, DoAll(sha, s, actions[..|actions| - 1]), actions[|actions| - 1]);
    }
  }

  /** What that means for the rows: they are those numbered 1 to the head, and each fits the one before. */
  lemma GoodRows(sha: Digest, log: Log)
    requires Good(sha, log)
    ensures var h := HeadOf(log);
            && (forall k :: k in log.rows <==> 1 <= k <= h.sequence)
            && (forall k | k in log.rows :: RowFits(sha, log.rows, k))
            && (if h.sequence == 0 then h.hash == "" else h.hash == log.rows[h.sequence].eventHash)
  {
    GoodAccepts(sha, log);
    AcceptsIff(sha, log.rows, HeadOf(log).sequence, HeadOf(log).hash);
  }

  lemma EmptyIsGood(sha: Digest)
    ensures Inv(sha, State(Log(map[], None), map[]))
  {
    assert UpTo(map[], 0) == [];
  }

  /** A head read at some moment verifies against any later table. */
  lemma LaterAccepts(sha: Digest, a: Log, b: Log)
    requires Good(sha, a) && Good(sha, b) && Extends(a, b)
    ensures UpTo(b.rows, HeadOf(a).sequence) == UpTo(a.rows, HeadOf(a).sequence)
    ensures Accepts(sha, b.rows, HeadOf(a).sequence, HeadOf(a).hash)
  {
    SameUpTo(a.rows, b.rows, HeadOf(a).sequence);
    GoodAccepts(sha, a);
  }
}
