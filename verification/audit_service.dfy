/** The audit service statement by statement, others committing in between. */
module AuditService {
  import opened WorkflowDef
  import opened AuditChain
  import opened Text

  const BATCH: nat := 500

  datatype Input = Input(tenant: string, principal: string, eventType: string, targetType: string, targetId: string,
                         outcome: string, ip: string, agent: string)

  predicate InputOk(i: Input) {
    && !Blank(i.tenant) && Bytes(i.tenant) <= 128 && !Blank(i.eventType) && Bytes(i.eventType) <= 64
    && (i.outcome == "success" || i.outcome == "denied" || i.outcome == "failure")
    && Bytes(i.principal) <= 64 && Bytes(i.targetType) <= 64 && Bytes(i.targetId) <= 128 && Bytes(i.ip) <= 64
       && Bytes(i.agent) <= 512
  }

  function Draft(i: Input, detail: string, id: string, now: int): Row {
    Row(id, i.tenant, i.principal, i.eventType, i.targetType, i.targetId, i.outcome, i.ip, i.agent,
        if detail == "null" then "{}" else detail, now, 0, "", "")
  }

  /** What the log refuses to record: an unknown outcome, no tenant or event type, or a text over its limit. */
  predicate Unrecordable(i: Input) {
    || i.outcome !in {"success", "denied", "failure"}
    || Blank(i.tenant) || Blank(i.eventType)
    || exists limit :: limit in {(i.tenant, 128), (i.eventType, 64), (i.principal, 64), (i.targetType, 64),
                                 (i.targetId, 128), (i.ip, 64), (i.agent, 512)} && Bytes(limit.0) > limit.1
  }

  lemma UnrecordableIff(i: Input)
    ensures Unrecordable(i) <==> !InputOk(i)
  {
    var limits := {(i.tenant, 128), (i.eventType, 64), (i.principal, 64), (i.targetType, 64), (i.targetId, 128),
                   (i.ip, 64), (i.agent, 512)};
    assert (i.tenant, 128) in limits && (i.eventType, 64) in limits && (i.principal, 64) in limits;
    assert (i.targetType, 64) in limits && (i.targetId, 128) in limits && (i.ip, 64) in limits
           && (i.agent, 512) in limits;
  }

  /** A row records what was reported, field by field. */
  predicate Records(r: Row, i: Input, detail: string, id: string, now: int) {
    && r.id == id && r.createdAt == now && r.tenant == i.tenant && r.principal == i.principal
    && r.eventType == i.eventType && r.targetType == i.targetType && r.targetId == i.targetId
    && r.outcome == i.outcome && r.ip == i.ip && r.agent == i.agent
    && (detail == "null" ==> r.detail == "{}") && (detail != "null" ==> r.detail == detail)
  }

  /** A row has the number and the link that follow the head of its tenant. */
  predicate Numbered(logs: Logs, r: Row) {
    if r.tenant in logs && logs[r.tenant].head.Some? then
      r.sequence == logs[r.tenant].head.value.sequence + 1 && r.previousHash == logs[r.tenant].head.value.hash
    else r.sequence == 1 && r.previousHash == ""
  }

  /** A row is the last of its tenant's, under its own number, with the digest of its other fields. */
  predicate Recorded(sha: Digest, logs: Logs, r: Row) {
    && r.tenant in logs && logs[r.tenant].head == Some(Head(r.sequence, r.eventHash))
    && r.sequence in logs[r.tenant].rows && logs[r.tenant].rows[r.sequence] == r
    && r.eventHash == sha(r.(eventHash := ""))
  }

  lemma AppendedRow(sha: Digest, logs: Logs, mid: Logs, i: Input, detail: string, id: string, now: int)
    requires RowsKept(logs, mid)
    requires CanCommit(sha, LogIn(mid, i.tenant), HeadOf(LogIn(logs, i.tenant)), Draft(i, detail, id, now))
    ensures var read, draft := HeadOf(LogIn(logs, i.tenant)), Draft(i, detail, id, now);
            var row, last := NextRow(sha, read, draft), mid[i.tenant := Commit(sha, LogIn(mid, i.tenant), read, draft)];
            && Records(row, i, detail, id, now) && Numbered(logs, row) && Recorded(sha, last, row)
            && RowsKept(logs, last)
  {
    CommitsKeepRows(sha, mid, i.tenant, HeadOf(LogIn(logs, i.tenant)), Draft(i, detail, id, now));
  }

  /** No row of any tenant is removed or changed. */
  ghost predicate RowsKept(a: Logs, b: Logs) {
    forall t, k | t in a && k in a[t].rows :: t in b && k in b[t].rows && b[t].rows[k] == a[t].rows[k]
  }

  /** An append leaves every other tenant alone. */
  lemma CommitsKeepRows(sha: Digest, logs: Logs, tenant: string, read: Head, draft: Row)
    ensures RowsKept(logs, logs[tenant := Commit(sha, LogIn(logs, tenant), read, draft)])
  {
  }

  lemma {:induction false} OthersKeepRows(sha: Digest, logs: Logs, others: seq<Other>)
    ensures RowsKept(logs, AfterOthers(sha, logs, others))
  {
    if others != [] {
      OthersKeepRows(sha, logs, others[..|others| - 1]);
      var o := others[|others| - 1];
      CommitsKeepRows(sha, AfterOthers(sha, logs, others[..|others| - 1]), o.tenant, o.read, o.draft);
    }
  }

  // ----- What other transactions do meanwhile -----

  type Logs = map<string, Log>

  function LogIn(logs: Logs, tenant: string): Log {
    if tenant in logs then logs[tenant] else Log(map[], None)
  }

  /** Another append that commits now, if it can, on a head it read at some time. */
  datatype Other = Other(tenant: string, read: Head, draft: Row)

  function AfterOthers(sha: Digest, logs: Logs, others: seq<Other>): Logs {
    if others == [] then logs
    else
      var before := AfterOthers(sha, logs, others[..|others| - 1]);
      var o := others[|others| - 1];
      before[o.tenant := Commit(sha, LogIn(before, o.tenant), o.read, o.draft)]
  }

  /** After the first `k` batches. */
  function AfterBatches(sha: Digest, logs: Logs, batches: seq<seq<Other>>, k: nat): Logs {
    if k == 0 then logs
    else
      var before := AfterBatches(sha, logs, batches, k - 1);
      if k <= |batches| then AfterOthers(sha, before, batches[k - 1]) else before
  }

  function RowsUpTo(logs: Logs, tenant: string, max: int): seq<Row> {
    UpTo(LogIn(logs, tenant).rows, max)
  }

  /** No append touches the rows up to `max` of the tenant. */
  ghost predicate Undisturbed(sha: Digest, logs: Logs, batches: seq<seq<Other>>, tenant: string, max: int) {
    forall k: nat :: RowsUpTo(AfterBatches(sha, logs, batches, k), tenant, max) == RowsUpTo(logs, tenant, max)
  }

  lemma {:induction false} OthersBeyond(sha: Digest, logs: Logs, others: seq<Other>, tenant: string, max: int)
    requires max <= HeadOf(LogIn(logs, tenant)).sequence
    ensures var logs' := AfterOthers(sha, logs, others);
            RowsUpTo(logs', tenant, max) == RowsUpTo(logs, tenant, max) && max <= HeadOf(LogIn(logs', tenant)).sequence
  {
    if others != [] {
      OthersBeyond(sha, logs, others[..|others| - 1], tenant, max);
      var before := AfterOthers(sha, logs, others[..|others| - 1]);
      var o := others[|others| - 1];
      SameUpTo(LogIn(before, tenant).rows, LogIn(AfterOthers(sha, logs, others), tenant).rows, max);
    }
  }

  /** Appends never disturb the rows up to a head that has been read, tampered with or not. */
  lemma {:induction false} ReadHeadUndisturbed(sha: Digest, logs: Logs, batches: seq<seq<Other>>, tenant: string,
                                               max: int, k: nat)
    requires max <= HeadOf(LogIn(logs, tenant)).sequence
    ensures var logs' := AfterBatches(sha, logs, batches, k);
            RowsUpTo(logs', tenant, max) == RowsUpTo(logs, tenant, max) && max <= HeadOf(LogIn(logs', tenant)).sequence
  {
    if k > 0 {
      ReadHeadUndisturbed(sha, logs, batches, tenant, max, k - 1);
      if k <= |batches| {
        OthersBeyond(sha, AfterBatches(sha, logs, batches, k - 1), batches[k - 1], tenant, max);
      }
    }
  }

  // ----- Pages -----

  function Min(a: int, b: int): int {
    if a < b then a else b
  }

  /** OFFSET and LIMIT. */
  function Page(rows: seq<Row>, offset: nat): seq<Row> {
    if offset >= |rows| then [] else rows[offset..Min(offset + BATCH, |rows|)]
  }

  lemma {:induction false} LinkedPrefix(sha: Digest, rows: seq<Row>, k: nat)
    requires k <= |rows| && Linked(sha, rows)
    ensures Linked(sha, rows[..k])
    decreases |rows|
  {
    if k == |rows| {
      assert rows[..k] == rows;
    } else {
      assert rows[..|rows| - 1][..k] == rows[..k];
      LinkedPrefix(sha, rows[..|rows| - 1], k);
    }
  }

  lemma NoBatches(sha: Digest, logs: Logs, batches: seq<seq<Other>>)
    ensures AfterBatches(sha, logs, batches, 0) == logs
  {
  }

  lemma LinkedNone(sha: Digest, rows: seq<Row>)
    ensures Linked(sha, rows[..0]) && LastHash(rows[..0]) == ""
  {
  }

  predicate LinkAt(sha: Digest, rows: seq<Row>, k: nat)
    requires k < |rows|
  {
    Link(sha, LastHash(rows[..k]), rows[k], k + 1)
  }

  lemma {:induction false} LinkedIff(sha: Digest, rows: seq<Row>, n: nat)
    requires n <= |rows|
    ensures Linked(sha, rows[..n]) <==> forall k | 0 <= k < n :: LinkAt(sha, rows, k)
  {
    hide Link;
    if n > 0 {
      LinkedIff(sha, rows, n - 1);
      assert rows[..n][..n - 1] == rows[..n - 1];
      assert Linked(sha, rows[..n]) <==> Linked(sha, rows[..n - 1]) && LinkAt(sha, rows, n - 1);
    }
  }

  /** Checking a page that follows a linked stretch decides whether the stretch with it is linked. */
  lemma PageLinks(sha: Digest, all: seq<Row>, offset: nat, n: nat, ok: bool)
    requires offset + n <= |all| && Linked(sha, all[..offset])
    requires ok <==> forall k | offset <= k < offset + n :: LinkAt(sha, all, k)
    ensures if ok then Linked(sha, all[..offset + n]) else !Linked(sha, all)
  {
    hide Linked, LinkAt;
    LinkedIff(sha, all, offset);
    LinkedIff(sha, all, offset + n);
    LinkedIff(sha, all, |all|);
    assert all[..|all|] == all;
  }

  // ----- Filters -----

  datatype Filter = Filter(principal: string, eventType: string, outcome: string, targetType: string, targetId: string,
                           since: Option<int>, before: Option<int>)

  predicate Matches(f: Filter, r: Row) {
    && (f.principal != "" ==> r.principal == f.principal)
    && (f.eventType != "" ==> r.eventType == f.eventType)
    && (f.outcome != "" ==> r.outcome == f.outcome)
    && (f.targetType != "" ==> r.targetType == f.targetType)
    && (f.targetId != "" ==> r.targetId == f.targetId)
    && (f.since.Some? ==> r.createdAt >= f.since.value)
    && (f.before.Some? ==> r.createdAt < f.before.value)
  }

  /** What a filter leaves out: another value in a field it names, anything before `since`, and anything not
      before `before`. */
  predicate Excluded(f: Filter, r: Row) {
    || (f.principal != "" && r.principal != f.principal)
    || (f.eventType != "" && r.eventType != f.eventType)
    || (f.outcome != "" && r.outcome != f.outcome)
    || (f.targetType != "" && r.targetType != f.targetType)
    || (f.targetId != "" && r.targetId != f.targetId)
    || (f.since.Some? && r.createdAt < f.since.value)
    || (f.before.Some? && r.createdAt >= f.before.value)
  }

  /** Which rows of a table are to be exported. */
  predicate Wanted(t: Table, head: int, f: Filter, r: Row) {
    1 <= r.sequence <= head && r.sequence in t && t[r.sequence] == r && !Excluded(f, r)
  }

  lemma {:induction false} UpToHolds(t: Table, n: int, r: Row)
    requires Keyed(t)
    ensures r in UpTo(t, n) <==> 1 <= r.sequence <= n && r.sequence in t && t[r.sequence] == r
    decreases n
  {
    if n > 0 {
      UpToHolds(t, n - 1, r);
    }
  }

  lemma MatchingIsWanted(t: Table, head: int, f: Filter)
    requires Keyed(t)
    ensures forall r :: r in Matching(f, UpTo(t, head)) <==> Wanted(t, head, f, r)
  {
    UpToIncreasing(t, head);
    MatchingIncreasing(f, UpTo(t, head));
    forall r
      ensures r in UpTo(t, head) && Matches(f, r) <==> Wanted(t, head, f, r)
    {
      UpToHolds(t, head, r);
    }
  }

  function Matching(f: Filter, rows: seq<Row>): seq<Row> {
    if rows == [] then []
    else Matching(f, rows[..|rows| - 1]) + if Matches(f, rows[|rows| - 1]) then [rows[|rows| - 1]] else []
  }

  /** The rows with a sequence above the cursor. */
  function Above(rows: seq<Row>, cursor: int): seq<Row> {
    if rows == [] then []
    else Above(rows[..|rows| - 1], cursor) + if rows[|rows| - 1].sequence > cursor then [rows[|rows| - 1]] else []
  }

  ghost predicate Increasing(rows: seq<Row>) {
    forall i, j | 0 <= i < j < |rows| :: rows[i].sequence < rows[j].sequence
  }

  lemma {:induction false} UpToIncreasing(t: Table, n: int)
    requires Keyed(t)
    ensures Increasing(UpTo(t, n)) && forall r | r in UpTo(t, n) :: 1 <= r.sequence <= n
    decreases n
  {
    if n > 0 {
      UpToIncreasing(t, n - 1);
      var rest := UpTo(t, n - 1);
      assert forall i | 0 <= i < |rest| :: rest[i] in rest;
    }
  }

  lemma {:induction false} MatchingIncreasing(f: Filter, rows: seq<Row>)
    requires Increasing(rows)
    ensures Increasing(Matching(f, rows)) && forall r :: r in Matching(f, rows) <==> r in rows && Matches(f, r)
  {
    if rows != [] {
      var m := |rows| - 1;
      MatchingIncreasing(f, rows[..m]);
      var rest := Matching(f, rows[..m]);
      assert forall r :: r in rows <==> r in rows[..m] || r == rows[m];
      assert forall i | 0 <= i < |rest| :: rest[i] in rest;
    }
  }

  /** What is above the k-th of increasing rows is the rest. */
  lemma {:induction false} AboveIsRest(rows: seq<Row>, k: nat, cursor: int)
    requires Increasing(rows) && k <= |rows|
    requires forall i | 0 <= i < k :: rows[i].sequence <= cursor
    requires forall i | k <= i < |rows| :: rows[i].sequence > cursor
    ensures Above(rows, cursor) == rows[k..]
    decreases |rows|
  {
    if rows != [] {
      var m := |rows| - 1;
      AboveIsRest(rows[..m], if k <= m then k else m, cursor);
    }
  }

  predicate Sealed(sha: Digest, r: Row) {
    r.eventHash == HashOf(sha, r)
  }

  // ----- The service -----

  class Service {
    const sha: Digest
    var logs: Logs

    constructor (sha: Digest)
      ensures this.sha == sha && logs == map[]
    {
      this.sha, logs := sha, map[];
    }

    method Interfere(others: seq<Other>)
      modifies this
      ensures logs == AfterOthers(sha, old(logs), others)
    {
      for i := 0 to |others|
        invariant logs == AfterOthers(sha, old(logs), others[..i])
      {
        assert others[..i + 1][..i] == others[..i];
        var o := others[i];
        logs := logs[o.tenant := Commit(sha, LogIn(logs, o.tenant), o.read, o.draft)];
      }
      assert others[..|others|] == others;
    }

    /** Batch `k` of the other transactions commits. */
    method NextBatch(others: seq<seq<Other>>, k: nat, ghost start: Logs)
      requires logs == AfterBatches(sha, start, others, k)
      modifies this
      ensures logs == AfterBatches(sha, start, others, k + 1)
    {
      if k < |others| {
        Interfere(others[k]);
      }
    }

    /** Appends within a transaction; `others` commit between its read of the head and its writes. It
        commits exactly when its head is still current and its row is new, and otherwise leaves only
        what the others did. */
    method AppendTo(input: Input, detail: string, id: string, now: int, others: seq<Other>) returns (r: Option<Row>)
      modifies this
      ensures Unrecordable(input) ==> r.None? && logs == old(logs)
      ensures r.Some? ==> Records(r.value, input, detail, id, now) && Numbered(old(logs), r.value)
                          && Recorded(sha, logs, r.value)
      ensures RowsKept(old(logs), logs)
      ensures !Unrecordable(input) ==>
                var read := HeadOf(LogIn(old(logs), input.tenant));
                var mid := AfterOthers(sha, old(logs), others);
                var draft := Draft(input, detail, id, now);
                && (r.Some? <==> CanCommit(sha, LogIn(mid, input.tenant), read, draft))
                && (r.Some? ==> r.value == NextRow(sha, read, draft))
                && (r.Some? ==> logs == mid[input.tenant := Commit(sha, LogIn(mid, input.tenant), read, draft)])
                && (r.None? ==> logs == mid)
    {
      UnrecordableIff(input);
      hide InputOk, Unrecordable;
      if !InputOk(input) {
        return None;
      }
      hide RowsKept, Records, Numbered, Recorded, HashOf, AfterOthers;
      var tenant := input.tenant;
      var read := HeadOf(LogIn(logs, tenant));
      ghost var start := logs;
      OthersKeepRows(sha, logs, others);
      Interfere(others);
      var saved := logs;
      var log := LogIn(logs, tenant);
      var row := Draft(input, detail, id, now).(sequence := read.sequence + 1, previousHash := read.hash);
      row := row.(eventHash := HashOf(sha, row));
      if row.sequence in log.rows || HashTaken(log.rows, row.eventHash) {
        return None;
      }
      logs := logs[tenant := log.(rows := log.rows[row.sequence := row])];
      if HeadOf(log).sequence != read.sequence {
        logs := saved;
        return None;
      }
      logs := logs[tenant := logs[tenant].(head := Some(Head(row.sequence, row.eventHash)))];
      AppendedRow(sha, start, saved, input, detail, id, now);
      assert logs == saved[tenant := Commit(sha, LogIn(saved, tenant), read, Draft(input, detail, id, now))];
      return Some(row);
    }

    /** Checks one page against the link to the row before it. */
    method CheckPage(rows: seq<Row>, offset: nat, before: Hash, ghost all: seq<Row>, ghost follows: bool)
      returns (ok: bool, previous: Hash)
      requires follows ==>
                 offset + |rows| <= |all| && rows == all[offset..offset + |rows|] && before == LastHash(all[..offset])
      ensures follows ==> (ok <==> forall k | offset <= k < offset + |rows| :: LinkAt(sha, all, k))
      ensures follows && ok ==> previous == LastHash(all[..offset + |rows|])
    {
      hide Link;
      previous := before;
      for i := 0 to |rows|
        invariant follows ==> previous == LastHash(all[..offset + i])
        invariant follows ==> forall k | offset <= k < offset + i :: LinkAt(sha, all, k)
      {
        if follows {
          assert rows[i] == all[offset + i] && (Link(sha, previous, rows[i], offset + i + 1) <==>
                                                  LinkAt(sha, all, offset + i));
        }
        if !Link(sha, previous, rows[i], offset + i + 1) {
          return false, previous;
        }
        previous := rows[i].eventHash;
      }
      ok := true;
    }

    /** Walks the rows up to `max` in pages of 500 while others append between the pages. */
    method VerifyPrefix(tenant: string, max: int, others: seq<seq<Other>>) returns (r: Integrity, pages: nat)
      modifies this
      ensures logs == AfterBatches(sha, old(logs), others, pages)
      ensures Undisturbed(sha, old(logs), others, tenant, max) ==>
                && r == Scan(sha, RowsUpTo(old(logs), tenant, max), max)
                && (r.valid ==> pages == |RowsUpTo(old(logs), tenant, max)| / 500 + 1)
    {
      hide UpTo, Linked, AfterBatches, HashOf, LinkAt;
      ghost var start := logs;
      ghost var quiet := Undisturbed(sha, start, others, tenant, max);
      ghost var all := RowsUpTo(start, tenant, max);
      var previous, offset := "", 0;
      pages := 0;
      LinkedNone(sha, all);
      NoBatches(sha, start, others);
      while true
        invariant logs == AfterBatches(sha, start, others, pages)
        invariant offset == 0 || offset <= max
        invariant offset == 500 * pages
        invariant quiet ==> offset <= |all| && Linked(sha, all[..offset]) && previous == LastHash(all[..offset])
        decreases max - offset
      {
        NextBatch(others, pages, start);
        pages := pages + 1;
        ghost var now := RowsUpTo(logs, tenant, max);
        var rows := Page(RowsUpTo(logs, tenant, max), offset);
        assert quiet ==> now == all;
        if rows == [] {
          break;
        }
        assert rows == now[offset..offset + |rows|] && offset + |rows| <= |now| <= max;
        var ok: bool;
        ok, previous := CheckPage(rows, offset, previous, if quiet then all else [], quiet);
        if quiet {
          PageLinks(sha, all, offset, |rows|, ok);
        }
        if !ok {
          return Integrity(false, 0, max, ""), pages;
        }
        offset := offset + |rows|;
        if |rows| < BATCH {
          break;
        }
      }
      assert quiet ==> all[..offset] == all;
      r := Integrity(max == offset, offset, max, previous);
    }

    /** Verifies the head: accepts exactly when the rows up to it link up to its hash, whatever is
        appended meanwhile. */
    method Verify(tenant: string, others: seq<seq<Other>>) returns (r: Integrity)
      modifies this
      ensures var log := LogIn(old(logs), tenant);
              r.valid <==> log.head.None? || Accepts(sha, log.rows, log.head.value.sequence, log.head.value.hash)
      ensures Good(sha, LogIn(old(logs), tenant)) ==> r.valid && r.verified == HeadOf(LogIn(old(logs), tenant)).sequence
    {
      var log := LogIn(logs, tenant);
      if log.head.None? {
        assert UpTo(log.rows, 0) == [];
        return Integrity(true, 0, 0, "");
      }
      var head := log.head.value;
      forall k: nat
        ensures RowsUpTo(AfterBatches(sha, logs, others, k), tenant, head.sequence)
                  == RowsUpTo(logs, tenant, head.sequence)
      {
        ReadHeadUndisturbed(sha, logs, others, tenant, head.sequence, k);
      }
      var pages;
      r, pages := VerifyPrefix(tenant, head.sequence, others);
      r := r.(valid := r.valid && r.headHash == head.hash, headHash := head.hash);
      if Good(sha, log) {
        GoodAccepts(sha, log);
      }
    }

    /** Writes the rows of one batch, checking each hash. */
    method Emit(rows: seq<Row>, cursor: int) returns (written: nat, ok: bool)
      requires Increasing(rows) && forall r | r in rows :: r.sequence > cursor
      ensures written <= |rows| && forall i | 0 <= i < written :: Sealed(sha, rows[i])
      ensures if ok then written == |rows| else written < |rows| && !Sealed(sha, rows[written])
    {
      var last := cursor;
      for i := 0 to |rows|
        invariant last == if i == 0 then cursor else rows[i - 1].sequence
        invariant forall j | 0 <= j < i :: Sealed(sha, rows[j])
      {
        if rows[i].sequence <= last || rows[i].eventHash != HashOf(sha, rows[i]) {
          assert rows[i] in rows;
          return i, false;
        }
        last := rows[i].sequence;
      }
      return |rows|, true;
    }

    /** The next batch above the cursor, after others have appended. */
    method Fetch(tenant: string, f: Filter, head: int, cursor: int, others: seq<seq<Other>>, k: nat,
                 ghost start: Logs, ghost all: seq<Row>, ghost done: nat)
      returns (rows: seq<Row>)
      requires logs == AfterBatches(sha, start, others, k) && head <= HeadOf(LogIn(start, tenant)).sequence
      requires all == Matching(f, RowsUpTo(start, tenant, head)) && Increasing(all) && done <= |all|
      requires cursor == (if done == 0 then 0 else all[done - 1].sequence)
               && forall i | 0 <= i < |all| :: all[i].sequence > 0
      modifies this
      ensures logs == AfterBatches(sha, start, others, k + 1)
      ensures |rows| <= |all| - done && rows == all[done..done + |rows|] && (rows == [] <==> done == |all|)
    {
      hide Matching, Above, UpTo, AfterBatches;
      NextBatch(others, k, start);
      ReadHeadUndisturbed(sha, start, others, tenant, head, k + 1);
      AboveIsRest(all, done, cursor);
      rows := Page(Above(Matching(f, RowsUpTo(logs, tenant, head)), cursor), 0);
    }

    /** Fetches and writes one batch: the rows written, and whether every hash matched. */
    method ExportBatch(tenant: string, f: Filter, head: int, cursor: int, others: seq<seq<Other>>, k: nat,
                       ghost start: Logs, ghost all: seq<Row>, ghost done: nat)
      returns (rows: seq<Row>, ok: bool)
      requires logs == AfterBatches(sha, start, others, k) && head <= HeadOf(LogIn(start, tenant)).sequence
      requires all == Matching(f, RowsUpTo(start, tenant, head)) && Increasing(all) && done <= |all|
      requires cursor == (if done == 0 then 0 else all[done - 1].sequence)
               && forall i | 0 <= i < |all| :: all[i].sequence > 0
      modifies this
      ensures logs == AfterBatches(sha, start, others, k + 1)
      ensures |rows| <= |all| - done && all[..done] + rows == all[..done + |rows|]
      ensures rows != [] ==> rows[|rows| - 1] == all[done + |rows| - 1]
      ensures forall i | done <= i < done + |rows| :: Sealed(sha, all[i])
      ensures if ok then rows == [] ==> done == |all| else done + |rows| < |all| && !Sealed(sha, all[done + |rows|])
    {
      hide Matching, UpTo, AfterBatches, Sealed, Increasing;
      var batch := Fetch(tenant, f, head, cursor, others, k, start, all, done);
      BatchFacts(all, done, batch, cursor);
      var written: nat;
      written, ok := Emit(batch, cursor);
      BatchWritten(sha, all, done, batch, written);
      rows := batch[..written];
    }

    /** Exports the matching rows up to a verified head in batches. It writes exactly those rows, in
        order, each once; or stops before the first row whose hash does not match. */
    method WriteExport(tenant: string, f: Filter, head: int, others: seq<seq<Other>>) returns (out: seq<Row>, ok: bool)
      requires head <= HeadOf(LogIn(logs, tenant)).sequence && Keyed(LogIn(logs, tenant).rows)
      modifies this
      ensures var all := Matching(f, RowsUpTo(old(logs), tenant, head));
              && |out| <= |all| && out == all[..|out|] && (forall i | 0 <= i < |out| :: Sealed(sha, all[i]))
              && if ok then |out| == |all| else |out| < |all| && !Sealed(sha, all[|out|])
      ensures Exports(LogIn(old(logs), tenant).rows, head, f, out, ok)
    {
      ghost var start := logs;
      ghost var all := Matching(f, RowsUpTo(logs, tenant, head));
      ExportRows(LogIn(logs, tenant).rows, head, f);
      NoBatches(sha, start, others);
      hide *;
      ghost var done: nat := 0;
      var cursor, batch := 0, 0;
      out := [];
      while cursor < head
        invariant logs == AfterBatches(sha, start, others, batch)
        invariant done <= |all| && out == all[..done] && forall i | 0 <= i < done :: Sealed(sha, all[i])
        invariant cursor == if done == 0 then 0 else all[done - 1].sequence
        decreases |all| - done
      {
        var rows, good := ExportBatch(tenant, f, head, cursor, others, batch, start, all, done);
        out, batch, done := out + rows, batch + 1, done + |rows|;
        if !good || rows == [] {
          ExportsWanted(LogIn(start, tenant).rows, head, f, all, out, good);
          return out, good;
        }
        cursor := rows[|rows| - 1].sequence;
      }
      NoneLeft(all, done, cursor, head);
      ExportsWanted(LogIn(start, tenant).rows, head, f, all, out, true);
      ok := true;
    }
  }

  /** The rows written are wanted, in order, each once, and all that are wanted if nothing stopped the export. */
  ghost predicate Exports(t: Table, head: int, f: Filter, out: seq<Row>, ok: bool) {
    && (forall r | r in out :: Wanted(t, head, f, r)) && Increasing(out)
    && (ok ==> forall r | Wanted(t, head, f, r) :: r in out)
  }

  lemma ExportsWanted(t: Table, head: int, f: Filter, all: seq<Row>, out: seq<Row>, ok: bool)
    requires Keyed(t) && all == Matching(f, UpTo(t, head)) && |out| <= |all| && out == all[..|out|]
    requires ok ==> |out| == |all|
    ensures Exports(t, head, f, out, ok)
  {
    MatchingIsWanted(t, head, f);
    UpToIncreasing(t, head);
    MatchingIncreasing(f, UpTo(t, head));
    hide Wanted, Matching, UpTo;
    assert forall r | r in out :: r in all;
    assert ok ==> out == all;
  }

  lemma NoneLeft(all: seq<Row>, done: nat, cursor: int, head: int)
    requires Increasing(all) && done <= |all| && forall i | 0 <= i < |all| :: 1 <= all[i].sequence <= head
    requires cursor == if done == 0 then 0 else all[done - 1].sequence
    ensures done < |all| ==> cursor < head
  {
    if done < |all| {
      assert 1 <= all[done].sequence <= head;
      assert done > 0 ==> all[done - 1].sequence < all[done].sequence;
    }
  }

  lemma BatchFacts(all: seq<Row>, done: nat, rows: seq<Row>, cursor: int)
    requires Increasing(all) && done + |rows| <= |all| && rows == all[done..done + |rows|]
    requires forall i | 0 <= i < |all| :: all[i].sequence > 0
    requires cursor == if done == 0 then 0 else all[done - 1].sequence
    ensures Increasing(rows) && forall r | r in rows :: r.sequence > cursor
  {
    assert forall i | 0 <= i < |rows| :: rows[i] == all[done + i];
  }

  lemma BatchWritten(sha: Digest, all: seq<Row>, done: nat, rows: seq<Row>, written: nat)
    requires done + |rows| <= |all| && rows == all[done..done + |rows|] && written <= |rows|
    requires forall i | 0 <= i < written :: Sealed(sha, rows[i])
    ensures all[..done] + rows[..written] == all[..done + written]
    ensures written > 0 ==> rows[written - 1] == all[done + written - 1]
    ensures forall i | done <= i < done + written :: Sealed(sha, all[i])
    ensures written < |rows| ==> rows[written] == all[done + written]
  {
    hide Sealed;
    forall i | done <= i < done + written
      ensures Sealed(sha, all[i])
    {
      assert all[i] == rows[i - done];
    }
  }

  lemma ExportRows(t: Table, head: int, f: Filter)
    requires Keyed(t)
    ensures var all := Matching(f, UpTo(t, head));
            Increasing(all) && forall i | 0 <= i < |all| :: 1 <= all[i].sequence <= head
  {
    UpToIncreasing(t, head);
    MatchingIncreasing(f, UpTo(t, head));
    var all := Matching(f, UpTo(t, head));
    assert forall i | 0 <= i < |all| :: all[i] in all;
  }
}
