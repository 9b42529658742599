/** External anchors of a tenant, and the second chain they form. */
module AuditAnchor {
  import opened WorkflowDef
  import opened AuditChain

  datatype Anchor = Anchor(schema: string, tenant: string, headSequence: int, headHash: Hash, anchoredAt: int,
                           previousAnchorHash: Hash, anchorHash: Hash,
                           keyId: string, publicKey: string, signature: string)

  const SCHEMA := "chaosplus.audit-anchor.v1"

  /** The digests, the signature check, and the signer if signing is configured. */
  datatype Crypto = Crypto(sha: Digest, seal: Anchor -> Hash, checks: Anchor -> bool,
                           signer: Option<Anchor -> Option<Anchor>>)

  /** What the anchor hash commits: everything but itself and the signature fields. */
  function Core(a: Anchor): Anchor {
    a.(anchorHash := "", keyId := "", publicKey := "", signature := "")
  }

  function AnchorHashOf(c: Crypto, a: Anchor): Hash {
    c.seal(Core(a))
  }

  /** A signature is made by filling in the signature fields, and checks. */
  ghost predicate Signs(c: Crypto) {
    c.signer.Some? ==>
      forall a | c.signer.value(a).Some? ::
        var b := c.signer.value(a).value;
        b == a.(keyId := b.keyId, publicKey := b.publicKey, signature := b.signature) && b.signature != ""
          && c.checks(b)
  }

  // ----- The store -----

  type Objects = map<int, Anchor>

  ghost predicate Filed(objects: Objects) {
    forall k | k in objects :: objects[k].headSequence == k
  }

  /** All the objects, oldest first. */
  ghost predicate Lists(objects: Objects, anchors: seq<Anchor>) {
    && (forall i, j | 0 <= i < j < |anchors| :: anchors[i].headSequence < anchors[j].headSequence)
    && (forall i | 0 <= i < |anchors| ::
          anchors[i].headSequence in objects && objects[anchors[i].headSequence] == anchors[i])
    && (forall k | k in objects :: exists i :: 0 <= i < |anchors| && anchors[i].headSequence == k)
  }

  function LastAnchorHash(anchors: seq<Anchor>): Hash {
    if anchors == [] then "" else anchors[|anchors| - 1].anchorHash
  }

  predicate AnchorLink(c: Crypto, previous: Hash, a: Anchor) {
    && a.previousAnchorHash == previous && a.anchorHash == AnchorHashOf(c, a)
    && (a.signature != "" ==> c.checks(a))
  }

  predicate AnchorsLinked(c: Crypto, anchors: seq<Anchor>) {
    anchors == []
    || (AnchorsLinked(c, anchors[..|anchors| - 1])
        && AnchorLink(c, LastAnchorHash(anchors[..|anchors| - 1]), anchors[|anchors| - 1]))
  }

  /** The verdict of verifyAnchors: the anchors link up, and the rows up to the latest one verify
      against the head it committed. */
  predicate AnchorsAccept(c: Crypto, anchors: seq<Anchor>, rows: Table) {
    anchors == []
    || (AnchorsLinked(c, anchors)
        && var latest := anchors[|anchors| - 1];
           Accepts(c.sha, rows, latest.headSequence, latest.headHash))
  }

  // ----- Tamper evidence -----

  /** When the anchors are accepted over the local rows, the local rows up to the latest anchor are,
      field by field, those of any table that verifies at the head the anchor committed, or the
      digest has a collision. */
  lemma AnchoredPrefixIntact(c: Crypto, anchors: seq<Anchor>, local: Table, committed: Table)
    requires anchors != [] && AnchorsAccept(c, anchors, local)
    requires var latest := anchors[|anchors| - 1];
             latest.headSequence >= 0 && Accepts(c.sha, committed, latest.headSequence, latest.headHash)
    ensures var n := anchors[|anchors| - 1].headSequence;
            Agree(local, committed, n) || CollisionIn(c.sha, local, committed, n)
  {
    var latest := anchors[|anchors| - 1];
    TamperEvident(c.sha, local, committed, latest.headSequence, latest.headHash);
  }

  ghost predicate SealCollision(c: Crypto, a: seq<Anchor>, b: seq<Anchor>) {
    exists i, j :: 0 <= i < |a| && 0 <= j < |b| && Core(a[i]) != Core(b[j])
      && AnchorHashOf(c, a[i]) == AnchorHashOf(c, b[j])
  }

  /** Two anchor chains that link up and end in the same hash agree on everything the hash commits,
      or the digest has a collision. */
  lemma {:induction false} AnchorsTamperEvident(c: Crypto, a: seq<Anchor>, b: seq<Anchor>)
    requires AnchorsLinked(c, a) && AnchorsLinked(c, b) && LastAnchorHash(a) == LastAnchorHash(b)
    requires forall x :: c.seal(x) != ""
    ensures SameCores(a, b) || SealCollision(c, a, b)
    decreases |a|
  {
    EmptyOrSealed(c, a);
    EmptyOrSealed(c, b);
    hide SealCollision, AnchorsLinked, SameCores, Core, AnchorHashOf, LastAnchorHash;
    if a == [] {
      NoCores();
    } else {
      var m, n := |a| - 1, |b| - 1;
      AnchorsEnd(c, a);
      AnchorsEnd(c, b);
      if Core(a[m]) == Core(b[n]) {
        SamePrevious(a[m], b[n]);
        AnchorsTamperEvident(c, a[..m], b[..n]);
        if SealCollision(c, a[..m], b[..n]) {
          EarlierCollision(c, a, b, m, n);
        } else {
          MoreCores(a, b);
        }
      } else {
        TopCollision(c, a, b);
      }
    }
  }

  ghost predicate SameCores(a: seq<Anchor>, b: seq<Anchor>) {
    |a| == |b| && forall i | 0 <= i < |a| :: Core(a[i]) == Core(b[i])
  }

  lemma NoCores()
    ensures SameCores([], [])
  {
  }

  lemma MoreCores(a: seq<Anchor>, b: seq<Anchor>)
    requires a != [] && b != [] && Core(a[|a| - 1]) == Core(b[|b| - 1]) && SameCores(a[..|a| - 1], b[..|b| - 1])
    ensures SameCores(a, b)
  {
    hide Core;
    assert forall i | 0 <= i < |a| - 1 :: a[..|a| - 1][i] == a[i] && b[..|b| - 1][i] == b[i];
  }

  lemma EmptyOrSealed(c: Crypto, a: seq<Anchor>)
    requires AnchorsLinked(c, a) && forall x :: c.seal(x) != ""
    ensures a == [] <==> LastAnchorHash(a) == ""
  {
  }

  lemma TopCollision(c: Crypto, a: seq<Anchor>, b: seq<Anchor>)
    requires a != [] && b != [] && Core(a[|a| - 1]) != Core(b[|b| - 1])
             && AnchorHashOf(c, a[|a| - 1]) == AnchorHashOf(c, b[|b| - 1])
    ensures SealCollision(c, a, b)
  {
  }

  lemma SamePrevious(a: Anchor, b: Anchor)
    requires Core(a) == Core(b)
    ensures a.previousAnchorHash == b.previousAnchorHash
  {
    assert Core(a).previousAnchorHash == a.previousAnchorHash;
  }

  lemma EarlierCollision(c: Crypto, a: seq<Anchor>, b: seq<Anchor>, m: nat, n: nat)
    requires m <= |a| && n <= |b| && SealCollision(c, a[..m], b[..n])
    ensures SealCollision(c, a, b)
  {
    hide AnchorHashOf, Core;
    var i, j :| 0 <= i < m && 0 <= j < n && Core(a[..m][i]) != Core(b[..n][j])
      && AnchorHashOf(c, a[..m][i]) == AnchorHashOf(c, b[..n][j]);
    assert a[..m][i] == a[i] && b[..n][j] == b[j];
  }

  // ----- Anchoring -----

  datatype AnchorResult = Committed(anchor: Anchor) | Empty | Broken | Unsigned | Unavailable

  function NewAnchor(c: Crypto, tenant: string, head: Head, anchors: seq<Anchor>, now: int): Anchor {
    var a := Anchor(SCHEMA, tenant, head.sequence, head.hash, now, LastAnchorHash(anchors), "", "", "", "");
    a.(anchorHash := AnchorHashOf(c, a))
  }

  function Sign(c: Crypto, a: Anchor): Option<Anchor> {
    if c.signer.Some? then c.signer.value(a) else Some(a)
  }

  /** The text an anchor before the first is linked to, or the hash of the last one listed. */
  predicate Follows(anchors: seq<Anchor>, hash: Hash) {
    if anchors == [] then hash == "" else hash == anchors[|anchors| - 1].anchorHash
  }

  /** The anchor made for a head: schema, tenant, head and time, linked to the last one, sealed over all of
      that, and signed if a signer is configured. */
  ghost predicate MadeFor(c: Crypto, tenant: string, head: Head, anchors: seq<Anchor>, now: int, a: Anchor) {
    exists previous ::
      && Follows(anchors, previous)
      && var core := Anchor("chaosplus.audit-anchor.v1", tenant, head.sequence, head.hash, now, previous, "", "", "",
                            "");
         var bare := core.(anchorHash := c.seal(core));
         if c.signer.Some? then c.signer.value(bare) == Some(a) else a == bare
  }

  lemma MadeIs(c: Crypto, tenant: string, head: Head, anchors: seq<Anchor>, now: int, a: Anchor)
    ensures Sign(c, NewAnchor(c, tenant, head, anchors, now)) == Some(a) <==> MadeFor(c, tenant, head, anchors, now, a)
  {
    assert Follows(anchors, LastAnchorHash(anchors));
    assert Core(Anchor("chaosplus.audit-anchor.v1", tenant, head.sequence, head.hash, now, LastAnchorHash(anchors), "",
                       "", "", ""))
        == Anchor("chaosplus.audit-anchor.v1", tenant, head.sequence, head.hash, now, LastAnchorHash(anchors), "", "",
                  "", "");
  }

  /** What the verdict on anchor `i` rests on: its link to the one before, the seal over all its fields but
      the seal and the signature, and the signature if it has one. */
  ghost predicate AnchorFits(c: Crypto, anchors: seq<Anchor>, i: nat)
    requires i < |anchors|
  {
    var a := anchors[i];
    && a.previousAnchorHash == (if i == 0 then "" else anchors[i - 1].anchorHash)
    && a.anchorHash == c.seal(a.(anchorHash := "", keyId := "", publicKey := "", signature := ""))
    && (a.signature == "" || c.checks(a))
  }

  lemma {:induction false} AnchorsLinkedIff(c: Crypto, anchors: seq<Anchor>, n: nat)
    requires n <= |anchors|
    ensures AnchorsLinked(c, anchors[..n]) <==> forall i: nat | i < n :: AnchorFits(c, anchors, i)
  {
    if n > 0 {
      AnchorsLinkedIff(c, anchors, n - 1);
      assert anchors[..n][..n - 1] == anchors[..n - 1];
      assert AnchorFits(c, anchors, n - 1) <==> AnchorLink(c, LastAnchorHash(anchors[..n - 1]), anchors[n - 1]);
      hide AnchorFits, AnchorLink;
    }
  }

  /** What Anchor decides from the head it read, the verdict on it, and the listed anchors; PutObject
      carries an object to put. */
  datatype Decision = Answer(result: AnchorResult) | PutObject(anchor: Anchor)

  function Decide(c: Crypto, tenant: string, head: Head, valid: bool, anchors: seq<Anchor>, now: int): Decision {
    if !valid then Answer(Broken)
    else if anchors != [] && anchors[|anchors| - 1].headSequence > head.sequence then Answer(Broken)
    else if anchors != [] && anchors[|anchors| - 1].headSequence == head.sequence
      then Answer(Committed(anchors[|anchors| - 1]))
    else
      var signed := Sign(c, NewAnchor(c, tenant, head, anchors, now));
      if signed.None? then Answer(Unsigned) else PutObject(signed.value)
  }

  /** The anchors in the store link up, none is ahead of the head, and each commits the hash of the
      row it names. */
  ghost predicate StoreGood(c: Crypto, log: Log, objects: Objects, anchors: seq<Anchor>) {
    && Lists(objects, anchors) && AnchorsLinked(c, anchors)
    && forall i | 0 <= i < |anchors| ::
         var k := anchors[i].headSequence;
         1 <= k <= HeadOf(log).sequence && k in log.rows && anchors[i].headHash == log.rows[k].eventHash
  }

  /** A head that was read at some time, of which the log is a continuation. */
  ghost predicate WasHead(log: Log, h: Head) {
    1 <= h.sequence <= HeadOf(log).sequence && h.sequence in log.rows && log.rows[h.sequence].eventHash == h.hash
  }

  // ----- Runs of appends and non-overlapping Anchor calls -----

  datatype Event = Append(action: Action) | Begin | Finish(now: int)

  /** `pending` is the head an Anchor call in progress has read and verified. */
  datatype World = World(chain: State, objects: Objects, anchors: seq<Anchor>, pending: Option<Head>)

  predicate Can(w: World, e: Event) {
    match e
    case Append(_) => true
    case Begin => w.pending.None? && w.chain.log.head.Some?
    case Finish(_) => w.pending.Some?
  }

  function Next(c: Crypto, tenant: string, w: World, e: Event): World
    requires Can(w, e)
  {
    match e
    case Append(a) => w.(chain := Do(c.sha, w.chain, a))
    case Begin => w.(pending := w.chain.log.head)
    case Finish(now) =>
      match Decide(c, tenant, w.pending.value, true, w.anchors, now)
      case Answer(_) => w.(pending := None)
      case PutObject(a) =>
        if a.headSequence in w.objects then w.(pending := None)
        else World(w.chain, w.objects[a.headSequence := a], w.anchors + [a], None)
  }

  function NextAll(c: Crypto, tenant: string, w: World, events: seq<Event>): World
    requires CanAll(c, tenant, w, events)
    decreases |events|
  {
    if events == [] then w else NextAll(c, tenant, Next(c, tenant, w, events[0]), events[1..])
  }

  predicate CanAll(c: Crypto, tenant: string, w: World, events: seq<Event>)
    decreases |events|
  {
    events == [] || (Can(w, events[0]) && CanAll(c, tenant, Next(c, tenant, w, events[0]), events[1..]))
  }

  ghost predicate WorldInv(c: Crypto, w: World) {
    && Inv(c.sha, w.chain) && StoreGood(c, w.chain.log, w.objects, w.anchors)
    && (w.chain.log.head.Some? ==> HeadOf(w.chain.log).sequence >= 1)
    && (w.pending.Some? ==>
          && WasHead(w.chain.log, w.pending.value)
          && forall i | 0 <= i < |w.anchors| :: w.anchors[i].headSequence <= w.pending.value.sequence)
  }

  lemma {:induction false} LastRow(t: Table, n: nat)
    requires n >= 1 && forall k | 1 <= k <= n :: k in t
    ensures LastHash(UpTo(t, n)) == t[n].eventHash
  {
  }

  lemma GoodHead(sha: Digest, log: Log)
    requires Good(sha, log) && log.head.Some? && HeadOf(log).sequence >= 1
    ensures WasHead(log, log.head.value)
  {
    LastRow(log.rows, HeadOf(log).sequence);
  }

  lemma LaterLog(c: Crypto, a: Log, b: Log, objects: Objects, anchors: seq<Anchor>)
    requires Extends(a, b)
    ensures StoreGood(c, a, objects, anchors) ==> StoreGood(c, b, objects, anchors)
    ensures forall h | WasHead(a, h) :: WasHead(b, h)
  {
    hide Lists, AnchorsLinked, HeadOf;
  }

  lemma AppendKeeps(c: Crypto, tenant: string, w: World, a: Action)
    requires WorldInv(c, w)
    ensures WorldInv(c, Next(c, tenant, w, Append(a)))
  {
    DoKeeps(c.sha, w.chain, a);
    HeadPositive(c.sha, w.chain, a);
    LaterLog(c, w.chain.log, Do(c.sha, w.chain, a).log, w.objects, w.anchors);
    hide Inv, Do, StoreGood, WasHead, Extends, HeadOf;
  }

  lemma HeadPositive(sha: Digest, s: State, a: Action)
    requires Inv(sha, s) && (s.log.head.Some? ==> HeadOf(s.log).sequence >= 1)
    ensures var log := Do(sha, s, a).log; log.head.Some? ==> HeadOf(log).sequence >= 1
  {
  }

  lemma FinishKeeps(c: Crypto, tenant: string, w: World, now: int)
    requires Signs(c) && WorldInv(c, w) && w.pending.Some?
    ensures WorldInv(c, Next(c, tenant, w, Finish(now)))
  {
    var h := w.pending.value;
    var d := Decide(c, tenant, h, true, w.anchors, now);
    InvParts(c, w);
    FinishEffect(c, tenant, w, now, d);
    hide WorldInv, Next;
    if d.PutObject? && d.anchor.headSequence !in w.objects {
      PutLinks(c, tenant, h, w.anchors, now, d.anchor);
      hide Decide, Signs;
      PutGood(c, w.chain.log, w.objects, w.anchors, h, d.anchor);
      ClearedInv(c, World(w.chain, w.objects[h.sequence := d.anchor], w.anchors + [d.anchor], None));
    } else {
      hide Decide, Signs;
      ClearedInv(c, w.(pending := None));
    }
  }

  lemma FinishEffect(c: Crypto, tenant: string, w: World, now: int, d: Decision)
    requires w.pending.Some? && d == Decide(c, tenant, w.pending.value, true, w.anchors, now)
    ensures Next(c, tenant, w, Finish(now)) ==
            if d.PutObject? && d.anchor.headSequence !in w.objects
            then World(w.chain, w.objects[d.anchor.headSequence := d.anchor], w.anchors + [d.anchor], None)
            else w.(pending := None)
  {
    hide Decide;
  }

  lemma InvParts(c: Crypto, w: World)
    requires WorldInv(c, w)
    ensures Inv(c.sha, w.chain) && StoreGood(c, w.chain.log, w.objects, w.anchors) && AnchorsLinked(c, w.anchors)
    ensures w.chain.log.head.Some? ==> HeadOf(w.chain.log).sequence >= 1
    ensures w.pending.Some? ==> WasHead(w.chain.log, w.pending.value)
  {
  }

  lemma ClearedInv(c: Crypto, w: World)
    requires Inv(c.sha, w.chain) && StoreGood(c, w.chain.log, w.objects, w.anchors) && w.pending.None?
    requires w.chain.log.head.Some? ==> HeadOf(w.chain.log).sequence >= 1
    ensures WorldInv(c, w)
  {
    hide Inv, StoreGood;
  }

  lemma PutGood(c: Crypto, log: Log, objects: Objects, anchors: seq<Anchor>, h: Head, a: Anchor)
    requires StoreGood(c, log, objects, anchors) && WasHead(log, h) && AnchorsLinked(c, anchors + [a])
    requires a.headSequence == h.sequence && a.headHash == h.hash && h.sequence !in objects
    requires anchors == [] || anchors[|anchors| - 1].headSequence < h.sequence
    ensures StoreGood(c, log, objects[h.sequence := a], anchors + [a])
  {
    hide AnchorsLinked;
    PutLists(objects, anchors, a);
    hide Lists;
    var more := anchors + [a];
    forall i | 0 <= i < |more|
      ensures var k := more[i].headSequence;
              1 <= k <= HeadOf(log).sequence && k in log.rows && more[i].headHash == log.rows[k].eventHash
    {
      assert more[i] == if i < |anchors| then anchors[i] else a;
    }
  }

  lemma PutLinks(c: Crypto, tenant: string, h: Head, anchors: seq<Anchor>, now: int, a: Anchor)
    requires Signs(c) && AnchorsLinked(c, anchors) && Decide(c, tenant, h, true, anchors, now) == PutObject(a)
    ensures AnchorsLinked(c, anchors + [a]) && a.headSequence == h.sequence && a.headHash == h.hash
    ensures anchors == [] || anchors[|anchors| - 1].headSequence < h.sequence
  {
    var unsigned := NewAnchor(c, tenant, h, anchors, now);
    assert Core(a) == Core(unsigned) && a.anchorHash == unsigned.anchorHash;
    assert Core(unsigned) == Core(Anchor(SCHEMA, tenant, h.sequence, h.hash, now, LastAnchorHash(anchors), "", "", "",
                                         ""));
    assert (anchors + [a])[..|anchors|] == anchors;
  }

  lemma PutLists(objects: Objects, anchors: seq<Anchor>, a: Anchor)
    requires Lists(objects, anchors) && a.headSequence !in objects
    requires anchors == [] || anchors[|anchors| - 1].headSequence < a.headSequence
    ensures Lists(objects[a.headSequence := a], anchors + [a])
  {
    var more := anchors + [a];
    assert more[|anchors|] == a && forall i | 0 <= i < |anchors| :: more[i] == anchors[i];
    forall i | 0 <= i < |anchors|
      ensures anchors[i].headSequence < a.headSequence
    {
      assert i < |anchors| - 1 ==> anchors[i].headSequence < anchors[|anchors| - 1].headSequence;
    }
    forall k | k in objects
      ensures exists i :: 0 <= i < |more| && more[i].headSequence == k
    {
      var i :| 0 <= i < |anchors| && anchors[i].headSequence == k;
      assert more[i].headSequence == k;
    }
  }

  lemma NextKeeps(c: Crypto, tenant: string, w: World, e: Event)
    requires Signs(c) && WorldInv(c, w) && Can(w, e)
    ensures WorldInv(c, Next(c, tenant, w, e))
  {
    match e
    case Append(a) => AppendKeeps(c, tenant, w, a);
    case Begin => GoodHead(c.sha, w.chain.log);
    case Finish(now) => FinishKeeps(c, tenant, w, now);
  }

  /** Any run of appends and non-overlapping Anchor calls, with appends in the middle of an Anchor
      call, keeps the anchors strictly increasing, linked, and never ahead of the head, and they are
      accepted in every state. */
  lemma {:induction false} AnchorsAlwaysAccepted(c: Crypto, tenant: string, w: World, events: seq<Event>)
    requires Signs(c) && WorldInv(c, w) && CanAll(c, tenant, w, events)
    ensures var t := NextAll(c, tenant, w, events);
            WorldInv(c, t) && AnchorsAccept(c, t.anchors, t.chain.log.rows)
    decreases |events|
  {
    if events == [] {
      InvAccepts(c, w);
    } else {
      NextKeeps(c, tenant, w, events[0]);
      hide WorldInv, Next, Can, Signs;
      AnchorsAlwaysAccepted(c, tenant, Next(c, tenant, w, events[0]), events[1..]);
    }
  }

  lemma InvAccepts(c: Crypto, w: World)
    requires WorldInv(c, w)
    ensures AnchorsAccept(c, w.anchors, w.chain.log.rows)
  {
    var log := w.chain.log;
    if w.anchors != [] {
      var latest := w.anchors[|w.anchors| - 1];
      GoodAccepts(c.sha, log);
      PrefixAccepts(c.sha, log.rows, HeadOf(log).sequence, HeadOf(log).hash, latest.headSequence);
    }
  }

  /** Anchoring again without an append in between returns the same anchor and puts nothing. */
  lemma AnchorIsIdempotent(c: Crypto, tenant: string, w: World, now: int, later: int)
    requires Signs(c) && WorldInv(c, w) && w.pending.None? && w.chain.log.head.Some?
    requires Decide(c, tenant, w.chain.log.head.value, true, w.anchors, now).PutObject?
    ensures var once := Next(c, tenant, Next(c, tenant, w, Begin), Finish(now));
            && once.anchors != [] && once.chain == w.chain
            && Decide(c, tenant, once.chain.log.head.value, true, once.anchors, later)
               == Answer(Committed(once.anchors[|once.anchors| - 1]))
            && once.anchors == w.anchors + [Decide(c, tenant, w.chain.log.head.value, true, w.anchors, now).anchor]
  {
    var h := w.chain.log.head.value;
    var a := Decide(c, tenant, h, true, w.anchors, now).anchor;
    PutLinks(c, tenant, h, w.anchors, now, a);
    NotYetThere(w.objects, w.anchors, h.sequence);
    hide WorldInv, Signs;
  }

  lemma NotYetThere(objects: Objects, anchors: seq<Anchor>, k: int)
    requires Lists(objects, anchors) && (anchors == [] || anchors[|anchors| - 1].headSequence < k)
    ensures k !in objects
  {
    forall i | 0 <= i < |anchors|
      ensures anchors[i].headSequence < k
    {
      assert i < |anchors| - 1 ==> anchors[i].headSequence < anchors[|anchors| - 1].headSequence;
    }
  }

  // ----- A table that was cut back -----

  /** The log as it was at sequence `m`: the later rows gone and the head set back. */
  function CutTo(log: Log, m: nat): Log
    requires m == 0 || m in log.rows
  {
    Log(map k | k in log.rows && k <= m :: log.rows[k], if m == 0 then None else Some(Head(m, log.rows[m].eventHash)))
  }

  lemma {:induction false} LinkedUpTo(sha: Digest, t: Table, n: nat, m: nat)
    requires m <= n && (forall k | 1 <= k <= n :: k in t) && Linked(sha, UpTo(t, n))
    ensures Linked(sha, UpTo(t, m))
  {
    hide Link;
    if m < n {
      FullLength(t, n);
      FullLength(t, n - 1);
      assert UpTo(t, n) == UpTo(t, n - 1) + [t[n]];
      assert UpTo(t, n)[..n - 1] == UpTo(t, n - 1);
      LinkedUpTo(sha, t, n - 1, m);
    }
  }

  /** A good log cut back is a good log: its rows alone do not show that any are missing. */
  lemma CutIsGood(sha: Digest, log: Log, m: nat)
    requires Good(sha, log) && m <= HeadOf(log).sequence
    ensures Good(sha, CutTo(log, m))
  {
    var cut := CutTo(log, m);
    LinkedUpTo(sha, log.rows, HeadOf(log).sequence, m);
    SameUpTo(log.rows, cut.rows, m);
    hide Linked, UpTo;
    if m > 0 {
      LastRow(cut.rows, m);
    } else {
      assert UpTo(cut.rows, 0) == [];
    }
  }

  lemma {:induction false} ShortUpTo(t: Table, n: nat, m: nat)
    requires m <= n && forall k | k in t :: k <= m
    ensures UpTo(t, n) == UpTo(t, m)
  {
    if m < n {
      ShortUpTo(t, n - 1, m);
    }
  }

  lemma CutLength(sha: Digest, log: Log, m: nat, n: nat)
    requires Good(sha, log) && m <= HeadOf(log).sequence && m <= n
    ensures |UpTo(CutTo(log, m).rows, n)| == m
  {
    CutIsGood(sha, log, m);
    ShortUpTo(CutTo(log, m).rows, n, m);
    FullLength(CutTo(log, m).rows, m);
  }

  lemma LatestNotAhead(c: Crypto, w: World)
    requires WorldInv(c, w) && w.anchors != []
    ensures w.anchors[|w.anchors| - 1].headSequence <= HeadOf(w.chain.log).sequence
    ensures forall m: nat | 1 <= m <= HeadOf(w.chain.log).sequence :: m in w.chain.log.rows
  {
    hide Linked, UpTo, Accepts, Lists;
  }

  lemma ShortRejected(c: Crypto, anchors: seq<Anchor>, rows: Table, m: nat)
    requires anchors != [] && m < anchors[|anchors| - 1].headSequence
             && |UpTo(rows, anchors[|anchors| - 1].headSequence)| == m
    ensures !AnchorsAccept(c, anchors, rows)
  {
    hide UpTo, Linked;
  }

  /** After any run of appends and anchors, a table cut back below the latest anchor still verifies on its
      own, but the anchors are no longer accepted over it, and Anchor refuses its head. */
  lemma RollbackDetected(c: Crypto, tenant: string, w: World, m: nat, now: int)
    requires WorldInv(c, w) && w.anchors != [] && m < w.anchors[|w.anchors| - 1].headSequence
    ensures m <= HeadOf(w.chain.log).sequence && (m == 0 || m in w.chain.log.rows)
    ensures var cut := CutTo(w.chain.log, m);
            && Accepts(c.sha, cut.rows, HeadOf(cut).sequence, HeadOf(cut).hash)
            && !AnchorsAccept(c, w.anchors, cut.rows)
            && (m > 0 ==> Decide(c, tenant, cut.head.value, true, w.anchors, now) == Answer(Broken))
  {
    LatestNotAhead(c, w);
    InvParts(c, w);
    hide WorldInv, Good, UpTo, Linked, AnchorsLinked, StoreGood;
    var latest := w.anchors[|w.anchors| - 1];
    var cut := CutTo(w.chain.log, m);
    CutIsGood(c.sha, w.chain.log, m);
    GoodAccepts(c.sha, cut);
    CutLength(c.sha, w.chain.log, m, latest.headSequence);
    hide Accepts;
    ShortRejected(c, w.anchors, cut.rows, m);
  }

  // ----- Overlapping calls -----

  lemma OverlapLinks(c: Crypto, tenant: string, anchors: seq<Anchor>, h: Head, k: Head, now: int, later: int, a: Anchor,
                     b: Anchor)
    requires Signs(c) && AnchorsLinked(c, anchors)
    requires Decide(c, tenant, h, true, anchors, now) == PutObject(a)
             && Decide(c, tenant, k, true, anchors, later) == PutObject(b)
    ensures AnchorsLinked(c, anchors + [a, b]) <==> a.anchorHash == LastAnchorHash(anchors)
  {
    PutLinks(c, tenant, h, anchors, now, a);
    PutLinks(c, tenant, k, anchors, later, b);
    assert (anchors + [b])[..|anchors|] == anchors;
    assert (anchors + [a, b])[..|anchors| + 1] == anchors + [a];
  }

  /** Two overlapping Anchor calls list the same anchors. If both put, the anchors never link up, unless
      the hash of the first new one collides with that of the last old one. */
  lemma OverlapBreaksChain(c: Crypto, tenant: string, anchors: seq<Anchor>, h: Head, k: Head, now: int, later: int,
                           a: Anchor, b: Anchor)
    requires Signs(c) && AnchorsLinked(c, anchors) && forall x :: c.seal(x) != ""
    requires Decide(c, tenant, h, true, anchors, now) == PutObject(a)
             && Decide(c, tenant, k, true, anchors, later) == PutObject(b)
    ensures AnchorsLinked(c, anchors + [a, b]) <==>
            anchors != [] && Core(a) != Core(anchors[|anchors| - 1])
              && c.seal(Core(a)) == c.seal(Core(anchors[|anchors| - 1]))
  {
    OverlapLinks(c, tenant, anchors, h, k, now, later, a, b);
    PutLinks(c, tenant, h, anchors, now, a);
    AnchorsEnd(c, anchors + [a]);
    hide Signs, Decide;
    if anchors != [] {
      var last := anchors[|anchors| - 1];
      AnchorsEnd(c, anchors);
      assert Core(a).headSequence == a.headSequence && Core(last).headSequence == last.headSequence;
    }
  }

  /** The last anchor of a chain links to the ones before it. */
  lemma AnchorsEnd(c: Crypto, anchors: seq<Anchor>)
    requires AnchorsLinked(c, anchors) && anchors != []
    ensures var m := |anchors| - 1;
            && LastAnchorHash(anchors) == anchors[m].anchorHash == AnchorHashOf(c, anchors[m])
                 == c.seal(Core(anchors[m]))
            && AnchorsLinked(c, anchors[..m]) && LastAnchorHash(anchors[..m]) == anchors[m].previousAnchorHash
  {
  }
}
