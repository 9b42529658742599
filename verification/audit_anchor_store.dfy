/** The anchor store, and Anchor and verifyAnchors step by step. */
module AuditAnchorStore {
  import opened WorkflowDef
  import opened AuditChain
  import opened AuditService
  import opened AuditAnchor

  lemma NonEmpty(keys: set<int>)
    ensures keys == {} || exists k :: k in keys
  {
    if forall k :: k !in keys {
      assert keys == {};
    }
  }

  class AnchorStore {
    var objects: Objects

    constructor ()
      ensures objects == map[]
    {
      objects := map[];
    }

    /** Writes an object once: an existing one is never replaced. */
    method Put(a: Anchor) returns (ok: bool)
      requires Filed(objects)
      modifies this
      ensures ok <==> a.headSequence !in old(objects)
      ensures objects == if ok then old(objects)[a.headSequence := a] else old(objects)
      ensures Filed(objects)
    {
      ok := a.headSequence !in objects;
      if ok {
        objects := objects[a.headSequence := a];
      }
    }

    method Lowest(keys: set<int>) returns (k: int)
      requires keys != {}
      ensures k in keys && forall j | j in keys :: k <= j
    {
      NonEmpty(keys);
      k :| k in keys;
      var todo := keys - {k};
      while todo != {}
        invariant k in keys && todo <= keys && forall j | j in keys - todo :: k <= j
        decreases |todo|
      {
        NonEmpty(todo);
        var j :| j in todo;
        assert forall i | i in keys - (todo - {j}) :: i == j || i in keys - todo;
        todo := todo - {j};
        if j < k {
          k := j;
        }
      }
      assert keys - todo == keys;
    }

    /** Lists every object, oldest first. */
    method List() returns (anchors: seq<Anchor>)
      requires Filed(objects)
      ensures Lists(objects, anchors)
    {
      anchors := [];
      var todo := objects.Keys;
      while todo != {}
        invariant todo <= objects.Keys
        invariant Lists(map k | k in objects.Keys - todo :: objects[k], anchors)
        invariant forall k, i | k in todo && 0 <= i < |anchors| :: anchors[i].headSequence < k
        decreases |todo|
      {
        var k := Lowest(todo);
        PutLists(map j | j in objects.Keys - todo :: objects[j], anchors, objects[k]);
        assert (map j | j in objects.Keys - todo :: objects[j])[k := objects[k]]
            == map j | j in objects.Keys - (todo - {k}) :: objects[j];
        anchors := anchors + [objects[k]];
        todo := todo - {k};
      }
      assert (map k | k in objects.Keys - todo :: objects[k]) == objects;
    }
  }

  datatype AnchorStatus = AnchorStatus(sequence: int, hash: Hash, signed: bool, signatureValid: bool, valid: bool)

  /** Commits the verified head of a tenant, unless it is committed already. `rival` is what another
      Anchor call puts between the listing and the writing of this one. */
  method CommitHead(c: Crypto, service: Service, store: AnchorStore, tenant: string, now: int,
                    others: seq<seq<Other>>, rival: Option<Anchor>)
    returns (r: AnchorResult, ghost listed: seq<Anchor>)
    requires service.sha == c.sha && Filed(store.objects)
    modifies service, store
    ensures Filed(store.objects) && Lists(old(store.objects), listed)
    ensures var log := LogIn(old(service.logs), tenant);
            if log.head.None? then r == Empty && store.objects == old(store.objects)
            else
              var head := log.head.value;
              r != Broken ==>
                && (head.sequence in old(store.objects) ==>
                      r == Committed(old(store.objects)[head.sequence]) && store.objects == old(store.objects))
                && (head.sequence !in old(store.objects) ==>
                      (forall a | MadeFor(c, tenant, head, listed, now, a) && rival.None?
                                  && a.headSequence == head.sequence ::
                         r == Committed(a) && store.objects == old(store.objects)[head.sequence := a])
                      && ((forall a :: !MadeFor(c, tenant, head, listed, now, a)) ==>
                            r == Unsigned && store.objects == old(store.objects)))
    ensures var log := LogIn(old(service.logs), tenant);
            r == Broken <==> log.head.Some? && (!Accepts(c.sha, log.rows, log.head.value.sequence, log.head.value.hash)
                                                || exists k :: k in old(store.objects) && k > log.head.value.sequence)
    ensures r == Broken ==> store.objects == old(store.objects)
    ensures forall k | k in old(store.objects) :: k in store.objects && store.objects[k] == old(store.objects)[k]
    ensures r.Committed? && r.anchor.headSequence in store.objects ==> store.objects[r.anchor.headSequence] == r.anchor
  {
    hide Accepts, Decide, AfterOthers, AfterBatches, MadeFor;
    var log := LogIn(service.logs, tenant);
    listed := Listing(store.objects);
    if log.head.None? {
      return Empty, listed;
    }
    var head := log.head.value;
    var integrity := VerifyHead(service, tenant, head, others);
    var anchors := store.List();
    SameListing(store.objects, listed, anchors);
    BrokenIff(c, tenant, head, integrity, anchors, now, store.objects);
    DecideIs(c, tenant, head, integrity, anchors, now, store.objects);
    match Decide(c, tenant, head, integrity, anchors, now)
    case Answer(a) =>
      AnswerListed(c, tenant, head, integrity, anchors, now);
      r := a;
    case PutObject(a) =>
      assert integrity ==> MadeFor(c, tenant, head, anchors, now, a);
      if rival.Some? {
        var _ := store.Put(rival.value);
      } else {
        PutIsNew(c, tenant, head, integrity, anchors, now, store.objects);
      }
      var ok := store.Put(a);
      if ok {
        r := Committed(a);
      } else {
        var again := store.List();
        r := if again == [] then Unavailable else Committed(again[|again| - 1]);
      }
  }

  ghost function Listing(objects: Objects): (anchors: seq<Anchor>)
    requires Filed(objects)
    ensures Lists(objects, anchors)
  {
    ListingExists(objects);
    var anchors :| Lists(objects, anchors); anchors
  }

  lemma {:induction false} ListingExists(objects: Objects)
    requires Filed(objects)
    ensures exists anchors :: Lists(objects, anchors)
    decreases |objects|
  {
    if objects.Keys == {} {
      assert Lists(objects, []);
    } else {
      var top := Highest(objects.Keys);
      var rest := map k | k in objects.Keys - {top} :: objects[k];
      assert rest.Keys == objects.Keys - {top};
      assert |rest| == |rest.Keys| && |objects| == |objects.Keys|;
      ListingExists(rest);
      var anchors :| Lists(rest, anchors);
      PutLists(rest, anchors, objects[top]);
      assert rest[top := objects[top]] == objects;
    }
  }

  lemma {:induction false} Highest(keys: set<int>) returns (top: int)
    requires keys != {}
    ensures top in keys && forall k | k in keys :: k <= top
    decreases |keys|
  {
    NonEmpty(keys);
    top :| top in keys;
    if keys != {top} {
      var rest := keys - {top};
      assert keys == rest + {top};
      var other := Highest(rest);
      top := if other > top then other else top;
    }
  }

  /** There is one listing of a store. */
  lemma {:induction false} SameListing(objects: Objects, a: seq<Anchor>, b: seq<Anchor>)
    requires Lists(objects, a) && Lists(objects, b)
    ensures a == b
    decreases |a|
  {
    EmptyListing(objects, a);
    EmptyListing(objects, b);
    hide Lists;
    assert a == [] <==> b == [];
    if a != [] {
      var m, n := |a| - 1, |b| - 1;
      var top := a[m].headSequence;
      SameTop(objects, a, b);
      var rest := map k | k in objects.Keys - {top} :: objects[k];
      DropTop(objects, a, rest);
      DropTop(objects, b, rest);
      SameListing(rest, a[..m], b[..n]);
      SameWithTop(a, b);
    }
  }

  lemma SameWithTop(a: seq<Anchor>, b: seq<Anchor>)
    requires a != [] && b != [] && a[..|a| - 1] == b[..|b| - 1] && a[|a| - 1] == b[|b| - 1]
    ensures a == b
  {
    assert a == a[..|a| - 1] + [a[|a| - 1]] && b == b[..|b| - 1] + [b[|b| - 1]];
  }

  lemma EmptyListing(objects: Objects, a: seq<Anchor>)
    requires Lists(objects, a)
    ensures a == [] <==> objects == map[]
  {
    if a != [] {
      assert a[0].headSequence in objects;
    } else {
      assert forall k :: k !in objects;
    }
  }

  lemma SameTop(objects: Objects, a: seq<Anchor>, b: seq<Anchor>)
    requires Lists(objects, a) && Lists(objects, b) && a != [] && b != []
    ensures a[|a| - 1] == b[|b| - 1]
  {
    var m, n := |a| - 1, |b| - 1;
    var i :| 0 <= i < |a| && a[i].headSequence == b[n].headSequence;
    var j :| 0 <= j < |b| && b[j].headSequence == a[m].headSequence;
    assert a[i].headSequence <= a[m].headSequence && b[j].headSequence <= b[n].headSequence;
  }

  lemma DropTop(objects: Objects, a: seq<Anchor>, rest: Objects)
    requires Lists(objects, a) && a != []
    requires rest == map k | k in objects.Keys - {a[|a| - 1].headSequence} :: objects[k]
    ensures Lists(rest, a[..|a| - 1])
  {
    var m := |a| - 1;
    var b := a[..m];
    assert forall i | 0 <= i < m :: b[i] == a[i];
    forall k | k in rest
      ensures exists i :: 0 <= i < |b| && b[i].headSequence == k
    {
      var i :| 0 <= i < |a| && a[i].headSequence == k;
      assert i < m && b[i].headSequence == k;
    }
  }

  lemma AnswerListed(c: Crypto, tenant: string, head: Head, valid: bool, anchors: seq<Anchor>, now: int)
    ensures var d := Decide(c, tenant, head, valid, anchors, now);
            d.Answer? && d.result.Committed? ==> anchors != [] && d.result.anchor == anchors[|anchors| - 1]
  {
  }

  /** The head does not verify, or is behind an anchor in the store. */
  lemma BrokenIff(c: Crypto, tenant: string, head: Head, valid: bool, anchors: seq<Anchor>, now: int, objects: Objects)
    requires Lists(objects, anchors)
    ensures Decide(c, tenant, head, valid, anchors, now) == Answer(Broken) <==>
            !valid || exists k :: k in objects && k > head.sequence
  {
    if k :| k in objects && k > head.sequence {
      var i :| 0 <= i < |anchors| && anchors[i].headSequence == k;
      assert i < |anchors| - 1 ==> anchors[i].headSequence < anchors[|anchors| - 1].headSequence;
    }
    if anchors != [] {
      assert anchors[|anchors| - 1].headSequence in objects;
    }
  }

  /** An anchor of the head is answered with; without one, the one made for it is to be put. */
  lemma DecideIs(c: Crypto, tenant: string, head: Head, valid: bool, anchors: seq<Anchor>, now: int, objects: Objects)
    requires Lists(objects, anchors)
    ensures var d := Decide(c, tenant, head, valid, anchors, now);
            d != Answer(Broken) ==>
              if head.sequence in objects then d == Answer(Committed(objects[head.sequence]))
              else if d.PutObject? then forall a :: MadeFor(c, tenant, head, anchors, now, a) <==> a == d.anchor
              else d == Answer(Unsigned) && forall a :: !MadeFor(c, tenant, head, anchors, now, a)
  {
    BrokenIff(c, tenant, head, valid, anchors, now, objects);
    if head.sequence in objects {
      var i :| 0 <= i < |anchors| && anchors[i].headSequence == head.sequence;
      assert i < |anchors| - 1 ==> anchors[i].headSequence < anchors[|anchors| - 1].headSequence;
      assert anchors[|anchors| - 1].headSequence in objects;
    }
    forall a
      ensures Sign(c, NewAnchor(c, tenant, head, anchors, now)) == Some(a) <==>
                MadeFor(c, tenant, head, anchors, now, a)
    {
      MadeIs(c, tenant, head, anchors, now, a);
    }
    hide MadeFor, Sign, NewAnchor;
    if anchors != [] {
      assert anchors[|anchors| - 1].headSequence in objects;
    }
  }

  lemma PutIsNew(c: Crypto, tenant: string, head: Head, valid: bool, anchors: seq<Anchor>, now: int, objects: Objects)
    requires Lists(objects, anchors) && Decide(c, tenant, head, valid, anchors, now).PutObject?
    ensures head.sequence !in objects
  {
    NotYetThere(objects, anchors, head.sequence);
  }

  /** Whether the head that was read verifies, whatever is appended meanwhile. */
  method VerifyHead(service: Service, tenant: string, head: Head, others: seq<seq<Other>>) returns (valid: bool)
    requires LogIn(service.logs, tenant).head == Some(head)
    modifies service
    ensures valid <==> Accepts(service.sha, LogIn(old(service.logs), tenant).rows, head.sequence, head.hash)
  {
    var r := service.Verify(tenant, others);
    valid := r.valid;
  }

  /** Walks the anchors, then the rows up to the latest one. */
  method VerifyAnchors(c: Crypto, service: Service, store: AnchorStore, tenant: string, others: seq<seq<Other>>)
    returns (status: AnchorStatus, anchors: seq<Anchor>)
    requires service.sha == c.sha && Filed(store.objects)
    modifies service
    ensures Lists(store.objects, anchors)
    ensures anchors == [] || Undisturbed(c.sha, old(service.logs), others, tenant,
                                         anchors[|anchors| - 1].headSequence) ==>
              (status.valid <==> AnchorsAccept(c, anchors, LogIn(old(service.logs), tenant).rows))
    ensures status.valid ==> forall i: nat | i < |anchors| :: AnchorFits(c, anchors, i)
    ensures status.valid && anchors != [] ==>
              status.sequence == anchors[|anchors| - 1].headSequence && status.hash == anchors[|anchors| - 1].anchorHash
    ensures status.valid ==>
              (status.signed <==> exists i :: 0 <= i < |anchors| && anchors[i].signature != "")
                && status.signatureValid == status.signed
  {
    hide Accepts, AnchorLink, AfterBatches, Undisturbed, Linked, UpTo;
    anchors := store.List();
    if anchors == [] {
      return AnchorStatus(0, "", false, false, true), anchors;
    }
    var previous, signed, signatureValid := "", false, false;
    for i := 0 to |anchors|
      invariant service.logs == old(service.logs)
      invariant AnchorsLinked(c, anchors[..i]) && previous == LastAnchorHash(anchors[..i])
      invariant signed <==> exists j :: 0 <= j < i && anchors[j].signature != ""
      invariant signatureValid == signed
    {
      AnchorsNext(c, anchors, i);
      if !AnchorLink(c, previous, anchors[i]) {
        return AnchorStatus(0, "", signed, signatureValid, false), anchors;
      }
      if anchors[i].signature != "" {
        signed, signatureValid := true, true;
      }
      previous := anchors[i].anchorHash;
    }
    assert anchors[..|anchors|] == anchors;
    AnchorsLinkedIff(c, anchors, |anchors|);
    var latest := anchors[|anchors| - 1];
    var chain, _ := service.VerifyPrefix(tenant, latest.headSequence, others);
    PrefixVerdict(c, LogIn(old(service.logs), tenant).rows, latest);
    status := AnchorStatus(latest.headSequence, latest.anchorHash, signed, signatureValid,
                           chain.valid && chain.headHash == latest.headHash);
  }

  lemma PrefixVerdict(c: Crypto, rows: Table, latest: Anchor)
    ensures var r := Scan(c.sha, UpTo(rows, latest.headSequence), latest.headSequence);
            Accepts(c.sha, rows, latest.headSequence, latest.headHash) <==> r.valid && r.headHash == latest.headHash
  {
  }

  lemma AnchorsNext(c: Crypto, anchors: seq<Anchor>, i: nat)
    requires i < |anchors| && AnchorsLinked(c, anchors[..i])
    ensures AnchorsLinked(c, anchors[..i + 1]) <==> AnchorLink(c, LastAnchorHash(anchors[..i]), anchors[i])
    ensures !AnchorLink(c, LastAnchorHash(anchors[..i]), anchors[i]) ==> !AnchorsLinked(c, anchors)
    ensures LastAnchorHash(anchors[..i + 1]) == anchors[i].anchorHash
  {
    hide AnchorLink;
    assert anchors[..i + 1][..i] == anchors[..i];
    if AnchorsLinked(c, anchors) {
      AnchorsPrefix(c, anchors, i + 1);
    }
  }

  lemma {:induction false} AnchorsPrefix(c: Crypto, anchors: seq<Anchor>, k: nat)
    requires k <= |anchors| && AnchorsLinked(c, anchors)
    ensures AnchorsLinked(c, anchors[..k])
    decreases |anchors|
  {
    hide AnchorLink;
    if k == |anchors| {
      assert anchors[..k] == anchors;
    } else {
      assert anchors[..|anchors| - 1][..k] == anchors[..k];
      AnchorsPrefix(c, anchors[..|anchors| - 1], k);
    }
  }
}
