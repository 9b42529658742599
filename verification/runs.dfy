/** The event log of one run, its subscribers, and the echo of the message bus. */
module Runs {
  import opened WorkflowDef
  import opened EngineState

  const CAPACITY: nat := 64

  /** `review` is set on the record of a human decision. */
  datatype RunEvent = RunEvent(seqNo: nat, node: Id, status: Status, output: Output, error: string,
                               review: Option<bool>)

  /** An event with the goroutine that emitted it. */
  datatype Entry = Entry(ev: RunEvent, source: nat)

  /** A subscriber: the snapshot it replays, what was put into its channel, and how much of that it
      has taken out. */
  datatype Subscriber = Subscriber(history: seq<Entry>, sent: seq<Entry>, drained: nat, dropped: bool, live: bool)

  datatype Pc = Took(ev: RunEvent) | Logged(ev: RunEvent)

  /** `emitted` is what each goroutine has emitted, in order, and `echo` an event the bus handler did
      not find in the log and is about to publish. */
  datatype Log = Log(seqNo: nat, entries: seq<Entry>, subs: map<nat, Subscriber>, emitting: map<nat, Pc>,
                     bus: set<RunEvent>, echo: Option<RunEvent>, emitted: map<nat, seq<RunEvent>>)

  const EMPTY := Log(0, [], map[], map[], {}, None, map[])

  datatype Action =
    | Take(p: nat, ev: RunEvent)
    | Publish(p: nat)
    | Broadcast(p: nat)
    | CheckEcho(ev: RunEvent)
    | PublishEcho
    | Subscribe(id: nat)
    | Drain(id: nat)
    | Unsubscribe(id: nat)

  predicate HasSeq(entries: seq<Entry>, n: nat) {
    exists i :: 0 <= i < |entries| && entries[i].ev.seqNo == n
  }

  /** A full channel drops the event rather than block the engine. */
  function Deliver(sub: Subscriber, e: Entry): Subscriber {
    if !sub.live then sub
    else if |sub.sent| - sub.drained < CAPACITY then sub.(sent := sub.sent + [e])
    else sub.(dropped := true)
  }

  function DeliverAll(subs: map<nat, Subscriber>, e: Entry): map<nat, Subscriber> {
    map id | id in subs :: Deliver(subs[id], e)
  }

  function Append(l: Log, e: Entry): Log {
    l.(entries := l.entries + [e], subs := DeliverAll(l.subs, e))
  }

  function EmittedBy(l: Log, p: nat): seq<RunEvent> {
    if p in l.emitted then l.emitted[p] else []
  }

  predicate Enabled(l: Log, a: Action) {
    match a
    case Take(p, _) => p !in l.emitting
    case Publish(p) => p in l.emitting && l.emitting[p].Took?
    case Broadcast(p) => p in l.emitting && l.emitting[p].Logged?
    case CheckEcho(ev) => ev in l.bus && l.echo.None?
    case PublishEcho => l.echo.Some?
    case Subscribe(id) => id !in l.subs
    case Drain(id) => id in l.subs && l.subs[id].drained < |l.subs[id].sent|
    case Unsubscribe(id) => id in l.subs
  }

  function Do(l: Log, a: Action): Log
    requires Enabled(l, a)
  {
    match a
    case Take(p, ev) =>
      var numbered := ev.(seqNo := l.seqNo + 1);
      l.(seqNo := l.seqNo + 1, emitting := l.emitting[p := Took(numbered)],
         emitted := l.emitted[p := EmittedBy(l, p) + [numbered]])
    case Publish(p) => Append(l, Entry(l.emitting[p].ev, p)).(emitting := l.emitting[p := Logged(l.emitting[p].ev)])
    case Broadcast(p) => l.(bus := l.bus + {l.emitting[p].ev}, emitting := l.emitting - {p})
    case CheckEcho(ev) => if HasSeq(l.entries, ev.seqNo) then l else l.(echo := Some(ev))
    case PublishEcho => Append(l, Entry(l.echo.value, 0)).(echo := None)
    case Subscribe(id) => l.(subs := l.subs[id := Subscriber(l.entries, [], 0, false, true)])
    case Drain(id) => l.(subs := l.subs[id := l.subs[id].(drained := l.subs[id].drained + 1)])
    case Unsubscribe(id) => l.(subs := l.subs[id := l.subs[id].(live := false)])
  }

  function DoAll(l: Log, actions: seq<Action>): Log
    requires CanAll(l, actions)
    decreases |actions|
  {
    if actions == [] then l else DoAll(Do(l, actions[0]), actions[1..])
  }

  predicate CanAll(l: Log, actions: seq<Action>)
    decreases |actions|
  {
    actions == [] || (Enabled(l, actions[0]) && CanAll(Do(l, actions[0]), actions[1..]))
  }

  // ----- The invariant -----

  /** `a` is `b` with some elements left out. */
  predicate Subsequence(a: seq<Entry>, b: seq<Entry>)
    decreases |b|
  {
    a == []
    || (b != []
        && (Subsequence(a, b[..|b| - 1]) || (a[|a| - 1] == b[|b| - 1] && Subsequence(a[..|a| - 1], b[..|b| - 1]))))
  }

  function From(entries: seq<Entry>, p: nat): seq<RunEvent> {
    if entries == [] then []
    else
      var last := entries[|entries| - 1];
      From(entries[..|entries| - 1], p) + if last.source == p then [last.ev] else []
  }

  ghost predicate OncePerNumber(entries: seq<Entry>) {
    forall i, j | 0 <= i < j < |entries| :: entries[i].ev.seqNo != entries[j].ev.seqNo
  }

  ghost predicate SeqsOk(l: Log) {
    && OncePerNumber(l.entries)
    && (forall i | 0 <= i < |l.entries| :: 1 <= l.entries[i].ev.seqNo <= l.seqNo)
    && (forall p | p in l.emitting && l.emitting[p].Took? ::
          1 <= l.emitting[p].ev.seqNo <= l.seqNo && !HasSeq(l.entries, l.emitting[p].ev.seqNo))
    && (forall p, q | p in l.emitting && q in l.emitting && l.emitting[p].Took? && l.emitting[q].Took? && p != q ::
          l.emitting[p].ev.seqNo != l.emitting[q].ev.seqNo)
  }

  ghost predicate EchoOk(l: Log) {
    && l.echo.None?
    && (forall p | p in l.emitting && l.emitting[p].Logged? :: HasSeq(l.entries, l.emitting[p].ev.seqNo))
    && (forall ev | ev in l.bus :: HasSeq(l.entries, ev.seqNo))
  }

  ghost predicate SubOk(entries: seq<Entry>, s: Subscriber) {
    && s.drained <= |s.sent| <= s.drained + CAPACITY
    && Subsequence(s.history + s.sent, entries)
    && (s.live && !s.dropped ==> s.history + s.sent == entries)
  }

  ghost predicate SubsOk(l: Log) {
    forall id | id in l.subs :: SubOk(l.entries, l.subs[id])
  }

  function InHand(l: Log, p: nat): seq<RunEvent> {
    if p in l.emitting && l.emitting[p].Took? then [l.emitting[p].ev] else []
  }

  ghost predicate OrderOk(l: Log) {
    forall p :: EmittedBy(l, p) == From(l.entries, p) + InHand(l, p)
  }

  ghost predicate Inv(l: Log) {
    SeqsOk(l) && EchoOk(l) && SubsOk(l) && OrderOk(l)
  }

  lemma HasSeqGrows(entries: seq<Entry>, e: Entry, n: nat)
    ensures HasSeq(entries + [e], n) <==> HasSeq(entries, n) || n == e.ev.seqNo
  {
    var more := entries + [e];
    assert more[|entries|] == e;
    if HasSeq(entries, n) {
      var i :| 0 <= i < |entries| && entries[i].ev.seqNo == n;
      assert more[i] == entries[i];
    }
  }

  lemma {:induction false} SubsequenceSelf(a: seq<Entry>)
    ensures Subsequence(a, a)
  {
    if a != [] {
      SubsequenceSelf(a[..|a| - 1]);
    }
  }

  lemma SubsequenceGrows(a: seq<Entry>, b: seq<Entry>, e: Entry)
    requires Subsequence(a, b)
    ensures Subsequence(a, b + [e]) && Subsequence(a + [e], b + [e])
  {
    assert (b + [e])[..|b|] == b && (a + [e])[..|a|] == a;
  }

  lemma DeliverKeeps(entries: seq<Entry>, s: Subscriber, e: Entry)
    requires SubOk(entries, s)
    ensures SubOk(entries + [e], Deliver(s, e))
  {
    SubsequenceGrows(s.history + s.sent, entries, e);
    assert s.history + (s.sent + [e]) == (s.history + s.sent) + [e];
  }

  lemma AppendSubs(l: Log, e: Entry)
    requires SubsOk(l)
    ensures SubsOk(Append(l, e))
  {
    forall id | id in l.subs
      ensures SubOk(l.entries + [e], Deliver(l.subs[id], e))
    {
      DeliverKeeps(l.entries, l.subs[id], e);
    }
    hide SubOk, Deliver;
  }

  lemma FromGrows(entries: seq<Entry>, e: Entry, p: nat)
    ensures From(entries + [e], p) == From(entries, p) + if e.source == p then [e.ev] else []
  {
    assert (entries + [e])[..|entries|] == entries;
  }

  lemma PublishKeeps(l: Log, p: nat)
    requires Inv(l) && Enabled(l, Publish(p))
    ensures Inv(Do(l, Publish(p)))
  {
    var e := Entry(l.emitting[p].ev, p);
    var l' := Do(l, Publish(p));
    AppendSubs(l, e);
    PublishSeqs(l, p, e, l');
    PublishOrder(l, p, e, l');
    hide SeqsOk, OrderOk, EchoOk, SubOk, Deliver;
  }

  lemma PublishSeqs(l: Log, p: nat, e: Entry, l': Log)
    requires SeqsOk(l) && EchoOk(l) && Enabled(l, Publish(p)) && e == Entry(l.emitting[p].ev, p)
             && l' == Do(l, Publish(p))
    ensures SeqsOk(l') && EchoOk(l')
  {
    forall n
      ensures HasSeq(l'.entries, n) <==> HasSeq(l.entries, n) || n == e.ev.seqNo
    {
      HasSeqGrows(l.entries, e, n);
    }
    assert !HasSeq(l.entries, e.ev.seqNo);
  }

  lemma PublishOrder(l: Log, p: nat, e: Entry, l': Log)
    requires OrderOk(l) && Enabled(l, Publish(p)) && e == Entry(l.emitting[p].ev, p) && l' == Do(l, Publish(p))
    ensures OrderOk(l')
  {
    forall q
      ensures EmittedBy(l', q) == From(l'.entries, q) + InHand(l', q)
    {
      FromGrows(l.entries, e, q);
      assert EmittedBy(l, q) == From(l.entries, q) + InHand(l, q);
    }
  }

  lemma TakeKeeps(l: Log, a: Action)
    requires Inv(l) && Enabled(l, a) && (a.Take? || a.Broadcast? || a.CheckEcho?)
    ensures Inv(Do(l, a))
  {
    var l' := Do(l, a);
    assert l'.entries == l.entries && l'.subs == l.subs;
    TakeSeqs(l, a);
    TakeOrder(l, a);
    hide Do, SeqsOk, EchoOk, SubOk, OrderOk;
  }

  lemma TakeSeqs(l: Log, a: Action)
    requires SeqsOk(l) && EchoOk(l) && Enabled(l, a) && (a.Take? || a.Broadcast? || a.CheckEcho?)
    ensures SeqsOk(Do(l, a)) && EchoOk(Do(l, a))
  {
    forall n: nat | HasSeq(l.entries, n)
      ensures n <= l.seqNo
    {
    }
    TakeEcho(l, a);
    hide HasSeq, EchoOk;
  }

  lemma TakeEcho(l: Log, a: Action)
    requires SeqsOk(l) && EchoOk(l) && Enabled(l, a) && (a.Take? || a.Broadcast? || a.CheckEcho?)
    ensures EchoOk(Do(l, a))
  {
    hide HasSeq;
  }

  lemma TakeOrder(l: Log, a: Action)
    requires OrderOk(l) && Enabled(l, a) && (a.Take? || a.Broadcast? || a.CheckEcho?)
    ensures OrderOk(Do(l, a))
  {
    hide From, HasSeq;
    var l' := Do(l, a);
    forall q
      ensures EmittedBy(l', q) == From(l'.entries, q) + InHand(l', q)
    {
      assert EmittedBy(l, q) == From(l.entries, q) + InHand(l, q);
    }
  }

  lemma SubscriberKeeps(l: Log, a: Action)
    requires Inv(l) && Enabled(l, a) && (a.Subscribe? || a.Drain? || a.Unsubscribe?)
    ensures Inv(Do(l, a))
  {
    var l' := Do(l, a);
    assert l' == l.(subs := l'.subs);
    SubscribersOk(l, a);
    OthersSame(l, l');
    hide Do, SeqsOk, EchoOk, SubsOk, OrderOk;
  }

  lemma SubscribersOk(l: Log, a: Action)
    requires SubsOk(l) && Enabled(l, a) && (a.Subscribe? || a.Drain? || a.Unsubscribe?)
    ensures SubsOk(Do(l, a))
  {
    SubsequenceSelf(l.entries);
    assert l.entries + [] == l.entries;
    hide Subsequence;
  }

  lemma OthersSame(l: Log, l': Log)
    requires SeqsOk(l) && EchoOk(l) && OrderOk(l) && l' == l.(subs := l'.subs)
    ensures SeqsOk(l') && EchoOk(l') && OrderOk(l')
  {
    assert forall p :: EmittedBy(l', p) == EmittedBy(l, p) && InHand(l', p) == InHand(l, p);
    hide From;
  }

  lemma StepKeeps(l: Log, a: Action)
    requires Inv(l) && Enabled(l, a)
    ensures Inv(Do(l, a)) && |Do(l, a).entries| >= |l.entries| && Do(l, a).entries[..|l.entries|] == l.entries
  {
    match a
    case Publish(p) => PublishKeeps(l, p);
    case Subscribe(_) => SubscriberKeeps(l, a);
    case Drain(_) => SubscriberKeeps(l, a);
    case Unsubscribe(_) => SubscriberKeeps(l, a);
    case Take(_, _) => TakeKeeps(l, a);
    case Broadcast(_) => TakeKeeps(l, a);
    case CheckEcho(_) => TakeKeeps(l, a);
    case PublishEcho =>
  }

  // ----- The theorems -----

  /** With any number of emitters and echoes, each sequence number is logged at most once, an echo
      never adds to the log, and each goroutine's events are logged in its order. */
  lemma {:induction false} LoggedOnce(l: Log, actions: seq<Action>)
    requires Inv(l) && CanAll(l, actions)
    ensures var t := DoAll(l, actions);
            && Inv(t) && OncePerNumber(t.entries) && t.echo.None?
            && forall p | p !in t.emitting :: From(t.entries, p) == EmittedBy(t, p)
    decreases |actions|
  {
    if actions == [] {
      forall p | p !in l.emitting
        ensures From(l.entries, p) == EmittedBy(l, p)
      {
        assert EmittedBy(l, p) == From(l.entries, p) + InHand(l, p);
      }
    } else {
      StepKeeps(l, actions[0]);
      hide Inv, Enabled, Do;
      LoggedOnce(Do(l, actions[0]), actions[1..]);
    }
  }

  lemma EmptyHolds()
    ensures Inv(EMPTY)
  {
  }

  lemma {:induction false} SubsequenceDistinct(a: seq<Entry>, b: seq<Entry>)
    requires Subsequence(a, b) && OncePerNumber(b)
    ensures OncePerNumber(a) && forall e | e in a :: e in b
    decreases |b|
  {
    if a != [] {
      var m, n := |a| - 1, |b| - 1;
      if Subsequence(a, b[..n]) {
        SubsequenceDistinct(a, b[..n]);
      } else {
        SubsequenceDistinct(a[..m], b[..n]);
        assert forall i | 0 <= i < m :: a[..m][i] == a[i] && a[i] in a[..m];
        assert forall e | e in a :: e in a[..m] || e == a[m];
      }
    }
  }

  /** Every subscriber's history followed by its channel is part of the log, in log order, without
      duplicates; it is the whole log as long as it is subscribed and its channel never filled up. */
  lemma FanOut(l: Log, id: nat)
    requires Inv(l) && id in l.subs
    ensures var seen := l.subs[id].history + l.subs[id].sent;
            && Subsequence(seen, l.entries) && OncePerNumber(seen)
            && (l.subs[id].live && !l.subs[id].dropped ==> seen == l.entries)
            && |l.subs[id].sent| - l.subs[id].drained <= 64
  {
    SubsequenceDistinct(l.subs[id].history + l.subs[id].sent, l.entries);
  }

  /** Whatever happens after it has left, a subscriber is sent nothing more. */
  lemma {:induction false} LeftIsSilent(l: Log, id: nat, actions: seq<Action>)
    requires id in l.subs && Enabled(l, Unsubscribe(id)) && CanAll(Do(l, Unsubscribe(id)), actions)
    ensures var t := DoAll(Do(l, Unsubscribe(id)), actions); id in t.subs && t.subs[id].sent == l.subs[id].sent
  {
    Silent(Do(l, Unsubscribe(id)), id, actions);
  }

  lemma {:induction false} Silent(l: Log, id: nat, actions: seq<Action>)
    requires id in l.subs && !l.subs[id].live && CanAll(l, actions)
    ensures var t := DoAll(l, actions); id in t.subs && t.subs[id].sent == l.subs[id].sent
    decreases |actions|
  {
    if actions != [] {
      var t := Do(l, actions[0]);
      assert id in t.subs && !t.subs[id].live && t.subs[id].sent == l.subs[id].sent;
      Silent(t, id, actions[1..]);
    }
  }

  /** The log can be out of sequence order: taking a number and appending are two critical sections. */
  lemma OutOfOrderExample(a: RunEvent, b: RunEvent)
    ensures exists actions :: CanAll(EMPTY, actions) &&
              var t := DoAll(EMPTY, actions);
              |t.entries| == 2 && t.entries[0].ev.seqNo == 2 && t.entries[1].ev.seqNo == 1
  {
    var l1 := Do(EMPTY, Take(1, a));
    var l2 := Do(l1, Take(2, b));
    var l3 := Do(l2, Publish(2));
    var l4 := Do(l3, Publish(1));
    var actions := [Take(1, a), Take(2, b), Publish(2), Publish(1)];
    assert actions[1..] == [Take(2, b), Publish(2), Publish(1)];
    assert actions[1..][1..] == [Publish(2), Publish(1)];
    assert actions[1..][1..][1..] == [Publish(1)];
    assert actions[1..][1..][1..][1..] == [];
    assert CanAll(l4, []) && DoAll(l4, []) == l4;
    assert CanAll(l3, [Publish(1)]) && DoAll(l3, [Publish(1)]) == l4;
    assert CanAll(l2, actions[1..][1..]) && DoAll(l2, actions[1..][1..]) == l4;
    assert CanAll(l1, actions[1..]) && DoAll(l1, actions[1..]) == l4;
    assert CanAll(EMPTY, actions) && DoAll(EMPTY, actions) == l4;
  }

  // ----- When the log is in sequence order -----

  /** Entry i carries the number i + 1. */
  ghost predicate InOrder(l: Log) {
    forall i | 0 <= i < |l.entries| :: l.entries[i].ev.seqNo == i + 1
  }

  /** The goroutines that take a number, in the order of a schedule. */
  function Takers(actions: seq<Action>): seq<nat> {
    if actions == [] then []
    else (if actions[0].Take? then [actions[0].p] else []) + Takers(actions[1..])
  }

  /** The goroutines that publish, in the order of a schedule. */
  function Publishers(actions: seq<Action>): seq<nat> {
    if actions == [] then []
    else (if actions[0].Publish? then [actions[0].p] else []) + Publishers(actions[1..])
  }

  function Count(s: seq<nat>, p: nat): nat {
    if s == [] then 0 else Count(s[..|s| - 1], p) + if s[|s| - 1] == p then 1 else 0
  }

  lemma CountSnoc(s: seq<nat>, q: nat, p: nat)
    ensures Count(s + [q], p) == Count(s, p) + if q == p then 1 else 0
  {
    assert (s + [q])[..|s|] == s;
  }

  /** The first occurrence that makes the count what it is at `m` is not after `m`. */
  lemma {:induction false} CountAt(s: seq<nat>, n: nat, m: nat)
    requires 0 < n <= |s| && 0 < m <= |s| && s[n - 1] == s[m - 1]
    requires Count(s[..n], s[n - 1]) == Count(s[..m], s[n - 1])
    ensures n == m
  {
    var p := s[n - 1];
    if n < m {
      CountGrows(s, n, m - 1, p);
      assert s[..m] == s[..m - 1] + [p];
      CountSnoc(s[..m - 1], p, p);
    } else if m < n {
      CountGrows(s, m, n - 1, p);
      assert s[..n] == s[..n - 1] + [p];
      CountSnoc(s[..n - 1], p, p);
    }
  }

  lemma {:induction false} CountGrows(s: seq<nat>, n: nat, m: nat, p: nat)
    requires n <= m <= |s|
    ensures Count(s[..n], p) <= Count(s[..m], p)
    decreases m
  {
    if n < m {
      CountGrows(s, n, m - 1, p);
      assert s[..m] == s[..m - 1] + [s[m - 1]];
      CountSnoc(s[..m - 1], s[m - 1], p);
    }
  }

  /** Number `n` is the one that goroutine `p` took with its `k`th take. */
  predicate KthTake(takes: seq<nat>, n: nat, p: nat, k: nat) {
    0 < n <= |takes| && takes[n - 1] == p && Count(takes[..n], p) == k
  }

  lemma KthTakeGrows(takes: seq<nat>, q: nat, n: nat, p: nat, k: nat)
    requires KthTake(takes, n, p, k)
    ensures KthTake(takes + [q], n, p, k)
  {
    assert (takes + [q])[..n] == takes[..n];
  }

  /** What the schedule so far says about the log: the k-th entry of a goroutine carries the number of
      its k-th take. */
  ghost predicate Tracks(l: Log, takes: seq<nat>, pubs: seq<nat>) {
    && l.seqNo == |takes| && |l.entries| == |pubs| && l.echo.None?
    && (forall i | 0 <= i < |pubs| ::
          l.entries[i].source == pubs[i] && KthTake(takes, l.entries[i].ev.seqNo, pubs[i],
                                                    Count(pubs[..i + 1], pubs[i])))
    && (forall p | p in l.emitting && l.emitting[p].Took? ::
          KthTake(takes, l.emitting[p].ev.seqNo, p, Count(pubs, p) + 1))
    && (forall p: nat :: Count(takes, p) == Count(pubs, p) + |InHand(l, p)|)
  }

  lemma TakenCounts(l: Log, l': Log, p: nat, ev: RunEvent, takes: seq<nat>, pubs: seq<nat>)
    requires Tracks(l, takes, pubs) && p !in l.emitting && l'.emitting == l.emitting[p := Took(ev)]
    ensures forall q: nat :: Count(takes + [p], q) == Count(pubs, q) + |InHand(l', q)|
    ensures Count(takes + [p], p) == Count(pubs, p) + 1
  {
    hide KthTake;
    forall q: nat
      ensures Count(takes + [p], q) == Count(pubs, q) + |InHand(l', q)|
    {
      CountSnoc(takes, p, q);
      assert Count(takes, q) == Count(pubs, q) + |InHand(l, q)|;
    }
    assert |InHand(l', p)| == 1;
  }

  lemma TakeTracks(l: Log, p: nat, ev: RunEvent, takes: seq<nat>, pubs: seq<nat>)
    requires Tracks(l, takes, pubs) && Enabled(l, Take(p, ev))
    ensures Tracks(Do(l, Take(p, ev)), takes + [p], pubs)
  {
    var l' := Do(l, Take(p, ev));
    TakenCounts(l, l', p, ev.(seqNo := l.seqNo + 1), takes, pubs);
    assert (takes + [p])[..l.seqNo + 1] == takes + [p];
    assert KthTake(takes + [p], l.seqNo + 1, p, Count(pubs, p) + 1);
    forall n: nat, q: nat, k: nat | KthTake(takes, n, q, k)
      ensures KthTake(takes + [p], n, q, k)
    {
      KthTakeGrows(takes, p, n, q, k);
    }
    hide KthTake, Count, InHand;
  }

  lemma PublishedEntries(l: Log, l': Log, p: nat, takes: seq<nat>, pubs: seq<nat>)
    requires Tracks(l, takes, pubs) && Enabled(l, Publish(p)) && l'.entries == l.entries + [Entry(l.emitting[p].ev, p)]
    ensures forall i | 0 <= i < |pubs| + 1 ::
              l'.entries[i].source == (pubs + [p])[i] &&
              KthTake(takes, l'.entries[i].ev.seqNo, (pubs + [p])[i], Count((pubs + [p])[..i + 1], (pubs + [p])[i]))
  {
    hide KthTake;
    forall i | 0 <= i < |pubs| + 1
      ensures l'.entries[i].source == (pubs + [p])[i] &&
              KthTake(takes, l'.entries[i].ev.seqNo, (pubs + [p])[i], Count((pubs + [p])[..i + 1], (pubs + [p])[i]))
    {
      if i < |pubs| {
        assert (pubs + [p])[..i + 1] == pubs[..i + 1];
      } else {
        assert (pubs + [p])[..i + 1] == pubs + [p];
        CountSnoc(pubs, p, p);
      }
    }
  }

  lemma PublishedCounts(l: Log, l': Log, p: nat, takes: seq<nat>, pubs: seq<nat>)
    requires Tracks(l, takes, pubs) && Enabled(l, Publish(p))
             && l'.emitting == l.emitting[p := Logged(l.emitting[p].ev)]
    ensures forall q: nat :: Count(takes, q) == Count(pubs + [p], q) + |InHand(l', q)|
    ensures forall q: nat | q != p :: Count(pubs + [p], q) == Count(pubs, q)
  {
    hide KthTake;
    forall q: nat
      ensures Count(takes, q) == Count(pubs + [p], q) + |InHand(l', q)|
      ensures q != p ==> Count(pubs + [p], q) == Count(pubs, q)
    {
      CountSnoc(pubs, p, q);
      assert Count(takes, q) == Count(pubs, q) + |InHand(l, q)|;
    }
  }

  lemma PublishedHands(l: Log, l': Log, p: nat, takes: seq<nat>, pubs: seq<nat>)
    requires Tracks(l, takes, pubs) && Enabled(l, Publish(p))
             && l'.emitting == l.emitting[p := Logged(l.emitting[p].ev)]
    ensures forall q | q in l'.emitting && l'.emitting[q].Took? ::
              KthTake(takes, l'.emitting[q].ev.seqNo, q, Count(pubs + [p], q) + 1)
  {
    hide KthTake, InHand;
    forall q | q in l'.emitting && l'.emitting[q].Took?
      ensures KthTake(takes, l'.emitting[q].ev.seqNo, q, Count(pubs + [p], q) + 1)
    {
      CountSnoc(pubs, p, q);
    }
  }

  lemma PublishTracks(l: Log, p: nat, takes: seq<nat>, pubs: seq<nat>)
    requires Tracks(l, takes, pubs) && Enabled(l, Publish(p))
    ensures Tracks(Do(l, Publish(p)), takes, pubs + [p])
  {
    var l' := Do(l, Publish(p));
    PublishedEntries(l, l', p, takes, pubs);
    PublishedCounts(l, l', p, takes, pubs);
    PublishedHands(l, l', p, takes, pubs);
    hide KthTake, Count, Deliver, HasSeq, InHand;
  }

  lemma OtherTracks(l: Log, a: Action, takes: seq<nat>, pubs: seq<nat>)
    requires Inv(l) && Tracks(l, takes, pubs) && Enabled(l, a) && !a.Take? && !a.Publish?
    ensures Tracks(Do(l, a), takes, pubs)
  {
    hide Count, KthTake, SeqsOk, SubsOk, OrderOk, HasSeq;
    var l' := Do(l, a);
    StepEcho(l, a);
    assert forall q :: InHand(l', q) == InHand(l, q);
  }

  lemma StepEcho(l: Log, a: Action)
    requires Inv(l) && Enabled(l, a)
    ensures Do(l, a).echo.None?
  {
    StepKeeps(l, a);
    hide SeqsOk, SubsOk, OrderOk, Do, Enabled;
  }

  lemma Associates(a: seq<nat>, b: seq<nat>, c: seq<nat>)
    ensures a + (b + c) == a + b + c
  {
  }

  lemma Unroll(takes: seq<nat>, pubs: seq<nat>, actions: seq<Action>)
    requires actions != []
    ensures var a, rest := actions[0], actions[1..];
            && takes + Takers(actions) == (if a.Take? then takes + [a.p] else takes) + Takers(rest)
            && pubs + Publishers(actions) == (if a.Publish? then pubs + [a.p] else pubs) + Publishers(rest)
  {
    var a, rest := actions[0], actions[1..];
    Associates(takes, if a.Take? then [a.p] else [], Takers(rest));
    Associates(pubs, if a.Publish? then [a.p] else [], Publishers(rest));
    assert takes + [] == takes && pubs + [] == pubs;
  }

  lemma StepTracks(l: Log, takes: seq<nat>, pubs: seq<nat>, a: Action)
    requires Inv(l) && Tracks(l, takes, pubs) && Enabled(l, a)
    ensures Tracks(Do(l, a), if a.Take? then takes + [a.p] else takes, if a.Publish? then pubs + [a.p] else pubs)
  {
    hide Inv, Tracks, Do, Enabled;
    match a
    case Take(p, ev) => TakeTracks(l, p, ev, takes, pubs);
    case Publish(p) => PublishTracks(l, p, takes, pubs);
    case _ => OtherTracks(l, a, takes, pubs);
  }

  lemma {:induction false} RunTracks(l: Log, takes: seq<nat>, pubs: seq<nat>, actions: seq<Action>)
    requires Inv(l) && Tracks(l, takes, pubs) && CanAll(l, actions)
    ensures Tracks(DoAll(l, actions), takes + Takers(actions), pubs + Publishers(actions))
    decreases |actions|
  {
    if actions == [] {
      assert takes + [] == takes && pubs + [] == pubs;
    } else {
      var a := actions[0];
      StepKeeps(l, a);
      StepTracks(l, takes, pubs, a);
      Unroll(takes, pubs, actions);
      hide Inv, Tracks, Do, Enabled, Takers, Publishers;
      RunTracks(Do(l, a), if a.Take? then takes + [a.p] else takes, if a.Publish? then pubs + [a.p]
                else pubs, actions[1..]);
    }
  }

  /** The i-th entry is a take of the i-th publisher. */
  lemma EntryTaken(l: Log, takes: seq<nat>, pubs: seq<nat>, i: nat)
    requires Tracks(l, takes, pubs) && i < |pubs|
    ensures |l.entries| == |pubs| && KthTake(takes, l.entries[i].ev.seqNo, pubs[i], Count(pubs[..i + 1], pubs[i]))
  {
  }

  lemma OrderedIsPrefix(l: Log, takes: seq<nat>, pubs: seq<nat>)
    requires Tracks(l, takes, pubs) && InOrder(l)
    ensures pubs <= takes
  {
    hide Tracks, Count;
    if pubs != [] {
      EntryTaken(l, takes, pubs, |pubs| - 1);
    }
    forall i | 0 <= i < |pubs|
      ensures i < |takes| && pubs[i] == takes[i]
    {
      EntryTaken(l, takes, pubs, i);
    }
  }

  lemma PrefixEntry(l: Log, takes: seq<nat>, pubs: seq<nat>, i: nat)
    requires Tracks(l, takes, pubs) && pubs <= takes && i < |pubs|
    ensures |l.entries| == |pubs| && l.entries[i].ev.seqNo == i + 1
  {
    EntryTaken(l, takes, pubs, i);
    hide Tracks, Count;
    assert pubs[..i + 1] == takes[..i + 1];
    CountAt(takes, l.entries[i].ev.seqNo, i + 1);
  }

  lemma PrefixIsOrdered(l: Log, takes: seq<nat>, pubs: seq<nat>)
    requires Tracks(l, takes, pubs) && pubs <= takes
    ensures InOrder(l)
  {
    assert |l.entries| == |pubs|;
    hide Tracks;
    forall i | 0 <= i < |l.entries|
      ensures l.entries[i].ev.seqNo == i + 1
    {
      PrefixEntry(l, takes, pubs, i);
    }
  }

  /** In every run the log is in sequence order if and only if the goroutines publish in the order in
      which they took their numbers. */
  lemma OrderIff(actions: seq<Action>)
    requires CanAll(EMPTY, actions)
    ensures InOrder(DoAll(EMPTY, actions)) <==> Publishers(actions) <= Takers(actions)
  {
    assert InHand(EMPTY, 0) == [];
    EmptyTracks();
    RunTracks(EMPTY, [], [], actions);
    assert [] + Takers(actions) == Takers(actions) && [] + Publishers(actions) == Publishers(actions);
    hide Tracks;
    if InOrder(DoAll(EMPTY, actions)) {
      OrderedIsPrefix(DoAll(EMPTY, actions), Takers(actions), Publishers(actions));
    } else if Publishers(actions) <= Takers(actions) {
      PrefixIsOrdered(DoAll(EMPTY, actions), Takers(actions), Publishers(actions));
    }
  }

  lemma EmptyTracks()
    ensures Inv(EMPTY) && Tracks(EMPTY, [], [])
  {
    EmptyHolds();
  }

  /** No goroutine takes a number while another one holds a number it has not published. */
  ghost predicate OneAtATime(l: Log, actions: seq<Action>)
    requires CanAll(l, actions)
    decreases |actions|
  {
    actions == []
    || ((actions[0].Take? ==> forall q | q in l.emitting :: !l.emitting[q].Took?)
        && OneAtATime(Do(l, actions[0]), actions[1..]))
  }

  /** At most one goroutine holds a number, and then it is the next one. */
  ghost predicate NextInHand(l: Log) {
    && InOrder(l) && l.echo.None?
    && (forall p | p in l.emitting && l.emitting[p].Took? :: l.emitting[p].ev.seqNo == l.seqNo == |l.entries| + 1)
    && (forall p, q | p in l.emitting && q in l.emitting && l.emitting[p].Took? && l.emitting[q].Took? :: p == q)
    && ((forall p | p in l.emitting :: !l.emitting[p].Took?) ==> l.seqNo == |l.entries|)
  }

  lemma NextTaken(l: Log, p: nat, ev: RunEvent)
    requires NextInHand(l) && Enabled(l, Take(p, ev)) && forall q | q in l.emitting :: !l.emitting[q].Took?
    ensures NextInHand(Do(l, Take(p, ev)))
  {
    var l' := Do(l, Take(p, ev));
    assert p in l'.emitting && l'.emitting[p].Took?;
  }

  lemma NextPublished(l: Log, p: nat)
    requires NextInHand(l) && Enabled(l, Publish(p))
    ensures NextInHand(Do(l, Publish(p)))
  {
    var l' := Do(l, Publish(p));
    assert l'.entries[|l.entries|].ev == l.emitting[p].ev;
    assert forall i | 0 <= i < |l.entries| :: l'.entries[i] == l.entries[i];
    hide Deliver;
  }

  lemma NextKept(l: Log, a: Action)
    requires Inv(l) && NextInHand(l) && Enabled(l, a)
    requires a.Take? ==> forall q | q in l.emitting :: !l.emitting[q].Took?
    ensures NextInHand(Do(l, a))
  {
    match a
    case Take(p, ev) => NextTaken(l, p, ev);
    case Publish(p) => NextPublished(l, p);
    case _ =>
      StepEcho(l, a);
      SameInHand(l, a);
  }

  lemma SameInHand(l: Log, a: Action)
    requires NextInHand(l) && Enabled(l, a) && !a.Take? && !a.Publish? && Do(l, a).echo.None?
    ensures NextInHand(Do(l, a))
  {
    hide HasSeq;
    var l' := Do(l, a);
    assert l'.entries == l.entries && l'.seqNo == l.seqNo;
    assert forall p :: (p in l'.emitting && l'.emitting[p].Took?) == (p in l.emitting && l.emitting[p].Took?);
  }

  /** What a caller can arrange: when numbers are taken and published one at a time, the log is in
      sequence order. */
  lemma {:induction false} SerialInOrder(l: Log, actions: seq<Action>)
    requires Inv(l) && NextInHand(l) && CanAll(l, actions) && OneAtATime(l, actions)
    ensures InOrder(DoAll(l, actions))
    decreases |actions|
  {
    if actions != [] {
      StepKeeps(l, actions[0]);
      NextKept(l, actions[0]);
      hide Inv, NextInHand, Do, Enabled, InOrder;
      SerialInOrder(Do(l, actions[0]), actions[1..]);
    }
  }
}
