/** The run object, and the status a finished run is given. */
module RunManager {
  import opened WorkflowDef
  import opened EngineState
  import opened Runs
  import T = EngineTheorems

  class Run {
    var entries: seq<Entry>
    var subs: map<nat, Subscriber>
    var seqNo: nat

    constructor ()
      ensures entries == [] && subs == map[] && seqNo == 0
    {
      entries, subs, seqNo := [], map[], 0;
    }

    /** This object's share of the state, with what is in flight around it. */
    function In(rest: Log): Log
      reads this
    {
      rest.(entries := entries, subs := subs, seqNo := seqNo)
    }

    /** Appends and delivers to the subscribers, in whatever order the map yields them. */
    method Publish(e: Entry)
      modifies this`entries, this`subs
      ensures forall rest :: In(rest) == Append(old(In(rest)), e)
      ensures forall id | id in old(subs) && old(subs)[id].live ::
                && id in subs && subs[id].live
                && (if |old(subs)[id].sent| - old(subs)[id].drained < 64
                    then subs[id].sent == old(subs)[id].sent + [e] && subs[id].dropped == old(subs)[id].dropped
                    else subs[id].sent == old(subs)[id].sent && subs[id].dropped)
    {
      entries := entries + [e];
      var todo := subs.Keys;
      while todo != {}
        invariant entries == old(entries) + [e] && todo <= subs.Keys && subs.Keys == old(subs).Keys
        invariant forall id | id in subs :: subs[id] == if id in todo then old(subs)[id] else Deliver(old(subs)[id], e)
        decreases |todo|
      {
        var id :| id in todo;
        todo := todo - {id};
        var sub := subs[id];
        if sub.live {
          if |sub.sent| - sub.drained < CAPACITY {
            subs := subs[id := sub.(sent := sub.sent + [e])];
          } else {
            subs := subs[id := sub.(dropped := true)];
          }
        }
      }
      assert subs == DeliverAll(old(subs), e);
    }

    method AddSubscriber(id: nat) returns (history: seq<Entry>)
      requires id !in subs
      modifies this`subs
      ensures history == entries
      ensures forall rest :: In(rest) == Do(old(In(rest)), Subscribe(id))
    {
      subs := subs[id := Subscriber(entries, [], 0, false, true)];
      history := entries;
    }

    method RemoveSubscriber(id: nat)
      requires id in subs
      modifies this`subs
      ensures forall rest :: In(rest) == Do(old(In(rest)), Unsubscribe(id))
    {
      subs := subs[id := subs[id].(live := false)];
    }

    method NextSeq() returns (n: nat)
      modifies this`seqNo
      ensures n == old(seqNo) + 1 == seqNo
    {
      seqNo := seqNo + 1;
      n := seqNo;
    }

    method Recorded(n: nat) returns (found: bool)
      ensures found <==> HasSeq(entries, n)
    {
      found := false;
      for i := 0 to |entries|
        invariant forall j | 0 <= j < i :: entries[j].ev.seqNo != n
      {
        if entries[i].ev.seqNo == n {
          return true;
        }
      }
    }

    /** The bus handler: an event this instance has logged is dropped. */
    method Echo(ev: RunEvent)
      modifies this
      ensures HasSeq(old(entries), ev.seqNo) ==> entries == old(entries) && subs == old(subs)
      ensures !HasSeq(old(entries), ev.seqNo) ==> forall rest :: In(rest) == Append(old(In(rest)), Entry(ev, 0))
    {
      var found := Recorded(ev.seqNo);
      if !found {
        Publish(Entry(ev, 0));
      }
    }
  }

  // ----- The final status -----

  datatype RunStatus = RunFailed | RunPaused | RunCompleted

  /** The last event of node `k` is at `i`. */
  predicate LastAt(log: seq<RunEvent>, k: Id, i: nat) {
    i < |log| && log[i].node == k && forall j | i < j < |log| :: log[j].node != k
  }

  predicate EndsFailed(log: seq<RunEvent>, k: Id) {
    k != "" && exists i :: 0 <= i < |log| && LastAt(log, k, i) && log[i].status.Failed?
  }

  predicate Pauses(log: seq<RunEvent>, pausing: set<Id>) {
    exists i :: 0 <= i < |log| && log[i].node != "" && log[i].review == Some(false) && log[i].node in pausing
  }

  ghost predicate SomeEndsFailed(log: seq<RunEvent>) {
    exists k :: EndsFailed(log, k)
  }

  /** An error fails the run, a rejection at a pausing gate pauses it, and otherwise it fails exactly
      when the last event of some node is a failure. */
  method FinalStatus(log: seq<RunEvent>, pausing: set<Id>, error: bool) returns (r: RunStatus)
    ensures error ==> r == RunFailed
    ensures !error ==> (r == RunPaused <==> Pauses(log, pausing))
    ensures !error && !Pauses(log, pausing) ==> (r == RunFailed <==> SomeEndsFailed(log))
  {
    if error {
      return RunFailed;
    }
    for i := 0 to |log|
      invariant forall j | 0 <= j < i :: !(log[j].node != "" && log[j].review == Some(false) && log[j].node in pausing)
    {
      if log[i].node != "" && log[i].review == Some(false) && log[i].node in pausing {
        return RunPaused;
      }
    }
    var last: map<Id, Status> := map[];
    for i := 0 to |log|
      invariant forall k | k in last ::
                  k != "" && exists j :: 0 <= j < i && LastAt(log[..i], k, j) && log[j].status == last[k]
      invariant forall j | 0 <= j < i && log[j].node != "" :: log[j].node in last
    {
      LastMoves(log, i);
      if log[i].node != "" {
        last := last[log[i].node := log[i].status];
      }
    }
    assert log[..|log|] == log;
    if k :| k in last && last[k].Failed? {
      assert EndsFailed(log, k);
      return RunFailed;
    }
    forall k
      ensures !EndsFailed(log, k)
    {
    }
    return RunCompleted;
  }

  lemma LastMoves(log: seq<RunEvent>, i: nat)
    requires i < |log|
    ensures LastAt(log[..i + 1], log[i].node, i)
    ensures forall k, j | k != log[i].node && LastAt(log[..i], k, j) :: LastAt(log[..i + 1], k, j)
  {
    forall k, j | k != log[i].node && LastAt(log[..i], k, j)
      ensures LastAt(log[..i + 1], k, j)
    {
      assert forall m | 0 <= m < i :: log[..i + 1][m] == log[..i][m];
    }
  }

  // ----- What it says about the engine -----

  /** The statuses the engine logged for `k`, without the records of human decisions. */
  function EngineTrace(log: seq<RunEvent>, k: Id): seq<Status> {
    if log == [] then []
    else
      var last := log[|log| - 1];
      EngineTrace(log[..|log| - 1], k) + if last.node == k && last.review.None? then [last.status] else []
  }

  /** Every record of a decision on a gate comes before an engine event of that gate. */
  ghost predicate ReviewsFollowed(log: seq<RunEvent>) {
    forall i | 0 <= i < |log| && log[i].review.Some? ::
      exists j :: i < j < |log| && log[j].node == log[i].node && log[j].review.None?
  }

  lemma {:induction false} LastIsEngine(log: seq<RunEvent>, k: Id, i: nat)
    requires LastAt(log, k, i) && log[i].review.None?
    ensures EngineTrace(log, k) != [] && EngineTrace(log, k)[|EngineTrace(log, k)| - 1] == log[i].status
    decreases |log|
  {
    if i < |log| - 1 {
      assert forall m | 0 <= m < |log| - 1 :: log[..|log| - 1][m] == log[m];
      LastIsEngine(log[..|log| - 1], k, i);
    }
  }

  lemma {:induction false} LastExists(log: seq<RunEvent>, k: Id)
    requires EngineTrace(log, k) != []
    ensures exists i :: 0 <= i < |log| && LastAt(log, k, i)
  {
    var m := |log| - 1;
    if log[m].node == k {
      assert LastAt(log, k, m);
    } else {
      assert EngineTrace(log, k) == EngineTrace(log[..m], k);
      LastExists(log[..m], k);
      var i :| 0 <= i < m && LastAt(log[..m], k, i);
      assert forall j | 0 <= j < m :: log[..m][j] == log[j];
      assert LastAt(log, k, i);
    }
  }

  ghost predicate EngineEndsFailed(events: seq<Event>, k: Id) {
    T.Trace(events, k) != [] && T.Trace(events, k)[|T.Trace(events, k)| - 1].Failed?
  }

  /** The last record of `k` is of a human decision. */
  predicate LastIsReview(log: seq<RunEvent>, k: Id) {
    exists i :: 0 <= i < |log| && LastAt(log, k, i) && log[i].review.Some?
  }

  /** What the engine logged and what the run's log holds of it; a decision is logged as completed. */
  ghost predicate LogsEngine(log: seq<RunEvent>, events: seq<Event>) {
    && (forall i | 0 <= i < |log| && log[i].review.Some? :: log[i].status.Completed?)
    && (forall k | k != "" :: EngineTrace(log, k) == T.Trace(events, k))
  }

  /** A node's failure is seen if and only if no decision is recorded after it. */
  lemma NodeFailureSeenIff(log: seq<RunEvent>, events: seq<Event>, k: Id)
    requires LogsEngine(log, events) && k != ""
    ensures EndsFailed(log, k) <==> EngineEndsFailed(events, k) && !LastIsReview(log, k)
  {
    if EndsFailed(log, k) {
      var i :| 0 <= i < |log| && LastAt(log, k, i) && log[i].status.Failed?;
      LastIsEngine(log, k, i);
      assert forall j | 0 <= j < |log| && LastAt(log, k, j) :: j == i;
    }
    if EngineEndsFailed(events, k) && !LastIsReview(log, k) {
      LastExists(log, k);
      var i :| 0 <= i < |log| && LastAt(log, k, i);
      LastIsEngine(log, k, i);
    }
  }

  /** The status of a run misses its failures if and only if there are some and each failed node's last
      record is a decision. */
  lemma FailureMissedIff(log: seq<RunEvent>, events: seq<Event>)
    requires LogsEngine(log, events)
    ensures SomeEndsFailed(log) <==> exists k :: k != "" && EngineEndsFailed(events, k) && !LastIsReview(log, k)
    ensures (exists k :: k != "" && EngineEndsFailed(events, k)) && !SomeEndsFailed(log) <==>
            && (exists k :: k != "" && EngineEndsFailed(events, k))
            && (forall k | k != "" && EngineEndsFailed(events, k) :: LastIsReview(log, k))
  {
    forall k | k != ""
      ensures EndsFailed(log, k) <==> EngineEndsFailed(events, k) && !LastIsReview(log, k)
    {
      NodeFailureSeenIff(log, events, k);
    }
    hide EngineEndsFailed, LastIsReview, LogsEngine;
    if SomeEndsFailed(log) {
      var k :| EndsFailed(log, k);
      assert k != "" && EngineEndsFailed(events, k) && !LastIsReview(log, k);
    }
    if k :| k != "" && EngineEndsFailed(events, k) && !LastIsReview(log, k) {
      assert EndsFailed(log, k);
    }
  }

  /** When every decision is recorded before its gate's last engine event, a run ends failed exactly
      when the engine's last event of some node is a failure. */
  lemma FailureIsSeen(log: seq<RunEvent>, events: seq<Event>)
    requires LogsEngine(log, events) && ReviewsFollowed(log)
    ensures SomeEndsFailed(log) <==> exists k :: k != "" && EngineEndsFailed(events, k)
  {
    FailureMissedIff(log, events);
    hide EngineEndsFailed, LogsEngine;
    forall k
      ensures !LastIsReview(log, k)
    {
    }
  }

  /** A gate whose wait is cancelled fails; a decision that comes afterwards is recorded as completed, and
      the run counts as completed. */
  lemma LateReviewExample(g: Id)
    requires g != ""
    ensures var log := [RunEvent(1, g, Running, NoOutput, "", None),
                        RunEvent(2, g, WaitingApproval, NoOutput, "", None),
                        RunEvent(3, g, Failed, NoOutput, "cancelled", None),
                          RunEvent(4, g, Completed, NoOutput, "", Some(true))];
            var events := [Event(1, g, Running, NoOutput, ""), Event(2, g, WaitingApproval, NoOutput, ""),
                           Event(3, g, Failed, NoOutput, "cancelled")];
            LogsEngine(log, events) && EngineEndsFailed(events, g) && !SomeEndsFailed(log)
  {
    var log := [RunEvent(1, g, Running, NoOutput, "", None), RunEvent(2, g, WaitingApproval, NoOutput, "", None),
                RunEvent(3, g, Failed, NoOutput, "cancelled", None),
                  RunEvent(4, g, Completed, NoOutput, "", Some(true))];
    var events := [Event(1, g, Running, NoOutput, ""), Event(2, g, WaitingApproval, NoOutput, ""),
                   Event(3, g, Failed, NoOutput, "cancelled")];
    assert log[..3][..2] == log[..2] && log[..2][..1] == log[..1] && log[..1][..0] == [];
    assert events[..2][..1] == events[..1] && events[..1][..0] == [];
    forall k
      ensures EngineTrace(log, k) == T.Trace(events, k) == if k == g then [Running, WaitingApproval, Failed] else []
    {
      assert EngineTrace(log[..1], k) == T.Trace(events[..1], k) == if k == g then [Running] else [];
      assert EngineTrace(log[..2], k) == T.Trace(events[..2], k) == if k == g then [Running, WaitingApproval] else [];
      assert EngineTrace(log[..3], k) == EngineTrace(log, k);
    }
    forall k
      ensures !EndsFailed(log, k)
    {
      assert log[3].node == g;
    }
  }
}
