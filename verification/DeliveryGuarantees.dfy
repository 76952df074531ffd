/** What the replay loop guarantees in every state it can reach (Valid is established by its
    constructor and kept by every method, so by every run): the theorems about its trace, read as
    statements about the conversations and the stream. */
module DeliveryGuarantees {
  import opened Basics
  import opened Updates
  import opened RedisStream
  import opened DeliveryTrace
  import opened WebhookLoad
  import opened WebhookDelivery

  /** The update persisted at position i. */
  ghost predicate PersistedAt(log: seq<Entry>, i: nat, id: StreamId) {
    i < |log| && log[i].id == id && log[i].update.Some?
  }

  lemma WhereLoaded(d: WebhookDelivery, id: StreamId) returns (i: nat)
    requires d.Valid() && id in d.ledger.loaded
    ensures i < d.read && PersistedAt(d.store.persisted, i, id)
    ensures d.ledger.loaded[id] == WebhookQueueKey(d.store.persisted[i].update.value, id)
  {
    hide Consistent, Legal, After, Refines, Justified, Ascending;
    i :| 0 <= i < d.read && LoadedFrom(id, d.ledger.loaded[id], d.store.persisted[i]);
  }

  lemma IdOrder(log: seq<Entry>, a: nat, b: nat)
    requires Ascending(log) && a < |log| && b < |log|
    ensures log[a].id < log[b].id <==> a < b
    ensures a < b ==> log[a].uid < log[b].uid
  {
  }

  /** End to end: of two accepted updates of one conversation, the one accepted first was persisted
      first and has the smaller update_id. */
  lemma AcceptedInPersistedOrder(d: WebhookDelivery, i: nat, j: nat) returns (a: nat, b: nat)
    requires d.Valid() && i < j < |d.trace| && d.trace[i].Accepted? && d.trace[j].Accepted?
    ensures PersistedAt(d.store.persisted, a, d.trace[i].id) && PersistedAt(d.store.persisted, b, d.trace[j].id)
    ensures SameConversation(d.store.persisted[a].update.value, d.store.persisted[b].update.value) ==>
      a < b && d.store.persisted[a].uid < d.store.persisted[b].uid
    ensures a != b
  {
    AcceptedInOrder(d.trace, i, j);
    hide Consistent, Legal, After, Refines, Justified, Faithful, WebhookQueueKey, Ascending, SameConversation;
    a := WhereLoaded(d, d.trace[i].id);
    b := WhereLoaded(d, d.trace[j].id);
    IdOrder(d.store.persisted, a, b);
    if d.trace[i].id != d.trace[j].id {
      QueueKeysSeparateConversations(d.store.persisted[a].update.value, d.trace[i].id,
                                     d.store.persisted[b].update.value, d.trace[j].id);
    }
  }

  /** When an update is sent, every decodable update persisted before it in its conversation has
      left the stream; and whichever of them this loop ever loaded had been accepted, or given up
      after a day, and then acknowledged, before the send. */
  lemma SentAfterEarlierUpdates(d: WebhookDelivery, i: nat, a: nat, b: nat)
    requires d.Valid() && i < |d.trace| && d.trace[i].Sent? && PersistedAt(d.store.persisted, b, d.trace[i].id)
    requires a < b && d.store.persisted[a].update.Some?
    requires SameConversation(d.store.persisted[a].update.value, d.store.persisted[b].update.value)
    ensures d.store.persisted[a].id in d.store.gone
    ensures d.store.persisted[a].id in d.ledger.loaded ==> SettledAndAcked(d.trace, d.store.persisted[a].id, i)
  {
    hide Consistent, Legal, After, Justified, WebhookQueueKey, SameConversation;
    var id, log := d.store.persisted[a].id, d.store.persisted;
    SentIsLoaded(d, i);
    var b' := WhereLoaded(d, d.trace[i].id);
    IdOrder(log, b, b');
    IdOrder(log, b', b);
    IdOrder(log, a, b);
    QueueKeysSeparateConversations(log[a].update.value, id, log[b].update.value, d.trace[i].id);
    if id in d.ledger.loaded {
      var a' := WhereLoaded(d, id);
      IdOrder(log, a, a');
      IdOrder(log, a', a);
      var settled, acked := SentAfterPredecessors(d.trace, i, id);
      AckedEventRecorded(d.trace, acked);
      AckedNotIndexed(d, id);
    } else {
      NotLoadedNotIndexed(d, id);
    }
  }

  ghost predicate SettledAndAcked(t: seq<Event>, id: StreamId, i: nat) {
    exists settled, acked :: 0 <= settled < acked < i <= |t| && Settles(t[settled], id) && t[acked] == Acked(id)
  }

  lemma SentIsLoaded(d: WebhookDelivery, i: nat)
    requires d.Valid() && i < |d.trace| && d.trace[i].Sent?
    ensures d.trace[i].id in d.ledger.loaded
  {
    hide Consistent, Refines, Justified, Faithful, Ascending;
    LegalAt(d.trace, i);
    Monotone(d.trace, i);
  }

  lemma AckedEventRecorded(t: seq<Event>, k: nat)
    requires Legal(t) && k < |t| && t[k].Acked?
    ensures t[k].id in After(t).acked
  {
    assert t[..k + 1][..k] == t[..k];
    Monotone(t, k + 1);
  }

  lemma AckedNotIndexed(d: WebhookDelivery, id: StreamId)
    requires d.Valid() && id in d.ledger.acked
    ensures id !in d.byID
  {
    hide Legal, After, Refines, Justified, Faithful, Ascending, Indexed, Flags, Sound, Reporting, Aged, Timed;
  }

  lemma NotLoadedNotIndexed(d: WebhookDelivery, id: StreamId)
    requires d.Valid() && id !in d.ledger.loaded
    ensures id !in d.byID
  {
    hide Legal, After, Refines, Justified, Faithful, Ascending, Indexed, Flags, Sound, Reporting, Aged, Timed;
  }

  /** The application accepted the update, or it was given up when more than a day old. */
  ghost predicate Settled(t: seq<Event>, id: StreamId) {
    exists k :: 0 <= k < |t| && Settles(t[k], id)
  }

  /** The loop never asks for an update to be removed from the stream before the application accepted
      it, unless it is more than a day old. */
  lemma RemovalIsJustified(d: WebhookDelivery, id: StreamId) returns (k: nat)
    requires d.Valid() && id in d.store.requested && id !in d.before
    ensures k < |d.trace| && Settles(d.trace[k], id)
    ensures d.trace[k].Expired? ==> d.trace[k].at <= d.clock
    ensures Settled(d.trace, id)
  {
    hide Refines, Faithful, Ascending, Indexed, Books, Flags, Sound, Reporting, Aged;
    k := SettledByEvent(d.trace, id);
    LegalAt(d.trace, k);
    if d.trace[k].Expired? { TimesGrow(d.trace, k); }
  }

  ghost predicate SettledBySome(traces: seq<seq<Event>>, id: StreamId) {
    exists n :: 0 <= n < |traces| && Settled(traces[n], id)
  }

  /** Updates a and b of the stream, in one conversation, a first. */
  ghost predicate Precedes(log: seq<Entry>, a: nat, b: nat) {
    a < b < |log| && log[a].update.Some? && log[b].update.Some?
    && SameConversation(log[a].update.value, log[b].update.value)
  }

  /** Whatever precedes an update that was accepted in the run is gone. */
  ghost predicate Passed(log: seq<Entry>, t: seq<Event>, gone: set<StreamId>) {
    forall i, a: nat, b: nat | 0 <= i < |t| && t[i].Accepted? && Precedes(log, a, b) && log[b].id == t[i].id :: log[a].id in gone
  }

  /** Nothing accepted in the later run precedes anything accepted in the earlier one. */
  ghost predicate InOrderAcross(log: seq<Entry>, earlier: seq<Event>, later: seq<Event>) {
    forall i, j, a: nat, b: nat | 0 <= i < |earlier| && earlier[i].Accepted? && 0 <= j < |later| && later[j].Accepted?
      && Precedes(log, a, b) && log[b].id == earlier[i].id :: log[a].id != later[j].id
  }

  /** When an update was accepted, the earlier ones of its conversation had left the stream. */
  lemma LoopPassed(d: WebhookDelivery)
    requires d.Valid()
    ensures Passed(d.store.persisted, d.trace, d.store.gone)
  {
    hide Consistent, Legal, After, Refines, Justified, Faithful, SameConversation;
    forall i, a: nat, b: nat | 0 <= i < |d.trace| && d.trace[i].Accepted? && Precedes(d.store.persisted, a, b)
      && d.store.persisted[b].id == d.trace[i].id
      ensures d.store.persisted[a].id in d.store.gone
    {
      var k := AcceptedWasSent(d.trace, i);
      SentAfterEarlierUpdates(d, k, a, b);
    }
  }

  /** A loop accepts nothing that was gone when it was made. */
  lemma NothingGoneIsAccepted(d: WebhookDelivery, j: nat)
    requires d.Valid() && j < |d.trace| && d.trace[j].Accepted?
    ensures d.trace[j].id !in d.goneBefore
  {
    hide Consistent, Legal, After, Refines, Justified, Ascending;
    var k := AcceptedWasSent(d.trace, j);
    SentIsLoaded(d, k);
  }

  lemma LaterLoopInOrder(d: WebhookDelivery, earlier: seq<Event>)
    requires d.Valid() && Passed(d.store.persisted, earlier, d.goneBefore)
    ensures InOrderAcross(d.store.persisted, earlier, d.trace)
  {
    hide Consistent, Legal, After, Refines, Justified, Faithful, Ascending, SameConversation;
    forall j | 0 <= j < |d.trace| && d.trace[j].Accepted? ensures d.trace[j].id !in d.goneBefore {
      NothingGoneIsAccepted(d, j);
    }
  }

  /** A loop on this stream whose events are `t`. */
  ghost predicate Recording(d: WebhookDelivery, store: Stream, t: seq<Event>)
    reads d
  {
    d.store == store && d.trace == t && d.Recorded()
  }

  lemma RecordsOn(d: WebhookDelivery)
    requires d.Valid()
    ensures Recording(d, d.store, d.trace)
  {
    hide Consistent, Legal, After, Refines, Justified, Faithful, Ascending;
  }

  /** Restarts lose nothing and reorder nothing: however often the loop is stopped and replaced by a
      fresh one, with any number of connections, whatever the loops together asked to remove from the
      stream had been accepted in one of them, or given up when more than a day old; and no update
      accepted by a later loop precedes, in its conversation, one accepted by an earlier loop. */
  method ReplayAcrossRestarts(store: Stream, restarts: nat)
    returns (ghost loops: seq<WebhookDelivery>, ghost traces: seq<seq<Event>>)
    requires store.Valid() && store.requested == {}
    modifies store
    ensures store.Valid() && |traces| == |loops| == restarts
    ensures forall n | 0 <= n < |loops| :: Recording(loops[n], store, traces[n]) && fresh(loops[n])
    ensures forall id | id in store.requested :: SettledBySome(traces, id)
    ensures forall m, n | 0 <= m < n < |traces| :: InOrderAcross(store.persisted, traces[m], traces[n])
  {
    hide Legal, After, Settled, Ascending, Consistent, Refines, Justified, Faithful, Passed, InOrderAcross, Recording;
    loops, traces := [], [];
    for n := 0 to restarts
      invariant store.Valid() && |traces| == |loops| == n
      invariant forall m | 0 <= m < n :: Recording(loops[m], store, traces[m]) && fresh(loops[m])
      invariant forall m | 0 <= m < n :: Legal(traces[m]) && Passed(store.persisted, traces[m], store.gone)
      invariant forall id | id in store.requested :: SettledBySome(traces, id)
      invariant forall m, k | 0 <= m < k < n :: InOrderAcross(store.persisted, traces[m], traces[k])
    {
      ghost var gone := store.gone;
      store.Elapse();
      var maxConnections: int := *;
      var turns: nat :| turns >= 0;
      var loop := new WebhookDelivery(store, maxConnections);
      loop.Run(turns);
      LoopPassed(loop);
      forall m | 0 <= m < n
        ensures Passed(store.persisted, traces[m], store.gone) && InOrderAcross(store.persisted, traces[m], loop.trace)
      {
        PassedLater(store.persisted, traces[m], gone, loop.goneBefore);
        PassedLater(store.persisted, traces[m], gone, store.gone);
        LaterLoopInOrder(loop, traces[m]);
      }
      traces := OneMoreTrace(store, traces, loop);
      RecordsOn(loop);
      loops := loops + [loop];
    }
  }

  lemma PassedLater(log: seq<Entry>, t: seq<Event>, gone: set<StreamId>, gone': set<StreamId>)
    requires Passed(log, t, gone) && gone <= gone'
    ensures Passed(log, t, gone')
  {
    hide Precedes;
  }

  lemma OneMoreTrace(store: Stream, traces: seq<seq<Event>>, loop: WebhookDelivery) returns (all: seq<seq<Event>>)
    requires loop.Valid() && loop.store == store
    requires forall id | id in loop.before :: SettledBySome(traces, id)
    ensures all == traces + [loop.trace]
    ensures forall id | id in store.requested :: SettledBySome(all, id)
  {
    hide Legal, After, Settled, Ascending, Consistent, Refines, Justified, Faithful;
    all := traces + [loop.trace];
    forall id | id in store.requested ensures SettledBySome(all, id) {
      if id in loop.before {
        var m :| 0 <= m < |traces| && Settled(traces[m], id);
        assert all[m] == traces[m];
      } else {
        var _ := RemovalIsJustified(loop, id);
        assert all[|traces|] == loop.trace;
      }
    }
  }

  /** The loop obeys its backoff and the age limit, in every run: after the f-th failure of an update
      nothing is tried with it before the f-th retry delay has passed, and what it sends was not a day
      old when its dispatch began. */
  lemma SentInTime(d: WebhookDelivery, i: nat, j: nat)
    requires d.Valid() && j < |d.trace| && d.trace[j].Sent?
    ensures d.trace[j].checked <= d.trace[j].at && d.trace[j].checked - StreamMillis(d.trace[j].id) <= 86400000
    ensures i < j && d.trace[i].id == d.trace[j].id && (d.trace[i].Failed? || d.trace[i].AckFailed?) ==>
      var f := FailureCount(d.trace[..i + 1], d.trace[i].id);
      f > 0 && d.trace[j].checked >= d.trace[i].at + RetryDelay(f)
  {
    hide Consistent, After, Refines, Justified, Faithful, Ascending, RetryDelay;
    NeverSentOld(d.trace, j);
    if i < j && d.trace[i].id == d.trace[j].id && (d.trace[i].Failed? || d.trace[i].AckFailed?) {
      BacksOff(d.trace, i, j);
    }
  }

  /** A fresh loop finds everything again: unless a read fails or its context is done, its first load
      has every decodable entry that is still in the stream, or 1000 of them, if and only if its last
      page was not cut short; and from a stream that stays as it is it takes exactly `Taken`. */
  method FirstLoad(store: Stream, maxConnections: int)
    returns (loop: WebhookDelivery, failed: bool, ghost waiting: seq<Entry>, ghost loaded: nat, ghost from: nat)
    requires store.Valid()
    modifies store
    ensures loop.Valid() && loop.store == store
    ensures !failed && !loop.cancelled ==>
      (|loop.byID| == WEBHOOK_MAX_LOADED || AllLoaded(loop.read, loop.byID, store.persisted, store.visible, store.gone)
       <==> !CutShort(waiting, loaded))
    ensures !failed && !loop.cancelled ==>
      LastPageWas(waiting, loaded, from, loop.read, store.persisted, store.visible, store.gone, |loop.byID|)
    ensures !failed && !loop.cancelled && store.visible == old(store.visible) && store.gone == old(store.gone) ==>
      var ahead := LiveAfter(store.persisted, 0, store.visible, store.gone);
      Loads(ahead, 0, Taken(ahead, 0), LiveAfter(store.persisted, loop.read, store.visible, store.gone), |loop.byID|)
  {
    hide Legal, After, Ascending, Consistent, Refines, Justified, Faithful, AllLoaded, CutShort, LiveAfter, Taken, Loads, LastPageWas;
    loop := new WebhookDelivery(store, maxConnections);
    failed, waiting, loaded, from := loop.Load();
  }

  /** byID is exactly the disjoint union of the queues, each non-empty and in stream order, with at
      most 1000 entries in all. */
  lemma IndexIsUnionOfQueues(d: WebhookDelivery)
    requires d.Valid()
    ensures |d.byID| <= 1000
    ensures forall id | id in d.byID :: d.byID[id].queue in d.queues && id in d.queues[d.byID[id].queue]
    ensures forall k, i | k in d.queues && 0 <= i < |d.queues[k]| ::
      d.queues[k][i] in d.byID && d.byID[d.queues[k][i]].queue == k && d.queues[k][i] <= d.tail
    ensures forall k | k in d.queues :: d.queues[k] != []
    ensures forall k, i, j | k in d.queues && 0 <= i < j < |d.queues[k]| :: d.queues[k][i] < d.queues[k][j]
  {
    hide Legal, After, Refines, Justified, Faithful, Ascending, Books, Flags, Sound, Reporting, Aged, Timed;
    forall id | id in d.byID ensures d.byID[id].queue in d.queues && id in d.queues[d.byID[id].queue] {
      assert Queued(d.queues, d.byID[id]);
    }
    forall k | k in d.queues
      ensures d.queues[k] != []
      ensures forall i | 0 <= i < |d.queues[k]| :: d.queues[k][i] in d.byID && d.byID[d.queues[k][i]].queue == k && d.queues[k][i] <= d.tail
      ensures forall i, j | 0 <= i < j < |d.queues[k]| :: d.queues[k][i] < d.queues[k][j]
    {
      assert QueueOk(d.queues[k], k, d.byID);
    }
  }

  /** The index refines the stream: everything decodable at or before the tail that is still there is
      loaded, and everything loaded was persisted at or before the tail. */
  lemma IndexRefinesStream(d: WebhookDelivery)
    requires d.Valid()
    ensures forall i | 0 <= i < d.store.visible && d.store.persisted[i].id <= d.tail
      && d.store.persisted[i].update.Some? && d.store.persisted[i].id !in d.store.gone :: d.store.persisted[i].id in d.byID
    ensures forall id | id in d.byID :: exists i :: 0 <= i < d.store.visible && Represents(d.byID[id], d.store.persisted[i])
  {
    hide Consistent, Legal, After, Justified, Faithful, Represents;
    forall i | 0 <= i < d.store.visible && d.store.persisted[i].id <= d.tail ensures i < d.read {
      if d.read > 0 { IdOrder(d.store.persisted, d.read - 1, i); }
    }
    forall id | id in d.byID ensures exists i :: 0 <= i < d.store.visible && Represents(d.byID[id], d.store.persisted[i]) {
      var i :| 0 <= i < d.read && Represents(d.byID[id], d.store.persisted[i]);
    }
  }

  ghost function InFlight(byID: Index): set<StreamId> {
    set id | id in byID && byID[id].inFlight
  }

  /** Flow accounting: the counter counts the entries in flight, at most maxConns; only heads are in
      flight; and while the context is live each of them is either with the dispatcher or has its
      one result in the channel. */
  lemma FlowAccounting(d: WebhookDelivery)
    requires d.Valid()
    ensures d.inFlight == |InFlight(d.byID)| <= d.maxConns
    ensures forall id | id in InFlight(d.byID) :: IsHead(d.queues, d.byID, id)
    ensures forall i | 0 <= i < |d.results| :: d.results[i].id in InFlight(d.byID) && d.results[i].id !in d.outstanding
    ensures forall i, j | 0 <= i < j < |d.results| :: d.results[i].id != d.results[j].id
    ensures |d.results| + |d.outstanding| <= d.inFlight
    ensures !d.cancelled ==> |d.results| + |d.outstanding| == d.inFlight
  {
    hide Legal, After, Refines, Justified, Faithful, Ascending, Indexed, Sound, Aged, Timed, IsHead;
    assert InFlight(d.byID) == d.ledger.flying;
  }
}
