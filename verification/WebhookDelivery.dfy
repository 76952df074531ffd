/** The webhook replay loop: an in-memory index over the persistent stream from which the head of
    every chat queue is sent, retried, and removed once delivered. Times are in milliseconds. */
module WebhookDelivery {
  import opened Basics
  import opened Updates
  import opened RedisStream
  import opened DeliveryTrace
  import opened WebhookLoad

  const DEFAULT_WEBHOOK_CONNECTIONS: nat := 40
  const MAX_WEBHOOK_CONNECTIONS: nat := 100
  const MIN_SLEEP: nat := 10

  function NormalizeWebhookConnections(n: int): (r: nat)
    ensures 1 <= r <= 100 && (1 <= n <= 100 ==> r == n) && (n > 100 ==> r == 100) && (n <= 0 ==> r == 40)
  {
    if n <= 0 then DEFAULT_WEBHOOK_CONNECTIONS else Min(n, MAX_WEBHOOK_CONNECTIONS)
  }

  datatype WebhookResult = WebhookResult(id: StreamId, ok: bool)

  /** A stream entry loaded for delivery. */
  datatype Pending = Pending(id: StreamId, queue: string, update: Update, createdAt: int,
                             inFlight: bool, delivered: bool, failures: nat, retryAt: int)

  function NewPending(id: StreamId, update: Update): Pending {
    Pending(id, WebhookQueueKey(update, id), update, StreamMillis(id), false, false, 0, 0)
  }

  function Retry(p: Pending, now: int): Pending {
    p.(inFlight := false, failures := p.failures + 1, retryAt := now + RetryDelay(p.failures + 1))
  }

  type Queues = map<string, seq<StreamId>>
  type Index = map<StreamId, Pending>

  // ---------- What the index promises ----------

  ghost predicate IsHead(queues: Queues, byID: Index, id: StreamId) {
    id in byID && byID[id].queue in queues && queues[byID[id].queue] != [] && queues[byID[id].queue][0] == id
  }

  /** A queue is non-empty, in stream order, and holds entries of the index that belong to it. */
  ghost predicate QueueOk(q: seq<StreamId>, k: string, byID: Index) {
    && q != []
    && (forall i | 0 <= i < |q| :: q[i] in byID && byID[q[i]].queue == k)
    && (forall i, j | 0 <= i < j < |q| :: q[i] < q[j])
  }

  ghost predicate Queued(queues: Queues, p: Pending) {
    p.queue in queues && p.id in queues[p.queue]
  }

  /** byID is the disjoint union of the queues. */
  ghost predicate Indexed(queues: Queues, byID: Index, tail: StreamId) {
    && (forall k | k in queues :: QueueOk(queues[k], k, byID))
    && (forall id | id in byID :: byID[id].id == id && id <= tail && Queued(queues, byID[id]))
  }

  function QueueOf(queues: Queues, k: string): seq<StreamId> {
    if k in queues then queues[k] else []
  }

  lemma QueueTransfers(q: seq<StreamId>, k: string, byID: Index, byID': Index)
    requires QueueOk(q, k, byID)
    requires forall id | id in byID :: id in byID' && byID'[id].queue == byID[id].queue
    ensures QueueOk(q, k, byID')
  {
  }

  lemma AppendQueue(q: seq<StreamId>, byID: Index, p: Pending)
    requires q == [] || QueueOk(q, p.queue, byID)
    requires forall id | id in byID :: id < p.id
    ensures QueueOk(q + [p.id], p.queue, byID[p.id := p])
  {
  }

  lemma AppendIndexed(queues: Queues, byID: Index, tail: StreamId, p: Pending)
    requires Indexed(queues, byID, tail) && tail < p.id
    ensures Indexed(queues[p.queue := QueueOf(queues, p.queue) + [p.id]], byID[p.id := p], p.id)
  {
    var q, byID' := QueueOf(queues, p.queue), byID[p.id := p];
    var queues' := queues[p.queue := q + [p.id]];
    hide QueueOk;
    forall k | k in queues && k != p.queue ensures QueueOk(queues[k], k, byID') {
      QueueTransfers(queues[k], k, byID, byID');
    }
    AppendQueue(q, byID, p);
    assert (q + [p.id])[|q|] == p.id;
    forall id | id in byID ensures Queued(queues', byID[id]) {
      assert Queued(queues, byID[id]);
    }
  }

  function WithoutHead(queues: Queues, k: string): Queues
    requires k in queues && queues[k] != []
  {
    if |queues[k]| == 1 then queues - {k} else queues[k := queues[k][1..]]
  }

  lemma PopIndexed(queues: Queues, byID: Index, tail: StreamId, id: StreamId)
    requires Indexed(queues, byID, tail) && IsHead(queues, byID, id)
    ensures Indexed(WithoutHead(queues, byID[id].queue), byID - {id}, tail)
  {
    var key := byID[id].queue;
    var queues', byID' := WithoutHead(queues, key), byID - {id};
    assert QueueOk(queues[key], key, byID);
    forall k | k in queues' ensures QueueOk(queues'[k], k, byID') {
      assert QueueOk(queues[k], k, byID);
    }
    forall j | j in byID && j != id ensures Queued(queues', byID[j]) {
      assert Queued(queues, byID[j]);
      var q := queues[byID[j].queue];
      var i :| 0 <= i < |q| && q[i] == j;
      if byID[j].queue == key {
        assert i > 0 && q[1..][i - 1] == j;
      }
    }
  }

  /** Nothing of the same queue is before a head. */
  lemma HeadIsFirst(queues: Queues, byID: Index, tail: StreamId, id: StreamId, j: StreamId)
    requires Indexed(queues, byID, tail) && IsHead(queues, byID, id) && j in byID && byID[j].queue == byID[id].queue
    ensures id <= j
  {
    assert Queued(queues, byID[j]) && QueueOk(queues[byID[id].queue], byID[id].queue, byID);
    var i :| 0 <= i < |queues[byID[id].queue]| && queues[byID[id].queue][i] == j;
  }

  /** The ledger of the run and the index tell the same story: what was loaded and not removed is
      in the index, its flags repeat the ledger, and only heads are ever in flight or settled. */
  ghost predicate Books(l: Ledger, queues: Queues, byID: Index, tail: StreamId) {
    && l.loaded.Keys == byID.Keys + l.acked && byID.Keys !! l.acked
    && (forall id | id in byID :: l.loaded[id] == byID[id].queue)
    && (forall id | id in l.loaded :: id <= tail)
    && l.flying <= byID.Keys
    && (forall id | id in byID && (id in l.flying || id in l.accepted || id in l.expired) :: IsHead(queues, byID, id))
  }

  ghost predicate Flags(byID: Index, l: Ledger) {
    forall id | id in byID :: (byID[id].inFlight <==> id in l.flying) && (byID[id].delivered <==> id in l.accepted)
  }

  /** Whatever was given up is, and stays, older than a day. */
  ghost predicate Aged(byID: Index, expired: set<StreamId>, now: int) {
    forall id | id in byID && id in expired :: now - byID[id].createdAt > UPDATE_TTL
  }

  /** Every entry is as old as its stream ID says, and has failed, and waits, as the ledger says. */
  ghost predicate Timed(byID: Index, l: Ledger, clock: int) {
    && l.time <= clock
    && forall id | id in byID ::
         byID[id].createdAt == StreamMillis(id) && byID[id].failures == Failures(l, id) && byID[id].retryAt == RetryAt(l, id)
  }

  // ---------- The results channel ----------

  /** Every task in flight is with the dispatcher or has its one result in the channel; after the
      context is cancelled reports may be lost, but none is ever made up. */
  ghost predicate Reporting(results: seq<WebhookResult>, outstanding: set<StreamId>, flying: set<StreamId>, cancelled: bool) {
    && (forall i, j | 0 <= i < j < |results| :: results[i].id != results[j].id)
    && (forall i | 0 <= i < |results| :: results[i].id in flying && results[i].id !in outstanding)
    && outstanding <= flying
    && |results| + |outstanding| <= |flying|
    && (!cancelled ==> |results| + |outstanding| == |flying|)
  }

  lemma ReceiveReport(results: seq<WebhookResult>, outstanding: set<StreamId>, flying: set<StreamId>, cancelled: bool)
    requires Reporting(results, outstanding, flying, cancelled) && results != []
    ensures Reporting(results[1..], outstanding, flying - {results[0].id}, cancelled)
  {
  }

  // ---------- The state of the loop, and how each of its moves keeps it consistent ----------

  /** The loop's fields, with the ledger of what it did. */
  datatype State = State(queues: Queues, byID: Index, tail: StreamId, inFlight: int, results: seq<WebhookResult>,
                         outstanding: set<StreamId>, cancelled: bool, clock: int, ledger: Ledger)

  ghost predicate Consistent(s: State, maxConns: nat) {
    && Indexed(s.queues, s.byID, s.tail) && |s.byID| <= WEBHOOK_MAX_LOADED
    && Sound(s.ledger) && Books(s.ledger, s.queues, s.byID, s.tail) && Flags(s.byID, s.ledger)
    && s.inFlight == |s.ledger.flying| <= maxConns
    && Reporting(s.results, s.outstanding, s.ledger.flying, s.cancelled)
    && Aged(s.byID, s.ledger.expired, s.clock) && Timed(s.byID, s.ledger, s.clock)
  }

  ghost predicate SamePlace(byID: Index, p: Pending) {
    p.id in byID && p.queue == byID[p.id].queue && p.createdAt == byID[p.id].createdAt
  }

  /** Changing an entry's flags changes neither its place nor its age. */
  lemma TouchKeepsIndexed(queues: Queues, byID: Index, tail: StreamId, p: Pending)
    requires Indexed(queues, byID, tail) && SamePlace(byID, p)
    ensures Indexed(queues, byID[p.id := p], tail) && |byID[p.id := p]| == |byID|
  {
    var byID' := byID[p.id := p];
    hide QueueOk;
    assert byID'.Keys == byID.Keys;
    forall k | k in queues ensures QueueOk(queues[k], k, byID') {
      QueueTransfers(queues[k], k, byID, byID');
    }
    forall id | id in byID' ensures Queued(queues, byID'[id]) {
      assert Queued(queues, byID[id]);
    }
  }

  lemma TouchKeepsBooks(queues: Queues, byID: Index, tail: StreamId, l: Ledger, p: Pending)
    requires Books(l, queues, byID, tail) && SamePlace(byID, p)
    ensures Books(l, queues, byID[p.id := p], tail)
  {
    var byID' := byID[p.id := p];
    assert byID'.Keys == byID.Keys;
    forall id | id in byID' && (id in l.flying || id in l.accepted || id in l.expired) ensures IsHead(queues, byID', id) {
      assert IsHead(queues, byID, id);
    }
  }

  lemma TouchKeepsAged(byID: Index, expired: set<StreamId>, now: int, now': int, p: Pending)
    requires Aged(byID, expired, now) && SamePlace(byID, p) && now <= now'
    ensures Aged(byID[p.id := p], expired, now')
  {
  }

  lemma TouchKeepsFlags(byID: Index, l: Ledger, l': Ledger, p: Pending)
    requires Flags(byID, l)
    requires forall id | id != p.id :: (id in l'.flying <==> id in l.flying) && (id in l'.accepted <==> id in l.accepted)
    requires (p.inFlight <==> p.id in l'.flying) && (p.delivered <==> p.id in l'.accepted)
    ensures Flags(byID[p.id := p], l')
  {
  }

  /** Changes that are no failures leave the times. */
  lemma TouchKeepsTimed(byID: Index, l: Ledger, l': Ledger, clock: int, p: Pending)
    requires Timed(byID, l, clock) && SamePlace(byID, p) && l'.attempts == l.attempts && l'.time <= clock
    requires p.failures == byID[p.id].failures && p.retryAt == byID[p.id].retryAt
    ensures Timed(byID[p.id := p], l', clock)
  {
  }

  /** A failure is counted, and schedules the next try. */
  lemma RetryKeepsTimed(byID: Index, l: Ledger, l': Ledger, clock: int, id: StreamId, now: int)
    requires Timed(byID, l, clock) && id in byID && clock <= now
    requires l'.attempts == OneMoreFailure(l, id, now).attempts && l'.time == now
    ensures Timed(byID[id := Retry(byID[id], now)], l', now)
  {
    hide RetryDelay;
  }

  lemma DropKeepsTimed(byID: Index, l: Ledger, clock: int, id: StreamId)
    requires Timed(byID, l, clock)
    ensures Timed(byID - {id}, Record(l, Acked(id)), clock)
  {
  }

  lemma LoadKeepsTimed(byID: Index, l: Ledger, clock: int, p: Pending)
    requires Timed(byID, l, clock) && p.id !in l.attempts
    requires p.createdAt == StreamMillis(p.id) && p.failures == 0 && p.retryAt == 0
    ensures Timed(byID[p.id := p], Record(l, Loaded(p.id, p.queue)), clock)
  {
  }

  /** Sends and reports of a head keep the books. */
  lemma EventKeepsBooks(queues: Queues, byID: Index, tail: StreamId, l: Ledger, e: Event)
    requires Books(l, queues, byID, tail) && IsHead(queues, byID, e.id) && !e.Loaded? && !e.Acked?
    ensures Books(Record(l, e), queues, byID, tail)
  {
    assert e.id in byID;
  }

  function AfterRetry(s: State, id: StreamId, now: int): State
    requires id in s.byID
  {
    s.(byID := s.byID[id := Retry(s.byID[id], now)], clock := now, ledger := Record(s.ledger, AckFailed(id, now)))
  }

  function AfterAck(s: State, id: StreamId): State
    requires id in s.byID && s.byID[id].queue in s.queues && s.queues[s.byID[id].queue] != []
  {
    s.(queues := WithoutHead(s.queues, s.byID[id].queue), byID := s.byID - {id}, ledger := Record(s.ledger, Acked(id)))
  }

  /** The next result is taken from the channel and recorded; a failure schedules a retry. */
  function AfterResult(s: State, now: int): State
    requires s.results != [] && s.results[0].id in s.byID
  {
    var r, p := s.results[0], s.byID[s.results[0].id];
    var s' := s.(results := s.results[1..], inFlight := s.inFlight - 1);
    if r.ok then s'.(byID := s.byID[r.id := p.(inFlight := false, delivered := true)], ledger := Record(s.ledger, Accepted(r.id)))
    else s'.(byID := s.byID[r.id := Retry(p, now)], clock := now, ledger := Record(s.ledger, Failed(r.id, now)))
  }

  /** The entry is marked in flight and its task is with the dispatcher. */
  function AfterSend(s: State, id: StreamId, checked: int): State
    requires id in s.byID
  {
    s.(byID := s.byID[id := s.byID[id].(inFlight := true)], inFlight := s.inFlight + 1,
       outstanding := s.outstanding + {id}, ledger := Record(s.ledger, Sent(id, s.clock, checked)))
  }

  /** The dispatcher reports on a task it holds. */
  function AfterReport(s: State, r: WebhookResult): State {
    s.(results := s.results + [r], outstanding := s.outstanding - {r.id})
  }

  function AfterLoad(s: State, p: Pending): State {
    s.(queues := s.queues[p.queue := QueueOf(s.queues, p.queue) + [p.id]], byID := s.byID[p.id := p], tail := p.id,
       ledger := Record(s.ledger, Loaded(p.id, p.queue)))
  }

  lemma FlyingIsHead(s: State, maxConns: nat, id: StreamId)
    requires Consistent(s, maxConns) && id in s.ledger.flying
    ensures IsHead(s.queues, s.byID, id) && id in s.byID && s.byID[id].id == id && s.byID[id].inFlight
    ensures id !in s.ledger.accepted
  {
  }

  lemma HeadFacts(s: State, maxConns: nat, id: StreamId)
    requires Consistent(s, maxConns) && IsHead(s.queues, s.byID, id)
    ensures id in s.byID && s.byID[id].id == id && s.byID[id].queue in s.queues && s.queues[s.byID[id].queue] != []
    ensures (s.byID[id].inFlight <==> id in s.ledger.flying) && (s.byID[id].delivered <==> id in s.ledger.accepted)
    ensures id in s.ledger.loaded && id !in s.ledger.acked
  {
  }

  lemma RetryConsistent(s: State, maxConns: nat, id: StreamId, now: int)
    requires Consistent(s, maxConns) && IsHead(s.queues, s.byID, id) && now >= s.clock
    requires !s.byID[id].inFlight && (s.byID[id].delivered || id in s.ledger.expired) && s.byID[id].retryAt <= now
    ensures Allowed(s.ledger, AckFailed(id, now)) && Consistent(AfterRetry(s, id, now), maxConns)
    ensures Retry(s.byID[id], now).retryAt > now
  {
    HeadFacts(s, maxConns, id);
    var p := Retry(s.byID[id], now);
    RetryDelays(s.byID[id].failures + 1);
    AckFailedAllowed(s, maxConns, id, now);
    hide Indexed, Books, Flags, Sound, Reporting, Aged, Timed, RetryDelay, IsHead, Allowed;
    SoundStep(s.ledger, AckFailed(id, now));
    TouchKeepsIndexed(s.queues, s.byID, s.tail, p);
    EventKeepsBooks(s.queues, s.byID, s.tail, s.ledger, AckFailed(id, now));
    TouchKeepsBooks(s.queues, s.byID, s.tail, Record(s.ledger, AckFailed(id, now)), p);
    TouchKeepsAged(s.byID, s.ledger.expired, s.clock, now, p);
    TouchKeepsFlags(s.byID, s.ledger, Record(s.ledger, AckFailed(id, now)), p);
    RetryKeepsTimed(s.byID, s.ledger, Record(s.ledger, AckFailed(id, now)), s.clock, id, now);
  }

  lemma AckFailedAllowed(s: State, maxConns: nat, id: StreamId, now: int)
    requires Consistent(s, maxConns) && IsHead(s.queues, s.byID, id) && now >= s.clock
    requires !s.byID[id].inFlight && (s.byID[id].delivered || id in s.ledger.expired) && s.byID[id].retryAt <= now
    ensures Allowed(s.ledger, AckFailed(id, now))
  {
    hide Indexed, Reporting, Aged, Sound, RetryAt;
  }

  lemma AckKeepsBooks(l: Ledger, queues: Queues, byID: Index, tail: StreamId, id: StreamId)
    requires Books(l, queues, byID, tail) && IsHead(queues, byID, id) && id !in l.flying
    ensures Books(Record(l, Acked(id)), WithoutHead(queues, byID[id].queue), byID - {id}, tail)
  {
    var queues', byID' := WithoutHead(queues, byID[id].queue), byID - {id};
    assert byID'.Keys == byID.Keys - {id};
    forall j | j in byID' && (j in l.flying || j in l.accepted || j in l.expired) ensures IsHead(queues', byID', j) {
      assert IsHead(queues, byID, j);
    }
  }

  lemma DropKeepsRest(byID: Index, l: Ledger, now: int, id: StreamId)
    requires Flags(byID, l) && Aged(byID, l.expired, now)
    ensures Flags(byID - {id}, Record(l, Acked(id))) && Aged(byID - {id}, l.expired, now)
    ensures |byID - {id}| <= |byID|
  {
    assert (byID - {id}).Keys == byID.Keys - {id};
    assert |byID.Keys - {id}| <= |byID.Keys|;
  }

  lemma AckConsistent(s: State, maxConns: nat, id: StreamId)
    requires Consistent(s, maxConns) && IsHead(s.queues, s.byID, id)
    requires !s.byID[id].inFlight && (s.byID[id].delivered || id in s.ledger.expired)
    ensures Allowed(s.ledger, Acked(id)) && Consistent(AfterAck(s, id), maxConns)
  {
    HeadFacts(s, maxConns, id);
    hide Indexed, Books, Flags, Sound, Reporting, Aged, Timed, IsHead;
    PopIndexed(s.queues, s.byID, s.tail, id);
    SoundStep(s.ledger, Acked(id));
    AckKeepsBooks(s.ledger, s.queues, s.byID, s.tail, id);
    DropKeepsRest(s.byID, s.ledger, s.clock, id);
    DropKeepsTimed(s.byID, s.ledger, s.clock, id);
  }

  /** The guard that ignores a result for an unknown or idle update never fires: a result always
      belongs to an entry in flight at the head of its queue. */
  lemma ResultConsistent(s: State, maxConns: nat, now: int)
    requires Consistent(s, maxConns) && s.results != [] && now >= s.clock
    ensures var r := s.results[0];
      && r.id in s.byID && s.byID[r.id].inFlight && IsHead(s.queues, s.byID, r.id)
      && Allowed(s.ledger, if r.ok then Accepted(r.id) else Failed(r.id, now))
      && s.byID[r.id].retryAt <= s.clock
      && Consistent(AfterResult(s, now), maxConns)
  {
    hide Indexed, Books, Flags, Sound, Reporting, Aged, Timed, RetryDelay, IsHead;
    var r := s.results[0];
    FirstResultFlies(s, maxConns);
    FlyingIsHead(s, maxConns, r.id);
    HeadFacts(s, maxConns, r.id);
    var e := if r.ok then Accepted(r.id) else Failed(r.id, now);
    var p := if r.ok then s.byID[r.id].(inFlight := false, delivered := true) else Retry(s.byID[r.id], now);
    SoundStep(s.ledger, e);
    ReceiveReport(s.results, s.outstanding, s.ledger.flying, s.cancelled);
    TouchKeepsIndexed(s.queues, s.byID, s.tail, p);
    EventKeepsBooks(s.queues, s.byID, s.tail, s.ledger, e);
    TouchKeepsBooks(s.queues, s.byID, s.tail, Record(s.ledger, e), p);
    TouchKeepsAged(s.byID, s.ledger.expired, s.clock, if r.ok then s.clock else now, p);
    TouchKeepsFlags(s.byID, s.ledger, Record(s.ledger, e), p);
    if r.ok {
      TouchKeepsTimed(s.byID, s.ledger, Record(s.ledger, e), s.clock, p);
    } else {
      RetryKeepsTimed(s.byID, s.ledger, Record(s.ledger, e), s.clock, r.id, now);
    }
  }

  lemma FirstResultFlies(s: State, maxConns: nat)
    requires Consistent(s, maxConns) && s.results != []
    ensures s.results[0].id in s.ledger.flying && s.ledger.time <= s.clock
    ensures s.results[0].id in s.byID && s.byID[s.results[0].id].retryAt <= s.clock
  {
  }

  /** A send may only be dispatched for a ready head that is not a day old. */
  ghost predicate Ready(p: Pending, checked: int, clock: int) {
    p.retryAt <= checked <= clock && checked - p.createdAt <= UPDATE_TTL
  }

  lemma SendAllowed(s: State, maxConns: nat, id: StreamId, checked: int)
    requires Consistent(s, maxConns) && IsHead(s.queues, s.byID, id) && Ready(s.byID[id], checked, s.clock)
    requires !s.byID[id].inFlight && !s.byID[id].delivered && id !in s.ledger.expired
    ensures Allowed(s.ledger, Sent(id, s.clock, checked))
  {
    HeadFacts(s, maxConns, id);
    hide RetryAt, StreamMillis;
    forall j | Ahead(s.ledger, j, id) ensures j in s.ledger.acked {
      if j in s.byID { HeadIsFirst(s.queues, s.byID, s.tail, id, j); }
    }
  }

  lemma SendReported(results: seq<WebhookResult>, outstanding: set<StreamId>, flying: set<StreamId>, cancelled: bool, id: StreamId)
    requires Reporting(results, outstanding, flying, cancelled) && id !in flying
    ensures Reporting(results, outstanding + {id}, flying + {id}, cancelled)
  {
  }

  lemma SendConsistent(s: State, maxConns: nat, id: StreamId, checked: int)
    requires Consistent(s, maxConns) && IsHead(s.queues, s.byID, id) && s.inFlight < maxConns
    requires !s.byID[id].inFlight && !s.byID[id].delivered && id !in s.ledger.expired
    requires Ready(s.byID[id], checked, s.clock)
    ensures Allowed(s.ledger, Sent(id, s.clock, checked)) && Consistent(AfterSend(s, id, checked), maxConns)
  {
    hide Indexed, Books, Flags, Sound, Reporting, Aged, Timed, IsHead, Allowed, Ready;
    SendAllowed(s, maxConns, id, checked);
    HeadFacts(s, maxConns, id);
    var p, e := s.byID[id].(inFlight := true), Sent(id, s.clock, checked);
    SoundStep(s.ledger, e);
    SendReported(s.results, s.outstanding, s.ledger.flying, s.cancelled, id);
    TouchKeepsIndexed(s.queues, s.byID, s.tail, p);
    EventKeepsBooks(s.queues, s.byID, s.tail, s.ledger, e);
    TouchKeepsBooks(s.queues, s.byID, s.tail, Record(s.ledger, e), p);
    TouchKeepsAged(s.byID, s.ledger.expired, s.clock, s.clock, p);
    TouchKeepsFlags(s.byID, s.ledger, Record(s.ledger, e), p);
    TouchKeepsTimed(s.byID, s.ledger, Record(s.ledger, e), s.clock, p);
  }

  lemma ReportFits(results: seq<WebhookResult>, outstanding: set<StreamId>, flying: set<StreamId>, cancelled: bool, r: WebhookResult)
    requires Reporting(results, outstanding, flying, cancelled) && r.id in outstanding
    ensures |results| < |flying|
    ensures Reporting(results + [r], outstanding - {r.id}, flying, cancelled)
    ensures cancelled ==> Reporting(results, outstanding - {r.id}, flying, cancelled)
  {
    assert outstanding == (outstanding - {r.id}) + {r.id};
  }

  /** A report on an outstanding task always fits into a channel of maxConns places. */
  lemma ReportConsistent(s: State, maxConns: nat, r: WebhookResult)
    requires Consistent(s, maxConns) && r.id in s.outstanding
    ensures |s.results| < maxConns && Consistent(AfterReport(s, r), maxConns)
    ensures s.cancelled ==> Consistent(s.(outstanding := s.outstanding - {r.id}), maxConns)
  {
    hide Indexed, Books, Flags, Sound, Reporting, Aged, Timed;
    ReportFits(s.results, s.outstanding, s.ledger.flying, s.cancelled, r);
  }

  lemma ExpireAllowed(s: State, maxConns: nat, id: StreamId, checked: int)
    requires Consistent(s, maxConns) && IsHead(s.queues, s.byID, id) && checked <= s.clock
    requires !s.byID[id].inFlight && !s.byID[id].delivered && checked - s.byID[id].createdAt > UPDATE_TTL
    ensures Allowed(s.ledger, Expired(id, s.clock, checked))
  {
    HeadFacts(s, maxConns, id);
    hide StreamMillis;
  }

  lemma ExpireConsistent(s: State, maxConns: nat, id: StreamId, checked: int)
    requires Consistent(s, maxConns) && IsHead(s.queues, s.byID, id) && checked <= s.clock
    requires !s.byID[id].inFlight && !s.byID[id].delivered && checked - s.byID[id].createdAt > UPDATE_TTL
    ensures var e := Expired(id, s.clock, checked);
      Allowed(s.ledger, e) && Consistent(s.(ledger := Record(s.ledger, e)), maxConns)
  {
    HeadFacts(s, maxConns, id);
    ExpireAllowed(s, maxConns, id, checked);
    var e := Expired(id, s.clock, checked);
    hide Indexed, Books, Flags, Sound, Reporting, Aged, Timed, Allowed, IsHead;
    SoundStep(s.ledger, e);
    EventKeepsBooks(s.queues, s.byID, s.tail, s.ledger, e);
    ExpireKeepsRest(s.byID, s.ledger, s.clock, id, checked);
  }

  lemma ExpireKeepsRest(byID: Index, l: Ledger, clock: int, id: StreamId, checked: int)
    requires Flags(byID, l) && Aged(byID, l.expired, clock) && Timed(byID, l, clock) && id in byID
    requires checked <= clock && checked - byID[id].createdAt > UPDATE_TTL
    ensures var m := Record(l, Expired(id, clock, checked)); Flags(byID, m) && Aged(byID, m.expired, clock) && Timed(byID, m, clock)
  {
  }

  lemma LoadKeepsBooks(l: Ledger, queues: Queues, byID: Index, tail: StreamId, p: Pending)
    requires Indexed(queues, byID, tail) && Books(l, queues, byID, tail) && Sound(l) && tail < p.id
    ensures p.id !in l.loaded && Allowed(l, Loaded(p.id, p.queue))
    ensures Books(Record(l, Loaded(p.id, p.queue)), queues[p.queue := QueueOf(queues, p.queue) + [p.id]], byID[p.id := p], p.id)
  {
    var byID' := byID[p.id := p];
    var queues' := queues[p.queue := QueueOf(queues, p.queue) + [p.id]];
    assert byID'.Keys == byID.Keys + {p.id};
    forall id | id in byID' && (id in l.flying || id in l.accepted || id in l.expired) ensures IsHead(queues', byID', id) {
      assert IsHead(queues, byID, id);
    }
  }

  lemma LoadKeepsRest(byID: Index, l: Ledger, now: int, p: Pending)
    requires Flags(byID, l) && Aged(byID, l.expired, now) && Sound(l) && p.id !in l.loaded
    requires !p.inFlight && !p.delivered
    ensures Flags(byID[p.id := p], Record(l, Loaded(p.id, p.queue)))
    ensures Aged(byID[p.id := p], l.expired, now)
  {
    assert p.id !in l.flying && p.id !in l.accepted && p.id !in l.expired;
  }

  lemma NeverFailed(l: Ledger, id: StreamId)
    requires Sound(l) && id !in l.loaded
    ensures id !in l.attempts
  {
  }

  lemma OneMore(byID: Index, p: Pending)
    requires p.id !in byID
    ensures |byID[p.id := p]| == |byID| + 1
  {
    assert byID[p.id := p].Keys == byID.Keys + {p.id};
  }

  lemma NotYetLoaded(s: State, maxConns: nat, id: StreamId)
    requires Consistent(s, maxConns) && s.tail < id
    ensures id !in s.byID
  {
  }

  lemma LoadConsistent(s: State, maxConns: nat, id: StreamId, update: Update)
    requires Consistent(s, maxConns) && |s.byID| < WEBHOOK_MAX_LOADED && s.tail < id
    ensures Allowed(s.ledger, Loaded(id, WebhookQueueKey(update, id)))
    ensures Consistent(AfterLoad(s, NewPending(id, update)), maxConns)
    ensures |s.byID[id := NewPending(id, update)]| == |s.byID| + 1
  {
    var p := NewPending(id, update);
    NotYetLoaded(s, maxConns, id);
    hide Indexed, Books, Flags, Sound, Reporting, Aged, Timed, WebhookQueueKey, StreamMillis;
    AppendIndexed(s.queues, s.byID, s.tail, p);
    LoadKeepsBooks(s.ledger, s.queues, s.byID, s.tail, p);
    SoundStep(s.ledger, Loaded(id, p.queue));
    LoadKeepsRest(s.byID, s.ledger, s.clock, p);
    NeverFailed(s.ledger, id);
    LoadKeepsTimed(s.byID, s.ledger, s.clock, p);
    OneMore(s.byID, p);
  }

  lemma ClockConsistent(s: State, maxConns: nat, now: int, cancelled: bool)
    requires Consistent(s, maxConns) && now >= s.clock && (s.cancelled ==> cancelled)
    ensures Consistent(s.(clock := now, cancelled := cancelled), maxConns)
  {
  }

  lemma TailConsistent(s: State, maxConns: nat, tail: StreamId)
    requires Consistent(s, maxConns) && tail >= s.tail
    ensures Consistent(s.(tail := tail), maxConns)
  {
  }

  // ---------- The index and the stream ----------

  ghost predicate Represents(p: Pending, e: Entry) {
    && e.id == p.id && e.update == Some(p.update)
    && p.queue == WebhookQueueKey(p.update, p.id) && p.createdAt == StreamMillis(p.id)
  }

  /** Of the first `read` entries, all that are decodable and still there are loaded, and everything
      loaded is one of them. */
  ghost predicate Refines(byID: Index, log: seq<Entry>, read: nat, gone: set<StreamId>) {
    && read <= |log|
    && (forall i | 0 <= i < read && log[i].update.Some? && log[i].id !in gone :: log[i].id in byID)
    && (forall id | id in byID :: exists i :: 0 <= i < read && Represents(byID[id], log[i]))
  }

  lemma RefinesLater(byID: Index, log: seq<Entry>, read: nat, gone: set<StreamId>, gone': set<StreamId>)
    requires Refines(byID, log, read, gone) && gone <= gone'
    ensures Refines(byID, log, read, gone')
  {
  }

  lemma RefinesAck(byID: Index, log: seq<Entry>, read: nat, gone: set<StreamId>, id: StreamId)
    requires Refines(byID, log, read, gone) && id in gone
    ensures Refines(byID - {id}, log, read, gone)
  {
  }

  lemma RefinesTouch(byID: Index, log: seq<Entry>, read: nat, gone: set<StreamId>, p: Pending)
    requires Refines(byID, log, read, gone) && p.id in byID
    requires byID[p.id].id == p.id && byID[p.id].queue == p.queue
    requires byID[p.id].update == p.update && byID[p.id].createdAt == p.createdAt
    ensures Refines(byID[p.id := p], log, read, gone)
  {
    var i :| 0 <= i < read && Represents(byID[p.id], log[i]);
    assert Represents(p, log[i]);
  }

  /** Reading on past entries that are deleted or undecodable. */
  lemma RefinesSkip(byID: Index, log: seq<Entry>, read: nat, read': nat, gone: set<StreamId>)
    requires Refines(byID, log, read, gone) && read <= read' <= |log|
    requires forall i | read <= i < read' :: log[i].id in gone || log[i].update.None?
    ensures Refines(byID, log, read', gone)
  {
    forall id | id in byID ensures exists i :: 0 <= i < read' && Represents(byID[id], log[i]) {
      var i :| 0 <= i < read && Represents(byID[id], log[i]);
    }
  }

  lemma RefinesLoad(byID: Index, log: seq<Entry>, read: nat, gone: set<StreamId>, i: nat)
    requires Refines(byID, log, read, gone) && read <= i < |log| && log[i].update.Some?
    requires forall j | read <= j < i :: log[j].id in gone
    ensures Refines(byID[log[i].id := NewPending(log[i].id, log[i].update.value)], log, i + 1, gone)
  {
    var p := NewPending(log[i].id, log[i].update.value);
    var byID' := byID[p.id := p];
    forall id | id in byID' ensures exists j :: 0 <= j < i + 1 && Represents(byID'[id], log[j]) {
      if id == p.id {
        assert Represents(p, log[i]);
      } else {
        var j :| 0 <= j < read && Represents(byID[id], log[j]);
      }
    }
  }

  /** What lies before entry k of the page read after the first `read` entries is gone. */
  lemma BetweenPageEntries(log: seq<Entry>, visible: nat, gone: set<StreamId>, read: nat, at: seq<nat>, n: nat, k: nat)
    requires Ascending(log) && read <= visible <= |log| && k < |at|
    requires IsPage(at, log, visible, gone, CursorAt(log, read), n)
    ensures PagePos(read, at, k) <= at[k] < visible && log[at[k]].id !in gone
    ensures forall i | PagePos(read, at, k) <= i < at[k] :: log[i].id in gone
  {
    forall i | PagePos(read, at, k) <= i < at[k] ensures log[i].id in gone {
      assert log[i].id > CursorAt(log, read);
      assert forall m | 0 <= m < |at| :: (m < k ==> at[m] <= at[k - 1]) && (m >= k ==> at[m] >= at[k]);
    }
  }

  ghost predicate LoadedFrom(id: StreamId, queue: string, e: Entry) {
    e.id == id && e.update.Some? && queue == WebhookQueueKey(e.update.value, id)
  }

  /** Everything ever loaded is a persisted update under the key of its conversation, and none of the
      entries that were gone when the loop was made. */
  ghost predicate Faithful(loaded: map<StreamId, string>, log: seq<Entry>, read: nat, goneBefore: set<StreamId>) {
    && read <= |log|
    && forall id | id in loaded :: id !in goneBefore && exists i :: 0 <= i < read && LoadedFrom(id, loaded[id], log[i])
  }

  lemma FaithfulSkip(loaded: map<StreamId, string>, log: seq<Entry>, read: nat, read': nat, goneBefore: set<StreamId>)
    requires Faithful(loaded, log, read, goneBefore) && read <= read' <= |log|
    ensures Faithful(loaded, log, read', goneBefore)
  {
    forall id | id in loaded ensures exists i :: 0 <= i < read' && LoadedFrom(id, loaded[id], log[i]) {
      var i :| 0 <= i < read && LoadedFrom(id, loaded[id], log[i]);
    }
  }

  lemma FaithfulLoad(loaded: map<StreamId, string>, log: seq<Entry>, read: nat, i: nat, goneBefore: set<StreamId>)
    requires Faithful(loaded, log, read, goneBefore) && read <= i < |log| && log[i].update.Some? && log[i].id !in goneBefore
    ensures Faithful(loaded[log[i].id := WebhookQueueKey(log[i].update.value, log[i].id)], log, i + 1, goneBefore)
  {
    var loaded' := loaded[log[i].id := WebhookQueueKey(log[i].update.value, log[i].id)];
    forall id | id in loaded' ensures exists j :: 0 <= j < i + 1 && LoadedFrom(id, loaded'[id], log[j]) {
      if id == log[i].id {
        assert LoadedFrom(id, loaded'[id], log[i]);
      } else {
        var j :| 0 <= j < read && LoadedFrom(id, loaded[id], log[j]);
      }
    }
  }

  /** Beyond what was asked for before, the loop asks for no entry to be removed that was neither
      accepted nor given up. */
  ghost predicate Justified(requested: set<StreamId>, before: set<StreamId>, l: Ledger) {
    requested <= before + l.accepted + l.expired
  }

  lemma JustifiedAlso(requested: set<StreamId>, before: set<StreamId>, id: StreamId, l: Ledger)
    requires Justified(requested, before, l) && (id in l.accepted || id in l.expired)
    ensures Justified(requested + {id}, before, l)
  {
  }

  lemma JustifiedRecord(requested: set<StreamId>, before: set<StreamId>, l: Ledger, e: Event)
    requires Justified(requested, before, l)
    ensures Justified(requested, before, Record(l, e))
  {
  }

  /** An update was accepted, and then removed or, when Redis failed, kept as delivered. */
  ghost predicate Delivered(s: State, id: StreamId, before: seq<Event>, s': State, after: seq<Event>) {
    id in s.byID &&
    ( (after == before + [Accepted(id), Acked(id)] && IsHead(s.queues, s.byID, id) && s' == AfterAck(s, id))
    || (after == before + [Accepted(id), AckFailed(id, s'.clock)] && s' == AfterRetry(s, id, s'.clock)))
  }

  lemma DeliveredByRemoval(s: State, id: StreamId, before: seq<Event>, removed: bool, s': State, after: seq<Event>)
    requires IsHead(s.queues, s.byID, id)
    requires removed ==> s' == AfterAck(s, id) && after == before + [Accepted(id)] + [Acked(id)]
    requires !removed ==> s' == AfterRetry(s, id, s'.clock) && after == before + [Accepted(id)] + [AckFailed(id, s'.clock)]
    ensures Delivered(s, id, before, s', after)
  {
    hide RetryDelay;
  }

  lemma HeadTouched(queues: Queues, byID: Index, p: Pending)
    requires IsHead(queues, byID, p.id) && SamePlace(byID, p)
    ensures IsHead(queues, byID[p.id := p], p.id)
  {
  }

  /** An update that is not a day old has not been given up. */
  lemma NotGivenUp(byID: Index, expired: set<StreamId>, id: StreamId, now: int)
    requires Aged(byID, expired, now) && id in byID && now - byID[id].createdAt <= UPDATE_TTL
    ensures id !in expired
  {
  }

  lemma AgedNow(s: State, maxConns: nat)
    requires Consistent(s, maxConns)
    ensures Aged(s.byID, s.ledger.expired, s.clock)
  {
  }

  lemma AgedExpire(byID: Index, expired: set<StreamId>, id: StreamId, now: int)
    requires Aged(byID, expired, now) && id in byID && now - byID[id].createdAt > UPDATE_TTL
    ensures Aged(byID, expired + {id}, now)
  {
  }

  lemma AgedDrop(byID: Index, expired: set<StreamId>, id: StreamId, now: int)
    requires Aged(byID, expired, now)
    ensures Aged(byID - {id}, expired, now)
  {
  }

  lemma RetryLater(p: Pending)
    ensures RetryDelay(p.failures + 1) > 0
  {
    RetryDelays(p.failures + 1);
  }

  lemma Fewer(byID: Index, id: StreamId)
    ensures |byID - {id}| <= |byID|
  {
    assert (byID - {id}).Keys == byID.Keys - {id};
    assert |byID.Keys - {id}| <= |byID.Keys|;
  }

  lemma KeysUntouched(s: State, s': State, key: string, keys: set<string>)
    requires Untouched(s, s', key) && keys <= s.queues.Keys && key !in keys
    ensures keys <= s'.queues.Keys && s'.queues.Keys <= s.queues.Keys
  {
  }

  lemma AtMost(s: State, maxConns: nat)
    requires Consistent(s, maxConns)
    ensures s.inFlight <= maxConns
  {
  }

  // ---------- Dispatch: what one queue's turn leaves alone ----------

  /** Every stored queue has a head, and the head is its own. */
  lemma Heads(s: State, maxConns: nat, k: string)
    requires Consistent(s, maxConns) && k in s.queues
    ensures s.queues[k] != [] && s.queues[k][0] in s.byID && s.byID[s.queues[k][0]].queue == k
    ensures IsHead(s.queues, s.byID, s.queues[k][0])
  {
    assert QueueOk(s.queues[k], k, s.byID);
  }

  /** The head of the queue is in flight or must wait for its retry. */
  ghost predicate Waits(s: State, k: string, now: int) {
    k in s.queues ==>
      s.queues[k] != [] && s.queues[k][0] in s.byID
      && (s.byID[s.queues[k][0]].inFlight || now < s.byID[s.queues[k][0]].retryAt)
  }

  lemma EmptyWaits(s: State, maxConns: nat, key: string, now: int)
    requires Consistent(s, maxConns) && QueueOf(s.queues, key) == []
    ensures Waits(s, key, now)
  {
    if key in s.queues { Heads(s, maxConns, key); }
  }

  lemma HeadWaits(s: State, maxConns: nat, key: string, now: int)
    requires Consistent(s, maxConns) && key in s.queues && s.queues[key] != [] && s.queues[key][0] in s.byID
    requires s.byID[s.queues[key][0]].inFlight || now < s.byID[s.queues[key][0]].retryAt
    ensures Waits(s, key, now)
  {
  }

  /** Other queues and the entries in them stayed as they were. */
  ghost predicate Untouched(s: State, s': State, key: string) {
    && s'.queues.Keys <= s.queues.Keys
    && (forall k | k in s.queues && k != key :: k in s'.queues && s'.queues[k] == s.queues[k])
    && (forall id | id in s.byID && s.byID[id].queue != key :: id in s'.byID && s'.byID[id] == s.byID[id])
  }

  lemma UntouchedTwice(s: State, t: State, u: State, key: string)
    requires Untouched(s, t, key) && Untouched(t, u, key)
    ensures Untouched(s, u, key)
  {
  }

  lemma OneEntryUntouched(s: State, s': State, id: StreamId, p: Pending, key: string)
    requires id in s.byID && s.byID[id].queue == key && s'.queues == s.queues && s'.byID == s.byID[id := p]
    ensures Untouched(s, s', key)
  {
  }

  lemma SameUntouched(s: State, s': State, key: string)
    requires s'.queues == s.queues && s'.byID == s.byID
    ensures Untouched(s, s', key)
  {
  }

  lemma AckUntouched(s: State, id: StreamId, key: string)
    requires IsHead(s.queues, s.byID, id) && s.byID[id].queue == key
    ensures Untouched(s, AfterAck(s, id), key)
  {
  }

  /** Whatever was sent or given up after the first `from` events was checked at `now`. */
  ghost predicate DispatchedAt(t: seq<Event>, from: nat, now: int) {
    forall i | from <= i < |t| && (t[i].Sent? || t[i].Expired?) :: t[i].checked == now
  }

  lemma WaitAlso(s: State, s': State, now: int)
    requires s' == s.(clock := s'.clock)
    ensures forall k: string :: Waits(s, k, now) ==> Waits(s', k, now)
  {
  }

  lemma NoneDispatched(t: seq<Event>)
    ensures forall n: int :: DispatchedAt(t, |t|, n)
  {
  }

  lemma DispatchedOn(t: seq<Event>, u: seq<Event>, from: nat, now: int)
    requires t <= u && from <= |t| && DispatchedAt(t, from, now) && DispatchedAt(u, |t|, now)
    ensures DispatchedAt(u, from, now)
  {
  }

  /** Removing the head of a queue shortens it, and touches no other queue. */
  lemma RemovedUntouched(s: State, t: State, id: StreamId, key: string, now: int)
    requires t.queues == s.queues && t.byID == s.byID && IsHead(t.queues, t.byID, id) && t.byID[id].queue == key
    requires Aged(t.byID, t.ledger.expired, now)
    ensures var u := AfterAck(t, id);
      && Untouched(s, u, key) && |u.byID| <= |s.byID| && Aged(u.byID, u.ledger.expired, now)
      && key in s.queues && |QueueOf(u.queues, key)| < |s.queues[key]|
  {
    hide Aged;
    AckUntouched(t, id, key);
    Fewer(t.byID, id);
    AgedDrop(t.byID, t.ledger.expired, id, now);
  }

  /** Postponing the head of a queue makes the queue wait, and touches no other queue. */
  lemma PostponedUntouched(s: State, t: State, maxConns: nat, id: StreamId, key: string, now: int, clock: int)
    requires t.queues == s.queues && t.byID == s.byID && IsHead(t.queues, t.byID, id) && t.byID[id].queue == key
    requires Aged(t.byID, t.ledger.expired, now) && now <= clock && t.byID[id].id == id
    ensures var u := AfterRetry(t, id, clock);
      Untouched(s, u, key) && |u.byID| == |s.byID| && Aged(u.byID, u.ledger.expired, now) && Waits(u, key, now)
  {
    hide RetryDelay, Aged;
    RetryLater(t.byID[id]);
    var p := Retry(t.byID[id], clock);
    OneEntryUntouched(s, AfterRetry(t, id, clock), id, p, key);
    TouchKeepsAged(t.byID, t.ledger.expired, now, now, p);
    assert t.byID[id := p].Keys == t.byID.Keys;
  }

  lemma WaitsUntouched(s: State, s': State, maxConns: nat, key: string, k: string, now: int)
    requires Consistent(s, maxConns) && Untouched(s, s', key) && k != key && Waits(s, k, now)
    ensures Waits(s', k, now)
  {
    if k in s'.queues {
      Heads(s, maxConns, k);
    }
  }

  // ---------- Reading on and waiting ----------

  lemma TailAdvances(log: seq<Entry>, read: nat, i: nat)
    requires Ascending(log) && read <= i < |log|
    ensures CursorAt(log, read) < log[i].id && CursorAt(log, i + 1) == log[i].id
  {
  }

  lemma PageFacts(at: seq<nat>, log: seq<Entry>, hi: nat, gone: set<StreamId>, cursor: StreamId, n: nat)
    requires IsPage(at, log, hi, gone, cursor, n)
    ensures |at| <= n && forall m | 0 <= m < |at| :: at[m] < hi <= |log| && log[at[m]].id > cursor
  {
  }

  lemma LoadedAtMost(s: State, maxConns: nat)
    requires Consistent(s, maxConns)
    ensures |s.byID| <= WEBHOOK_MAX_LOADED
  {
  }

  lemma JustifiedAgain(requested: set<StreamId>, requested': set<StreamId>, before: set<StreamId>, l: Ledger)
    requires Justified(requested, before, l) && requested' == requested
    ensures Justified(requested', before, l)
  {
  }

  /** Nothing is left to read, and everything decodable in the stream is loaded. */
  ghost predicate AllLoaded(read: nat, byID: Index, log: seq<Entry>, visible: nat, gone: set<StreamId>) {
    && visible <= |log|
    && (forall i | read <= i < visible :: log[i].id in gone)
    && (forall i | 0 <= i < visible && log[i].update.Some? && log[i].id !in gone :: log[i].id in byID)
  }

  /** From `loaded` updates in memory, n of the entries ahead make it `now`, and `after` is left. */
  ghost predicate Loads(ahead: seq<Entry>, loaded: nat, n: nat, after: seq<Entry>, now: nat) {
    n <= |ahead| && after == ahead[n..] && now == LoadedWith(ahead, n, loaded)
  }

  /** The last page of a load was read from place `from` on, with `loaded` updates in memory and
      `waiting` ahead; it was no full page, and took the load to where it ended. None was read, or none
      after memory was full, when `loaded` is all that memory holds. */
  ghost predicate LastPageWas(waiting: seq<Entry>, loaded: nat, from: nat, read: nat, log: seq<Entry>, visible: nat,
                              gone: set<StreamId>, now: nat) {
    && visible <= |log| && from <= read && loaded <= WEBHOOK_MAX_LOADED
    && if loaded == WEBHOOK_MAX_LOADED then now == WEBHOOK_MAX_LOADED && waiting == []
       else
         && waiting == LiveAfter(log, from, visible, gone) && PageTakes(waiting, loaded) < PAGE
         && Loads(waiting, loaded, PageTakes(waiting, loaded), LiveAfter(log, read, visible, gone), now)
  }

  /** On a stream that stays as it is, a load has come from `ahead` to `rest` on its way to `Taken`. */
  ghost predicate OnTheWay(ahead: seq<Entry>, loaded0: nat, taken: nat, rest: seq<Entry>, loaded: nat) {
    && loaded0 <= WEBHOOK_MAX_LOADED && loaded <= WEBHOOK_MAX_LOADED
    && Loads(ahead, loaded0, taken, rest, loaded) && Taken(ahead, loaded0) == taken + Taken(rest, loaded)
  }

  lemma LoadsNothing(ahead: seq<Entry>, loaded: nat)
    requires loaded <= WEBHOOK_MAX_LOADED
    ensures OnTheWay(ahead, loaded, 0, ahead, loaded)
  {
  }

  lemma LoadsOnePage(ahead: seq<Entry>, loaded0: nat, taken: nat, waiting: seq<Entry>, loaded: nat, after: seq<Entry>, now: nat)
    requires loaded0 <= WEBHOOK_MAX_LOADED && loaded <= WEBHOOK_MAX_LOADED && now <= WEBHOOK_MAX_LOADED
    requires OnTheWay(ahead, loaded0, taken, waiting, loaded)
    requires Loads(waiting, loaded, PageTakes(waiting, loaded), after, now)
    ensures PageTakes(waiting, loaded) < PAGE ==> Loads(ahead, loaded0, Taken(ahead, loaded0), after, now)
    ensures PageTakes(waiting, loaded) >= PAGE ==> OnTheWay(ahead, loaded0, taken + PageTakes(waiting, loaded), after, now)
  {
    hide Decodable, Limit, Taken, LastPage, PageTakes;
    var n := PageTakes(waiting, loaded);
    LoadedLater(ahead, taken, n, loaded0);
    OnePage(waiting, loaded);
    assert ahead[taken..][n..] == ahead[taken + n..];
  }

  lemma PageMovesOn(at: seq<nat>, log: seq<Entry>, read: nat, hi: nat, gone: set<StreamId>, n: nat)
    requires FirstLive(at, log, read, hi, gone, n) && at != []
    ensures PagePos(read, at, |at|) > read
  {
  }

  lemma PageStops(waiting: seq<Entry>, loaded: nat, from: nat, read: nat, log: seq<Entry>, visible: nat,
                  gone: set<StreamId>, now: nat)
    requires loaded < WEBHOOK_MAX_LOADED && PageTakes(waiting, loaded) < PAGE && from <= read && visible <= |log|
    requires waiting == LiveAfter(log, from, visible, gone)
    requires Loads(waiting, loaded, PageTakes(waiting, loaded), LiveAfter(log, read, visible, gone), now)
    ensures LastPageWas(waiting, loaded, from, read, log, visible, gone, now)
    ensures var after := LiveAfter(log, read, visible, gone); now == WEBHOOK_MAX_LOADED || after == [] <==> !CutShort(waiting, loaded)
  {
    hide CutShort;
    PageOutcome(waiting, loaded);
  }

  lemma PageLoads(page: seq<Entry>, at: seq<nat>, log: seq<Entry>, waiting: seq<Entry>, after: seq<Entry>, loaded: nat)
    requires loaded < WEBHOOK_MAX_LOADED && Denotes(page, at, log) && Begins(at, log, waiting, after, Limit(loaded))
    ensures |page| == PageTakes(waiting, loaded)
    ensures Loads(waiting, loaded, |page|, after, loaded + Decodable(page))
  {
    assert page == waiting[..|page|];
  }

  lemma FullTakesNoMore(ahead: seq<Entry>, loaded0: nat, taken: nat, rest: seq<Entry>)
    requires OnTheWay(ahead, loaded0, taken, rest, WEBHOOK_MAX_LOADED)
    ensures Loads(ahead, loaded0, Taken(ahead, loaded0), rest, WEBHOOK_MAX_LOADED)
  {
  }

  lemma FullIsLast(read: nat, log: seq<Entry>, visible: nat, gone: set<StreamId>)
    requires visible <= |log|
    ensures LastPageWas([], WEBHOOK_MAX_LOADED, read, read, log, visible, gone, WEBHOOK_MAX_LOADED)
  {
  }

  lemma FullIsNotCutShort()
    ensures !CutShort([], WEBHOOK_MAX_LOADED)
  {
  }

  lemma {:induction false} NothingAhead(log: seq<Entry>, read: nat, hi: nat, gone: set<StreamId>)
    requires hi <= |log|
    ensures LiveAfter(log, read, hi, gone) == [] <==> forall i | read <= i < hi :: log[i].id in gone
    decreases hi - read
  {
    if read < hi {
      NothingAhead(log, read + 1, hi, gone);
      var rest := LiveAfter(log, read + 1, hi, gone);
      assert LiveAfter(log, read, hi, gone) == (if log[read].id in gone then rest else [log[read]] + rest);
    }
  }

  lemma NothingAheadIsAllLoaded(read: nat, byID: Index, log: seq<Entry>, visible: nat, gone: set<StreamId>)
    requires Refines(byID, log, read, gone) && visible <= |log|
    ensures AllLoaded(read, byID, log, visible, gone) <==> LiveAfter(log, read, visible, gone) == []
  {
    NothingAhead(log, read, visible, gone);
  }

  /** Sleeping for `delay` does not oversleep the retry of the head of this queue. */
  ghost predicate WakesFor(s: State, k: string, delay: int)
    requires k in s.queues
  {
    && s.queues[k] != [] && s.queues[k][0] in s.byID
    && var head := s.byID[s.queues[k][0]]; head.inFlight || delay <= Max(10, head.retryAt - s.clock)
  }

  /** `delay` is the time until the retry of the head of this queue. */
  ghost predicate WakesAt(s: State, k: string, delay: int)
    requires k in s.queues
  {
    && s.queues[k] != [] && s.queues[k][0] in s.byID
    && var head := s.byID[s.queues[k][0]]; !head.inFlight && delay == Max(10, head.retryAt - s.clock)
  }

  lemma InFlightPositive(s: State, maxConns: nat)
    requires Consistent(s, maxConns) && s.results != []
    ensures s.inFlight > 0
  {
    assert s.results[0].id in s.ledger.flying;
  }

  // ---------- The loop ----------

  /** The state of a loop that has done nothing. */
  lemma FreshConsistent(s: State, maxConns: nat)
    requires s == State(map[], map[], 0, 0, [], {}, false, 0, After([]))
    ensures Consistent(s, maxConns)
  {
  }

  lemma FreshJustified(store: Stream)
    requires store.Valid()
    ensures Refines(map[], store.persisted, 0, store.gone) && Faithful(map[], store.persisted, 0, store.gone)
    ensures Justified(store.requested, store.requested, After([])) && CursorAt(store.persisted, 0) == 0
  {
  }

  class WebhookDelivery {
    const store: Stream
    const maxConns: nat

    var queues: Queues
    var byID: Index
    /** The last stream ID read. */
    var tail: StreamId
    var inFlight: int

    /** The results channel, what the dispatcher holds, the loop's context and the time. */
    var results: seq<WebhookResult>
    var outstanding: set<StreamId>
    var cancelled: bool
    var clock: int

    /** What earlier loops on the same stream had asked to remove when this one was made. */
    ghost const before: set<StreamId>
    /** What was gone from the stream then. */
    ghost const goneBefore: set<StreamId>
    ghost var trace: seq<Event>
    ghost var ledger: Ledger
    /** How many of the persisted entries lie at or before `tail`. */
    ghost var read: nat
    /** When the load of this turn ended, until the loop has slept. */
    ghost var loadedAt: Option<int>

    ghost function S(): State
      reads this
    {
      State(queues, byID, tail, inFlight, results, outstanding, cancelled, clock, ledger)
    }

    /** What the loop recorded, apart from what is in the stream now: this stays when the loop has
        ended and the stream goes on. */
    ghost predicate Recorded()
      reads this
    {
      && Consistent(S(), maxConns) && Legal(trace) && ledger == After(trace)
      && read <= |store.persisted| && tail == CursorAt(store.persisted, read)
      && Faithful(ledger.loaded, store.persisted, read, goneBefore)
    }

    ghost predicate Valid()
      reads this, store
    {
      && store.Valid() && maxConns >= 1
      && Consistent(S(), maxConns)
      && Legal(trace) && ledger == After(trace)
      && read <= store.visible && tail == CursorAt(store.persisted, read)
      && Refines(byID, store.persisted, read, store.gone)
      && Justified(store.requested, before, ledger)
      && Faithful(ledger.loaded, store.persisted, read, goneBefore) && goneBefore <= store.gone
    }

    constructor (store: Stream, maxConnections: int)
      requires store.Valid()
      ensures before == store.requested && goneBefore == store.gone
      ensures Valid() && trace == [] && byID == map[] && tail == 0 && read == 0 && !cancelled
      ensures this.store == store && maxConns == NormalizeWebhookConnections(maxConnections)
    {
      this.store := store;
      maxConns := NormalizeWebhookConnections(maxConnections);
      queues, byID, tail, inFlight := map[], map[], 0, 0;
      results, outstanding, cancelled, clock := [], {}, false, 0;
      trace, ledger, read, before, goneBefore := [], After([]), 0, store.requested, store.gone;
      loadedAt := None;
      new;
      hide Consistent, After, Refines, Justified, Faithful;
      FreshConsistent(S(), maxConns);
      FreshJustified(store);
    }

    ghost method Note(e: Event)
      requires Legal(trace) && ledger == After(trace) && Allowed(ledger, e)
      modifies `trace, `ledger
      ensures trace == old(trace) + [e] && Legal(trace)
      ensures ledger == Record(old(ledger), e) && ledger == After(trace)
    {
      Extend(trace, e);
      trace, ledger := trace + [e], Record(ledger, e);
    }

    method Now() returns (now: int)
      modifies `clock
      ensures now == clock >= old(clock)
    {
      now :| now >= clock;
      clock := now;
    }

    /** ctx.Err() != nil; the context may be cancelled at any moment and stays so. */
    method ContextDone() returns (done: bool)
      requires Valid()
      modifies `cancelled
      ensures Valid() && done == cancelled && S() == old(S()).(cancelled := cancelled) && (old(cancelled) ==> cancelled)
      ensures trace == old(trace) && read == old(read)
    {
      hide Consistent, Legal, After, Refines, Justified, Faithful;
      ClockConsistent(S(), maxConns, clock, true);
      if * { cancelled := true; }
      done := cancelled;
    }

    /** Takes a settled head out of the stream and of the index; on failure it is tried again later. */
    method Remove(id: StreamId) returns (ok: bool)
      requires Valid() && IsHead(queues, byID, id)
      requires !byID[id].inFlight && (byID[id].delivered || id in ledger.expired) && byID[id].retryAt <= clock
      modifies `queues, `byID, `clock, `trace, `ledger,
        store`visible, store`gone, store`requested, store`deleteFailures
      ensures Valid() && IsHead(old(queues), old(byID), id) && read == old(read)
      ensures ok ==> id in store.gone && S() == AfterAck(old(S()), id) && trace == old(trace) + [Acked(id)]
      ensures !ok ==> S() == AfterRetry(old(S()), id, clock) && trace == old(trace) + [AckFailed(id, clock)] && clock >= old(clock)
    {
      hide Consistent, Legal, After, Refines, Justified, Faithful, RetryDelay, Ascending;
      HeadFacts(S(), maxConns, id);
      ok := store.AckUpdate(id);
      RefinesLater(byID, store.persisted, read, old(store.gone), store.gone);
      JustifiedAlso(old(store.requested), before, id, ledger);
      if ok { Forget(id); } else { Postpone(id); }
    }

    /** The entry could not be removed from the stream: it is tried again later. */
    method Postpone(id: StreamId)
      requires Valid() && IsHead(queues, byID, id)
      requires !byID[id].inFlight && (byID[id].delivered || id in ledger.expired) && byID[id].retryAt <= clock
      modifies `byID, `clock, `trace, `ledger
      ensures Valid() && read == old(read) && trace == old(trace) + [AckFailed(id, clock)]
      ensures IsHead(old(queues), old(byID), id) && S() == AfterRetry(old(S()), id, clock) && clock >= old(clock)
    {
      hide Consistent, Legal, After, Refines, Justified, Faithful, RetryDelay, Ascending;
      HeadFacts(S(), maxConns, id);
      var now := Now();
      RetryConsistent(old(S()), maxConns, id, now);
      RefinesTouch(byID, store.persisted, read, store.gone, Retry(byID[id], now));
      JustifiedRecord(store.requested, before, ledger, AckFailed(id, now));
      byID := byID[id := Retry(byID[id], now)];
      Note(AckFailed(id, now));
    }

    /** A removed entry leaves the index; its queue goes with its last entry. */
    method Forget(id: StreamId)
      requires Valid() && IsHead(queues, byID, id) && id in store.gone
      requires !byID[id].inFlight && (byID[id].delivered || id in ledger.expired)
      modifies `queues, `byID, `trace, `ledger
      ensures Valid() && read == old(read) && trace == old(trace) + [Acked(id)]
      ensures IsHead(old(queues), old(byID), id) && S() == AfterAck(old(S()), id)
    {
      hide Consistent, Legal, After, Allowed, Refines, Justified, Faithful, Ascending;
      HeadFacts(S(), maxConns, id);
      AckConsistent(S(), maxConns, id);
      RefinesAck(byID, store.persisted, read, store.gone, id);
      JustifiedRecord(store.requested, before, ledger, Acked(id));
      Note(Acked(id));
      var key := byID[id].queue;
      byID := byID - {id};
      var queue := queues[key];
      if |queue| > 0 && queue[0] == id { queue := queue[1..]; }
      queues := if |queue| == 0 then queues - {key} else queues[key := queue];
    }

    /** The dispatcher's callback: the result goes into the channel unless the context is done. */
    method Report(id: StreamId, ok: bool)
      requires Valid() && id in outstanding
      modifies `results, `outstanding
      ensures Valid() && trace == old(trace) && read == old(read)
      ensures S() == AfterReport(old(S()), WebhookResult(id, ok))
              || (cancelled && S() == old(S()).(outstanding := old(outstanding) - {id}))
    {
      hide Consistent, Legal, After, Refines, Justified, Faithful;
      ReportConsistent(S(), maxConns, WebhookResult(id, ok));
      assert |results| < maxConns;  // so the send into the channel does not block
      var lost := false;
      if cancelled {
        if * { lost := true; }
      }
      if !lost { results := results + [WebhookResult(id, ok)]; }
      outstanding := outstanding - {id};
    }

    /** The dispatcher runs: any of its tasks may finish, each with any outcome, in any order. */
    method DispatcherRuns()
      requires Valid()
      modifies `results, `outstanding
      ensures Valid() && trace == old(trace) && read == old(read)
      ensures S() == old(S()).(results := results, outstanding := outstanding) && |results| >= |old(results)|
    {
      hide Consistent, Legal, After, Refines, Justified, Faithful;
      var todo := outstanding;
      while todo != {}
        invariant Valid() && trace == old(trace) && read == old(read) && todo <= outstanding
        invariant S() == old(S()).(results := results, outstanding := outstanding) && |results| >= |old(results)|
        decreases todo
      {
        var id :| id in todo;
        todo := todo - {id};
        if * {
          var ok: bool := *;
          Report(id, ok);
        }
      }
    }

    /** Sends a head; a full dispatcher queue reports an error at once. */
    method Send(id: StreamId, ghost checked: int)
      requires Valid() && IsHead(queues, byID, id) && inFlight < maxConns
      requires !byID[id].inFlight && !byID[id].delivered && id !in ledger.expired && Ready(byID[id], checked, clock)
      modifies `byID, `inFlight, `results, `outstanding, `trace, `ledger
      ensures Valid() && trace == old(trace) + [Sent(id, clock, checked)] && read == old(read)
      ensures S() == AfterSend(old(S()), id, checked).(results := results, outstanding := outstanding)
    {
      hide Consistent, Legal, After, Refines, Justified, Faithful;
      HeadFacts(S(), maxConns, id);
      SendConsistent(S(), maxConns, id, checked);
      RefinesTouch(byID, store.persisted, read, store.gone, byID[id].(inFlight := true));
      JustifiedRecord(store.requested, before, ledger, Sent(id, clock, checked));
      byID := byID[id := byID[id].(inFlight := true)];
      inFlight := inFlight + 1;
      Note(Sent(id, clock, checked));
      outstanding := outstanding + {id};
      if * { Report(id, false); }
    }

    /** Receives the next result. A failed update is retried later; a delivered one is removed from
        the stream, or, if Redis fails, only marked as delivered. */
    method Complete()
      requires Valid() && results != []
      modifies `queues, `byID, `inFlight, `results, `clock, `trace, `ledger,
        store`visible, store`gone, store`requested, store`deleteFailures
      ensures Valid() && read == old(read) && inFlight == old(inFlight) - 1 && results == old(results[1..]) && cancelled == old(cancelled)
      ensures old(results[0]).id in old(byID) && old(trace) <= trace
      ensures !old(results[0]).ok ==> trace == old(trace) + [Failed(old(results[0]).id, clock)]
      ensures !old(results[0]).ok ==> S() == AfterResult(old(S()), clock)
      ensures old(results[0]).ok ==>
        Delivered(AfterResult(old(S()), old(clock)), old(results[0]).id, old(trace), S(), trace)
    {
      hide Consistent, Legal, After, Refines, Justified, Faithful, RetryDelay, Delivered;
      var id := results[0].id;
      ResultConsistent(S(), maxConns, clock);
      assert id in byID && byID[id].inFlight;  // the guard that ignores stray results never fires
      HeadFacts(S(), maxConns, id);
      if results[0].ok { CompleteDelivered(); } else { CompleteFailed(); }
    }

    method CompleteFailed()
      requires Valid() && results != [] && !results[0].ok && IsHead(queues, byID, results[0].id)
      modifies `byID, `inFlight, `results, `clock, `trace, `ledger
      ensures Valid() && read == old(read) && inFlight == old(inFlight) - 1 && results == old(results[1..]) && cancelled == old(cancelled)
      ensures trace == old(trace) + [Failed(old(results[0]).id, clock)]
      ensures old(results[0]).id in old(byID) && S() == AfterResult(old(S()), clock)
    {
      hide Consistent, Legal, After, Refines, Justified, Faithful, RetryDelay;
      var id := results[0].id;
      HeadFacts(S(), maxConns, id);
      var now := Now();
      var p := Retry(byID[id], now);
      ResultConsistent(old(S()), maxConns, now);
      RefinesTouch(byID, store.persisted, read, store.gone, p);
      JustifiedRecord(store.requested, before, ledger, Failed(id, now));
      results := results[1..];
      inFlight := inFlight - 1;
      byID := byID[id := p];
      Note(Failed(id, now));
    }

    method CompleteDelivered()
      requires Valid() && results != [] && results[0].ok && IsHead(queues, byID, results[0].id)
      requires byID[results[0].id].retryAt <= clock
      modifies `queues, `byID, `inFlight, `results, `clock, `trace, `ledger,
        store`visible, store`gone, store`requested, store`deleteFailures
      ensures Valid() && read == old(read) && inFlight == old(inFlight) - 1 && results == old(results[1..]) && cancelled == old(cancelled)
      ensures Delivered(AfterResult(old(S()), old(clock)), old(results[0]).id, old(trace), S(), trace) && old(trace) <= trace
    {
      hide Consistent, Legal, After, Refines, Justified, Faithful, RetryDelay, Delivered;
      var id := results[0].id;
      ResultConsistent(S(), maxConns, clock);
      HeadFacts(S(), maxConns, id);
      var p := byID[id].(inFlight := false, delivered := true);
      HeadTouched(queues, byID, p);
      RefinesTouch(byID, store.persisted, read, store.gone, p);
      JustifiedRecord(store.requested, before, ledger, Accepted(id));
      results := results[1..];
      inFlight := inFlight - 1;
      byID := byID[id := p];
      Note(Accepted(id));
      var removed := Remove(id);
      DeliveredByRemoval(AfterResult(old(S()), old(clock)), id, old(trace), removed, S(), trace);
    }

    /** One queue's turn: settled heads are removed until one can be sent or must wait. */
    method DispatchQueue(key: string, now: int)
      requires Valid() && key in queues && now <= clock && Aged(byID, ledger.expired, now)
      modifies `queues, `byID, `inFlight, `results, `outstanding, `cancelled, `clock, `trace, `ledger,
        store`visible, store`gone, store`requested, store`deleteFailures
      ensures Aged(byID, ledger.expired, now)
      ensures Valid() && old(trace) <= trace && read == old(read) && clock >= old(clock) && tail == old(tail)
      ensures |byID| <= old(|byID|)
      ensures DispatchedAt(trace, |old(trace)|, now)
      ensures Untouched(old(S()), S(), key) && (old(cancelled) ==> cancelled) && inFlight >= old(inFlight)
      ensures cancelled || inFlight >= maxConns || Waits(S(), key, now)
    {
      hide Consistent, Legal, After, Refines, Justified, Faithful, RetryDelay, Untouched, Aged, Waits;
      var queue := queues[key];
      SameUntouched(S(), S(), key);
      while true
        invariant Valid() && old(trace) <= trace && read == old(read) && now <= clock && clock >= old(clock) && tail == old(tail)
        invariant Untouched(old(S()), S(), key) && (old(cancelled) ==> cancelled) && inFlight >= old(inFlight)
        invariant |byID| <= old(|byID|) && Aged(byID, ledger.expired, now) && DispatchedAt(trace, |old(trace)|, now)
        invariant queue == QueueOf(queues, key)
        decreases |queue|
      {
        if key in queues { Heads(S(), maxConns, key); }
        if |queue| == 0 || inFlight >= maxConns {
          if |queue| == 0 { EmptyWaits(S(), maxConns, key, now); }
          return;
        }
        ghost var s0 := S();
        var done := ContextDone();
        SameUntouched(s0, S(), key);
        UntouchedTwice(old(S()), s0, S(), key);
        if done { return; }
        Heads(S(), maxConns, key);
        var head := queue[0];
        HeadFacts(S(), maxConns, head);
        if byID[head].inFlight || now < byID[head].retryAt {
          HeadWaits(S(), maxConns, key, now);
          return;
        }
        ghost var s1 := S();
        if byID[head].delivered || now - byID[head].createdAt > UPDATE_TTL {
          var removed := Settle(head, key, now);
          UntouchedTwice(old(S()), s1, S(), key);
          if !removed { return; }
          queue := QueueOf(queues, key);
        } else {
          SendHead(head, key, now);
          UntouchedTwice(old(S()), s1, S(), key);
          return;
        }
      }
    }

    /** Sends a ready head: its queue then waits for the result. */
    method SendHead(head: StreamId, key: string, ghost now: int)
      requires Valid() && IsHead(queues, byID, head) && byID[head].queue == key && inFlight < maxConns
      requires !byID[head].inFlight && !byID[head].delivered && Ready(byID[head], now, clock)
      requires Aged(byID, ledger.expired, now)
      modifies `byID, `inFlight, `results, `outstanding, `trace, `ledger
      ensures Valid() && Aged(byID, ledger.expired, now) && trace == old(trace) + [Sent(head, clock, now)]
      ensures read == old(read) && clock == old(clock) && tail == old(tail) && cancelled == old(cancelled)
      ensures |byID| == old(|byID|) && inFlight == old(inFlight) + 1 && Untouched(old(S()), S(), key)
      ensures Waits(S(), key, now)
    {
      hide Consistent, Legal, After, Refines, Justified, Faithful, RetryDelay, Untouched, Aged;
      HeadFacts(S(), maxConns, head);
      NotGivenUp(byID, ledger.expired, head, now);
      TouchKeepsAged(byID, ledger.expired, now, now, byID[head].(inFlight := true));
      Send(head, now);
      OneEntryUntouched(old(S()), S(), head, byID[head], key);
      assert byID.Keys == old(byID).Keys;
    }

    ghost method GiveUp(head: StreamId, now: int)
      requires Valid() && IsHead(queues, byID, head) && now <= clock
      requires !byID[head].inFlight && !byID[head].delivered && now - byID[head].createdAt > UPDATE_TTL
      requires Aged(byID, ledger.expired, now)
      modifies `trace, `ledger
      ensures Valid() && Aged(byID, ledger.expired, now) && head in ledger.expired
      ensures trace == old(trace) + [Expired(head, clock, now)]
      ensures S() == old(S()).(ledger := ledger)
    {
      hide Consistent, Legal, After, Refines, Justified, Faithful, Aged;
      HeadFacts(S(), maxConns, head);
      ExpireConsistent(S(), maxConns, head, now);
      JustifiedRecord(store.requested, before, ledger, Expired(head, clock, now));
      AgedExpire(byID, ledger.expired, head, now);
      Note(Expired(head, clock, now));
    }

    /** Removes a head that was delivered, or gives it up because it is a day old. */
    method Settle(head: StreamId, key: string, now: int) returns (removed: bool)
      requires Valid() && IsHead(queues, byID, head) && byID[head].queue == key && now <= clock
      requires !byID[head].inFlight && (byID[head].delivered || now - byID[head].createdAt > UPDATE_TTL)
      requires byID[head].retryAt <= now
      requires Aged(byID, ledger.expired, now)
      modifies `queues, `byID, `clock, `trace, `ledger,
        store`visible, store`gone, store`requested, store`deleteFailures
      ensures Aged(byID, ledger.expired, now)
      ensures Valid() && old(trace) <= trace && read == old(read) && clock >= old(clock) && tail == old(tail)
      ensures Untouched(old(S()), S(), key) && cancelled == old(cancelled) && inFlight == old(inFlight)
      ensures |byID| <= old(|byID|)
      ensures forall i | |old(trace)| <= i < |trace| :: !trace[i].Sent?
      ensures DispatchedAt(trace, |old(trace)|, now)
      ensures removed ==> key in old(queues) && |QueueOf(queues, key)| < |old(queues)[key]|
      ensures !removed ==> Waits(S(), key, now)
    {
      hide Consistent, Legal, After, Refines, Justified, Faithful, RetryDelay, Untouched, Aged, Waits;
      HeadFacts(S(), maxConns, head);
      if !byID[head].delivered { GiveUp(head, now); }
      ghost var s1 := S();
      removed := Remove(head);
      if removed {
        RemovedUntouched(old(S()), s1, head, key, now);
      } else {
        PostponedUntouched(old(S()), s1, maxConns, head, key, now, clock);
      }
    }

    /** Sends the head of every queue that is ready, within maxConns. Unless the context is done,
        dispatch stops only at full capacity or when every head is in flight or must wait. */
    method Dispatch() returns (ghost now: int)
      requires Valid()
      modifies `queues, `byID, `inFlight, `results, `outstanding, `cancelled, `clock, `trace, `ledger,
        store`visible, store`gone, store`requested, store`deleteFailures
      ensures Valid() && old(trace) <= trace && read == old(read) && tail == old(tail)
      ensures old(clock) <= now <= clock && inFlight >= old(inFlight) && |byID| <= old(|byID|)
      ensures DispatchedAt(trace, |old(trace)|, now) && (old(cancelled) ==> cancelled)
      ensures cancelled || inFlight == maxConns || forall k | k in queues :: Waits(S(), k, now)
    {
      hide Consistent, Legal, After, Refines, Justified, Faithful, Untouched, Waits, Aged, DispatchedAt;
      NoneDispatched(trace);
      var start := Now();
      ClockConsistent(old(S()), maxConns, start, cancelled);
      AgedNow(S(), maxConns);
      now := start;
      var keys := queues.Keys;
      while keys != {}
        invariant Valid() && old(trace) <= trace && read == old(read) && tail == old(tail)
        invariant start <= clock && inFlight >= old(inFlight) && |byID| <= old(|byID|) && DispatchedAt(trace, |old(trace)|, now)
        invariant (old(cancelled) ==> cancelled) && keys <= queues.Keys && Aged(byID, ledger.expired, start)
        invariant cancelled || forall k | k in queues && k !in keys :: Waits(S(), k, now)
        decreases keys
      {
        var key :| key in keys;
        keys := keys - {key};
        ghost var s, before := S(), trace;
        DispatchQueue(key, start);
        DispatchedOn(before, trace, |old(trace)|, now);
        KeysUntouched(s, S(), key, keys);
        if inFlight >= maxConns {
          AtMost(S(), maxConns);
          return;
        }
        if !cancelled {
          forall k | k in queues && k !in keys ensures Waits(S(), k, now) {
            if k != key {
              KeysUntouched(s, S(), key, {});
              WaitsUntouched(s, S(), maxConns, key, k, now);
            }
          }
        }
      }
    }

    /** An entry that cannot be decoded is only passed by the cursor. */
    method SkipEntry(entry: Entry, ghost i: nat)
      requires Valid() && read <= i < store.visible && entry == store.persisted[i] && entry.update.None?
      requires forall j | read <= j < i :: store.persisted[j].id in store.gone
      modifies this
      ensures Valid() && read == i + 1 && tail == entry.id
      ensures |byID| == old(|byID|) && trace == old(trace)
      ensures cancelled == old(cancelled) && clock == old(clock) && inFlight == old(inFlight)
    {
      hide Consistent, Legal, After, Refines, Justified, Faithful, WebhookQueueKey, StreamMillis;
      TailAdvances(store.persisted, read, i);
      TailConsistent(S(), maxConns, entry.id);
      RefinesSkip(byID, store.persisted, read, i + 1, store.gone);
      FaithfulSkip(ledger.loaded, store.persisted, read, i + 1, goneBefore);
      tail, read := entry.id, i + 1;
    }

    method LoadEntry(entry: Entry, ghost i: nat)
      requires Valid() && read <= i < store.visible && entry == store.persisted[i] && entry.update.Some? && |byID| < WEBHOOK_MAX_LOADED
      requires entry.id !in store.gone
      requires forall j | read <= j < i :: store.persisted[j].id in store.gone
      modifies this
      ensures Valid() && read == i + 1 && tail == entry.id
      ensures |byID| == old(|byID|) + 1
      ensures trace == old(trace) + [Loaded(entry.id, WebhookQueueKey(entry.update.value, entry.id))]
      ensures cancelled == old(cancelled) && clock == old(clock) && inFlight == old(inFlight)
    {
      hide Consistent, Legal, After, Allowed, Refines, Justified, Faithful, WebhookQueueKey, StreamMillis;
      TailAdvances(store.persisted, read, i);
      var p := NewPending(entry.id, entry.update.value);
      LoadConsistent(S(), maxConns, entry.id, entry.update.value);
      RefinesLoad(byID, store.persisted, read, store.gone, i);
      FaithfulLoad(ledger.loaded, store.persisted, read, i, goneBefore);
      JustifiedRecord(store.requested, before, ledger, Loaded(p.id, p.queue));
      tail := entry.id;
      queues := queues[p.queue := QueueOf(queues, p.queue) + [p.id]];
      byID := byID[p.id := p];
      read := i + 1;
      Note(Loaded(p.id, p.queue));
    }

    /** Puts the next entry into the index, or passes over it if it cannot be decoded. */
    method IndexEntry(entry: Entry, ghost i: nat)
      requires Valid() && read <= i < store.visible && entry == store.persisted[i] && |byID| < WEBHOOK_MAX_LOADED
      requires entry.id !in store.gone
      requires forall j | read <= j < i :: store.persisted[j].id in store.gone
      modifies this
      ensures Valid() && read == i + 1 && tail == entry.id
      ensures |byID| == old(|byID|) + (if entry.update.Some? then 1 else 0)
      ensures trace == old(trace) + (if entry.update.Some? then [Loaded(entry.id, WebhookQueueKey(entry.update.value, entry.id))] else [])
      ensures cancelled == old(cancelled) && clock == old(clock) && inFlight == old(inFlight)
    {
      hide *;
      if entry.update.None? { SkipEntry(entry, i); } else { LoadEntry(entry, i); }
    }

    /** Puts the entries of the page just read into the index. */
    method IndexPage(entries: seq<Entry>, ghost at: seq<nat>, ghost n: nat)
      requires Valid() && Denotes(entries, at, store.persisted) && |byID| + |entries| <= WEBHOOK_MAX_LOADED
      requires IsPage(at, store.persisted, store.visible, store.gone, tail, n)
      modifies this
      ensures Valid() && old(trace) <= trace && read == PagePos(old(read), at, |at|) >= old(read)
      ensures cancelled == old(cancelled) && clock == old(clock)
      ensures |byID| == old(|byID|) + Decodable(entries)
    {
      hide Consistent, Legal, After, Refines, Justified, Faithful, WebhookQueueKey, IsPage, Ascending;
      ghost var read0 := read;
      var k: nat := 0;
      while k < |entries|
        invariant k <= |entries| && Valid() && old(trace) <= trace && read == PagePos(read0, at, k) >= read0
        invariant cancelled == old(cancelled) && clock == old(clock)
        invariant |byID| == old(|byID|) + Decodable(entries[..k])
        invariant unchanged(store)
      {
        assert entries[..k + 1][..k] == entries[..k];
        BetweenPageEntries(store.persisted, store.visible, store.gone, read0, at, n, k);
        IndexEntry(entries[k], at[k]);
        k := k + 1;
      }
      assert entries[..k] == entries;
    }

    /** Reads the stream on from `tail`. `waiting` is what lay ahead when the last page was read, from
        place `from` on with `loaded` updates in memory. Without a read failure or a done context, a load fills memory
        or leaves nothing behind if and only if that page was not cut short; and when the stream stays
        as it is, it takes exactly `Taken` of what lies ahead. */
    method Load() returns (failed: bool, ghost waiting: seq<Entry>, ghost loaded: nat, ghost from: nat)
      requires Valid()
      modifies this, store
      ensures Valid() && old(trace) <= trace && old(read) <= read && |byID| <= WEBHOOK_MAX_LOADED
      ensures store.readCount >= old(store.readCount) && (old(cancelled) ==> cancelled)
      ensures cancelled || old(|byID|) == WEBHOOK_MAX_LOADED || store.readCount > old(store.readCount)
      ensures old(|byID|) <= WEBHOOK_MAX_LOADED && store.readFailures == old(store.readFailures) + (if failed then 1 else 0)
      ensures !failed && !cancelled ==>
        (|byID| == WEBHOOK_MAX_LOADED || AllLoaded(read, byID, store.persisted, store.visible, store.gone)
         <==> !CutShort(waiting, loaded))
      ensures !failed && !cancelled ==> old(|byID|) <= loaded && old(read) <= from
      ensures !failed && !cancelled ==>
        LastPageWas(waiting, loaded, from, read, store.persisted, store.visible, store.gone, |byID|)
      ensures !failed && !cancelled && store.visible == old(store.visible) && store.gone == old(store.gone) ==>
        var ahead := LiveAfter(store.persisted, old(read), store.visible, store.gone);
        Loads(ahead, old(|byID|), Taken(ahead, old(|byID|)), LiveAfter(store.persisted, read, store.visible, store.gone), |byID|)
    {
      hide Consistent, Legal, After, Refines, Justified, Faithful, AllLoaded, Ascending, CutShort, LiveAfter, Taken, Loads, LastPageWas, OnTheWay, PageTakes;
      LoadedAtMost(S(), maxConns);
      failed, waiting, loaded, from := false, [], WEBHOOK_MAX_LOADED, read;
      ghost var ahead := LiveAfter(store.persisted, read, store.visible, store.gone);
      ghost var taken: nat := 0;
      LoadsNothing(ahead, |byID|);
      while |byID| < WEBHOOK_MAX_LOADED
        invariant Valid() && old(trace) <= trace && old(read) <= read && old(|byID|) <= |byID| <= WEBHOOK_MAX_LOADED
        invariant store.readFailures == old(store.readFailures) && store.Later() && (old(cancelled) ==> cancelled)
        invariant if |byID| == old(|byID|) then store.readCount >= old(store.readCount) else store.readCount > old(store.readCount)
        invariant store.visible == old(store.visible) && store.gone == old(store.gone) ==>
          var rest := LiveAfter(store.persisted, read, store.visible, store.gone);
          OnTheWay(ahead, old(|byID|), taken, rest, |byID|)
        decreases |store.persisted| - read
      {
        var done := ContextDone();
        if done { return; }
        var more;
        loaded, from := |byID|, read;
        ghost var gone1 := store.gone;
        failed, more, waiting := LoadPage();
        if failed { return; }
        if store.visible == old(store.visible) && store.gone == old(store.gone) {
          assert gone1 == old(store.gone);
          assert LiveAfter(store.persisted, old(read), store.visible, store.gone) == ahead;
          LoadsOnePage(ahead, old(|byID|), taken, waiting, loaded, LiveAfter(store.persisted, read, store.visible, store.gone), |byID|);
          taken := taken + PageTakes(waiting, loaded);
        }
        if !more {
          NothingAheadIsAllLoaded(read, byID, store.persisted, store.visible, store.gone);
          PageStops(waiting, loaded, from, read, store.persisted, store.visible, store.gone, |byID|);
          return;
        }
      }
      waiting, loaded, from := [], WEBHOOK_MAX_LOADED, read;
      FullIsNotCutShort();
      FullIsLast(read, store.persisted, store.visible, store.gone);
      if store.visible == old(store.visible) && store.gone == old(store.gone) {
        FullTakesNoMore(ahead, old(|byID|), taken, LiveAfter(store.persisted, read, store.visible, store.gone));
      }
    }

    /** One page of the stream: as much of what is waiting as there is room for, up to 100 entries;
        `more` when it was a full page. */
    method LoadPage() returns (failed: bool, more: bool, ghost waiting: seq<Entry>)
      requires Valid() && |byID| < WEBHOOK_MAX_LOADED
      modifies this, store
      ensures Valid() && store.Later() && old(trace) <= trace && old(read) <= read && old(|byID|) <= |byID| <= WEBHOOK_MAX_LOADED
      ensures store.readFailures == old(store.readFailures) + (if failed then 1 else 0)
      ensures store.readCount == old(store.readCount) + 1
      ensures cancelled == old(cancelled) && (failed ==> |byID| == old(|byID|))
      ensures more ==> read > old(read)
      ensures !failed ==> waiting == LiveAfter(store.persisted, old(read), store.visible, store.gone)
      ensures !failed ==> var n := PageTakes(waiting, old(|byID|));
        && (more <==> n >= PAGE)
        && Loads(waiting, old(|byID|), n, LiveAfter(store.persisted, read, store.visible, store.gone), |byID|)
    {
      hide Consistent, Legal, After, Refines, Justified, Faithful, IsPage, Ascending, LiveAfter, Begins, FirstLive, Loads, Decodable, LoadedWith;
      var limit := Min(PAGE, WEBHOOK_MAX_LOADED - |byID|);
      var page, at := store.ReadUpdatesAfter(tail, limit);
      RefinesLater(byID, store.persisted, read, old(store.gone), store.gone);
      JustifiedAgain(old(store.requested), store.requested, before, ledger);
      waiting := LiveAfter(store.persisted, read, store.visible, store.gone);
      if page.None? { return true, false, waiting; }
      PageFacts(at, store.persisted, store.visible, store.gone, tail, limit);
      PageIsPrefix(at, store.persisted, read, store.visible, store.gone, limit);
      FirstLiveIsPrefix(at, store.persisted, read, store.visible, store.gone, limit);
      IndexPage(page.value, at, limit);
      PageLoads(page.value, at, store.persisted, waiting, LiveAfter(store.persisted, read, store.visible, store.gone), old(|byID|));
      failed, more := false, |page.value| >= PAGE;
      if more { PageMovesOn(at, store.persisted, old(read), store.visible, store.gone, limit); }
    }

    /** Sleeps until the earliest retry, within 10 milliseconds and 30 seconds. */
    method NextRetryDelay() returns (delay: int)
      requires Valid()
      modifies `clock
      ensures Valid() && S() == old(S()).(clock := clock) && clock >= old(clock) && trace == old(trace) && read == old(read)
      ensures MIN_SLEEP <= delay <= MAX_RETRY_DELAY
      ensures forall k | k in queues :: WakesFor(S(), k, delay)
      ensures delay == MAX_RETRY_DELAY || exists k :: k in queues && WakesAt(S(), k, delay)
    {
      hide Consistent, Legal, After, Refines, Justified, Faithful;
      delay := MAX_RETRY_DELAY;
      var now := Now();
      ClockConsistent(old(S()), maxConns, now, cancelled);
      var keys := queues.Keys;
      ghost var earliest := "";
      while keys != {}
        invariant keys <= queues.Keys && delay <= MAX_RETRY_DELAY
        invariant Valid() && S() == old(S()).(clock := now) && trace == old(trace) && read == old(read)
        invariant forall k | k in queues && k !in keys :: WakesFor(S(), k, Max(MIN_SLEEP, delay))
        invariant delay == MAX_RETRY_DELAY || (earliest in queues && WakesAt(S(), earliest, Max(MIN_SLEEP, delay)))
        decreases keys
      {
        var key :| key in keys;
        keys := keys - {key};
        Heads(S(), maxConns, key);
        var head := byID[queues[key][0]];
        if !head.inFlight && head.retryAt - now < delay {
          delay, earliest := head.retryAt - now, key;
        }
      }
      if delay < MIN_SLEEP { delay := MIN_SLEEP; }
    }

    /** The replay loop, for as many turns as the run under consideration has. Whatever the stream,
        Redis, the dispatcher, the clock and the context do, what it did is a legal run. */
    method Run(turns: nat)
      requires Valid()
      modifies this, store
      ensures Valid() && old(trace) <= trace
      ensures turns > 0 && !cancelled ==>
        results == [] && (old(|byID|) == WEBHOOK_MAX_LOADED || store.readCount > old(store.readCount))
    {
      hide Valid;
      for turn := 0 to turns
        invariant Valid() && old(trace) <= trace && store.readCount >= old(store.readCount) && (old(cancelled) ==> cancelled)
        invariant turn == 0 ==> |byID| == old(|byID|)
        invariant turn > 0 && !cancelled ==>
          results == [] && (old(|byID|) == WEBHOOK_MAX_LOADED || store.readCount > old(store.readCount))
      {
        var done := ContextDone();
        if done { return; }
        Turn();
      }
    }

    /** One round: with a live context and room in memory it reads the stream on, it dispatches, and it
        sleeps as `Sleep` demands. */
    method Turn()
      requires Valid()
      modifies this, store
      ensures Valid() && old(trace) <= trace && results == [] && loadedAt.None?
      ensures store.readCount >= old(store.readCount) && (old(cancelled) ==> cancelled)
      ensures cancelled || old(|byID|) == WEBHOOK_MAX_LOADED || store.readCount > old(store.readCount)
    {
      hide Consistent, Legal, After, Refines, Justified, Faithful, AllLoaded, Waits, WakesFor, WakesAt, Delivered;
      var failed, _, _, _ := Load();
      loadedAt := Some(clock);
      ghost var now := Dispatch();
      ghost var s := S();
      var delay := NextRetryDelay();
      WaitAlso(s, S(), now);
      Sleep(now, delay);
      Drain();
    }

    /** The loop sleeps until its context is done, it is woken, the timer fires, or a result comes. It
        goes to sleep only when the dispatch that began at `checked`, after this turn's load, left nothing
        to send, and until the first retry of an idle head. */
    method Sleep(ghost checked: int, delay: int)
      requires Valid() && loadedAt.Some? && loadedAt.value <= checked <= clock
      requires cancelled || inFlight == maxConns || forall k | k in queues :: Waits(S(), k, checked)
      requires 10 <= delay <= 30000 && forall k | k in queues :: WakesFor(S(), k, delay)
      requires delay == 30000 || exists k :: k in queues && WakesAt(S(), k, delay)
      modifies `queues, `byID, `inFlight, `results, `outstanding, `cancelled, `clock, `trace, `ledger, `loadedAt,
        store`visible, store`gone, store`requested, store`deleteFailures
      ensures loadedAt.None?
      ensures Valid() && old(trace) <= trace && (old(cancelled) ==> cancelled)
    {
      hide Consistent, Legal, After, Refines, Justified, Faithful, Delivered;
      loadedAt := None;
      DispatcherRuns();
      var done := ContextDone();
      if !done && |results| > 0 {
        if * { Complete(); }
      }
    }

    /** Completes everything that was reported before Redis is read again. */
    method Drain()
      requires Valid()
      modifies `queues, `byID, `inFlight, `results, `outstanding, `clock, `trace, `ledger,
        store`visible, store`gone, store`requested, store`deleteFailures
      ensures Valid() && old(trace) <= trace && results == [] && cancelled == old(cancelled)
    {
      hide Consistent, Legal, After, Refines, Justified, Faithful, Delivered;
      DispatcherRuns();
      while |results| > 0
        invariant Valid() && old(trace) <= trace && cancelled == old(cancelled)
        decreases inFlight
      {
        InFlightPositive(S(), maxConns);
        Complete();
        DispatcherRuns();
      }
    }
  }
}
