/** What a webhook replay loop may do, as rules on the sequence of its observable events, and what
    follows from the rules for every run: order per queue, no resend, no loss. */
module DeliveryTrace {
  import opened Basics
  import opened Updates

  /** Times are in milliseconds. `checked` is when the dispatch that sends or gives up an update
      looked at the clock, `at` when it is sent, given up, or found to have failed. */
  datatype Event =
    | Loaded(id: StreamId, queue: string)             // read from the stream and queued
    | Sent(id: StreamId, at: int, checked: int)       // handed to the dispatcher
    | Accepted(id: StreamId)                          // the application answered with success
    | Failed(id: StreamId, at: int)                   // the send was reported as failed
    | Expired(id: StreamId, at: int, checked: int)    // given up
    | Acked(id: StreamId)                             // removed from the stream and the index
    | AckFailed(id: StreamId, at: int)                // removing it from the stream failed

  const UPDATE_TTL: int := 24 * 3600 * 1000
  const MAX_RETRY_DELAY: nat := 30000

  function Pow2(n: nat): nat { if n == 0 then 1 else 2 * Pow2(n - 1) }

  /** How long to wait after the given number of failures. */
  function RetryDelay(failures: nat): nat
    requires failures > 0
  {
    Min(1000 * Pow2(Min(failures - 1, 5)), MAX_RETRY_DELAY)
  }

  /** The delays are 1, 2, 4, 8, 16 and then 30 seconds for ever: they never shrink, and the shift
      stays far from overflowing however often an update fails. */
  lemma RetryDelays(failures: nat)
    requires failures > 0
    ensures RetryDelay(failures) == match failures case 1 => 1000 case 2 => 2000 case 3 => 4000 case 4 => 8000 case 5 => 16000 case _ => 30000
    ensures RetryDelay(failures) <= RetryDelay(failures + 1)
    ensures Pow2(Min(failures - 1, 5)) * 1_000_000_000 < 0x8000_0000_0000_0000
  {
    assert Pow2(0) == 1 && Pow2(1) == 2 && Pow2(2) == 4;
    assert Pow2(3) == 8 && Pow2(4) == 16 && Pow2(5) == 32;
  }

  /** How often an update failed, and when it last did. */
  datatype Attempts = Attempts(count: nat, last: int)

  /** Where every update stands after some events. */
  datatype Ledger = Ledger(loaded: map<StreamId, string>, flying: set<StreamId>, accepted: set<StreamId>,
                           expired: set<StreamId>, acked: set<StreamId>, attempts: map<StreamId, Attempts>, time: int)

  function Failures(l: Ledger, id: StreamId): nat { if id in l.attempts then l.attempts[id].count else 0 }

  /** When an update may be tried again. */
  function RetryAt(l: Ledger, id: StreamId): int {
    if Failures(l, id) > 0 then l.attempts[id].last + RetryDelay(l.attempts[id].count) else 0
  }

  function OneMoreFailure(l: Ledger, id: StreamId, at: int): Ledger {
    l.(attempts := l.attempts[id := Attempts(Failures(l, id) + 1, at)], time := at)
  }

  function Record(l: Ledger, e: Event): Ledger {
    match e
    case Loaded(id, queue) => l.(loaded := l.loaded[id := queue])
    case Sent(id, at, _) => l.(flying := l.flying + {id}, time := at)
    case Accepted(id) => l.(flying := l.flying - {id}, accepted := l.accepted + {id})
    case Failed(id, at) => OneMoreFailure(l, id, at).(flying := l.flying - {id})
    case Expired(id, at, _) => l.(expired := l.expired + {id}, time := at)
    case Acked(id) => l.(acked := l.acked + {id})
    case AckFailed(id, at) => OneMoreFailure(l, id, at)
  }

  function After(t: seq<Event>): Ledger {
    if t == [] then Ledger(map[], {}, {}, {}, {}, map[], 0) else Record(After(t[..|t| - 1]), t[|t| - 1])
  }

  /** `a` was queued before `b` in the same queue. */
  predicate Ahead(l: Ledger, a: StreamId, b: StreamId) {
    a in l.loaded && b in l.loaded && l.loaded[a] == l.loaded[b] && a < b
  }

  ghost predicate Allowed(l: Ledger, e: Event) {
    match e
    case Loaded(id, _) => forall j | j in l.loaded :: j < id
    case Sent(id, at, checked) =>
      && id in l.loaded && id !in l.flying && id !in l.accepted && id !in l.expired && id !in l.acked
      && (forall j | Ahead(l, j, id) :: j in l.acked)
      && l.time <= at && RetryAt(l, id) <= checked <= at && checked - StreamMillis(id) <= UPDATE_TTL
    case Accepted(id) => id in l.flying
    case Failed(id, at) => id in l.flying && l.time <= at
    case Expired(id, at, checked) =>
      && id in l.loaded && id !in l.flying && id !in l.accepted && id !in l.acked
      && l.time <= at && checked <= at && checked - StreamMillis(id) > UPDATE_TTL
    case Acked(id) => Removable(l, id)
    case AckFailed(id, at) => Removable(l, id) && l.time <= at && RetryAt(l, id) <= at
  }

  /** The update is accepted, or given up by a dispatch that began more than a day after it was added. */
  predicate Settles(e: Event, id: StreamId) {
    e == Accepted(id) || (e.Expired? && e.id == id && e.checked <= e.at && e.checked - StreamMillis(id) > 86400000)
  }

  /** Accepted or given up, and not yet removed. */
  predicate Removable(l: Ledger, id: StreamId) {
    id in l.loaded && id !in l.flying && id !in l.acked && (id in l.accepted || id in l.expired)
  }

  ghost predicate Legal(t: seq<Event>) {
    t == [] || (Legal(t[..|t| - 1]) && Allowed(After(t[..|t| - 1]), t[|t| - 1]))
  }

  lemma Extend(t: seq<Event>, e: Event)
    ensures After(t + [e]) == Record(After(t), e)
    ensures Legal(t + [e]) <==> Legal(t) && Allowed(After(t), e)
  {
    assert (t + [e])[..|t|] == t;
  }

  /** Every prefix of a legal run is a legal run, so each event obeys the rules when it happens. */
  lemma {:induction false} LegalAt(t: seq<Event>, i: nat)
    requires Legal(t) && i < |t|
    ensures Legal(t[..i]) && Allowed(After(t[..i]), t[i])
    decreases |t|
  {
    if i < |t| - 1 {
      LegalAt(t[..|t| - 1], i);
      assert t[..|t| - 1][..i] == t[..i];
    }
  }

  /** What legality keeps true of the ledger. */
  ghost predicate Sound(l: Ledger) {
    && l.flying <= l.loaded.Keys && l.accepted <= l.loaded.Keys && l.expired <= l.loaded.Keys
    && l.flying !! l.accepted && l.flying !! l.acked
    && l.acked <= l.accepted + l.expired
    && l.attempts.Keys <= l.loaded.Keys
    && (forall id | id in l.flying :: RetryAt(l, id) <= l.time)
    && forall a, b | Ahead(l, a, b) && (b in l.flying || b in l.accepted) :: a in l.acked
  }

  lemma {:induction false} LegalIsSound(t: seq<Event>)
    requires Legal(t)
    ensures Sound(After(t))
  {
    if t != [] {
      LegalIsSound(t[..|t| - 1]);
      SoundStep(After(t[..|t| - 1]), t[|t| - 1]);
    }
  }

  lemma SoundStep(l: Ledger, e: Event)
    requires Sound(l) && Allowed(l, e)
    ensures Sound(Record(l, e))
  {
    var m := Record(l, e);
    forall a, b | Ahead(m, a, b) && (b in m.flying || b in m.accepted) ensures a in m.acked {
      if e.Loaded? {
        assert b != e.id ==> Ahead(l, a, b) || a == e.id;
      } else {
        assert Ahead(l, a, b);
      }
    }
  }

  /** Everything the one ledger records the other records too. */
  ghost predicate Includes(l: Ledger, m: Ledger) {
    && l.accepted <= m.accepted && l.acked <= m.acked && l.expired <= m.expired && l.loaded.Keys <= m.loaded.Keys
    && forall id | id in l.loaded :: m.loaded[id] == l.loaded[id]
  }

  lemma RecordIncludes(l: Ledger, e: Event)
    requires Allowed(l, e)
    ensures Includes(l, Record(l, e))
  {
  }

  lemma IncludesTwice(l: Ledger, m: Ledger, n: Ledger)
    requires Includes(l, m) && Includes(m, n)
    ensures Includes(l, n)
  {
  }

  /** Nothing that is recorded is ever forgotten. */
  lemma {:induction false} Monotone(t: seq<Event>, i: nat)
    requires Legal(t) && i <= |t|
    ensures Includes(After(t[..i]), After(t))
    decreases |t|
  {
    if i == |t| {
      assert t[..i] == t;
    } else {
      var before := t[..|t| - 1];
      Monotone(before, i);
      assert before[..i] == t[..i];
      RecordIncludes(After(before), t[|t| - 1]);
      IncludesTwice(After(t[..i]), After(before), After(t));
    }
  }

  /** The updates of one queue are accepted in stream order, each at most once. */
  lemma AcceptedInOrder(t: seq<Event>, i: nat, j: nat)
    requires Legal(t) && i < j < |t| && t[i].Accepted? && t[j].Accepted?
    ensures t[i].id in After(t).loaded && t[j].id in After(t).loaded
    ensures After(t).loaded[t[i].id] == After(t).loaded[t[j].id] ==> t[i].id < t[j].id
  {
    var a, b := t[i].id, t[j].id;
    LegalAt(t, j);
    var l := After(t[..j]);
    LegalIsSound(t[..j]);
    LegalAt(t, i);
    LegalIsSound(t[..i]);
    assert t[..j][..i + 1] == t[..i + 1] && t[..i + 1][..i] == t[..i];
    Monotone(t[..j], i + 1);
    assert a in After(t[..i + 1]).accepted;
    Monotone(t, j);
    assert a != b && !Ahead(l, b, a);
  }

  /** Events that put an id into the ledger's sets. */
  lemma {:induction false} AckedByEvent(t: seq<Event>, id: StreamId) returns (k: nat)
    requires id in After(t).acked
    ensures k < |t| && t[k] == Acked(id)
  {
    if t[|t| - 1] == Acked(id) { k := |t| - 1; } else { k := AckedByEvent(t[..|t| - 1], id); }
  }

  lemma {:induction false} FlyingByEvent(t: seq<Event>, id: StreamId) returns (k: nat)
    requires id in After(t).flying
    ensures k < |t| && t[k].Sent? && t[k].id == id
  {
    if t[|t| - 1].Sent? && t[|t| - 1].id == id { k := |t| - 1; } else { k := FlyingByEvent(t[..|t| - 1], id); }
  }

  /** What is accepted was sent before. */
  lemma AcceptedWasSent(t: seq<Event>, i: nat) returns (k: nat)
    requires Legal(t) && i < |t| && t[i].Accepted?
    ensures k < i && t[k].Sent? && t[k].id == t[i].id
  {
    LegalAt(t, i);
    k := FlyingByEvent(t[..i], t[i].id);
  }

  lemma {:induction false} SettledByEvent(t: seq<Event>, id: StreamId) returns (k: nat)
    requires id in After(t).accepted || id in After(t).expired
    ensures k < |t| && t[k].id == id && (t[k].Accepted? || t[k].Expired?)
  {
    var last := t[|t| - 1];
    if last.id == id && (last.Accepted? || last.Expired?) {
      k := |t| - 1;
    } else {
      k := SettledByEvent(t[..|t| - 1], id);
    }
  }

  lemma {:induction false} LoadedByEvent(t: seq<Event>, id: StreamId) returns (k: nat)
    requires id in After(t).loaded
    ensures k < |t| && t[k].Loaded? && t[k].id == id
  {
    if t[|t| - 1].Loaded? && t[|t| - 1].id == id { k := |t| - 1; } else { k := LoadedByEvent(t[..|t| - 1], id); }
  }

  /** An update leaves the stream only after the application accepted it or it was a day old. */
  lemma NoLoss(t: seq<Event>, i: nat) returns (k: nat)
    requires Legal(t) && i < |t| && t[i].Acked?
    ensures k < i && Settles(t[k], t[i].id)
  {
    LegalAt(t, i);
    k := SettledByEvent(t[..i], t[i].id);
    LegalAt(t, k);
  }

  /** An accepted update is never sent again, whatever happens to its acknowledgement. */
  lemma NoResend(t: seq<Event>, i: nat, j: nat)
    requires Legal(t) && i < j < |t| && t[i].Accepted? && t[j].Sent?
    ensures t[i].id != t[j].id
  {
    LegalAt(t, j);
    assert t[..j][..i + 1] == t[..i + 1] && t[..i + 1][..i] == t[..i];
    LegalAt(t, i);
    Monotone(t[..j], i + 1);
    assert t[i].id in After(t[..i + 1]).accepted;
  }

  /** When an update is sent, every update that was ever loaded ahead of it in its queue has been
      accepted or has expired, and has then been acknowledged. */
  lemma SentAfterPredecessors(t: seq<Event>, i: nat, a: StreamId) returns (settled: nat, acked: nat)
    requires Legal(t) && i < |t| && t[i].Sent? && Ahead(After(t), a, t[i].id)
    ensures settled < acked < i && t[acked] == Acked(a) && Settles(t[settled], a)
  {
    LegalAt(t, i);
    Monotone(t, i);
    LoadedBefore(t, i, a);
    assert Ahead(After(t[..i]), a, t[i].id);
    acked := AckedByEvent(t[..i], a);
    settled := NoLoss(t, acked);
  }

  predicate IsTimed(e: Event) { e.Sent? || e.Failed? || e.Expired? || e.AckFailed? }

  /** No event is later than the last time its run recorded. */
  lemma {:induction false} TimesGrow(t: seq<Event>, i: nat)
    requires Legal(t) && i < |t| && IsTimed(t[i])
    ensures t[i].at <= After(t).time
    decreases |t|
  {
    var before := t[..|t| - 1];
    if i < |t| - 1 {
      TimesGrow(before, i);
      assert before[i] == t[i];
    }
  }

  /** How many of the events are failures of the update, to be sent or to be removed. */
  function FailureCount(t: seq<Event>, id: StreamId): nat {
    if t == [] then 0
    else
      var e := t[|t| - 1];
      FailureCount(t[..|t| - 1], id) + (if (e.Failed? || e.AckFailed?) && e.id == id then 1 else 0)
  }

  lemma {:induction false} FailuresCounted(t: seq<Event>, id: StreamId)
    ensures Failures(After(t), id) == FailureCount(t, id)
  {
    if t != [] { FailuresCounted(t[..|t| - 1], id); }
  }

  lemma RetryAtStep(l: Ledger, e: Event, id: StreamId)
    requires Sound(l) && Allowed(l, e)
    ensures RetryAt(l, id) <= RetryAt(Record(l, e), id) && l.time <= Record(l, e).time
  {
    if (e.Failed? || e.AckFailed?) && e.id == id { RetryDelays(Failures(l, id) + 1); }
  }

  lemma {:induction false} RetryAtGrows(t: seq<Event>, i: nat, id: StreamId)
    requires Legal(t) && i <= |t|
    ensures RetryAt(After(t[..i]), id) <= RetryAt(After(t), id)
    decreases |t|
  {
    if i == |t| {
      assert t[..i] == t;
    } else {
      var before := t[..|t| - 1];
      RetryAtGrows(before, i, id);
      assert before[..i] == t[..i];
      LegalIsSound(before);
      RetryAtStep(After(before), t[|t| - 1], id);
    }
  }

  /** The loop backs off: after the f-th failure of an update, whatever is tried with it next, and
      anything after that, comes at least the f-th retry delay later. */
  lemma BacksOff(t: seq<Event>, i: nat, j: nat)
    requires Legal(t) && i < j < |t| && t[i].id == t[j].id
    requires t[i].Failed? || t[i].AckFailed?
    requires t[j].Sent? || t[j].Failed? || t[j].AckFailed?
    ensures FailureCount(t[..i + 1], t[i].id) > 0
    ensures t[j].at >= t[i].at + RetryDelay(FailureCount(t[..i + 1], t[i].id))
    ensures t[j].Sent? ==> t[j].at >= t[j].checked >= t[i].at + RetryDelay(FailureCount(t[..i + 1], t[i].id))
  {
    var id := t[i].id;
    LegalAt(t, i);
    LegalAt(t, j);
    assert t[..i + 1][..i] == t[..i];
    FailuresCounted(t[..i + 1], id);
    assert RetryAt(After(t[..i + 1]), id) == t[i].at + RetryDelay(FailureCount(t[..i + 1], id));
    assert t[..j][..i + 1] == t[..i + 1];
    RetryAtGrows(t[..j], i + 1, id);
    LegalIsSound(t[..j]);
  }

  /** An update is never sent by a dispatch that began more than a day after it was added. */
  lemma NeverSentOld(t: seq<Event>, j: nat)
    requires Legal(t) && j < |t| && t[j].Sent?
    ensures t[j].checked <= t[j].at && t[j].checked - StreamMillis(t[j].id) <= 86400000
  {
    LegalAt(t, j);
  }

  /** Whatever is loaded later is later in the stream. */
  lemma LoadedByPlace(t: seq<Event>, i: nat, k: nat, b: StreamId)
    requires Legal(t) && i <= k < |t| && t[k].Loaded? && b in After(t[..i]).loaded
    ensures b < t[k].id
  {
    hide Includes;
    LegalAt(t, k);
    assert t[..k][..i] == t[..i];
    Monotone(t[..k], i);
    LoadedStays(After(t[..i]), After(t[..k]), b);
  }

  lemma LoadedStays(l: Ledger, m: Ledger, id: StreamId)
    requires Includes(l, m) && id in l.loaded
    ensures id in m.loaded
  {
  }

  lemma LoadedNow(t: seq<Event>, k: nat)
    requires k < |t| && t[k].Loaded?
    ensures t[k].id in After(t[..k + 1]).loaded
  {
    hide After;
    assert t[..k + 1] == t[..k] + [t[k]];
    Extend(t[..k], t[k]);
  }

  lemma LoadedAtEvent(t: seq<Event>, i: nat, k: nat)
    requires Legal(t) && k < i <= |t| && t[k].Loaded?
    ensures t[k].id in After(t[..i]).loaded
  {
    hide Includes, After, Record, Allowed;
    LoadedNow(t, k);
    assert t[..i][..k + 1] == t[..k + 1];
    if i < |t| { LegalAt(t, i); } else { assert t[..i] == t; }
    Monotone(t[..i], k + 1);
    LoadedStays(After(t[..k + 1]), After(t[..i]), t[k].id);
  }

  /** Loading follows stream order: whatever precedes a loaded update was loaded before it. */
  lemma LoadedBefore(t: seq<Event>, i: nat, a: StreamId)
    requires Legal(t) && i < |t| && a in After(t).loaded
    requires exists b :: b in After(t[..i]).loaded && a < b
    ensures a in After(t[..i]).loaded
  {
    hide Legal, After;
    var b :| b in After(t[..i]).loaded && a < b;
    var k := LoadedByEvent(t, a);
    if k >= i { LoadedByPlace(t, i, k, b); } else { LoadedAtEvent(t, i, k); }
  }
}
