/** From MTProto batches to the persisted stream: the bounded queue between the connection and the
    per-bot worker, and the worker's conversion, numbering and appending of updates. */
module UpdatePipeline {
  import opened Basics
  import opened Updates

  /** An MTProto update: whether it is a replayed qts update, and what it converts to (None when the
      converter fails or produces nothing). */
  datatype RawUpdate = RawUpdate(replayed: bool, converted: Option<Update>)

  datatype Batch =
    | Regular(updates: seq<RawUpdate>)                  // updates, updatesCombined, updateShort
    | ShortMessage(outgoing: bool, converted: Update)   // updateShortMessage, updateShortChatMessage
    | Unhandled

  const UPDATE_QUEUE_SIZE: nat := 4096
  const ATTEMPTS: nat := 8

  /** The Bot API updates of a batch, in order. */
  function Candidates(b: Batch): seq<Update> {
    match b
    case Regular(us) => Converted(us)
    case ShortMessage(outgoing, u) => if outgoing then [] else [u]
    case Unhandled => []
  }

  function Converted(us: seq<RawUpdate>): seq<Update> {
    if us == [] then []
    else
      var u := us[|us| - 1];
      Converted(us[..|us| - 1]) + (if !u.replayed && u.converted.Some? then [u.converted.value] else [])
  }

  lemma {:induction false} ConvertedConcat(us: seq<RawUpdate>, vs: seq<RawUpdate>)
    ensures Converted(us + vs) == Converted(us) + Converted(vs)
  {
    if vs == [] {
      assert us + vs == us;
    } else {
      ConvertedConcat(us, vs[..|vs| - 1]);
      assert (us + vs)[..|us + vs| - 1] == us + vs[..|vs| - 1];
    }
  }

  lemma ConvertedOne(u: RawUpdate)
    ensures Converted([]) == []
    ensures Converted([u]) == if !u.replayed && u.converted.Some? then [u.converted.value] else []
  {
    assert [u][..0] == [];
  }

  /** A batch gives the updates of its parts, in order: nothing for one that is replayed or does not
      convert. A short message gives its update exactly when it is incoming. */
  lemma CandidatesOfParts(us: seq<RawUpdate>, u: RawUpdate, vs: seq<RawUpdate>, v: Update)
    ensures Candidates(Regular(us + vs)) == Candidates(Regular(us)) + Candidates(Regular(vs))
    ensures Candidates(Regular([u])) == (match u case RawUpdate(false, Some(w)) => [w] case _ => [])
    ensures Candidates(ShortMessage(true, v)) == [] && Candidates(ShortMessage(false, v)) == [v]
  {
    hide Converted;
    ConvertedConcat(us, vs);
    ConvertedOne(u);
  }

  /** A batch that the worker took, and whether the bot was authorized then. */
  datatype Taken = Taken(batch: Batch, authorized: bool)

  /** All the updates the worker had to persist, in arrival order. */
  function Work(done: seq<Taken>): seq<Update> {
    if done == [] then []
    else
      var t := done[|done| - 1];
      Work(done[..|done| - 1]) + (if t.authorized then Candidates(t.batch) else [])
  }

  /** What became of one update. */
  datatype Fate =
    | Stale           // dropped without an id
    | NoId            // lost: no update_id could be allocated
    | Lost(uid: int)  // lost: Redis refused to append it
    | Kept(uid: int)

  datatype Persisted = Persisted(uid: int, update: Update)

  /** The stream that the given fates leave behind. */
  function PersistedOf(work: seq<Update>, fates: seq<Fate>): seq<Persisted>
    requires |fates| <= |work|
    decreases |fates|
  {
    if fates == [] then []
    else
      var n := |fates| - 1;
      PersistedOf(work, fates[..n]) + (if fates[n].Kept? then [Persisted(fates[n].uid, work[n])] else [])
  }

  /** How many ids the fates took. */
  function IdsTaken(fates: seq<Fate>): nat {
    if fates == [] then 0
    else
      var n := |fates| - 1;
      IdsTaken(fates[..n]) + (if fates[n].Kept? || fates[n].Lost? then 1 else 0)
  }

  predicate HasId(f: Fate) { f.Kept? || f.Lost? }

  /** The ids are handed out in increasing order, above `base` and up to `last`. */
  ghost predicate Numbered(fates: seq<Fate>, base: int, last: int) {
    && base <= last
    && (forall i | 0 <= i < |fates| && HasId(fates[i]) :: base < fates[i].uid <= last)
    && (forall i, j | 0 <= i < j < |fates| && HasId(fates[i]) && HasId(fates[j]) :: fates[i].uid < fates[j].uid)
  }

  /** The updates were handled at the given times, one after another, the last not after `now`; and
      exactly those that were stale at that time were dropped as stale. */
  ghost predicate StaleExactly(work: seq<Update>, fates: seq<Fate>, times: seq<int>, now: int) {
    && |times| == |fates| <= |work|
    && (forall i | 0 <= i < |times| :: times[i] <= now)
    && (forall i, j | 0 <= i < j < |times| :: times[i] <= times[j])
    && (forall i | 0 <= i < |fates| :: fates[i].Stale? <==> StaleMessageUpdate(work[i], times[i]))
  }

  /** Without Redis failures nothing is lost and the ids are consecutive. */
  ghost predicate Lossless(fates: seq<Fate>, base: int, last: int) {
    (forall i | 0 <= i < |fates| :: fates[i].Stale? || fates[i].Kept?) && last == base + IdsTaken(fates)
  }

  lemma {:induction false} PersistedMonotone(work: seq<Update>, more: seq<Update>, fates: seq<Fate>)
    requires |fates| <= |work|
    ensures PersistedOf(work + more, fates) == PersistedOf(work, fates)
    decreases |fates|
  {
    if fates != [] {
      PersistedMonotone(work, more, fates[..|fates| - 1]);
    }
  }

  lemma StaleMore(work: seq<Update>, more: seq<Update>, fates: seq<Fate>, times: seq<int>, now: int)
    requires StaleExactly(work, fates, times, now)
    ensures StaleExactly(work + more, fates, times, now)
  {
  }

  lemma StaleLater(work: seq<Update>, fates: seq<Fate>, times: seq<int>, now: int, later: int)
    requires StaleExactly(work, fates, times, now) && now <= later
    ensures StaleExactly(work, fates, times, later)
  {
  }

  lemma StaleOneMore(work: seq<Update>, fates: seq<Fate>, times: seq<int>, now: int, f: Fate)
    requires StaleExactly(work, fates, times, now) && |fates| < |work|
    requires f.Stale? <==> StaleMessageUpdate(work[|fates|], now)
    ensures StaleExactly(work, fates + [f], times + [now], now)
  {
  }

  lemma NumberedOneMore(fates: seq<Fate>, base: int, last: int, next: int, f: Fate)
    requires Numbered(fates, base, last) && last <= next && (HasId(f) ==> last < f.uid == next)
    ensures Numbered(fates + [f], base, next)
  {
  }

  lemma LosslessOneMore(fates: seq<Fate>, base: int, last: int, next: int, f: Fate)
    requires Lossless(fates, base, last)
    requires (f.Stale? && next == last) || (f.Kept? && next == last + 1)
    ensures Lossless(fates + [f], base, next)
  {
    assert (fates + [f])[..|fates|] == fates;
  }

  lemma OneMoreFate(work: seq<Update>, fates: seq<Fate>, f: Fate)
    requires |fates| < |work|
    ensures PersistedOf(work, fates + [f]) ==
      PersistedOf(work, fates) + (if f.Kept? then [Persisted(f.uid, work[|fates|])] else [])
    ensures IdsTaken(fates + [f]) == IdsTaken(fates) + (if HasId(f) then 1 else 0)
  {
    assert (fates + [f])[..|fates|] == fates;
  }

  /** Where in the arrivals the persisted updates stand. */
  function KeptAt(fates: seq<Fate>): seq<nat> {
    if fates == [] then []
    else
      var n := |fates| - 1;
      KeptAt(fates[..n]) + (if fates[n].Kept? then [n] else [])
  }

  /** The places are those of the kept updates, each once, in order. */
  ghost predicate KeptPlaces(fates: seq<Fate>, at: seq<nat>) {
    && (forall k | 0 <= k < |at| :: at[k] < |fates| && fates[at[k]].Kept?)
    && (forall k, m | 0 <= k < m < |at| :: at[k] < at[m])
    && (forall i | 0 <= i < |fates| && fates[i].Kept? :: i in at)
  }

  lemma OneMorePlace(fates: seq<Fate>, at: seq<nat>, f: Fate)
    requires KeptPlaces(fates, at)
    ensures KeptPlaces(fates + [f], at + (if f.Kept? then [|fates|] else []))
  {
    var more := at + (if f.Kept? then [|fates|] else []);
    forall i | 0 <= i <= |fates| && (fates + [f])[i].Kept? ensures i in more {
      if i < |fates| { assert i in at; } else { assert more[|at|] == i; }
    }
  }

  lemma {:induction false} KeptAtIsExact(fates: seq<Fate>)
    ensures KeptPlaces(fates, KeptAt(fates))
  {
    if fates != [] {
      hide KeptPlaces;
      var n := |fates| - 1;
      KeptAtIsExact(fates[..n]);
      assert fates == fates[..n] + [fates[n]];
      OneMorePlace(fates[..n], KeptAt(fates[..n]), fates[n]);
    }
  }

  lemma {:induction false} PersistedAtKept(work: seq<Update>, fates: seq<Fate>)
    requires |fates| <= |work|
    ensures |PersistedOf(work, fates)| == |KeptAt(fates)|
    ensures forall k | 0 <= k < |KeptAt(fates)| :: var i := KeptAt(fates)[k];
      i < |fates| && PersistedOf(work, fates)[k].update == work[i] && fates[i] == Kept(PersistedOf(work, fates)[k].uid)
    decreases |fates|
  {
    if fates != [] {
      PersistedAtKept(work, fates[..|fates| - 1]);
    }
  }

  /** The stream is an ordered selection of the arrivals: its updates stand in arrival order, every
      kept update is in it, and its update_ids strictly increase. */
  lemma PersistedInArrivalOrder(work: seq<Update>, fates: seq<Fate>, base: int, last: int)
    requires |fates| <= |work| && Numbered(fates, base, last)
    ensures var log, at := PersistedOf(work, fates), KeptAt(fates);
      && |at| == |log|
      && (forall k | 0 <= k < |at| :: at[k] < |work| && log[k].update == work[at[k]] && base < log[k].uid <= last)
      && (forall k, m | 0 <= k < m < |at| :: at[k] < at[m] && log[k].uid < log[m].uid)
      && (forall i | 0 <= i < |fates| && fates[i].Kept? :: i in at)
  {
    var log, at := PersistedOf(work, fates), KeptAt(fates);
    KeptAtIsExact(fates);
    PersistedAtKept(work, fates);
    forall k, m | 0 <= k < m < |at| ensures log[k].uid < log[m].uid {
      assert HasId(fates[at[k]]) && HasId(fates[at[m]]);
    }
    forall k | 0 <= k < |at| ensures base < log[k].uid <= last {
      assert HasId(fates[at[k]]);
    }
  }

  datatype HandleOutcome = Queued | Dropped | Blocked

  /** The queue, the worker and what they leave in Redis. */
  class UpdateWorker {
    var queue: seq<Batch>
    var quit: bool
    var authorized: bool
    var counter: int          // the update_id counter in Redis
    var stream: seq<Persisted>
    var clock: int

    ghost const base: int
    ghost var accepted: seq<Batch>   // everything that ever entered the queue
    ghost var taken: seq<Taken>      // everything the worker finished
    ghost var fates: seq<Fate>
    ghost var times: seq<int>        // when each of them was decided
    ghost var failures: nat          // failed Redis commands
    ghost var announced: nat         // how much of the stream a broadcast has followed

    /** `work` is what the worker must have dealt with, `fates` how far it came. */
    ghost predicate Consistent(work: seq<Update>)
      reads this
    {
      && |queue| <= UPDATE_QUEUE_SIZE
      && |fates| <= |work| && stream == PersistedOf(work, fates)
      && Numbered(fates, base, counter) && StaleExactly(work, fates, times, clock)
      && (failures == 0 ==> Lossless(fates, base, counter))
      && announced <= |stream|
    }

    /** Between two batches. */
    ghost predicate Valid()
      reads this
    {
      && Consistent(Work(taken)) && |fates| == |Work(taken)|
      && accepted == Batches(taken) + queue
      && announced == |stream|
    }

    constructor (counter: int)
      ensures Valid() && accepted == [] && taken == [] && base == counter && stream == [] && !quit && !authorized
    {
      queue, quit, authorized, this.counter, stream, clock := [], false, false, counter, [], 0;
      base, accepted, taken, fates, times, failures, announced := counter, [], [], [], [], 0, 0;
    }

    /** Handle: enqueue, and only when the queue is full wait for room, the end of the worker or the
        caller's context. Blocked means that it still waits. */
    method Handle(b: Batch, contextDone: bool) returns (r: HandleOutcome)
      requires |queue| <= UPDATE_QUEUE_SIZE
      modifies `queue, `accepted
      ensures |queue| <= UPDATE_QUEUE_SIZE
      ensures r.Queued? ==> queue == old(queue) + [b] && accepted == old(accepted) + [b]
      ensures !r.Queued? ==> queue == old(queue) && accepted == old(accepted)
      ensures r.Dropped? ==> quit || (contextDone && |queue| == 4096)
      ensures r.Blocked? ==> |queue| == 4096 && !quit && !contextDone
    {
      if |queue| < UPDATE_QUEUE_SIZE {
        var enqueue := true;
        if quit {
          if * { enqueue := false; }
        }
        if enqueue {
          queue, accepted := queue + [b], accepted + [b];
          return Queued;
        }
        return Dropped;
      }
      r := if quit || contextDone then Dropped else Blocked;
    }

    /** Meanwhile connections deliver batches, time passes, the bot is authorized or stopped. */
    method Elapse()
      modifies `queue, `accepted, `quit, `authorized, `clock
      requires |queue| <= UPDATE_QUEUE_SIZE
      ensures |queue| <= UPDATE_QUEUE_SIZE && old(queue) <= queue && accepted == old(accepted) + queue[|old(queue)|..]
      ensures clock >= old(clock) && (old(quit) ==> quit)
    {
      var arrivals: nat :| arrivals >= 0;
      while arrivals > 0
        invariant |queue| <= UPDATE_QUEUE_SIZE && old(queue) <= queue
        invariant accepted == old(accepted) + queue[|old(queue)|..]
        invariant quit == old(quit) && clock == old(clock)
      {
        var b: Batch := *;
        var r := Handle(b, false);
        arrivals := arrivals - 1;
      }
      var now :| now >= clock;
      clock := now;
      if * { quit := true; }
      if * { authorized := true; }
    }

    /** retryRedis around INCR, given up only after all its attempts failed: a failed command may or may not have incremented the counter. */
    method NextUpdateId() returns (id: Option<int>)
      modifies `counter, `failures
      ensures failures >= old(failures)
      ensures id.Some? ==> old(counter) < id.value == counter && (failures == 0 ==> counter == old(counter) + 1)
      ensures id.None? ==> counter >= old(counter) && failures == old(failures) + 8
      ensures failures < old(failures) + 8 || id.None?
    {
      var attempt := 0;
      while attempt < ATTEMPTS
        invariant attempt <= ATTEMPTS && counter >= old(counter) && failures == old(failures) + attempt
        invariant attempt == 0 ==> counter == old(counter)
      {
        if * {
          counter := counter + 1;
          return Some(counter);
        }
        if * { counter := counter + 1; }
        failures := failures + 1;
        attempt := attempt + 1;
      }
      id := None;
    }

    /** retryRedis around XADD, given up only after all its attempts failed. */
    method AppendUpdate(uid: int, u: Update) returns (ok: bool)
      modifies `stream, `failures
      ensures failures >= old(failures)
      ensures ok ==> stream == old(stream) + [Persisted(uid, u)]
      ensures !ok ==> stream == old(stream) && failures == old(failures) + 8
      ensures failures < old(failures) + 8 || !ok
    {
      var attempt := 0;
      while attempt < ATTEMPTS
        invariant attempt <= ATTEMPTS && stream == old(stream) && failures == old(failures) + attempt
      {
        if * {
          stream := stream + [Persisted(uid, u)];
          return true;
        }
        failures := failures + 1;
        attempt := attempt + 1;
      }
      ok := false;
    }

    /** One update: dropped if it is stale now, and only then without an id; else numbered and appended. */
    method PersistOne(u: Update, ghost work: seq<Update>) returns (kept: bool)
      requires Consistent(work) && |fates| < |work| && u == work[|fates|]
      modifies `counter, `failures, `stream, `fates, `times
      ensures Consistent(work) && |fates| == |old(fates)| + 1 && times == old(times) + [clock]
      ensures fates[..|old(fates)|] == old(fates)
      ensures fates[|old(fates)|].Stale? <==> StaleMessageUpdate(u, clock)
      ensures StaleMessageUpdate(u, clock) ==> counter == old(counter) && stream == old(stream)
      ensures kept <==> fates[|old(fates)|].Kept?
      ensures |stream| == |old(stream)| + (if kept then 1 else 0)
    {
      hide PersistedOf, IdsTaken, StaleExactly, StaleMessageUpdate, Numbered, Lossless;
      ghost var last := counter;
      ghost var fate := Stale;
      kept := false;
      if !StaleMessageUpdate(u, clock) {
        kept, fate := NumberAndAppend(u);
      }
      OneMoreFate(work, fates, fate);
      StaleOneMore(work, fates, times, clock, fate);
      NumberedOneMore(fates, base, last, counter, fate);
      if failures == 0 { LosslessOneMore(fates, base, last, counter, fate); }
      fates, times := fates + [fate], times + [clock];
    }

    /** An update that is not stale gets an id and is appended, as far as Redis goes along. */
    method NumberAndAppend(u: Update) returns (kept: bool, ghost fate: Fate)
      modifies `counter, `failures, `stream
      ensures !fate.Stale? && (kept <==> fate.Kept?) && failures >= old(failures) && counter >= old(counter)
      ensures HasId(fate) ==> old(counter) < fate.uid == counter
      ensures stream == old(stream) + (if fate.Kept? then [Persisted(fate.uid, u)] else [])
      ensures failures == 0 ==> fate.Kept? && counter == old(counter) + 1
      ensures !kept ==> failures >= old(failures) + 8
    {
      var id := NextUpdateId();
      if id.None? { return false, NoId; }
      kept := AppendUpdate(id.value, u);
      fate := if kept then Kept(id.value) else Lost(id.value);
    }

    /** The conversion loop of processUpdates. */
    method Convert(b: Batch) returns (out: seq<Update>)
      ensures out == Candidates(b)
    {
      match b
      case Unhandled => out := [];
      case ShortMessage(outgoing, u) => out := if outgoing then [] else [u];
      case Regular(us) =>
        out := [];
        for i := 0 to |us|
          invariant out == Converted(us[..i])
        {
          assert us[..i + 1][..i] == us[..i];
          if !us[i].replayed && us[i].converted.Some? { out := out + [us[i].converted.value]; }
        }
        assert us[..|us|] == us;
    }

    /** processUpdates for a batch taken from the queue: its updates are dealt with one by one, in
        order, and a broadcast follows if anything was persisted. */
    method ProcessUpdates(b: Batch)
      requires Consistent(Work(taken)) && |fates| == |Work(taken)| && announced == |stream|
      requires accepted == Batches(taken) + [b] + queue
      modifies this
      ensures Valid() && taken == old(taken) + [Taken(b, old(authorized))] && (old(quit) ==> quit)
    {
      hide PersistedOf, IdsTaken, Numbered, StaleExactly, Lossless, Candidates, Work, Batches;
      ghost var done := taken + [Taken(b, authorized)];
      OneMoreTaken(taken, Taken(b, authorized));
      var isAuthorized := authorized;
      if isAuthorized {
        var updates := Convert(b);
        ghost var work := Work(taken) + updates;
        PersistedMonotone(Work(taken), updates, fates);
        StaleMore(Work(taken), updates, fates, times, clock);
        var persisted := 0;
        for i := 0 to |updates|
          invariant Consistent(work) && |fates| == |Work(taken)| + i && taken == old(taken) && announced == old(announced)
          invariant accepted == Batches(taken) + [b] + queue && (old(quit) ==> quit)
          invariant |stream| == announced + persisted
        {
          ghost var clock0 := clock;
          Elapse();
          StaleLater(work, fates, times, clock0, clock);
          assert work[|fates|] == updates[i];
          var kept := PersistOne(updates[i], work);
          if kept { persisted := persisted + 1; }
        }
        if persisted > 0 { announced := |stream|; }
      } else {
        assert Work(done) == Work(taken);
      }
      taken := done;
    }

    /** One turn: a worker that drains its queue takes a batch or, when there is none, exits; any other
        takes a batch, finds none, or notices that it was told to quit. */
    method Turn(draining: bool) returns (exited: bool, drains: bool)
      requires Valid() && (draining ==> quit)
      modifies this
      ensures Valid() && (exited ==> quit && queue == [] && Batches(taken) == accepted)
      ensures (exited ==> draining) && (drains ==> quit) && (draining ==> drains)
      ensures |taken| == |old(taken)| + 1 || (taken == old(taken) && (queue == [] || (drains && !draining)))
      ensures draining && !exited ==> |taken| == |old(taken)| + 1
    {
      Wait();
      exited, drains := false, draining;
      if draining {
        if queue == [] { return true, true; }
        TakeOne();
      } else {
        // select: a queued batch or the closed quit channel, whichever is ready
        if quit {
          if * { return false, true; }
        }
        if queue != [] { TakeOne(); }
      }
    }

    /** The worker, for as many turns as the run has. When it exits, which it does only after quit was
        closed, every batch that ever entered the queue has been processed, in arrival order. */
    method RunUpdateWorker(turns: nat) returns (exited: bool)
      requires Valid()
      modifies this
      ensures Valid() && (exited ==> quit && queue == [] && Batches(taken) == accepted)
    {
      exited := false;
      var draining := false;
      for turn := 0 to turns
        invariant Valid() && (draining ==> quit)
      {
        exited, draining := Turn(draining);
        if exited { return; }
      }
    }

    /** The worker sleeps while others act. */
    method Wait()
      requires Valid()
      modifies `queue, `accepted, `quit, `authorized, `clock
      ensures Valid() && (old(quit) ==> quit) && taken == old(taken)
    {
      hide PersistedOf, Numbered, StaleExactly, Lossless, Work;
      Elapse();
      StaleLater(Work(taken), fates, times, old(clock), clock);
    }

    method TakeOne()
      requires Valid() && queue != []
      modifies this
      ensures Valid() && (old(quit) ==> quit) && |taken| == |old(taken)| + 1
    {
      hide PersistedOf, Numbered, StaleExactly, Lossless, Work, Batches;
      var item := queue[0];
      queue := queue[1..];
      ProcessUpdates(item);
    }
  }

  /** In every reachable state: the stream holds updates of the accepted batches in arrival order with
      strictly increasing update_ids, and a broadcast has followed every append of a finished batch. An
      update was dropped as stale exactly if it was stale when it was handled; every other one is in
      the stream, unless Redis failed. */
  lemma StreamInArrivalOrder(w: UpdateWorker)
    requires w.Valid()
    ensures w.accepted == Batches(w.taken) + w.queue && w.announced == |w.stream|
    ensures var work, at := Work(w.taken), KeptAt(w.fates);
      && |at| == |w.stream| && |w.fates| == |w.times| == |work|
      && (forall k | 0 <= k < |at| :: at[k] < |work| && w.stream[k].update == work[at[k]])
      && (forall k, m | 0 <= k < m < |at| :: at[k] < at[m] && w.stream[k].uid < w.stream[m].uid)
      && (forall i | 0 <= i < |work| :: w.fates[i].Stale? <==> StaleMessageUpdate(work[i], w.times[i]))
      && (forall i | 0 <= i < |work| :: i in at <==> w.fates[i].Kept?)
    ensures forall i | 0 <= i < |w.fates| && (w.fates[i].NoId? || w.fates[i].Lost?) :: w.failures > 0
  {
    PersistedInArrivalOrder(Work(w.taken), w.fates, w.base, w.counter);
    KeptAtIsExact(w.fates);
  }

  /** Without Redis failures an update is persisted if and only if it was not stale when it was handled,
      and the ids are consecutive: stale, replayed and unconverted updates use none. */
  lemma NothingLostWithoutFailures(w: UpdateWorker)
    requires w.Valid() && w.failures == 0
    ensures |w.times| == |Work(w.taken)| && forall i: nat ::
      i in KeptAt(w.fates) <==> i < |w.times| && !StaleMessageUpdate(Work(w.taken)[i], w.times[i])
    ensures forall k | 0 <= k < |w.stream| :: w.stream[k].uid == w.base + k + 1
    ensures w.counter == w.base + |w.stream|
  {
    var work := Work(w.taken);
    PersistedInArrivalOrder(work, w.fates, w.base, w.counter);
    KeptAtIsExact(w.fates);
    AllIdsKept(work, w.fates);
    assert forall i | 0 <= i < |work| :: w.fates[i].Kept? || w.fates[i].Stale?;
    var log := w.stream;
    var uids := seq(|log|, k requires 0 <= k < |log| => log[k].uid);
    FillsRange(uids, w.base, w.counter);
    assert forall k | 0 <= k < |w.stream| :: uids[k] == w.stream[k].uid;
  }

  lemma {:induction false} AllIdsKept(work: seq<Update>, fates: seq<Fate>)
    requires |fates| <= |work| && forall i | 0 <= i < |fates| :: fates[i].Stale? || fates[i].Kept?
    ensures |PersistedOf(work, fates)| == IdsTaken(fates)
    decreases |fates|
  {
    if fates != [] { AllIdsKept(work, fates[..|fates| - 1]); }
  }

  /** Strictly increasing numbers that are as many as the range is long fill it. */
  lemma FillsRange(a: seq<int>, base: int, last: int)
    requires |a| == last - base
    requires forall k | 0 <= k < |a| :: base < a[k] <= last
    requires forall k, m | 0 <= k < m < |a| :: a[k] < a[m]
    ensures forall k | 0 <= k < |a| :: a[k] == base + k + 1
  {
    for k := 0 to |a|
      invariant forall m | 0 <= m < k :: a[m] >= base + m + 1
    {
      assert k > 0 ==> a[k - 1] < a[k];
    }
    for k := |a| downto 0
      invariant forall m | k <= m < |a| :: a[m] <= base + m + 1
    {
      assert k + 1 < |a| ==> a[k] < a[k + 1];
    }
  }

  function Batches(done: seq<Taken>): seq<Batch> {
    seq(|done|, i requires 0 <= i < |done| => done[i].batch)
  }

  lemma OneMoreTaken(done: seq<Taken>, t: Taken)
    ensures Batches(done + [t]) == Batches(done) + [t.batch]
    ensures Work(done + [t]) == Work(done) + (if t.authorized then Candidates(t.batch) else [])
  {
    assert (done + [t])[..|done|] == done;
  }
}
