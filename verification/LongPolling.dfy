/** getUpdates: paging through the stream past a cursor, filtering by allowed_updates, and waiting
    when nothing is there. Times are in milliseconds. */
module LongPolling {
  import opened Basics
  import opened Updates
  import opened RedisStream
  import PollSignal

  const POLL_RECHECK_INTERVAL: int := 5000

  datatype PollResult = Delivered(updates: seq<Update>) | ContextError

  /** An entry the call is to return: at the offset, decodable, and of an allowed type. */
  predicate Wanted(e: Entry, offset: int, allowed: seq<string>) {
    (offset <= 0 || e.uid >= offset) && e.update.Some? && UpdateAllowed(e.update.value, allowed)
  }

  /** None of the first `seen` entries that is still there is wanted. */
  ghost predicate NoneWanted(log: seq<Entry>, gone: set<StreamId>, offset: int, allowed: seq<string>, seen: nat) {
    forall i | 0 <= i < seen && i < |log| && log[i].id !in gone :: !Wanted(log[i], offset, allowed)
  }

  /** `at` are, in order, the positions of wanted entries, and `updates` their updates. */
  ghost predicate Answers(updates: seq<Update>, at: seq<nat>, log: seq<Entry>, offset: int, allowed: seq<string>) {
    && |updates| == |at| && Increasing(at)
    && forall m | 0 <= m < |at| ::
         at[m] < |log| && Wanted(log[at[m]], offset, allowed) && log[at[m]].update == Some(updates[m])
  }

  /** Every wanted entry among the first `seen` that is still there is in `at`. */
  ghost predicate AnswersAll(at: seq<nat>, log: seq<Entry>, gone: set<StreamId>, offset: int, allowed: seq<string>, seen: nat) {
    forall i | 0 <= i < seen && i < |log| && log[i].id !in gone && Wanted(log[i], offset, allowed) :: i in at
  }

  /** How much of the stream a read for at most n entries has covered, `hi` entries being there: all
      of it when the page is short, else up to its last entry. */
  ghost function PassedBy(from: seq<nat>, hi: nat, n: nat): nat {
    if from != [] && |from| >= n then from[|from| - 1] + 1 else hi
  }

  /** A page of at most n entries at the offset, read after the first `seen` entries when `hi` were
      there: in order, and with everything it covers. */
  ghost predicate PageRead(from: seq<nat>, log: seq<Entry>, hi: nat, gone: set<StreamId>, offset: int, seen: nat, n: nat) {
    && hi <= |log| && |from| <= n && Increasing(from)
    && (forall m | 0 <= m < |from| :: seen <= from[m] < hi && (offset <= 0 || log[from[m]].uid >= offset))
    && (forall i | seen <= i < PassedBy(from, hi, n) && i < |log| && log[i].id !in gone && (offset <= 0 || log[i].uid >= offset) ::
          i in from)
  }

  /** The answer is exactly the wanted entries of the page `from`, and nothing before that page, which
      starts after the first `seen` entries, was wanted: it is the first page with any. */
  ghost predicate AnswersPage(updates: seq<Update>, at: seq<nat>, from: seq<nat>, seen: nat, log: seq<Entry>, hi: nat,
                              gone: set<StreamId>, offset: int, allowed: seq<string>, n: nat) {
    && Answers(updates, at, log, offset, allowed) && |at| <= |from|
    && PageRead(from, log, hi, gone, offset, seen, n)
    && NoneWanted(log, gone, offset, allowed, seen)
    && forall i :: i in at <==> i in from && Wanted(log[i], offset, allowed)
  }

  /** The wanted entries of a page. */
  function Filter(page: seq<Entry>, allowed: seq<string>): seq<Update> {
    if page == [] then []
    else
      var e := page[|page| - 1];
      Filter(page[..|page| - 1], allowed)
      + (if e.update.Some? && UpdateAllowed(e.update.value, allowed) then [e.update.value] else [])
  }

  ghost function FilterAt(log: seq<Entry>, from: seq<nat>, offset: int, allowed: seq<string>): seq<nat>
    requires forall m | 0 <= m < |from| :: from[m] < |log|
  {
    if from == [] then []
    else
      var n := |from| - 1;
      FilterAt(log, from[..n], offset, allowed) + (if Wanted(log[from[n]], offset, allowed) then [from[n]] else [])
  }

  lemma {:induction false} FilterAtIsExact(log: seq<Entry>, from: seq<nat>, page: seq<Entry>, offset: int, allowed: seq<string>)
    requires Increasing(from) && Denotes(page, from, log)
    requires forall m | 0 <= m < |from| :: AtOffset(log[from[m]], offset)
    ensures Answers(Filter(page, allowed), FilterAt(log, from, offset, allowed), log, offset, allowed)
    ensures forall i :: i in FilterAt(log, from, offset, allowed) <==> i in from && Wanted(log[i], offset, allowed)
  {
    if from != [] {
      var n := |from| - 1;
      FilterAtIsExact(log, from[..n], page[..n], offset, allowed);
      var rest := FilterAt(log, from[..n], offset, allowed);
      assert from == from[..n] + [from[n]];
      forall k | 0 <= k < |rest| ensures rest[k] < from[n] {
        assert rest[k] in from[..n];
      }
    }
  }

  /** Such an answer has every wanted entry up to where its page ends: the page holds n entries, or it
      ends where the stream does. */
  lemma AnswersUpToPageEnd(updates: seq<Update>, at: seq<nat>, from: seq<nat>, seen: nat, log: seq<Entry>, hi: nat,
                           gone: set<StreamId>, offset: int, allowed: seq<string>, n: nat)
    requires AnswersPage(updates, at, from, seen, log, hi, gone, offset, allowed, n)
    ensures AnswersAll(at, log, gone, offset, allowed, PassedBy(from, hi, n))
    ensures |at| <= |from| <= n && (|from| == n > 0 || PassedBy(from, hi, n) == hi)
  {
    forall i | 0 <= i < PassedBy(from, hi, n) && i < |log| && log[i].id !in gone && Wanted(log[i], offset, allowed)
      ensures i in at
    {
      assert i >= seen;
    }
  }

  /** A page without wanted entries moves the call past all it covers. */
  lemma NothingOnPage(updates: seq<Update>, at: seq<nat>, from: seq<nat>, seen: nat, log: seq<Entry>, hi: nat,
                      gone: set<StreamId>, offset: int, allowed: seq<string>, n: nat)
    requires AnswersPage(updates, at, from, seen, log, hi, gone, offset, allowed, n) && at == []
    ensures NoneWanted(log, gone, offset, allowed, PassedBy(from, hi, n))
  {
    forall i | 0 <= i < PassedBy(from, hi, n) && i < |log| && log[i].id !in gone ensures !Wanted(log[i], offset, allowed) {
      if i >= seen && AtOffset(log[i], offset) { assert i in from; }
    }
  }

  lemma NoneWantedLess(log: seq<Entry>, gone: set<StreamId>, offset: int, allowed: seq<string>, seen: nat, less: nat)
    requires NoneWanted(log, gone, offset, allowed, seen) && less <= seen
    ensures NoneWanted(log, gone, offset, allowed, less)
  {
  }

  lemma NoneWantedLater(log: seq<Entry>, gone: set<StreamId>, gone': set<StreamId>, offset: int, allowed: seq<string>, seen: nat)
    requires NoneWanted(log, gone, offset, allowed, seen) && gone <= gone'
    ensures NoneWanted(log, gone', offset, allowed, seen)
  {
  }

  lemma FirstPage(log: seq<Entry>, hi: nat, gone: set<StreamId>, offset: int, from: seq<nat>, n: nat)
    requires Increasing(from) && |from| <= n && hi <= |log| && n > 0
    requires forall m | 0 <= m < |from| :: from[m] < hi && AtOffset(log[from[m]], offset)
    requires Gathered(from, log, hi, gone, offset, |log|)
      || (|from| == n && Gathered(from, log, hi, gone, offset, from[|from| - 1] + 1))
    ensures PageRead(from, log, hi, gone, offset, 0, n)
  {
  }

  lemma NextPage(log: seq<Entry>, hi: nat, gone: set<StreamId>, offset: int, seen: nat, from: seq<nat>, n: nat)
    requires Ascending(log) && 0 < seen <= |log| && AtOffset(log[seen - 1], offset)
    requires IsPage(from, log, hi, gone, CursorAt(log, seen), n)
    ensures PageRead(from, log, hi, gone, offset, seen, n)
  {
    forall i | seen <= i < PassedBy(from, hi, n) && i < hi && log[i].id !in gone
      ensures i in from
    {
      assert log[i].id > CursorAt(log, seen);
    }
    forall m | 0 <= m < |from| ensures seen <= from[m] < hi && AtOffset(log[from[m]], offset) {
      assert log[from[m]].id > CursorAt(log, seen);
    }
  }

  /** The cursor of a call that has passed the first `seen` entries. */
  ghost predicate CursorOk(cursor: Option<StreamId>, log: seq<Entry>, seen: nat, offset: int) {
    if seen == 0 then cursor.None?
    else seen <= |log| && cursor == Some(log[seen - 1].id) && AtOffset(log[seen - 1], offset)
  }

  lemma LastOfPage(log: seq<Entry>, hi: nat, gone: set<StreamId>, offset: int, seen: nat, from: seq<nat>, n: nat, page: seq<Entry>)
    requires PageRead(from, log, hi, gone, offset, seen, n) && Denotes(page, from, log) && page != []
    ensures from != [] && seen <= from[|from| - 1] < hi && from[|from| - 1] + 1 <= PassedBy(from, hi, n)
    ensures CursorOk(Some(page[|page| - 1].id), log, from[|from| - 1] + 1, offset)
    ensures page[|page| - 1].id == log[from[|from| - 1]].id
  {
  }

  lemma EmptyPage(page: seq<Entry>, from: seq<nat>, log: seq<Entry>, hi: nat, n: nat)
    requires Denotes(page, from, log)
    ensures |page| == |from| && (page == [] ==> PassedBy(from, hi, n) == hi)
  {
  }

  /** What the conversion loop keeps of a page is an answer. */
  lemma ResultOfPage(log: seq<Entry>, hi: nat, gone: set<StreamId>, offset: int, allowed: seq<string>, seen: nat,
                     from: seq<nat>, n: nat, page: seq<Entry>) returns (at: seq<nat>)
    requires NoneWanted(log, gone, offset, allowed, seen) && PageRead(from, log, hi, gone, offset, seen, n)
    requires Denotes(page, from, log)
    ensures AnswersPage(Filter(page, allowed), at, from, seen, log, hi, gone, offset, allowed, n)
    ensures |at| == |Filter(page, allowed)| <= |page|
  {
    at := FilterAt(log, from, offset, allowed);
    FilterAtIsExact(log, from, page, offset, allowed);
    FilterAtSize(log, from, offset, allowed);
  }

  lemma {:induction false} FilterAtSize(log: seq<Entry>, from: seq<nat>, offset: int, allowed: seq<string>)
    requires forall m | 0 <= m < |from| :: from[m] < |log|
    ensures |FilterAt(log, from, offset, allowed)| <= |from|
  {
    if from != [] { FilterAtSize(log, from[..|from| - 1], offset, allowed); }
  }

  class BotInstance {
    const store: Stream
    /** The getUpdates call that is followed here, one of many. */
    const caller: nat
    var authorized: bool
    /** The time, the caller's context, and how many more broadcasts close a signal in this run. */
    var clock: int
    var cancelled: bool
    var broadcasts: nat
    /** The wake-up channel and everyone who holds it. */
    var bell: PollSignal.State

    ghost predicate Valid()
      reads this, store
    {
      store.Valid() && PollSignal.Inv(bell) && bell.appended <= store.visible
    }

    /** Where the call stands with the wake-up channel. */
    ghost function Place(): PollSignal.Poller
      reads this
    {
      PollSignal.At(bell, caller)
    }

    constructor (store: Stream, caller: nat, authorized: bool, clock: int, broadcasts: nat)
      requires store.Valid()
      ensures this.store == store && this.caller == caller && this.authorized == authorized && this.clock == clock
      ensures this.broadcasts == broadcasts && !cancelled && Valid() && Place().Away?
    {
      this.store, this.caller, this.authorized, this.clock, this.broadcasts := store, caller, authorized, clock, broadcasts;
      cancelled, bell := false, PollSignal.State(0, false, None, {}, 0, map[]);
    }

    /** Time passes; the context may be cancelled. */
    method Elapse()
      modifies this`clock, this`cancelled
      ensures clock >= old(clock) && (old(cancelled) ==> cancelled)
    {
      var now :| now >= clock;
      clock := now;
      if * { cancelled := true; }
    }

    /** The worker appends and broadcasts, other calls come and go, entries are deleted. */
    method OthersRun()
      requires Valid()
      modifies `bell, `broadcasts, store`visible, store`gone
      ensures Valid() && store.Later() && Place() == old(Place())
      ensures broadcasts <= old(broadcasts) && old(bell.closed) <= bell.closed
      ensures bell.closed == old(bell.closed) || broadcasts < old(broadcasts)
    {
      hide PollSignal.Inv, PollSignal.Can, PollSignal.Do, PollSignal.At, PollSignal.OfOthers, Ascending;
      var steps: nat :| steps >= 0;
      for step := 0 to steps
        invariant Valid() && store.Later() && Place() == old(Place())
        invariant broadcasts <= old(broadcasts) && old(bell.closed) <= bell.closed
        invariant bell.closed == old(bell.closed) || broadcasts < old(broadcasts)
      {
        store.Elapse();
        var a: PollSignal.Action := *;
        var possible := PollSignal.OfOthers(a, caller) && PollSignal.Can(bell, a);
        if a.Append? && bell.appended == store.visible { possible := false; }
        if a.Broadcast? && bell.current.Some? {
          if broadcasts == 0 { possible := false; } else { broadcasts := broadcasts - 1; }
        }
        if possible {
          PollSignal.OthersStep(bell, a, caller);
          bell := PollSignal.Do(bell, a);
        }
      }
    }

    /** The channel that the next broadcast closes. */
    method NewUpdatesSignal() returns (signal: nat)
      requires Valid() && Place().Away?
      modifies `bell
      ensures Valid() && Place() == PollSignal.HasSignal(signal)
      ensures bell.closed == old(bell.closed) && signal !in bell.closed && bell.current == Some(signal)
    {
      hide PollSignal.Inv, Ascending;
      PollSignal.TakenIsOpen(bell, caller);
      bell := PollSignal.Do(bell, PollSignal.TakeSignal(caller));
      signal := PollSignal.At(bell, caller).signal;
    }

    /** The page after the cursor, or, before there is a cursor, from the offset on. The call holds a
        signal that it took before. When the page is empty, it has seen all that was there. */
    method ReadPage(ghost seen: nat, cursor: Option<StreamId>, offset: int, limit: int)
      returns (page: Option<seq<Entry>>, ghost from: seq<nat>)
      requires Valid() && Place().HasSignal?
      requires seen <= store.visible && CursorOk(cursor, store.persisted, seen, offset)
      modifies `bell, `broadcasts, store`visible, store`gone, store`readCount, store`readFailures
      ensures Valid() && store.Later()
      ensures store.readFailures == old(store.readFailures) + (if page.None? then 1 else 0)
      ensures page.Some? ==> Denotes(page.value, from, store.persisted) && NoneGone(from, store.persisted, old(store.gone))
      ensures page.Some? ==> PageRead(from, store.persisted, store.visible, store.gone, offset, seen, PageSize(limit))
      ensures page == Some([]) ==> Place() == PollSignal.FoundNothing(old(Place()).signal, store.visible)
      ensures page != Some([]) ==> Place().Away?
      ensures broadcasts <= old(broadcasts) && (bell.closed == old(bell.closed) || broadcasts < old(broadcasts))
    {
      hide Ascending, IsPage, Gathered, PageRead, NoneGone, CursorOk, PollSignal.Inv, PollSignal.Can, PollSignal.Do, PollSignal.At;
      OthersRun();
      page, from := ReadStore(seen, cursor, offset, limit, old(store.gone));
      Found(page != Some([]));
    }

    method ReadStore(ghost seen: nat, cursor: Option<StreamId>, offset: int, limit: int, ghost was: set<StreamId>)
      returns (page: Option<seq<Entry>>, ghost from: seq<nat>)
      requires store.Valid() && seen <= store.visible && CursorOk(cursor, store.persisted, seen, offset) && was <= store.gone
      modifies store`visible, store`gone, store`readCount, store`readFailures
      ensures store.Valid() && store.Later()
      ensures store.readFailures == old(store.readFailures) + (if page.None? then 1 else 0)
      ensures page.Some? ==> Denotes(page.value, from, store.persisted) && NoneGone(from, store.persisted, was)
      ensures page.Some? ==> PageRead(from, store.persisted, store.visible, store.gone, offset, seen, PageSize(limit))
    {
      hide Ascending, IsPage, Gathered, PageRead, NoneGone;
      if cursor.None? {
        page, from := store.ReadUpdates(offset, limit);
        if page.Some? {
          FirstPage(store.persisted, store.visible, store.gone, offset, from, PageSize(limit));
          NoneGoneSince(from, store.persisted, old(store.gone), was);
        }
      } else {
        page, from := store.ReadUpdatesAfter(cursor.value, limit);
        if page.Some? {
          NextPage(store.persisted, store.visible, store.gone, offset, seen, from, PageSize(limit));
          NoneGoneOnPage(from, store.persisted, store.visible, store.gone, was, cursor.value, PageSize(limit));
        }
      }
    }

    /** The read has covered what was appended by now, and found something or nothing. */
    method Found(something: bool)
      requires Valid() && Place().HasSignal?
      modifies `bell
      ensures Valid() && bell.closed == old(bell.closed)
      ensures Place() == if something then PollSignal.Away else PollSignal.FoundNothing(old(Place()).signal, store.visible)
    {
      hide PollSignal.Inv, Ascending;
      while bell.appended < store.visible
        invariant Valid() && bell.closed == old(bell.closed) && Place() == old(Place())
      {
        PollSignal.InvStep(bell, PollSignal.Append);
        bell := PollSignal.Do(bell, PollSignal.Append);
      }
      Step(if something then PollSignal.ReadSome(caller) else PollSignal.ReadNothing(caller));
    }

    /** A step of this call's own. */
    method Step(a: PollSignal.Action)
      requires Valid() && PollSignal.Can(bell, a) && !PollSignal.OfOthers(a, caller)
      modifies `bell
      ensures Valid() && bell == PollSignal.Do(old(bell), a)
    {
      hide PollSignal.Inv, Ascending;
      PollSignal.InvStep(bell, a);
      bell := PollSignal.Do(bell, a);
    }

    /** The conversion loop: decodes and filters a page. */
    static method Select(page: seq<Entry>, allowed: seq<string>) returns (res: seq<Update>)
      ensures res == Filter(page, allowed)
    {
      res := [];
      for k := 0 to |page|
        invariant res == Filter(page[..k], allowed)
      {
        assert page[..k + 1][..k] == page[..k];
        var entry := page[k];
        if entry.update.Some? && UpdateAllowed(entry.update.value, allowed) { res := res + [entry.update.value]; }
      }
      assert page[..|page|] == page;
    }

    /** getUpdates. A non-empty answer is exactly the wanted entries of the first page after the offset
        that has any, in stream order; the page holds `limit` entries or ends where the stream does. An
        empty answer of an authorized bot comes only at the deadline or without a timeout, and means
        that nothing wanted was there when the stream was last read, unless that read failed. A positive
        offset has first removed everything below it that was there, unless Redis failed. Nothing is
        answered that was gone when the call began.
        `at` are the positions of the answer, `from` those of its page, after the first `seen` entries. */
    method GetUpdates(offset: int, limit: int, timeout: int, allowed: seq<string>)
      returns (r: PollResult, ghost at: seq<nat>, ghost from: seq<nat>, ghost seen: nat, ghost failed: bool)
      requires Valid() && Place().Away?
      modifies this, store
      ensures Valid() && Place().Away? && store.Later() && AllBelow(store.requested - old(store.requested), store.persisted, offset)
      ensures r.ContextError? ==> cancelled
      ensures failed ==> store.readFailures > old(store.readFailures)
      ensures r.Delivered? && r.updates != [] ==> AnswersPage(r.updates, at, from, seen, store.persisted, store.visible,
                                                              store.gone, offset, allowed, PageSize(limit))
      ensures r.Delivered? && r.updates != [] ==> NoneGone(from, store.persisted, old(store.gone))
      ensures r == Delivered([]) && old(authorized) && !failed ==>
        NoneWanted(store.persisted, store.gone, offset, allowed, store.visible)
      ensures r == Delivered([]) && old(authorized) && !failed ==> timeout <= 0 || clock >= old(clock) + 1000 * timeout
      ensures old(authorized) && offset > 0 && store.readFailures == old(store.readFailures) && store.deleteFailures == old(store.deleteFailures) ==>
        Cleared(store.persisted, old(store.visible), store.gone, offset, |store.persisted|)
      ensures !old(authorized) ==> r == Delivered([]) && store.requested == old(store.requested)
    {
      hide Ascending, IsPage, Gathered, PageRead, NoneWanted, AnswersPage, Answers, AllBelow, Denotes, Cleared, Wanted, CursorOk, NoneGone, PollSignal.Inv;
      at, from, seen, failed := [], [], 0, false;
      NothingYet(store.persisted, store.gone, offset, allowed);
      assert store.requested - old(store.requested) == {};
      if !authorized { return Delivered([]), at, from, seen, failed; }
      if offset > 0 {
        var acked := store.AckUpdates(offset);
      }
      ghost var gone := store.gone;
      Elapse();
      var deadline := clock + 1000 * Max(timeout, 0);
      r, at, from, seen, failed := Poll(offset, limit, timeout, deadline, allowed);
      NoneGoneSince(from, store.persisted, gone, old(store.gone));
      if Cleared(store.persisted, old(store.visible), gone, offset, |store.persisted|) {
        ClearedLater(store.persisted, old(store.visible), gone, store.gone, offset, |store.persisted|);
      }
    }

    /** The reading and waiting loop of getUpdates. */
    method Poll(offset: int, limit: int, timeout: int, deadline: int, allowed: seq<string>)
      returns (r: PollResult, ghost at: seq<nat>, ghost from: seq<nat>, ghost seen: nat, ghost failed: bool)
      requires Valid() && Place().Away? && deadline == clock + 1000 * Max(timeout, 0)
      modifies this, store
      ensures Valid() && Place().Away? && store.Later() && store.requested == old(store.requested)
      ensures store.deleteFailures == old(store.deleteFailures)
      ensures r.ContextError? ==> cancelled
      ensures store.readFailures == old(store.readFailures) + (if failed then 1 else 0)
      ensures r.Delivered? && r.updates != [] ==> !failed && AnswersPage(r.updates, at, from, seen, store.persisted, store.visible,
                                                                         store.gone, offset, allowed, PageSize(limit))
      ensures r.Delivered? && r.updates != [] ==> NoneGone(from, store.persisted, old(store.gone))
      ensures r == Delivered([]) && !failed ==> NoneWanted(store.persisted, store.gone, offset, allowed, store.visible)
      ensures r == Delivered([]) && !failed ==> timeout <= 0 || clock >= deadline
    {
      hide Ascending, IsPage, Gathered, PageRead, NoneWanted, AnswersPage, Answers, AllBelow, Cleared, Wanted, CursorOk, PassedBy, Denotes, Filter, NoneGone,
        PollSignal.Inv, PollSignal.Can, PollSignal.Do, PollSignal.At;
      var cursor: Option<StreamId> := None;
      at, from, seen, failed := [], [], 0, false;
      NothingYet(store.persisted, store.gone, offset, allowed);
      while true
        invariant Valid() && Place().Away? && store.Later() && seen <= store.visible && store.requested == old(store.requested)
        invariant store.readFailures == old(store.readFailures) && !failed && store.deleteFailures == old(store.deleteFailures)
        invariant CursorOk(cursor, store.persisted, seen, offset) && (cursor.None? <==> seen == 0)
        invariant NoneWanted(store.persisted, store.gone, offset, allowed, seen)
        decreases |store.persisted| - seen, broadcasts, Max(0, deadline - clock)
      {
        ghost var gone0 := store.gone;
        var signal := NewUpdatesSignal();
        var page;
        page, from := ReadPage(seen, cursor, offset, limit);
        NoneGoneSince(from, store.persisted, gone0, old(store.gone));
        NoneWantedLater(store.persisted, gone0, store.gone, offset, allowed, seen);
        Elapse();
        if page.None? {
          failed := true;
          if cancelled { return ContextError, [], from, seen, failed; }
          return Delivered([]), [], from, seen, failed;
        }
        var res := Select(page.value, allowed);
        at := ResultOfPage(store.persisted, store.visible, store.gone, offset, allowed, seen, from, PageSize(limit), page.value);
        if |res| > 0 { return Delivered(res), at, from, seen, failed; }
        EmptyPage(page.value, from, store.persisted, store.visible, PageSize(limit));
        NothingOnPage(res, at, from, seen, store.persisted, store.visible, store.gone, offset, allowed, PageSize(limit));
        if |page.value| > 0 {
          LastOfPage(store.persisted, store.visible, store.gone, offset, seen, from, PageSize(limit), page.value);
          NoneWantedLess(store.persisted, store.gone, offset, allowed,
                         PassedBy(from, store.visible, PageSize(limit)), from[|from| - 1] + 1);
          cursor := Some(page.value[|page.value| - 1].id);
          seen := from[|from| - 1] + 1;
        } else {
          var remaining := deadline - clock;
          if timeout <= 0 || remaining <= 0 {
            Leave();
            return Delivered([]), at, from, seen, failed;
          }
          ghost var gone1 := store.gone;
          var woken := Wait(signal, deadline, if remaining > POLL_RECHECK_INTERVAL then POLL_RECHECK_INTERVAL else remaining);
          NoneWantedLater(store.persisted, gone1, store.gone, offset, allowed, seen);
          if !woken { return ContextError, at, from, seen, failed; }
        }
      }
      r := ContextError;
    }

    /** The call ends without waiting. */
    method Leave()
      requires Valid() && Place().FoundNothing?
      modifies `bell
      ensures Valid() && Place().Away? && bell.closed == old(bell.closed)
    {
      hide PollSignal.Inv, Ascending;
      Step(PollSignal.GiveUp(caller));
    }

    /** Sleeps until the context is done (false), the signal is closed, or the timer fires. The signal
        is the one taken before the read that found nothing; once it is closed there is no sleep. The timer
        fires after five seconds, or at the deadline if that comes first. */
    method Wait(signal: nat, ghost deadline: int, remaining: int) returns (woken: bool)
      requires deadline > clock && remaining == (if deadline - clock > 5000 then 5000 else deadline - clock)
      requires Valid() && Place().FoundNothing? && Place().signal == signal
      modifies `clock, `cancelled, `broadcasts, `bell, store`visible, store`gone
      ensures Valid() && Place().Away? && store.Later()
      ensures !woken ==> cancelled
      ensures clock >= old(clock) && broadcasts <= old(broadcasts)
      ensures bell.closed == old(bell.closed) || broadcasts < old(broadcasts)
      ensures woken ==> signal in bell.closed || clock >= old(clock) + remaining
      ensures signal in old(bell.closed) ==> clock == old(clock)
    {
      hide PollSignal.Inv, Ascending;
      Step(PollSignal.Sleep(caller));
      var start, closed := clock, signal in bell.closed;
      if !closed {
        OthersRun();
        Elapse();
      }
      woken := true;
      if cancelled {
        if * { woken := false; }
      }
      if woken && signal in bell.closed {
        Step(PollSignal.Wake(caller));
      } else {
        if woken {
          var now :| now >= clock && now >= start + remaining;
          clock := now;
        }
        Step(PollSignal.TimeOut(caller));
      }
    }
  }

  lemma NoneGoneSince(at: seq<nat>, log: seq<Entry>, gone: set<StreamId>, was: set<StreamId>)
    requires was <= gone
    ensures NoneGone(at, log, gone) ==> NoneGone(at, log, was)
  {
  }

  lemma NothingYet(log: seq<Entry>, gone: set<StreamId>, offset: int, allowed: seq<string>)
    ensures Answers([], [], log, offset, allowed) && NoneWanted(log, gone, offset, allowed, 0)
    ensures AllBelow({}, log, offset) && CursorOk(None, log, 0, offset)
  {
  }

  /** A removed boost has no name in allowed_updates: with any filter it is never returned. */
  lemma RemovedBoostsAreFiltered(e: Entry, offset: int, allowed: seq<string>)
    requires e.update.Some? && e.update.value.kind.RemovedChatBoost?
    ensures Wanted(e, offset, allowed) <==> (offset <= 0 || e.uid >= offset) && (allowed == [] || "" in allowed)
  {
  }
}
