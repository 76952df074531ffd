/** A bot's Redis Stream of persisted updates: range reads, paging by update_id and deletion.
    Other clients (the update worker, polling, trimming) act on the stream between any two
    commands; `Elapse` stands for all they may do. */
module RedisStream {
  import opened Basics
  import opened Updates

  /** update is None when the payload cannot be decoded. */
  datatype Entry = Entry(id: StreamId, uid: int, update: Option<Update>)

  const PAGE: nat := 100

  /** Stream IDs and update_ids grow in the order entries are appended; no ID is 0-0. */
  ghost predicate Ascending(log: seq<Entry>) {
    && (forall i | 0 <= i < |log| :: log[i].id > 0)
    && (forall i, j | 0 <= i < j < |log| :: log[i].id < log[j].id && log[i].uid < log[j].uid)
  }

  ghost predicate Increasing(at: seq<nat>) {
    forall i, j | 0 <= i < j < |at| :: at[i] < at[j]
  }

  function PageSize(limit: int): (n: nat)
    ensures 0 < n <= PAGE
  {
    if limit <= 0 || limit > PAGE then PAGE else limit
  }

  predicate AtOffset(e: Entry, offset: int) { offset <= 0 || e.uid >= offset }

  /** A positive offset reads exactly the entries that it does not acknowledge. */
  lemma ReadsWhatIsNotAcknowledged(log: seq<Entry>, i: nat, offset: int)
    requires i < |log| && offset > 0
    ensures AllBelow({log[i].id}, [log[i]], offset) <==> !AtOffset(log[i], offset)
  {
    assert [log[i]][0] == log[i];
  }

  /** A limit from 1 to 100 is kept, any other reads 100. */
  lemma LimitsOfAPage(limit: int)
    ensures PageSize(limit) == if 1 <= limit <= 100 then limit else 100
  {
  }

  /** `at` are the positions of the first n live entries after the cursor. */
  ghost predicate IsPage(at: seq<nat>, log: seq<Entry>, hi: nat, gone: set<StreamId>, cursor: StreamId, n: nat) {
    && hi <= |log| && |at| <= n && Increasing(at)
    && (forall m | 0 <= m < |at| :: at[m] < hi && log[at[m]].id > cursor && log[at[m]].id !in gone)
    && (forall i | 0 <= i < hi && log[i].id > cursor && log[i].id !in gone ::
          i in at || (|at| == n > 0 && at[n - 1] < i))
  }

  /** None of the entries at these places is gone. */
  ghost predicate NoneGone(at: seq<nat>, log: seq<Entry>, gone: set<StreamId>) {
    forall m | 0 <= m < |at| :: at[m] < |log| && log[at[m]].id !in gone
  }

  ghost predicate Denotes(entries: seq<Entry>, at: seq<nat>, log: seq<Entry>) {
    |entries| == |at| && forall m | 0 <= m < |at| :: at[m] < |log| && entries[m] == log[at[m]]
  }

  lemma PageGrows(at: seq<nat>, log: seq<Entry>, i: nat, gone: set<StreamId>, cursor: StreamId, n: nat)
    requires i < |log| && |at| < n && IsPage(at, log, i, gone, cursor, n)
    requires log[i].id > cursor && log[i].id !in gone
    ensures IsPage(at + [i], log, i + 1, gone, cursor, n)
  {
    assert (at + [i])[|at|] == i;
    forall k | 0 <= k < i && log[k].id > cursor && log[k].id !in gone ensures k in at + [i] {
      assert k in at;
    }
  }

  class Stream {
    /** Everything appended in the whole run under consideration, in order. */
    const persisted: seq<Entry>
    /** How many of them have been appended so far. */
    var visible: nat
    /** Entries deleted so far, by anyone. */
    var gone: set<StreamId>
    /** Entries this client has asked to delete, whether or not Redis reported success. */
    ghost var requested: set<StreamId>
    /** How many range reads this client has made, how many of them failed, and how many deletions. */
    ghost var readCount: nat
    ghost var readFailures: nat
    ghost var deleteFailures: nat

    ghost predicate Valid()
      reads this
    {
      visible <= |persisted| && Ascending(persisted)
    }

    twostate predicate Later()
      reads this
    {
      old(visible) <= visible && old(gone) <= gone
    }

    constructor (persisted: seq<Entry>, visible: nat, gone: set<StreamId>)
      requires visible <= |persisted| && Ascending(persisted)
      ensures Valid() && this.persisted == persisted && this.visible == visible && this.gone == gone && requested == {} && readFailures == 0
    {
      this.persisted, this.visible, this.gone, this.requested := persisted, visible, gone, {};
      readCount, readFailures, deleteFailures := 0, 0, 0;
    }

    /** Other clients run: more entries are appended, any entry may be deleted. */
    method Elapse()
      requires Valid()
      modifies `visible, `gone
      ensures Valid() && Later()
    {
      for i := 0 to |persisted|
        invariant Valid() && Later()
      {
        if i == visible {
          if * { visible := visible + 1; }
        }
        if * { gone := gone + {persisted[i].id}; }
      }
    }

    /** XRANGE after an exact cursor; None is a Redis failure. */
    method ReadUpdatesAfter(cursor: StreamId, limit: int) returns (page: Option<seq<Entry>>, ghost at: seq<nat>)
      requires Valid()
      modifies `visible, `gone, `readCount, `readFailures
      ensures Valid() && Later() && readCount == old(readCount) + 1
      ensures readFailures == old(readFailures) + (if page.None? then 1 else 0)
      ensures page.Some? ==> Denotes(page.value, at, persisted)
      ensures page.Some? ==> IsPage(at, persisted, visible, gone, cursor, PageSize(limit))
    {
      Elapse();
      readCount := readCount + 1;
      at := [];
      if * {
        readFailures := readFailures + 1;
        return None, at;
      }
      var out;
      out, at := Scan(persisted, visible, gone, cursor, PageSize(limit));
      page := Some(out);
    }

    static method Scan(log: seq<Entry>, hi: nat, gone: set<StreamId>, cursor: StreamId, n: nat)
      returns (out: seq<Entry>, ghost at: seq<nat>)
      requires hi <= |log| && n > 0
      ensures Denotes(out, at, log) && IsPage(at, log, hi, gone, cursor, n)
    {
      out, at := [], [];
      var i: nat := 0;
      while i < hi && |out| < n
        invariant i <= hi && Denotes(out, at, log) && IsPage(at, log, i, gone, cursor, n)
      {
        if log[i].id > cursor && log[i].id !in gone {
          PageGrows(at, log, i, gone, cursor, n);
          out, at := out + [log[i]], at + [i];
        }
        i := i + 1;
      }
    }

    /** How many entries of the run lie after the cursor; every page that is read lowers it. */
    ghost function Unread(cursor: StreamId): nat
      reads this
    {
      |set i | 0 <= i < |persisted| && persisted[i].id > cursor|
    }

    lemma UnreadShrinks(c: StreamId, i: nat)
      requires i < |persisted| && c < persisted[i].id
      ensures Unread(persisted[i].id) < Unread(c)
    {
      var a := set k | 0 <= k < |persisted| && persisted[k].id > c;
      var b := set k | 0 <= k < |persisted| && persisted[k].id > persisted[i].id;
      assert i in a && i !in b && b <= a;
      SubsetSize(b, a);
    }

    /** The first `limit` entries whose update_id is at least `offset`, found by paging from the
        start of the stream: every such entry that is there is returned, unless the limit was
        reached before it; and none is returned that was gone when the call began. */
    method ReadUpdates(offset: int, limit: int) returns (r: Option<seq<Entry>>, ghost at: seq<nat>)
      requires Valid()
      modifies `visible, `gone, `readCount, `readFailures
      ensures Valid() && Later() && readCount > old(readCount)
      ensures readFailures == old(readFailures) + (if r.None? then 1 else 0)
      ensures r.Some? ==> Denotes(r.value, at, persisted) && Increasing(at) && |at| <= PageSize(limit)
      ensures r.Some? ==> forall m | 0 <= m < |at| :: at[m] < visible && (offset <= 0 || persisted[at[m]].uid >= offset)
      ensures r.Some? ==> NoneGone(at, persisted, old(gone))
      ensures r.Some? ==> Gathered(at, persisted, visible, gone, offset, |persisted|)
                          || (|at| == PageSize(limit) && Gathered(at, persisted, visible, gone, offset, at[|at| - 1] + 1))
    {
      hide Gathered, Filtered, Ascending, IsPage, NoneGone;
      var cursor: StreamId := 0;
      var result: seq<Entry> := [];
      ghost var seen: nat := 0;
      at := [];
      NothingGathered(persisted, gone, offset);
      NoPlaceGone(persisted, gone);
      while true
        invariant Valid() && Later() && seen <= visible && cursor == CursorAt(persisted, seen)
        invariant readFailures == old(readFailures) && readCount >= old(readCount)
        invariant Denotes(result, at, persisted) && |at| < PageSize(limit)
        invariant Filtered(at, persisted, offset, seen) && NoneGone(at, persisted, old(gone))
        invariant Gathered(at, persisted, |persisted|, gone, offset, seen)
        decreases Unread(cursor)
      {
        ghost var before, earlier := at, gone;
        var read, from := ReadUpdatesAfter(cursor, PAGE);
        if read.None? { return None, at; }
        var page := read.value;
        if page == [] {
          GatheredAll(persisted, visible, earlier, gone, offset, seen, at);
          FilteredMeans(at, persisted, offset, seen);
          return Some(result), at;
        }
        var m, full;
        m, result, at, full := Collect(result, page, offset, PageSize(limit), at, from, persisted);
        GatherPage(persisted, visible, earlier, gone, offset, seen, before, from, m);
        PageNotGone(persisted, visible, gone, old(gone), cursor, offset, before, from, m);
        assert page[m - 1] == persisted[from[m - 1]];
        CursorGrows(persisted, visible, gone, seen, from, m);
        UnreadShrinks(cursor, from[m - 1]);
        seen := from[m - 1] + 1;
        cursor := page[m - 1].id;
        if full {
          FilteredMeans(at, persisted, offset, seen);
          return Some(result), at;
        }
      }
      r := None;
    }

    /** Adds the entries of a page that are at the offset until n are collected; m entries of the
        page were looked at. */
    static method Collect(result: seq<Entry>, page: seq<Entry>, offset: int, n: nat,
                          ghost at: seq<nat>, ghost from: seq<nat>, ghost log: seq<Entry>)
      returns (m: nat, out: seq<Entry>, ghost at': seq<nat>, full: bool)
      requires |result| < n && page != [] && Denotes(page, from, log) && Denotes(result, at, log)
      ensures 0 < m <= |page| && at' == at + Matching(log, from[..m], offset) && Denotes(out, at', log)
      ensures if full then |out| == n && at'[n - 1] == from[m - 1] else m == |page| && |out| < n
    {
      out, at' := result, at;
      for k := 0 to |page|
        invariant |out| < n && at' == at + Matching(log, from[..k], offset) && Denotes(out, at', log)
      {
        assert from[..k + 1][..k] == from[..k];
        if AtOffset(page[k], offset) {
          out, at' := out + [page[k]], at' + [from[k]];
          if |out| == n { return k + 1, out, at', true; }
        }
      }
      m, full := |page|, false;
    }

    /** XDEL of the given entries; on failure any of them may have been deleted all the same. */
    method Delete(ids: set<StreamId>) returns (ok: bool)
      requires Valid()
      modifies `visible, `gone, `requested, `deleteFailures
      ensures Valid() && Later() && requested == old(requested) + ids
      ensures deleteFailures == old(deleteFailures) + (if ok then 0 else 1)
      ensures ok ==> ids <= gone
    {
      Elapse();
      requested := requested + ids;
      if * {
        gone := gone + ids;
        ok := true;
      } else {
        if * { gone := gone + ids; }
        deleteFailures := deleteFailures + 1;
        ok := false;
      }
    }

    method AckUpdate(id: StreamId) returns (ok: bool)
      requires Valid()
      modifies `visible, `gone, `requested, `deleteFailures
      ensures Valid() && Later() && requested == old(requested) + {id}
      ensures ok ==> id in gone
    {
      ok := Delete({id});
    }

    /** Deletes every entry below the offset that was in the stream when the call began, and asks
        for no other entry to be deleted. */
    method AckUpdates(offset: int) returns (ok: bool)
      requires Valid()
      modifies this
      ensures Valid() && Later()
      ensures readFailures >= old(readFailures) && deleteFailures >= old(deleteFailures)
      ensures !ok ==> readFailures > old(readFailures) || deleteFailures > old(deleteFailures)
      ensures AllBelow(requested - old(requested), persisted, offset)
      ensures ok ==> Cleared(persisted, old(visible), gone, offset, |persisted|)
    {
      hide AllBelow, Cleared, Ascending, CursorAt;
      NothingBelow(requested - old(requested), persisted, visible, gone, offset);
      if offset <= 0 { return true; }
      var cursor: StreamId := 0;
      ghost var seen: nat := 0;
      StartOfLog(persisted);
      while true
        invariant Valid() && Later() && seen <= visible && cursor == CursorAt(persisted, seen)
        invariant readFailures == old(readFailures) && deleteFailures == old(deleteFailures)
        invariant AllBelow(requested - old(requested), persisted, offset)
        invariant Cleared(persisted, old(visible), gone, offset, seen)
        decreases |persisted| - seen
      {
        ghost var before := requested;
        var done;
        ok, done, cursor, seen := AckPage(cursor, offset, seen, old(visible));
        BelowUnion(before - old(requested), requested - before, requested - old(requested), persisted, offset);
        if !ok || done { return; }
      }
    }

    /** One page: its leading entries below the offset are deleted; `done` when it was the last page, or
        had an entry at the offset. */
    method AckPage(cursor: StreamId, offset: int, ghost seen: nat, ghost hi: nat)
      returns (ok: bool, done: bool, next: StreamId, ghost passed: nat)
      requires Valid() && hi <= visible && seen <= visible && cursor == CursorAt(persisted, seen)
      requires Cleared(persisted, hi, gone, offset, seen)
      modifies this
      ensures Valid() && Later() && old(requested) <= requested && AllBelow(requested - old(requested), persisted, offset)
      ensures ok ==> readFailures == old(readFailures) && deleteFailures == old(deleteFailures)
      ensures !ok ==> readFailures + deleteFailures == old(readFailures) + old(deleteFailures) + 1
      ensures readFailures >= old(readFailures) && deleteFailures >= old(deleteFailures)
      ensures ok && done ==> Cleared(persisted, hi, gone, offset, |persisted|)
      ensures ok && !done ==>
        seen < passed <= visible && next == CursorAt(persisted, passed) && Cleared(persisted, hi, gone, offset, passed)
    {
      hide AllBelow, Cleared, Ascending, IsPage;
      ghost var earlier := gone;
      NothingBelow(requested - old(requested), persisted, hi, gone, offset);
      var read, from := ReadUpdatesAfter(cursor, PAGE);
      if read.None? { return false, false, cursor, seen; }
      var msgs := read.value;
      var k, toDelete := Below(msgs, offset);
      ClearedLater(persisted, hi, earlier, gone, offset, seen);
      ghost var gone1, visible1 := gone, visible;
      if k > 0 {
        BelowAll(msgs, from, persisted, k, offset, toDelete);
        var gotDeleted := Delete(toDelete);
        BelowSome(toDelete, requested - old(requested), persisted, offset);
        if !gotDeleted { return false, false, cursor, seen; }
      }
      ClearPage(persisted, hi, visible1, gone1, gone, offset, seen, from, k);
      if k < |msgs| || |msgs| < PAGE { return true, true, cursor, seen; }
      assert msgs[k - 1] == persisted[from[k - 1]];
      PageEnd(from, persisted, visible1, gone1, cursor, k);
      return true, false, msgs[k - 1].id, from[k - 1] + 1;
    }

    /** The leading entries of a page that are below the offset. */
    static method Below(msgs: seq<Entry>, offset: int) returns (k: nat, ids: set<StreamId>)
      ensures k <= |msgs| && forall m | 0 <= m < k :: msgs[m].uid < offset && msgs[m].id in ids
      ensures forall id | id in ids :: exists m :: 0 <= m < k && msgs[m].id == id
      ensures k < |msgs| ==> msgs[k].uid >= offset
    {
      k, ids := 0, {};
      while k < |msgs| && msgs[k].uid < offset
        invariant k <= |msgs| && forall m | 0 <= m < k :: msgs[m].uid < offset && msgs[m].id in ids
        invariant forall id | id in ids :: exists m :: 0 <= m < k && msgs[m].id == id
      {
        ids := ids + {msgs[k].id};
        k := k + 1;
      }
    }
  }

  /** The positions of a page whose entries are at the offset. */
  ghost function Matching(log: seq<Entry>, from: seq<nat>, offset: int): seq<nat>
    requires forall m | 0 <= m < |from| :: from[m] < |log|
  {
    if from == [] then []
    else
      var n := |from| - 1;
      Matching(log, from[..n], offset) + (if AtOffset(log[from[n]], offset) then [from[n]] else [])
  }

  ghost predicate Filtered(at: seq<nat>, log: seq<Entry>, offset: int, seen: nat) {
    Increasing(at) && forall m | 0 <= m < |at| :: at[m] < |log| && at[m] < seen && (offset <= 0 || log[at[m]].uid >= offset)
  }

  /** `at` has every undeleted entry at the offset among the first `seen` that is also among the
      first `hi`. */
  ghost predicate Gathered(at: seq<nat>, log: seq<Entry>, hi: nat, gone: set<StreamId>, offset: int, seen: nat) {
    forall i | 0 <= i < seen && i < hi && i < |log| && log[i].id !in gone && (offset <= 0 || log[i].uid >= offset) :: i in at
  }

  /** No undeleted entry among the first `seen` and the first `hi` is below the offset. */
  ghost predicate Cleared(log: seq<Entry>, hi: nat, gone: set<StreamId>, offset: int, seen: nat) {
    forall i | 0 <= i < seen && i < hi && i < |log| && log[i].id !in gone && offset > 0 :: log[i].uid >= offset
  }

  /** The cursor that has passed the first `seen` entries. */
  ghost function CursorAt(log: seq<Entry>, seen: nat): StreamId
    requires seen <= |log|
  {
    if seen == 0 then 0 else log[seen - 1].id
  }

  ghost predicate AllBelow(ids: set<StreamId>, log: seq<Entry>, offset: int) {
    forall id | id in ids :: exists i :: 0 <= i < |log| && log[i].id == id && log[i].uid < offset
  }

  lemma NothingBelow(ids: set<StreamId>, log: seq<Entry>, hi: nat, gone: set<StreamId>, offset: int)
    requires ids == {}
    ensures AllBelow(ids, log, offset) && Cleared(log, hi, gone, offset, 0)
    ensures offset <= 0 ==> Cleared(log, hi, gone, offset, |log|)
  {
  }

  lemma ClearedLater(log: seq<Entry>, hi: nat, earlier: set<StreamId>, gone: set<StreamId>, offset: int, seen: nat)
    requires Cleared(log, hi, earlier, offset, seen) && earlier <= gone
    ensures Cleared(log, hi, gone, offset, seen)
  {
  }

  lemma StartOfLog(log: seq<Entry>)
    ensures CursorAt(log, 0) == 0
  {
  }

  lemma BelowSome(a: set<StreamId>, b: set<StreamId>, log: seq<Entry>, offset: int)
    requires AllBelow(a, log, offset) && b <= a
    ensures AllBelow(b, log, offset)
  {
  }

  lemma PageEnd(from: seq<nat>, log: seq<Entry>, hi: nat, gone: set<StreamId>, cursor: StreamId, k: nat)
    requires IsPage(from, log, hi, gone, cursor, PAGE) && 0 < k <= |from|
    ensures from[k - 1] < hi
  {
  }

  lemma BelowUnion(a: set<StreamId>, b: set<StreamId>, c: set<StreamId>, log: seq<Entry>, offset: int)
    requires AllBelow(a, log, offset) && AllBelow(b, log, offset) && c <= a + b
    ensures AllBelow(c, log, offset)
  {
    forall id | id in c ensures exists i :: 0 <= i < |log| && log[i].id == id && log[i].uid < offset {
      assert id in a || id in b;
    }
  }

  lemma BelowAll(msgs: seq<Entry>, from: seq<nat>, log: seq<Entry>, k: nat, offset: int, ids: set<StreamId>)
    requires Denotes(msgs, from, log) && k <= |msgs| && forall m | 0 <= m < k :: msgs[m].uid < offset
    requires forall id | id in ids :: exists m :: 0 <= m < k && msgs[m].id == id
    ensures AllBelow(ids, log, offset)
  {
    forall id | id in ids ensures exists i :: 0 <= i < |log| && log[i].id == id && log[i].uid < offset {
      var m :| 0 <= m < k && msgs[m].id == id;
      assert log[from[m]].id == id;
    }
  }

  lemma NothingGathered(log: seq<Entry>, gone: set<StreamId>, offset: int)
    ensures Filtered([], log, offset, 0) && Gathered([], log, |log|, gone, offset, 0)
  {
  }

  lemma FilteredMeans(at: seq<nat>, log: seq<Entry>, offset: int, seen: nat)
    requires Filtered(at, log, offset, seen)
    ensures Increasing(at) && forall m | 0 <= m < |at| :: at[m] < |log| && at[m] < seen && (offset <= 0 || log[at[m]].uid >= offset)
  {
  }

  lemma CursorGrows(log: seq<Entry>, hi: nat, gone: set<StreamId>, seen: nat, from: seq<nat>, m: nat)
    requires Ascending(log) && seen <= hi <= |log| && 0 < m <= |from|
    requires IsPage(from, log, hi, gone, CursorAt(log, seen), PAGE)
    ensures from[m - 1] < |log| && CursorAt(log, seen) < log[from[m - 1]].id
  {
  }

  /** An empty page means that everything visible and undeleted was passed. */
  lemma NothingAfter(log: seq<Entry>, hi: nat, gone: set<StreamId>, seen: nat)
    requires Ascending(log) && seen <= hi <= |log| && IsPage([], log, hi, gone, CursorAt(log, seen), PAGE)
    ensures forall i | seen <= i < hi :: log[i].id in gone
  {
  }

  lemma GatheredAll(log: seq<Entry>, hi: nat, earlier: set<StreamId>, gone: set<StreamId>, offset: int, seen: nat, at: seq<nat>)
    requires Ascending(log) && seen <= hi <= |log| && IsPage([], log, hi, gone, CursorAt(log, seen), PAGE)
    requires Gathered(at, log, |log|, earlier, offset, seen) && earlier <= gone
    ensures Gathered(at, log, hi, gone, offset, |log|)
  {
    NothingAfter(log, hi, gone, seen);
  }

  lemma {:induction false} MatchingIsExact(log: seq<Entry>, from: seq<nat>, offset: int)
    requires Increasing(from) && forall m | 0 <= m < |from| :: from[m] < |log|
    ensures Increasing(Matching(log, from, offset))
    ensures forall i :: i in Matching(log, from, offset) <==> i in from && AtOffset(log[i], offset)
  {
    if from != [] {
      var n := |from| - 1;
      MatchingIsExact(log, from[..n], offset);
      var rest := Matching(log, from[..n], offset);
      assert from == from[..n] + [from[n]];
      forall k | 0 <= k < |rest| ensures rest[k] < from[n] {
        assert rest[k] in from[..n];
      }
    }
  }

  lemma NoPlaceGone(log: seq<Entry>, gone: set<StreamId>)
    ensures NoneGone([], log, gone)
  {
  }

  lemma NoneGoneOnPage(from: seq<nat>, log: seq<Entry>, hi: nat, gone: set<StreamId>, was: set<StreamId>, cursor: StreamId, n: nat)
    requires IsPage(from, log, hi, gone, cursor, n) && was <= gone
    ensures NoneGone(from, log, was)
  {
  }

  /** What a page adds was still there when the page was read, and so before. */
  lemma PageNotGone(log: seq<Entry>, visible: nat, gone: set<StreamId>, was: set<StreamId>, cursor: StreamId, offset: int,
                    at: seq<nat>, from: seq<nat>, m: nat)
    requires IsPage(from, log, visible, gone, cursor, PAGE) && m <= |from| && was <= gone
    requires NoneGone(at, log, was)
    ensures (forall k | 0 <= k < |from| :: from[k] < |log|) && NoneGone(at + Matching(log, from[..m], offset), log, was)
  {
    var more := Matching(log, from[..m], offset);
    MatchingIsExact(log, from[..m], offset);
    forall k | 0 <= k < |more| ensures more[k] < |log| && log[more[k]].id !in was {
      assert more[k] in from[..m];
    }
  }

  /** Looking at the first m entries of the next page extends what was gathered up to them. */
  lemma GatherPage(log: seq<Entry>, visible: nat, earlier: set<StreamId>, gone: set<StreamId>, offset: int, seen: nat,
                   at: seq<nat>, from: seq<nat>, m: nat)
    requires Ascending(log) && seen <= visible <= |log| && 0 < m <= |from| && earlier <= gone
    requires IsPage(from, log, visible, gone, CursorAt(log, seen), PAGE)
    requires Filtered(at, log, offset, seen) && Gathered(at, log, |log|, earlier, offset, seen)
    ensures seen < from[m - 1] + 1 <= visible
    ensures Gathered(at + Matching(log, from[..m], offset), log, visible, gone, offset, from[m - 1] + 1)
    ensures Filtered(at + Matching(log, from[..m], offset), log, offset, from[m - 1] + 1)
    ensures Gathered(at + Matching(log, from[..m], offset), log, |log|, gone, offset, from[m - 1] + 1)
  {
    assert forall k | 0 <= k < |from| :: seen <= from[k];
    var more := Matching(log, from[..m], offset);
    MatchingIsExact(log, from[..m], offset);
    PrefixOfPage(log, visible, gone, seen, from, m);
    forall i | 0 <= i < from[m - 1] + 1 && log[i].id !in gone && AtOffset(log[i], offset)
      ensures i in at + more
    {
      if i < seen { assert i in at; } else { assert i in from[..m]; }
    }
    FilteredConcat(log, offset, seen, from[m - 1] + 1, at, more);
  }

  lemma FilteredConcat(log: seq<Entry>, offset: int, seen: nat, next: nat, at: seq<nat>, more: seq<nat>)
    requires Filtered(at, log, offset, seen) && Increasing(more) && seen <= next
    requires forall i | i in more :: i < |log| && seen <= i < next && AtOffset(log[i], offset)
    ensures Filtered(at + more, log, offset, next)
  {
    assert forall k | 0 <= k < |more| :: more[k] in more;
  }

  /** The first m positions of a page are all the undeleted ones from `seen` up to the last of them. */
  lemma PrefixOfPage(log: seq<Entry>, visible: nat, gone: set<StreamId>, seen: nat, from: seq<nat>, m: nat)
    requires Ascending(log) && seen <= visible <= |log| && 0 < m <= |from|
    requires IsPage(from, log, visible, gone, CursorAt(log, seen), PAGE)
    ensures forall i | i in from[..m] :: seen <= i <= from[m - 1]
    ensures forall i | seen <= i <= from[m - 1] && log[i].id !in gone :: i in from[..m]
  {
    forall i | i in from[..m] ensures seen <= i <= from[m - 1] {
      var k :| 0 <= k < m && from[k] == i;
    }
    forall i | seen <= i <= from[m - 1] && log[i].id !in gone ensures i in from[..m] {
      assert log[i].id > CursorAt(log, seen);
      var k :| 0 <= k < |from| && from[k] == i;
      assert from[..m][k] == i;
    }
  }

  /** Deleting the first k entries of the next page clears the log up to them, and all of it when
      the page was the last one or entry k is at the offset. */
  lemma ClearPage(log: seq<Entry>, hi: nat, visible: nat, gone: set<StreamId>, gone': set<StreamId>, offset: int,
                  seen: nat, from: seq<nat>, k: nat)
    requires Ascending(log) && hi <= visible <= |log| && seen <= visible && gone <= gone' && k <= |from|
    requires IsPage(from, log, visible, gone, CursorAt(log, seen), PAGE)
    requires Cleared(log, hi, gone, offset, seen)
    requires forall m | 0 <= m < k :: log[from[m]].id in gone'
    requires k < |from| ==> log[from[k]].uid >= offset
    ensures k > 0 ==> Cleared(log, hi, gone', offset, from[k - 1] + 1) && seen < from[k - 1] + 1
    ensures k < |from| || |from| < PAGE ==> Cleared(log, hi, gone', offset, |log|)
  {
    assert forall m | 0 <= m < |from| :: seen <= from[m];
    forall i | seen <= i < hi && log[i].id !in gone'
      ensures k > 0 ==> from[k - 1] < i
      ensures k < |from| ==> from[k] <= i && log[i].uid >= offset
      ensures k == |from| ==> |from| == PAGE
    {
      assert log[i].id > CursorAt(log, seen);
      if i in from {
        var m :| 0 <= m < |from| && from[m] == i;
        assert k <= m;
      }
    }
  }

  lemma SubsetSize<T>(a: set<T>, b: set<T>)
    requires a < b
    ensures |a| < |b|
  {
    assert b == a + (b - a);
    assert b - a != {};
  }
}
