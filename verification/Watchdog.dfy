/** The client watchdog: per-minute counters of received updates, and the decision to restart a busy
    client that went silent. Times are in milliseconds. */
module Watchdog {
  import opened Basics

  const MINUTE: int := 60000
  const WATCHDOG_SILENCE: int := 4 * MINUTE
  const TRAFFIC_MINUTES: int := 10
  const WATCHDOG_MIN_TRAFFIC: int := 60
  const WATCHDOG_INTAKE_STUCK: int := 2 * MINUTE
  const WATCHDOG_RESTART_INTERVAL: int := 10 * MINUTE

  datatype Note = Note(at: nat, updates: int)

  function MinuteOf(t: nat): int { t / MINUTE }

  // ---- Sums over maps, in no particular order ----

  ghost function Sum(m: map<int, int>): int
    decreases |m|
  {
    if exists k :: k in m then
      var k :| k in m;
      m[k] + Sum(m - {k})
    else 0
  }

  lemma {:induction false} SumTake(m: map<int, int>, k: int)
    requires k in m
    ensures Sum(m) == m[k] + Sum(m - {k})
    decreases |m|
  {
    var j :| j in m && Sum(m) == m[j] + Sum(m - {j});
    if j != k {
      SumTake(m - {j}, k);
      SumTake(m - {k}, j);
      assert m - {j} - {k} == m - {k} - {j};
    }
  }

  function Added(m: map<int, int>, k: int, n: int): map<int, int> { m[k := (if k in m then m[k] else 0) + n] }

  function Above(m: map<int, int>, cut: int): map<int, int> { map k | k in m && k > cut :: m[k] }

  lemma SumAdded(m: map<int, int>, k: int, n: int)
    ensures Sum(Added(m, k, n)) == Sum(m) + n
  {
    SumTake(Added(m, k, n), k);
    if k in m {
      SumTake(m, k);
      assert Added(m, k, n) - {k} == m - {k};
    } else {
      assert Added(m, k, n) - {k} == m;
    }
  }

  // ---- The counters as a function of everything noted ----

  function Buckets(notes: seq<Note>): map<int, int> {
    if notes == [] then map[]
    else
      var last := notes[|notes| - 1];
      Above(Added(Buckets(notes[..|notes| - 1]), MinuteOf(last.at), last.updates), MinuteOf(last.at) - TRAFFIC_MINUTES)
  }

  /** How many updates were noted in the minutes after `cut`: the count nobody prunes. */
  function Total(notes: seq<Note>, cut: int): int {
    if notes == [] then 0
    else
      var last := notes[|notes| - 1];
      Total(notes[..|notes| - 1], cut) + (if last.at / 60000 > cut then last.updates else 0)
  }

  /** What noteUpdates lets through. */
  predicate Counted(notes: seq<Note>) { forall i | 0 <= i < |notes| :: notes[i].updates > 0 }

  /** No note after `cut` was followed by one so much later that it was pruned. */
  predicate Unpruned(notes: seq<Note>, cut: int) {
    forall i, j | 0 <= i < j < |notes| && MinuteOf(notes[i].at) > cut ::
      MinuteOf(notes[i].at) > MinuteOf(notes[j].at) - TRAFFIC_MINUTES
  }

  /** Nothing was noted in the minutes after `low` up to `high`. */
  predicate Quiet(notes: seq<Note>, low: int, high: int) {
    forall i | 0 <= i < |notes| && MinuteOf(notes[i].at) > low :: MinuteOf(notes[i].at) > high
  }

  lemma {:induction false} TotalAfter(notes: seq<Note>, low: int, high: int)
    requires Counted(notes) && low <= high
    ensures Total(notes, high) <= Total(notes, low)
    ensures Total(notes, high) == Total(notes, low) <==> Quiet(notes, low, high)
  {
    if notes != [] {
      var n := |notes| - 1;
      TotalAfter(notes[..n], low, high);
      assert Quiet(notes, low, high) <==>
        Quiet(notes[..n], low, high) && (MinuteOf(notes[n].at) > low ==> MinuteOf(notes[n].at) > high);
    }
  }

  lemma AboveOne(before: map<int, int>, minute: int, n: int, cut: int)
    ensures var pruned := Above(Added(before, minute, n), minute - TRAFFIC_MINUTES);
      Sum(Above(pruned, cut)) == Sum(Above(before, Max(cut, minute - TRAFFIC_MINUTES))) + (if minute > cut then n else 0)
  {
    hide Sum;
    var after, top := Added(before, minute, n), Max(cut, minute - TRAFFIC_MINUTES);
    assert Above(Above(after, minute - TRAFFIC_MINUTES), cut) == Above(after, top);
    if minute > cut {
      assert Above(after, top) == Added(Above(before, top), minute, n);
      SumAdded(Above(before, top), minute, n);
    } else {
      assert Above(after, top) == Above(before, top);
    }
  }

  /** Pruning last does what it does, then cuts at `cut`. */
  lemma UnprunedOne(notes: seq<Note>, cut: int)
    requires notes != []
    ensures var n := |notes| - 1; var low := MinuteOf(notes[n].at) - TRAFFIC_MINUTES;
      Unpruned(notes, cut) <==> Quiet(notes[..n], cut, Max(cut, low)) && Unpruned(notes[..n], Max(cut, low))
  {
    var n := |notes| - 1;
    var low := MinuteOf(notes[n].at) - TRAFFIC_MINUTES;
    if Unpruned(notes, cut) {
      forall i | 0 <= i < n && MinuteOf(notes[i].at) > cut ensures MinuteOf(notes[i].at) > low {
        assert notes[i] == notes[..n][i];
      }
    }
    if Quiet(notes[..n], cut, Max(cut, low)) {
      forall i | 0 <= i < n && MinuteOf(notes[i].at) > cut ensures MinuteOf(notes[i].at) > low {
        assert notes[..n][i] == notes[i];
      }
    }
  }

  /** The counters after `cut` never add up to more than was noted there, and add up to all of it
      exactly when none of it was pruned. */
  lemma {:induction false} BucketsAbove(notes: seq<Note>, cut: int)
    requires Counted(notes)
    ensures Sum(Above(Buckets(notes), cut)) <= Total(notes, cut)
    ensures Sum(Above(Buckets(notes), cut)) == Total(notes, cut) <==> Unpruned(notes, cut)
  {
    if notes == [] {
      assert Above(Buckets(notes), cut) == map[];
    } else {
      hide Above, Added, Sum, Unpruned, Quiet;
      var n := |notes| - 1;
      var minute := MinuteOf(notes[n].at);
      var top := Max(cut, minute - TRAFFIC_MINUTES);
      BucketsAbove(notes[..n], top);
      AboveOne(Buckets(notes[..n]), minute, notes[n].updates, cut);
      TotalAfter(notes[..n], cut, top);
      UnprunedOne(notes, cut);
    }
  }

  /** The last minute that no longer counts, once the last update was noted. */
  function WindowCut(notes: seq<Note>): int
    requires notes != []
  {
    MinuteOf(notes[|notes| - 1].at) - TRAFFIC_MINUTES
  }

  /** The counters never add up to more than the updates of the ten minutes that end with the minute of
      the last one; and they add up to all of them if and only if no update of that window was ever
      followed by one ten minutes later or more. */
  lemma TrafficIsTheWindow(notes: seq<Note>)
    requires Counted(notes) && notes != []
    ensures Sum(Buckets(notes)) <= Total(notes, WindowCut(notes))
    ensures Sum(Buckets(notes)) == Total(notes, WindowCut(notes)) <==> Unpruned(notes, WindowCut(notes))
  {
    var cut := WindowCut(notes);
    BucketsAbove(notes, cut);
    assert Above(Buckets(notes), cut) == Buckets(notes);
  }

  /** A clock that does not go back is enough. */
  lemma InOrderIsEnough(notes: seq<Note>)
    requires Counted(notes) && notes != []
    requires forall i, j | 0 <= i < j < |notes| :: notes[i].at <= notes[j].at
    ensures Sum(Buckets(notes)) == Total(notes, WindowCut(notes))
  {
    TrafficIsTheWindow(notes);
    forall i, j | 0 <= i < j < |notes| && MinuteOf(notes[i].at) > WindowCut(notes)
      ensures MinuteOf(notes[i].at) > MinuteOf(notes[j].at) - TRAFFIC_MINUTES
    {
      assert notes[j].at <= notes[|notes| - 1].at;
    }
  }

  /** A clock that goes back far enough breaks it: what was pruned meanwhile stays uncounted. */
  lemma ClockGoingBack() returns (notes: seq<Note>)
    ensures Counted(notes) && notes != [] && Sum(Buckets(notes)) < Total(notes, WindowCut(notes))
  {
    var a, b := Note(0, 1), Note(10 * MINUTE, 1);
    notes := [a, b, a];
    TrafficIsTheWindow(notes);
    assert MinuteOf(notes[0].at) > WindowCut(notes) && MinuteOf(notes[0].at) == MinuteOf(notes[1].at) - TRAFFIC_MINUTES;
  }

  // ---- Restarts ----

  /** A restart, with everything noted before it. */
  datatype Restart = Restart(at: nat, notes: seq<Note>, lastStall: Option<nat>, stuck: int)

  /** The client was busy, has been silent for long, and something shows that it hangs. */
  ghost predicate Justified(r: Restart) {
    && Counted(r.notes) && r.notes != []
    && var last := r.notes[|r.notes| - 1].at;
    && r.at - last >= 4 * 60000
    && Sum(Buckets(r.notes)) >= 60
    && ((r.lastStall.Some? && r.lastStall.value > last) || r.stuck >= 2 * 60000)
  }

  ghost predicate Spaced(restarts: seq<Restart>) {
    forall i | 0 < i < |restarts| :: restarts[i].at - restarts[i - 1].at >= 10 * 60000
  }

  lemma RestartAdds(restarts: seq<Restart>, r: Restart)
    requires Spaced(restarts) && (restarts != [] ==> r.at - restarts[|restarts| - 1].at >= 10 * 60000)
    ensures Spaced(restarts + [r])
  {
  }

  /** In any run, restarts number i and j are at least (j - i) intervals apart. */
  lemma {:induction false} RestartsAreRare(restarts: seq<Restart>, i: nat, j: nat)
    requires Spaced(restarts) && i <= j < |restarts|
    ensures restarts[j].at - restarts[i].at >= (j - i) * 10 * 60000
    decreases j
  {
    if i < j { RestartsAreRare(restarts, i, j - 1); }
  }

  /** A justified restart followed at least sixty updates in ten minutes, whatever the clock did. */
  lemma RestartedWasBusy(r: Restart)
    requires Justified(r)
    ensures Total(r.notes, WindowCut(r.notes)) >= 60
  {
    TrafficIsTheWindow(r.notes);
  }

  class ClientWatchdog {
    var minutes: map<int, int>
    var lastUpdate: Option<nat>
    var lastStall: Option<nat>
    var lastRestart: Option<nat>
    ghost var notes: seq<Note>
    ghost var restarts: seq<Restart>

    ghost predicate Valid()
      reads this
    {
      && minutes == Buckets(notes) && Counted(notes)
      && lastUpdate == (if notes == [] then None else Some(notes[|notes| - 1].at))
      && lastRestart == (if restarts == [] then None else Some(restarts[|restarts| - 1].at))
      && Spaced(restarts)
      && forall i | 0 <= i < |restarts| :: Justified(restarts[i])
    }

    constructor ()
      ensures Valid() && notes == [] && restarts == []
    {
      minutes, lastUpdate, lastStall, lastRestart := map[], None, None, None;
      notes, restarts := [], [];
    }

    method NoteUpdates(now: nat, n: int)
      requires Valid()
      modifies `minutes, `lastUpdate, `notes
      ensures Valid()
      ensures notes == old(notes) + (if n > 0 then [Note(now, n)] else [])
    {
      hide Sum, Justified, Spaced;
      if n <= 0 { return; }
      var minute := now / MINUTE;
      minutes := minutes[minute := (if minute in minutes then minutes[minute] else 0) + n];
      lastUpdate := Some(now);
      Prune(minute - TRAFFIC_MINUTES);
      notes := notes + [Note(now, n)];
      assert notes[..|notes| - 1] == old(notes);
    }

    /** Keeps only the minutes after `cut`. */
    method Prune(cut: int)
      modifies `minutes
      ensures minutes == Above(old(minutes), cut)
    {
      var left: set<int> := minutes.Keys;
      while exists m :: m in left
        invariant left <= minutes.Keys
        invariant forall k | k in minutes :: k in old(minutes) && minutes[k] == old(minutes)[k]
        invariant forall k | k in old(minutes) :: k in minutes <==> k in left || k > cut
        decreases |left|
      {
        var m :| m in left;
        if m <= cut { minutes := minutes - {m}; }
        left := left - {m};
      }
      assert forall k :: k in minutes <==> k in Above(old(minutes), cut);
    }

    method NoteSyncStall(now: nat)
      requires Valid()
      modifies `lastStall
      ensures Valid() && lastStall == Some(now)
    {
      lastStall := Some(now);
    }

    method Traffic() returns (traffic: int)
      ensures traffic == Sum(minutes)
    {
      traffic := 0;
      var left: set<int> := minutes.Keys;
      ghost var rest := minutes;
      while exists m :: m in left
        invariant rest.Keys == left <= minutes.Keys && forall k | k in rest :: rest[k] == minutes[k]
        invariant traffic + Sum(rest) == Sum(minutes)
        decreases |left|
      {
        var m :| m in left;
        SumTake(rest, m);
        traffic := traffic + minutes[m];
        left, rest := left - {m}, rest - {m};
      }
      assert rest == map[];
    }

    /** A restart happens exactly when there is evidence for one and the last is long enough ago. */
    method Check(now: nat, intakeStuck: int) returns (restart: bool)
      requires Valid()
      modifies `lastRestart, `restarts
      ensures Valid()
      ensures var r := Restart(now, notes, lastStall, intakeStuck);
        && (restart <==> Justified(r) && (old(lastRestart).None? || now - old(lastRestart).value >= 10 * 60000))
        && restarts == old(restarts) + (if restart then [r] else [])
    {
      hide Sum, Buckets, Spaced;
      if lastUpdate.None? || now - lastUpdate.value < WATCHDOG_SILENCE { return false; }
      var traffic := Traffic();
      if traffic < WATCHDOG_MIN_TRAFFIC { return false; }
      if !(lastStall.Some? && lastStall.value > lastUpdate.value) && intakeStuck < WATCHDOG_INTAKE_STUCK { return false; }
      if lastRestart.Some? && now - lastRestart.value < WATCHDOG_RESTART_INTERVAL { return false; }
      RestartAdds(restarts, Restart(now, notes, lastStall, intakeStuck));
      lastRestart := Some(now);
      restarts := restarts + [Restart(now, notes, lastStall, intakeStuck)];
      return true;
    }
  }
}
