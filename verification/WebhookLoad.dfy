/** Which entries of the stream a load takes into memory: it reads pages until memory is full or a page
    has fewer than 100 entries, and a page is never larger than the room that is left. */
module WebhookLoad {
  import opened Basics
  import opened Updates
  import opened RedisStream

  const WEBHOOK_MAX_LOADED: nat := 1000

  /** The live entries after the first `read`, among the first hi. */
  ghost function LiveAfter(log: seq<Entry>, read: nat, hi: nat, gone: set<StreamId>): seq<Entry>
    requires hi <= |log|
    decreases hi - read
  {
    if read >= hi then []
    else (if log[read].id in gone then [] else [log[read]]) + LiveAfter(log, read + 1, hi, gone)
  }

  /** How many entries were passed once k entries of the page were handled. */
  ghost function PagePos(read: nat, at: seq<nat>, k: nat): nat
    requires k <= |at|
  {
    if k == 0 then read else at[k - 1] + 1
  }

  function Decodable(es: seq<Entry>): (n: nat)
    ensures n <= |es|
  {
    if es == [] then 0 else Decodable(es[..|es| - 1]) + (if es[|es| - 1].update.Some? then 1 else 0)
  }

  /** How many entries a page is asked for. */
  function Limit(loaded: nat): (n: nat)
    requires loaded <= WEBHOOK_MAX_LOADED
    ensures n <= PAGE && loaded + n <= WEBHOOK_MAX_LOADED
  {
    Min(PAGE, WEBHOOK_MAX_LOADED - loaded)
  }

  /** How many of the entries ahead one page takes. */
  function PageTakes(ahead: seq<Entry>, loaded: nat): (n: nat)
    requires loaded <= WEBHOOK_MAX_LOADED
    ensures n <= |ahead| && loaded + Decodable(ahead[..n]) <= WEBHOOK_MAX_LOADED
  {
    Min(Limit(loaded), |ahead|)
  }

  function LoadedWith(ahead: seq<Entry>, n: nat, loaded: nat): nat
    requires n <= |ahead|
  {
    loaded + Decodable(ahead[..n])
  }

  /** How many of the entries ahead a load takes when nothing else happens meanwhile. */
  function Taken(ahead: seq<Entry>, loaded: nat): (t: nat)
    requires loaded <= WEBHOOK_MAX_LOADED
    ensures t <= |ahead|
    decreases |ahead|
  {
    var n := PageTakes(ahead, loaded);
    if n < PAGE then n else n + Taken(ahead[n..], LoadedWith(ahead, n, loaded))
  }

  /** Where the last page of such a load starts. */
  function LastPage(ahead: seq<Entry>, loaded: nat): (s: nat)
    requires loaded <= WEBHOOK_MAX_LOADED
    ensures s <= Taken(ahead, loaded) <= |ahead|
    decreases |ahead|
  {
    var n := PageTakes(ahead, loaded);
    if n < PAGE then 0 else n + LastPage(ahead[n..], LoadedWith(ahead, n, loaded))
  }

  /** A page for which there is room for some entries but not for 100 is the last one; it stops short
      if more entries than that are waiting and one of those it asks for cannot be decoded. */
  predicate CutShort(waiting: seq<Entry>, loaded: nat) {
    && WEBHOOK_MAX_LOADED - PAGE < loaded < WEBHOOK_MAX_LOADED
    && |waiting| > WEBHOOK_MAX_LOADED - loaded
    && exists i | 0 <= i < WEBHOOK_MAX_LOADED - loaded :: waiting[i].update.None?
  }

  lemma {:induction false} DecodableConcat(a: seq<Entry>, b: seq<Entry>)
    ensures Decodable(a + b) == Decodable(a) + Decodable(b)
  {
    if b == [] {
      assert a + b == a;
    } else {
      DecodableConcat(a, b[..|b| - 1]);
      assert (a + b)[..|a + b| - 1] == a + b[..|b| - 1];
    }
  }

  lemma {:induction false} AllDecodable(es: seq<Entry>)
    ensures Decodable(es) == |es| <==> forall i | 0 <= i < |es| :: es[i].update.Some?
  {
    if es != [] {
      var n := |es| - 1;
      AllDecodable(es[..n]);
      assert forall i | 0 <= i < n :: es[..n][i] == es[i];
    }
  }

  /** One page either fills memory, or takes all that is waiting, or makes room for another full page,
      or is cut short; and it is cut short exactly when it leaves room and entries behind. */
  lemma PageOutcome(waiting: seq<Entry>, loaded: nat)
    requires loaded <= WEBHOOK_MAX_LOADED && PageTakes(waiting, loaded) < PAGE
    ensures var n := PageTakes(waiting, loaded);
      n < |waiting| && LoadedWith(waiting, n, loaded) < WEBHOOK_MAX_LOADED <==> CutShort(waiting, loaded)
  {
    var n := PageTakes(waiting, loaded);
    AllDecodable(waiting[..n]);
  }

  /** A load that nothing disturbs fills memory or takes every entry ahead, if and only if its last
      page is not cut short. */
  lemma {:induction false} StopsWithRoomExactlyWhen(ahead: seq<Entry>, loaded: nat)
    requires loaded <= WEBHOOK_MAX_LOADED
    ensures LoadedWith(ahead, LastPage(ahead, loaded), loaded) <= WEBHOOK_MAX_LOADED
    ensures Taken(ahead, loaded) == |ahead| || LoadedWith(ahead, Taken(ahead, loaded), loaded) == WEBHOOK_MAX_LOADED
      <==> !CutShort(ahead[LastPage(ahead, loaded)..], LoadedWith(ahead, LastPage(ahead, loaded), loaded))
    decreases |ahead|
  {
    hide CutShort, Taken, LastPage, Decodable, Limit;
    var n := PageTakes(ahead, loaded);
    OnePage(ahead, loaded);
    if n < PAGE {
      assert ahead[0..] == ahead;
      PageOutcome(ahead, loaded);
      NothingLoaded(ahead, loaded);
    } else {
      var rest, now := ahead[n..], LoadedWith(ahead, n, loaded);
      StopsWithRoomExactlyWhen(rest, now);
      LoadedLater(ahead, n, LastPage(rest, now), loaded);
      LoadedLater(ahead, n, Taken(rest, now), loaded);
      assert rest[LastPage(rest, now)..] == ahead[n + LastPage(rest, now)..];
    }
  }

  lemma OnePage(ahead: seq<Entry>, loaded: nat)
    requires loaded <= WEBHOOK_MAX_LOADED
    ensures var n := PageTakes(ahead, loaded);
      if n < PAGE then Taken(ahead, loaded) == n && LastPage(ahead, loaded) == 0
      else
        var rest, now := ahead[n..], LoadedWith(ahead, n, loaded);
        now <= WEBHOOK_MAX_LOADED && Taken(ahead, loaded) == n + Taken(rest, now) && LastPage(ahead, loaded) == n + LastPage(rest, now)
  {
  }

  lemma NothingLoaded(ahead: seq<Entry>, loaded: nat)
    ensures LoadedWith(ahead, 0, loaded) == loaded
  {
  }

  lemma LoadedLater(ahead: seq<Entry>, n: nat, m: nat, loaded: nat)
    requires n + m <= |ahead|
    ensures LoadedWith(ahead, n + m, loaded) == LoadedWith(ahead[n..], m, LoadedWith(ahead, n, loaded))
  {
    assert ahead[..n + m] == ahead[..n] + ahead[n..][..m];
    DecodableConcat(ahead[..n], ahead[n..][..m]);
  }

  // ---- Pages of the stream ----

  /** `at` are the positions of the first n live entries in [read, hi). */
  ghost predicate FirstLive(at: seq<nat>, log: seq<Entry>, read: nat, hi: nat, gone: set<StreamId>, n: nat) {
    && hi <= |log| && |at| <= n && Increasing(at)
    && (forall m | 0 <= m < |at| :: read <= at[m] < hi && log[at[m]].id !in gone)
    && (forall i | read <= i < hi && log[i].id !in gone :: i in at || (|at| == n && forall m | 0 <= m < |at| :: at[m] < i))
  }

  /** The positions `at` are the first n of the entries ahead, and `after` is what follows them. */
  ghost predicate Begins(at: seq<nat>, log: seq<Entry>, ahead: seq<Entry>, after: seq<Entry>, n: nat) {
    && |at| == Min(n, |ahead|) && after == ahead[|at|..]
    && forall m | 0 <= m < |at| :: at[m] < |log| && ahead[m] == log[at[m]]
  }

  lemma BeginsWithNothing(log: seq<Entry>, ahead: seq<Entry>, n: nat)
    requires n == 0 || ahead == []
    ensures Begins([], log, ahead, ahead, n)
  {
  }

  lemma BeginsOneMore(at: seq<nat>, log: seq<Entry>, rest: seq<Entry>, after: seq<Entry>, n: nat)
    requires n > 0 && at != [] && at[0] < |log| && Begins(at[1..], log, rest, after, n - 1)
    ensures Begins(at, log, [log[at[0]]] + rest, after, n)
  {
    assert ([log[at[0]]] + rest)[|at|..] == rest[|at| - 1..];
    assert forall m | 0 < m < |at| :: at[m] == at[1..][m - 1];
  }

  /** A page is the beginning of what lies ahead. */
  lemma {:induction false} FirstLiveIsPrefix(at: seq<nat>, log: seq<Entry>, read: nat, hi: nat, gone: set<StreamId>, n: nat)
    requires FirstLive(at, log, read, hi, gone, n) && read <= hi <= |log|
    ensures Begins(at, log, LiveAfter(log, read, hi, gone), LiveAfter(log, PagePos(read, at, |at|), hi, gone), n)
    decreases hi - read
  {
    hide FirstLive, Begins;
    if n == 0 || read == hi {
      NoneLive(at, log, read, hi, gone, n);
      BeginsWithNothing(log, LiveAfter(log, read, hi, gone), n);
    } else if log[read].id in gone {
      FirstIsGone(at, log, read, hi, gone, n);
      FirstLiveIsPrefix(at, log, read + 1, hi, gone, n);
      assert LiveAfter(log, read, hi, gone) == LiveAfter(log, read + 1, hi, gone);
    } else {
      FirstIsFirst(at, log, read, hi, gone, n);
      FirstLiveIsPrefix(at[1..], log, read + 1, hi, gone, n - 1);
      BeginsOneMore(at, log, LiveAfter(log, read + 1, hi, gone), LiveAfter(log, PagePos(read + 1, at[1..], |at| - 1), hi, gone), n);
      assert PagePos(read, at, |at|) == PagePos(read + 1, at[1..], |at| - 1);
    }
  }

  lemma NoneLive(at: seq<nat>, log: seq<Entry>, read: nat, hi: nat, gone: set<StreamId>, n: nat)
    requires FirstLive(at, log, read, hi, gone, n) && read <= hi && (n == 0 || read == hi)
    ensures at == []
  {
    IncreasingFits(at, read, hi);
  }

  lemma {:induction false} IncreasingFits(at: seq<nat>, lo: nat, hi: nat)
    requires Increasing(at) && lo <= hi && forall m | 0 <= m < |at| :: lo <= at[m] < hi
    ensures |at| <= hi - lo
  {
    if at != [] { IncreasingFits(at[..|at| - 1], lo, at[|at| - 1]); }
  }

  lemma FirstIsGone(at: seq<nat>, log: seq<Entry>, read: nat, hi: nat, gone: set<StreamId>, n: nat)
    requires FirstLive(at, log, read, hi, gone, n) && read < hi && log[read].id in gone
    ensures FirstLive(at, log, read + 1, hi, gone, n)
  {
  }

  /** If the next entry is live the page starts with it, and goes on like a page after it. */
  lemma FirstIsFirst(at: seq<nat>, log: seq<Entry>, read: nat, hi: nat, gone: set<StreamId>, n: nat)
    requires FirstLive(at, log, read, hi, gone, n) && read < hi && n > 0 && log[read].id !in gone
    ensures at != [] && at[0] == read && FirstLive(at[1..], log, read + 1, hi, gone, n - 1)
  {
    assert at != [] && at[0] == read by {
      assert |at| > 0 ==> at[0] >= read;
      assert read in at;
    }
    var rest := at[1..];
    forall i | read + 1 <= i < hi && log[i].id !in gone
      ensures i in rest || (|rest| == n - 1 && forall m | 0 <= m < |rest| :: rest[m] < i)
    {
      if i in at {
        var m :| 0 <= m < |at| && at[m] == i;
        assert rest[m - 1] == i;
      }
    }
  }

  lemma PageIsPrefix(at: seq<nat>, log: seq<Entry>, read: nat, hi: nat, gone: set<StreamId>, n: nat)
    requires Ascending(log) && read <= hi <= |log| && n > 0
    requires IsPage(at, log, hi, gone, CursorAt(log, read), n)
    ensures FirstLive(at, log, read, hi, gone, n)
  {
    forall i | read <= i < hi && log[i].id !in gone
      ensures i in at || (|at| == n && forall m | 0 <= m < |at| :: at[m] < i)
    {
      assert log[i].id > CursorAt(log, read);
    }
    forall m | 0 <= m < |at| ensures read <= at[m] {
      assert log[at[m]].id > CursorAt(log, read);
    }
  }

  /** An untouched stream lies ahead as it is. */
  lemma {:induction false} AllAhead(log: seq<Entry>, read: nat)
    requires read <= |log|
    ensures LiveAfter(log, read, |log|, {}) == log[read..]
    decreases |log| - read
  {
    if read < |log| { AllAhead(log, read + 1); }
  }

  // ---- A load that stops early ----

  /** 1002 entries of which the first and the one before the last cannot be decoded. */
  function EarlyStopLog(u: Update): seq<Entry> {
    seq(1002, i requires 0 <= i < 1002 => Entry(i + 1, i + 1, if i == 0 || i == 1000 then None else Some(u)))
  }

  lemma OneFullPage(u: Update, k: nat)
    requires k < 10
    ensures Decodable(EarlyStopLog(u)[100 * k..100 * k + 100]) == if k == 0 then 99 else 100
  {
    var log := EarlyStopLog(u);
    var first, others := log[100 * k..100 * k + 1], log[100 * k + 1..100 * k + 100];
    assert log[100 * k..100 * k + 100] == first + others;
    DecodableConcat(first, others);
    assert |first| == 1 && first[0] == log[100 * k];
    assert forall i | 0 <= i < 99 :: others[i] == log[100 * k + 1 + i];
    AllDecodable(others);
    AllDecodable(first);
  }

  lemma {:induction false} FullPages(u: Update, k: nat)
    requires k <= 10
    ensures Decodable(EarlyStopLog(u)[..100 * k]) == if k == 0 then 0 else 100 * k - 1
  {
    if k > 0 {
      var log := EarlyStopLog(u);
      FullPages(u, k - 1);
      OneFullPage(u, k - 1);
      hide Decodable;
      assert log[..100 * k] == log[..100 * (k - 1)] + log[100 * (k - 1)..100 * (k - 1) + 100];
      DecodableConcat(log[..100 * (k - 1)], log[100 * (k - 1)..100 * (k - 1) + 100]);
    }
  }

  lemma {:induction false} TakesPages(u: Update, k: nat)
    requires k <= 10
    ensures LoadedWith(EarlyStopLog(u), 100 * k, 0) <= WEBHOOK_MAX_LOADED
    ensures Taken(EarlyStopLog(u), 0) == 100 * k + Taken(EarlyStopLog(u)[100 * k..], LoadedWith(EarlyStopLog(u), 100 * k, 0))
  {
    var log := EarlyStopLog(u);
    FullPages(u, k);
    if k == 0 {
      assert log[0..] == log;
    } else {
      TakesPages(u, k - 1);
      FullPages(u, k - 1);
      var rest, loaded := log[100 * (k - 1)..], LoadedWith(log, 100 * (k - 1), 0);
      LoadedLater(log, 100 * (k - 1), 100, 0);
      assert PageTakes(rest, loaded) == 100;
      assert rest[100..] == log[100 * k..];
    }
  }

  /** From an empty memory such a load takes 1001 entries, keeps 999 of them, and leaves the last one
      although there is room for it. */
  lemma LoadStopsEarly(u: Update) returns (log: seq<Entry>)
    ensures Ascending(log) && |log| == 1002 && log[1001].update.Some?
    ensures LiveAfter(log, 0, |log|, {}) == log && Taken(log, 0) == 1001
    ensures LoadedWith(log, 1001, 0) == 999 < WEBHOOK_MAX_LOADED
  {
    log := EarlyStopLog(u);
    AllAhead(log, 0);
    assert log[0..] == log;
    LastTwo(u);
    hide Taken, LastPage, Decodable, LiveAfter, EarlyStopLog;
    TakesPages(u, 10);
  }

  /** The eleventh page asks for one entry, and finds one that cannot be decoded. */
  lemma LastTwo(u: Update)
    ensures var log := EarlyStopLog(u);
      LoadedWith(log, 1000, 0) == 999 && LoadedWith(log, 1001, 0) == 999 && Taken(log[1000..], 999) == 1
  {
    var log := EarlyStopLog(u);
    FullPages(u, 10);
    hide Taken, LastPage, Decodable;
    assert log[..1001] == log[..1000] + [log[1000]];
    DecodableConcat(log[..1000], [log[1000]]);
    AllDecodable([log[1000]]);
    OnePage(log[1000..], 999);
  }
}
