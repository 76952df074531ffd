/** Sampling of per-event log lines: the first lines of a second are written, then every n-th; the
    lines that were left out are counted and reported with the next one written. */
module Sampler {
  import opened Basics

  datatype Window = Window(second: int, count: nat, skipped: nat)

  /** A call, with the settings in force: `thereafter` of at most one switches sampling off. */
  datatype Call = Call(first: nat, thereafter: int, second: int)

  /** Whether the line is written, and how many skipped lines it reports. */
  datatype Decision = Decision(write: bool, reported: nat)

  /** Whether the i-th line of a second is written. */
  predicate Writes(first: nat, thereafter: int, i: nat)
    requires thereafter > 1
  {
    i <= first || (i - first) % thereafter == 0
  }

  function Tick(w: Window, second: int): Window {
    if second != w.second then w.(second := second, count := 1) else w.(count := w.count + 1)
  }

  function After(w: Window, c: Call): Window {
    if c.thereafter <= 1 then w
    else
      var t := Tick(w, c.second);
      t.(skipped := if Writes(c.first, c.thereafter, t.count) then 0 else t.skipped + 1)
  }

  function Decide(w: Window, c: Call): Decision {
    if c.thereafter <= 1 then Decision(true, 0)
    else
      var write := Writes(c.first, c.thereafter, Tick(w, c.second).count);
      Decision(write, if write then w.skipped else 0)
  }

  class SampleWindow {
    var second: int
    var count: nat
    var skipped: nat

    constructor ()
      ensures View() == Window(0, 0, 0)
    {
      second, count, skipped := 0, 0, 0;
    }

    ghost function View(): Window
      reads this
    {
      Window(second, count, skipped)
    }

    /** sampleAt on the window of a bot and a kind of event. */
    method SampleAt(c: Call) returns (write: bool, reported: nat)
      modifies this
      ensures View() == After(old(View()), c)
      ensures Decision(write, reported) == Decide(old(View()), c)
    {
      if c.thereafter <= 1 { return true, 0; }
      if c.second != second { second, count := c.second, 0; }
      count := count + 1;
      if count <= c.first || (count - c.first) % c.thereafter == 0 {
        reported, skipped := skipped, 0;
        return true, reported;
      }
      skipped := skipped + 1;
      return false, 0;
    }
  }

  // ---- Whole runs ----

  function Final(w: Window, calls: seq<Call>): Window {
    if calls == [] then w else After(Final(w, calls[..|calls| - 1]), calls[|calls| - 1])
  }

  /** The lines written in a run. */
  function Written(w: Window, calls: seq<Call>): nat {
    if calls == [] then 0
    else
      var before := calls[..|calls| - 1];
      Written(w, before) + (if Decide(Final(w, before), calls[|calls| - 1]).write then 1 else 0)
  }

  /** The skipped lines that the written ones report. */
  function Reported(w: Window, calls: seq<Call>): nat {
    if calls == [] then 0
    else
      var before := calls[..|calls| - 1];
      Reported(w, before) + Decide(Final(w, before), calls[|calls| - 1]).reported
  }

  /** Every call is accounted for: written, reported as skipped, or still to be reported. Whatever the
      seconds, and even when the settings change on the way. */
  lemma {:induction false} Conservation(w: Window, calls: seq<Call>)
    ensures w.skipped + |calls| == Written(w, calls) + Reported(w, calls) + Final(w, calls).skipped
  {
    if calls != [] { Conservation(w, calls[..|calls| - 1]); }
  }

  lemma Multiples(d: int, m: int)
    requires m > 1
    ensures d >= 1 ==> d * m >= m
    ensures d >= 2 ==> d * m >= 2 * m
    ensures d <= -1 ==> d * m <= -m
  {
    if d >= 1 {
      assert d * m == m + (d - 1) * m;
      assert d >= 2 ==> (d - 1) * m == m + (d - 2) * m;
    } else if d <= -1 {
      assert d * m == -m + (d + 1) * m;
    }
  }

  lemma Quotient(k: nat, m: int)
    requires m > 1
    ensures (k + 1) / m == k / m + (if (k + 1) % m == 0 then 1 else 0)
  {
    var d := (k + 1) / m - k / m;
    assert d * m == k % m + 1 - (k + 1) % m;
    Multiples(d, m);
  }

  /** All the calls of one second write the first lines, and one in `thereafter` of the rest. */
  lemma {:induction false} SecondWrites(w: Window, calls: seq<Call>, c: Call)
    requires c.thereafter > 1 && c.second != w.second
    requires forall i | 0 <= i < |calls| :: calls[i] == c
    ensures calls != [] ==> Final(w, calls).second == c.second && Final(w, calls).count == |calls|
    ensures Written(w, calls) == Min(|calls|, c.first) + (if |calls| > c.first then (|calls| - c.first) / c.thereafter else 0)
  {
    if calls != [] {
      var n := |calls| - 1;
      SecondWrites(w, calls[..n], c);
      assert Tick(Final(w, calls[..n]), c.second).count == n + 1;
      if n >= c.first { Quotient(n - c.first, c.thereafter); }
    }
  }
}
