/** The intake between the MTProto connection and the gap manager: any number of connection
    goroutines push, one feeder per bot pops and hands over. Times are in milliseconds. */
module UpdateIntake {
  import opened Basics

  const INTAKE_MAX_ITEMS: nat := 100000

  datatype Item = Batch(updates: nat) | Affected(channelId: int, pts: int, ptsCount: int)

  /** What the mutex guards, with the wake channel of capacity one as a flag. */
  datatype Queue = Queue(items: seq<Item>, wake: bool, dropped: nat, progress: Option<int>, busy: bool)

  function Offered(q: Queue, item: Item): Queue {
    if |q.items| >= INTAKE_MAX_ITEMS then q.(dropped := q.dropped + 1) else q.(items := q.items + [item])
  }

  function Emptied(q: Queue): Queue { q.(items := [], dropped := 0) }

  function Marked(q: Queue, busy: bool, now: int): Queue { q.(busy := busy, progress := Some(now)) }

  function StuckFor(q: Queue, now: int): int {
    if !q.busy || q.items == [] || q.progress.None? then 0 else now - q.progress.value
  }

  /** updateIntake itself, with a ghost record of what went in and what came out. */
  class UpdateIntake {
    var items: seq<Item>
    var wake: bool
    var dropped: nat
    var progress: Option<int>
    var busy: bool
    ghost var accepted: seq<Item>
    ghost var refused: nat
    ghost var popped: seq<Item>
    ghost var reported: nat

    ghost function View(): Queue
      reads this
    {
      Queue(items, wake, dropped, progress, busy)
    }

    /** Nothing accepted is lost or reordered, every refusal is counted, and the limit holds. */
    ghost predicate Valid()
      reads this
    {
      && accepted == popped + items
      && refused == reported + dropped
      && |items| <= INTAKE_MAX_ITEMS
    }

    constructor ()
      ensures Valid() && View() == Queue([], false, 0, None, false)
      ensures accepted == popped == [] && refused == reported == 0
    {
      items, wake, dropped, progress, busy := [], false, 0, None, false;
      accepted, refused, popped, reported := [], 0, [], 0;
    }

    method Push(item: Item) returns (ok: bool)
      requires Valid()
      modifies this
      ensures Valid()
      ensures ok <==> old(|items|) < 100000
      ensures accepted == old(accepted) + (if ok then [item] else [])
      ensures refused == old(refused) + (if ok then 0 else 1)
      ensures View() == Offered(old(View()), item).(wake := ok || old(wake))
      ensures popped == old(popped) && reported == old(reported)
    {
      if |items| >= INTAKE_MAX_ITEMS {
        dropped, refused := dropped + 1, refused + 1;
        return false;
      }
      items, accepted := items + [item], accepted + [item];
      wake := true;
      return true;
    }

    method Pop() returns (taken: seq<Item>, lost: nat)
      requires Valid()
      modifies this
      ensures Valid()
      ensures taken == old(items) && lost == old(dropped)
      ensures popped == old(popped) + taken && reported == old(reported) + lost
      ensures View() == Emptied(old(View()))
      ensures accepted == old(accepted) && refused == old(refused)
    {
      taken, lost := items, dropped;
      popped, reported := popped + items, reported + dropped;
      items, dropped := [], 0;
    }

    method SetBusy(b: bool, now: int)
      requires Valid()
      modifies `busy, `progress
      ensures Valid() && View() == Marked(old(View()), b, now)
    {
      busy, progress := b, Some(now);
    }

    method StuckSince(now: int) returns (d: int)
      ensures d == StuckFor(View(), now)
      ensures d != 0 ==> busy && items != [] && progress == Some(now - d)
    {
      if !busy || |items| == 0 || progress.None? { return 0; }
      return now - progress.value;
    }

    /** Other goroutines push for a while. */
    method Elapse()
      requires Valid()
      modifies this
      ensures Valid()
      ensures popped == old(popped) && reported == old(reported) && busy == old(busy) && progress == old(progress)
      ensures old(accepted) <= accepted && old(refused) <= refused && (old(wake) ==> wake)
      ensures items != old(items) ==> wake
      ensures wake ==> old(wake) || |accepted| > |old(accepted)|
    {
      var pushes: nat := *;
      while pushes > 0
        invariant Valid()
        invariant popped == old(popped) && reported == old(reported) && busy == old(busy) && progress == old(progress)
        invariant old(accepted) <= accepted && old(refused) <= refused && (old(wake) ==> wake)
        invariant items != old(items) ==> wake
        invariant wake ==> old(wake) || |accepted| > |old(accepted)|
      {
        var item := *;
        var _ := Push(item);
        pushes := pushes - 1;
      }
    }
  }

  datatype Outcome = Parked | Cancelled | StillRunning

  /** The goroutine that feeds the gap manager. `handed` is what the gap manager was given. */
  class Feeder {
    const intake: UpdateIntake
    /** The bot's context is done; it stays so. */
    var cancelled: bool
    ghost var handed: seq<Item>

    constructor (intake: UpdateIntake)
      ensures this.intake == intake && handed == [] && !cancelled
    {
      this.intake, handed, cancelled := intake, [], false;
    }

    /** The gap manager has the item for as long as it takes. Meanwhile the feeder counts as busy since
        the item went in. */
    method Handle(item: Item, ghost since: int)
      requires intake.Valid() && intake.busy && intake.progress == Some(since)
      modifies this, intake
      ensures intake.Valid() && intake.busy && intake.progress == Some(since) && handed == old(handed) + [item]
      ensures old(cancelled) ==> cancelled
      ensures intake.popped == old(intake.popped) && intake.reported == old(intake.reported)
      ensures old(intake.accepted) <= intake.accepted && old(intake.refused) <= intake.refused
      ensures (old(intake.wake) ==> intake.wake) && (intake.items != old(intake.items) ==> intake.wake)
      ensures intake.wake ==> old(intake.wake) || |intake.accepted| > |old(intake.accepted)|
    {
      intake.Elapse();
      handed := handed + [item];
      if * { cancelled := true; }
    }

    /** One item is marked, handed over, and marked as done. */
    method HandOver(item: Item, now: int) returns (later: int)
      requires intake.Valid() && !intake.busy
      modifies this, intake
      ensures intake.Valid() && !intake.busy && later >= now
      ensures handed == old(handed) + [item] && (old(cancelled) ==> cancelled)
      ensures intake.popped == old(intake.popped) && intake.reported == old(intake.reported)
      ensures old(intake.accepted) <= intake.accepted && old(intake.refused) <= intake.refused
      ensures (old(intake.wake) ==> intake.wake) && (intake.items != old(intake.items) ==> intake.wake)
      ensures intake.wake ==> old(intake.wake) || |intake.accepted| > |old(intake.accepted)|
    {
      intake.SetBusy(true, now);
      Handle(item, now);
      later :| later >= now;
      intake.SetBusy(false, later);
    }

    /** The items of one pop, in order, until the context is done. */
    method HandOverAll(taken: seq<Item>, start: int) returns (gaveUp: bool, later: int, ghost left: seq<Item>)
      requires intake.Valid() && !intake.busy && intake.popped == handed + taken
      modifies this, intake
      ensures intake.Valid() && !intake.busy && later >= start
      ensures intake.popped == old(intake.popped) == handed + left && intake.reported == old(intake.reported)
      ensures (gaveUp <==> taken != [] && cancelled) && (!gaveUp ==> left == [])
      ensures old(handed) <= handed && (old(cancelled) ==> cancelled)
      ensures intake.wake ==> old(intake.wake) || |intake.accepted| > |old(intake.accepted)|
      ensures old(intake.accepted) <= intake.accepted && old(intake.refused) <= intake.refused
      ensures (old(intake.wake) ==> intake.wake) && (intake.items != old(intake.items) ==> intake.wake)
    {
      var i := 0;
      later := start;
      while i < |taken|
        invariant 0 <= i <= |taken| && later >= start
        invariant intake.Valid() && !intake.busy
        invariant handed == old(handed) + taken[..i] && (old(cancelled) ==> cancelled) && (i > 0 ==> !cancelled)
        invariant intake.wake ==> old(intake.wake) || |intake.accepted| > |old(intake.accepted)|
        invariant intake.popped == old(intake.popped) && intake.reported == old(intake.reported)
        invariant old(intake.accepted) <= intake.accepted && old(intake.refused) <= intake.refused
        invariant (old(intake.wake) ==> intake.wake) && (intake.items != old(intake.items) ==> intake.wake)
      {
        later := HandOver(taken[i], later);
        i := i + 1;
        assert taken[..i] == taken[..i - 1] + [taken[i - 1]];
        if cancelled { return true, later, taken[i..]; }
      }
      return false, later, [];
    }

    /** Other goroutines push, and the context may end, while the feeder sleeps. */
    method Elapse()
      requires intake.Valid()
      modifies `cancelled, intake
      ensures intake.Valid() && (old(cancelled) ==> cancelled)
      ensures intake.popped == old(intake.popped) && intake.reported == old(intake.reported) && intake.busy == old(intake.busy)
      ensures old(intake.accepted) <= intake.accepted && old(intake.refused) <= intake.refused
      ensures (old(intake.wake) ==> intake.wake) && (intake.items != old(intake.items) ==> intake.wake)
      ensures intake.wake ==> old(intake.wake) || |intake.accepted| > |old(intake.accepted)|
    {
      intake.Elapse();
      if * { cancelled := true; }
    }

    /** runIntake for up to `turns` rounds: every accepted item reaches the gap manager once, in the
        order of the pushes; only a done context leaves popped items behind. The feeder does not spin:
        each round hands something over or uses up the token of a push. */
    method RunIntake(turns: nat, start: int) returns (outcome: Outcome, ghost left: seq<Item>)
      requires intake.Valid() && !intake.busy && intake.popped == handed
      modifies this, intake
      ensures intake.Valid() && !intake.busy
      ensures intake.accepted == handed + left + intake.items
      ensures old(handed) <= handed && old(intake.accepted) <= intake.accepted
      ensures outcome != Cancelled ==> left == []
      ensures outcome == Parked ==> handed == intake.accepted && !cancelled
      ensures outcome == Cancelled ==> cancelled
      ensures outcome == StillRunning ==>
        turns <= |handed| - |old(handed)| + |intake.accepted| - |old(intake.accepted)| + (if old(intake.wake) then 1 else 0)
      ensures intake.refused == intake.reported + intake.dropped
    {
      var turn, now := 0, start;
      while turn < turns
        invariant intake.Valid() && !intake.busy && intake.popped == handed
        invariant old(handed) <= handed && old(intake.accepted) <= intake.accepted
        invariant turn + (if intake.wake then 1 else 0) <=
          |handed| - |old(handed)| + |intake.accepted| - |old(intake.accepted)| + (if old(intake.wake) then 1 else 0)
      {
        turn := turn + 1;
        var taken, lost := intake.Pop();
        var gaveUp;
        gaveUp, now, left := HandOverAll(taken, now);
        if gaveUp { return Cancelled, left; }
        if |taken| == 0 {
          Elapse();
          // select: the done context or the token, whichever is ready
          if cancelled {
            if !intake.wake { return Cancelled, []; }
            if * { return Cancelled, []; }
          }
          if !intake.wake { return Parked, []; }
          intake.wake := false;
        }
      }
      return StillRunning, [];
    }
  }

  // ---- The same queue, stepped by every goroutine at the grain of its atomic sections ----

  /** A pusher has unlocked the mutex and has not yet sent on the wake channel, or is elsewhere. */
  datatype Pusher = Away | Sending

  datatype FeederPc =
    | Popping
    | Between(rest: seq<Item>)                  // about to mark itself busy for rest[0]
    | Inside(rest: seq<Item>, since: int, answered: bool)   // the gap manager has rest[0], and may never answer
    | AtSelect
    | Done(rest: seq<Item>)

  datatype State = State(
    q: Queue,
    pushers: map<nat, Pusher>,
    feeder: FeederPc,
    cancelled: bool,
    offers: nat, accepted: seq<Item>, handed: seq<Item>, reported: nat)

  datatype Action =
    | Push(p: nat, item: Item) | Send(p: nat)
    | Pop | Begin(now: int) | Answer | End(now: int) | Wake | Leave
    | Cancel

  ghost predicate Init(s: State) {
    s == State(Queue([], false, 0, None, false), map[], Popping, false, 0, [], [], 0)
  }

  function At(s: State, p: nat): Pusher { if p in s.pushers then s.pushers[p] else Away }

  predicate Can(s: State, a: Action) {
    match a
    case Push(p, _) => At(s, p).Away?
    case Send(p) => At(s, p).Sending?
    case Pop => s.feeder.Popping?
    case Begin(_) => s.feeder.Between? && s.feeder.rest != []
    case Answer => s.feeder.Inside?
    case End(_) => s.feeder.Inside? && s.feeder.answered && s.feeder.rest != []
    case Wake => s.feeder.AtSelect? && s.q.wake
    case Leave => s.feeder.AtSelect? && s.cancelled
    case Cancel => true
  }

  function Do(s: State, a: Action): State
    requires Can(s, a)
  {
    match a
    case Push(p, item) =>
      var s' := s.(q := Offered(s.q, item), offers := s.offers + 1);
      if |s.q.items| >= INTAKE_MAX_ITEMS then s'
      else s'.(pushers := s.pushers[p := Sending], accepted := s.accepted + [item])
    case Send(p) => s.(q := s.q.(wake := true), pushers := s.pushers[p := Away])
    case Pop =>
      s.(q := Emptied(s.q), reported := s.reported + s.q.dropped,
         feeder := if s.q.items == [] then AtSelect else Between(s.q.items))
    case Begin(now) => s.(q := Marked(s.q, true, now), feeder := Inside(s.feeder.rest, now, false))
    case Answer => s.(feeder := s.feeder.(answered := true))
    case End(now) =>
      var rest := s.feeder.rest;
      s.(q := Marked(s.q, false, now), handed := s.handed + [rest[0]],
         feeder := if s.cancelled then Done(rest[1..]) else if |rest| == 1 then Popping else Between(rest[1..]))
    case Wake => s.(q := s.q.(wake := false), feeder := Popping)
    case Leave => s.(feeder := Done([]))
    case Cancel => s.(cancelled := true)
  }

  ghost predicate IsRun(s: State, actions: seq<Action>)
    decreases |actions|
  {
    actions == [] || (Can(s, actions[0]) && IsRun(Do(s, actions[0]), actions[1..]))
  }

  ghost function Final(s: State, actions: seq<Action>): State
    requires IsRun(s, actions)
    decreases |actions|
  {
    if actions == [] then s else Final(Do(s, actions[0]), actions[1..])
  }

  /** Popped and not yet handed over. */
  function Held(f: FeederPc): seq<Item> { if f.Popping? || f.AtSelect? then [] else f.rest }

  ghost predicate SomeoneSends(s: State) {
    exists p :: p in s.pushers && s.pushers[p].Sending?
  }

  ghost predicate Inv(s: State) {
    && s.accepted == s.handed + Held(s.feeder) + s.q.items
    && s.offers == |s.accepted| + s.reported + s.q.dropped
    && |s.q.items| <= INTAKE_MAX_ITEMS
    && (s.feeder.Between? || s.feeder.Inside? ==> s.feeder.rest != [])
    && (s.feeder.AtSelect? && s.q.items != [] ==> s.q.wake || SomeoneSends(s))
    && (s.q.busy <==> s.feeder.Inside?)
    && (s.feeder.Inside? ==> s.q.progress == Some(s.feeder.since))
    && (s.feeder.Done? ==> s.cancelled)
  }

  lemma PushStep(s: State, p: nat, item: Item)
    requires Inv(s) && Can(s, Push(p, item))
    ensures Inv(Do(s, Push(p, item)))
  {
    var s' := Do(s, Push(p, item));
    if s'.accepted != s.accepted {
      assert s'.pushers[p].Sending?;
    } else if SomeoneSends(s) {
      assert SomeoneSends(s');
    }
  }

  lemma SendStep(s: State, p: nat)
    requires Inv(s) && Can(s, Send(p))
    ensures Inv(Do(s, Send(p)))
  {
  }

  lemma PopStep(s: State)
    requires Inv(s) && Can(s, Pop)
    ensures Inv(Do(s, Pop))
  {
  }

  lemma BeginStep(s: State, now: int)
    requires Inv(s) && Can(s, Begin(now))
    ensures Inv(Do(s, Begin(now)))
  {
    hide SomeoneSends;
  }

  lemma EndStep(s: State, now: int)
    requires Inv(s) && Can(s, End(now))
    ensures Inv(Do(s, End(now)))
  {
    hide SomeoneSends;
    var rest := s.feeder.rest;
    assert s.handed + rest + s.q.items == (s.handed + [rest[0]]) + rest[1..] + s.q.items;
  }

  /** Steps that move no item. */
  lemma QuietStep(s: State, a: Action)
    requires Inv(s) && Can(s, a) && (a.Answer? || a.Wake? || a.Leave? || a.Cancel?)
    ensures Inv(Do(s, a))
  {
    hide SomeoneSends;
    SendersStay(s, Do(s, a));
  }

  lemma SendersStay(s: State, s': State)
    requires s'.pushers == s.pushers
    ensures SomeoneSends(s') <==> SomeoneSends(s)
  {
  }

  lemma InvStep(s: State, a: Action)
    requires Inv(s) && Can(s, a)
    ensures Inv(Do(s, a))
  {
    hide Inv, Can, Do;
    match a
    case Push(p, item) => PushStep(s, p, item);
    case Send(p) => SendStep(s, p);
    case Pop => PopStep(s);
    case Begin(now) => BeginStep(s, now);
    case End(now) => EndStep(s, now);
    case _ => QuietStep(s, a);
  }

  lemma {:induction false} InvAlways(s: State, actions: seq<Action>)
    requires Inv(s) && IsRun(s, actions)
    ensures Inv(Final(s, actions))
    decreases |actions|
  {
    hide Inv, Can, Do;
    if actions != [] {
      InvStep(s, actions[0]);
      InvAlways(Do(s, actions[0]), actions[1..]);
    }
  }

  /** Whatever the interleaving, what the gap manager was handed is an initial stretch of the accepted
      items, in the order of the pushes; every push is handed over, held by the feeder, queued, or
      counted as dropped; and the queue stays within its limit. */
  lemma Conservation(s: State, actions: seq<Action>)
    requires Init(s) && IsRun(s, actions)
    ensures var f := Final(s, actions);
      && f.handed <= f.accepted
      && f.offers == |f.handed| + |Held(f.feeder)| + |f.q.items| + f.q.dropped + f.reported
      && |f.q.items| <= 100000
  {
    InvAlways(s, actions);
    var f := Final(s, actions);
    assert f.accepted == f.handed + (Held(f.feeder) + f.q.items);
  }

  /** The feeder is never asleep for good over queued items: a wake token is there, or a push stands
      between its append and its send, which cannot block. */
  lemma NoLostWakeUp(s: State, actions: seq<Action>) returns (p: nat)
    requires Init(s) && IsRun(s, actions)
    requires Final(s, actions).feeder.AtSelect? && Final(s, actions).q.items != []
    ensures var f := Final(s, actions);
      (f.q.wake && Can(f, Wake)) || (At(f, p).Sending? && Can(f, Send(p)) && Do(f, Send(p)).q.wake && Can(Do(f, Send(p)), Wake))
  {
    InvAlways(s, actions);
    var f := Final(s, actions);
    if f.q.wake {
      p := 0;
    } else {
      p :| p in f.pushers && f.pushers[p].Sending?;
    }
  }

  /** How often one kind of step was taken. */
  function Wakes(actions: seq<Action>): nat
  {
    if actions == [] then 0 else (if actions[0].Wake? then 1 else 0) + Wakes(actions[1..])
  }

  function Sends(actions: seq<Action>): nat
  {
    if actions == [] then 0 else (if actions[0].Send? then 1 else 0) + Sends(actions[1..])
  }

  /** The feeder is not woken for nothing: each time it wakes it uses up a token that a push has sent. */
  lemma {:induction false} WakesAreEarned(s: State, actions: seq<Action>)
    requires IsRun(s, actions)
    ensures Wakes(actions) + (if Final(s, actions).q.wake then 1 else 0) <= Sends(actions) + (if s.q.wake then 1 else 0)
    decreases |actions|
  {
    if actions != [] { WakesAreEarned(Do(s, actions[0]), actions[1..]); }
  }

  /** When the feeder sleeps and nobody can wake it, it has handed over every accepted item. */
  lemma QuietMeansAllHandedOver(s: State, actions: seq<Action>)
    requires Init(s) && IsRun(s, actions)
    requires var f := Final(s, actions); f.feeder.AtSelect? && !f.q.wake && !SomeoneSends(f)
    ensures Final(s, actions).handed == Final(s, actions).accepted
  {
    InvAlways(s, actions);
  }

  /** stuckFor is positive only while the gap manager has an item and others wait behind it, and then
      it is the time since that item went in. */
  lemma StuckForIsHonest(s: State, actions: seq<Action>, now: int)
    requires Init(s) && IsRun(s, actions)
    ensures var f := Final(s, actions);
      StuckFor(f.q, now) == if f.feeder.Inside? && f.q.items != [] then now - f.feeder.since else 0
  {
    InvAlways(s, actions);
  }

  /** The gap manager has an item and has not answered. */
  predicate Stuck(s: State) { s.feeder.Inside? && !s.feeder.answered }

  /** Nothing but the gap manager can hold the feeder up: unless it is stuck there, or sleeps over an
      empty queue, the feeder or a push that owes it a token can take a step. */
  lemma FeederProgresses(s: State, actions: seq<Action>, now: int) returns (a: Action)
    requires Init(s) && IsRun(s, actions) && !Stuck(Final(s, actions))
    requires var f := Final(s, actions); !f.feeder.Done? && (f.feeder.AtSelect? ==> f.q.items != [])
    ensures Can(Final(s, actions), a) && !a.Push? && !a.Cancel? && !a.Answer?
  {
    InvAlways(s, actions);
    var f := Final(s, actions);
    match f.feeder
    case Popping => a := Pop;
    case Between(_) => a := Begin(now);
    case Inside(_, _, _) => a := End(now);
    case AtSelect =>
      var p := NoLostWakeUp(s, actions);
      a := if f.q.wake then Wake else Send(p);
  }

  /** The steps of the feeder and of the gap manager for it. */
  predicate OfFeeder(a: Action) { a.Pop? || a.Begin? || a.Answer? || a.End? || a.Wake? || a.Leave? }

  /** How far the feeder still is from sleeping over an empty queue without a token. */
  function Effort(s: State): nat {
    6 * |s.q.items| + (if s.q.wake then 2 else 0) +
    match s.feeder
    case Popping => 2
    case Between(rest) => 5 * |rest| + 2
    case Inside(rest, _, answered) => 5 * |rest| + (if answered then 0 else 1)
    case AtSelect => 1
    case Done(_) => 0
  }

  /** The feeder never spins: each of its steps brings it nearer to its sleep, or to its end, unless
      something is pushed. An answer counts once. */
  lemma FeederComesToRest(s: State, actions: seq<Action>, a: Action)
    requires Init(s) && IsRun(s, actions) && Can(Final(s, actions), a) && OfFeeder(a)
    requires a.Answer? ==> Stuck(Final(s, actions))
    ensures Effort(Do(Final(s, actions), a)) < Effort(Final(s, actions))
  {
    hide IsRun, Final, Init;
    FromStart(s, actions);
  }

  /** Cancelling is always possible, and ends the feeder as soon as the gap manager has answered, or at
      once where it sleeps; a feeder that ended stays so. */
  lemma CancelEndsTheFeeder(s: State, actions: seq<Action>, a: Action)
    requires Init(s) && IsRun(s, actions) && Can(Final(s, actions), a)
    ensures var f := Final(s, actions); Can(f, Cancel) && Do(f, Cancel).cancelled && (f.cancelled ==> Do(f, a).cancelled)
    ensures var f := Final(s, actions); f.cancelled && f.feeder.AtSelect? ==> Can(f, Leave) && Do(f, Leave).feeder == Done([])
    ensures var f := Final(s, actions); f.cancelled && a.End? ==> Do(f, a).feeder.Done?
    ensures var f := Final(s, actions); f.feeder.Inside? ==> Can(f, Answer) && Do(f, Answer).feeder == f.feeder.(answered := true)
    ensures var f := Final(s, actions); f.feeder.Done? ==> Do(f, a).feeder == f.feeder && Do(f, a).handed == f.handed
  {
    hide IsRun, Final, Init;
    FromStart(s, actions);
  }

  /** A stuck gap manager never blocks a push, and the time it has been stuck can be told as soon as
      another item waits behind it. */
  lemma PushNeverBlocks(s: State, actions: seq<Action>, p: nat, item: Item, now: int)
    requires Init(s) && IsRun(s, actions)
    ensures var f := Final(s, actions); Can(f, Push(p, item)) || (Can(f, Send(p)) && Can(Do(f, Send(p)), Push(p, item)))
    ensures var f := Final(s, actions); Stuck(f) && At(f, p).Away? ==>
      var g := Do(f, Push(p, item)); Stuck(g) && StuckFor(g.q, now) == now - g.feeder.since
  {
    hide Inv, IsRun, Final, Init;
    FromStart(s, actions);
    var f := Final(s, actions);
    if Stuck(f) && At(f, p).Away? { StuckShows(f, p, item, now); }
  }

  lemma FromStart(s: State, actions: seq<Action>)
    requires Init(s) && IsRun(s, actions)
    ensures Inv(Final(s, actions))
  {
    InvAlways(s, actions);
  }

  lemma StuckShows(f: State, p: nat, item: Item, now: int)
    requires Inv(f) && Stuck(f) && At(f, p).Away?
    ensures var g := Do(f, Push(p, item)); Stuck(g) && StuckFor(g.q, now) == now - g.feeder.since
  {
    hide SomeoneSends, Held;
  }
}
