/** The wake-up protocol of long polling: a channel that is closed once, replaced after every
    broadcast, and taken by each getUpdates call before it reads the stream. */
module PollSignal {
  import opened Basics

  /** Where a getUpdates call stands. `seen` is how much of the stream its read covered. */
  datatype Poller =
    | Away
    | HasSignal(signal: nat)
    | FoundNothing(signal: nat, seen: nat)
    | Waiting(signal: nat, seen: nat)

  /** Channels are numbered in the order they are made. */
  datatype State = State(
    appended: nat,           // updates persisted so far
    unannounced: bool,       // the worker has appended and not yet broadcast
    current: Option<nat>,    // b.newUpdates
    closed: set<nat>,
    made: nat,
    pollers: map<nat, Poller>)

  datatype Action =
    | TakeSignal(p: nat) | ReadNothing(p: nat) | ReadSome(p: nat) | Sleep(p: nat) | GiveUp(p: nat)
    | Wake(p: nat) | TimeOut(p: nat)
    | Append | Broadcast

  ghost predicate Init(s: State) {
    s == State(0, false, None, {}, 0, map[])
  }

  function At(s: State, p: nat): Poller { if p in s.pollers then s.pollers[p] else Away }

  predicate Can(s: State, a: Action) {
    match a
    case TakeSignal(p) => At(s, p).Away?
    case ReadNothing(p) => At(s, p).HasSignal?
    case ReadSome(p) => At(s, p).HasSignal?
    case Sleep(p) => At(s, p).FoundNothing?
    case GiveUp(p) => At(s, p).FoundNothing?
    case Wake(p) => At(s, p).Waiting? && At(s, p).signal in s.closed
    case TimeOut(p) => At(s, p).Waiting?
    case Append => true
    case Broadcast => s.unannounced
  }

  function Do(s: State, a: Action): State
    requires Can(s, a)
  {
    match a
    case TakeSignal(p) =>
      if s.current.Some? then s.(pollers := s.pollers[p := HasSignal(s.current.value)])
      else s.(current := Some(s.made), made := s.made + 1, pollers := s.pollers[p := HasSignal(s.made)])
    case ReadNothing(p) => s.(pollers := s.pollers[p := FoundNothing(At(s, p).signal, s.appended)])
    case ReadSome(p) => s.(pollers := s.pollers[p := Away])
    case Sleep(p) => s.(pollers := s.pollers[p := Waiting(At(s, p).signal, At(s, p).seen)])
    case GiveUp(p) => s.(pollers := s.pollers[p := Away])
    case Wake(p) => s.(pollers := s.pollers[p := Away])
    case TimeOut(p) => s.(pollers := s.pollers[p := Away])
    case Append => s.(appended := s.appended + 1, unannounced := true)
    case Broadcast =>
      s.(closed := if s.current.Some? then s.closed + {s.current.value} else s.closed, current := None, unannounced := false)
  }

  ghost predicate IsRun(s: State, actions: seq<Action>)
    decreases |actions|
  {
    actions == [] || (Can(s, actions[0]) && IsRun(Do(s, actions[0]), actions[1..]))
  }

  ghost function Final(s: State, actions: seq<Action>): State
    requires IsRun(s, actions)
    decreases |actions|
  {
    if actions == [] then s else Final(Do(s, actions[0]), actions[1..])
  }

  /** A signal that was handed out is the current one or is closed. */
  predicate Sound(s: State, signal: nat) { signal in s.closed || s.current == Some(signal) }

  ghost predicate Inv(s: State) {
    && (s.current.Some? ==> s.current.value < s.made && s.current.value !in s.closed)
    && (forall p | p in s.pollers && !s.pollers[p].Away? :: Sound(s, s.pollers[p].signal))
    && (forall p | p in s.pollers && (s.pollers[p].FoundNothing? || s.pollers[p].Waiting?) ::
          s.pollers[p].seen <= s.appended
          && (s.pollers[p].seen < s.appended ==> s.unannounced || s.pollers[p].signal in s.closed))
    && (forall c | c in s.closed :: c < s.made)
  }

  lemma InvStep(s: State, a: Action)
    requires Inv(s) && Can(s, a)
    ensures Inv(Do(s, a))
  {
  }

  /** The steps that are not one poller's own. */
  predicate OfOthers(a: Action, p: nat) { a.Append? || a.Broadcast? || a.p != p }

  /** The steps of others leave a poller where it is; only a broadcast closes a signal. */
  lemma OthersStep(s: State, a: Action, p: nat)
    requires Inv(s) && Can(s, a) && OfOthers(a, p)
    ensures Inv(Do(s, a)) && At(Do(s, a), p) == At(s, p) && s.closed <= Do(s, a).closed
    ensures Do(s, a).appended == s.appended + (if a.Append? then 1 else 0)
    ensures Do(s, a).closed != s.closed ==> a.Broadcast? && s.current.Some?
  {
    InvStep(s, a);
  }

  /** A signal that is taken is open, and the one that the next broadcast closes. */
  lemma TakenIsOpen(s: State, p: nat)
    requires Inv(s) && Can(s, TakeSignal(p))
    ensures var s' := Do(s, TakeSignal(p));
      Inv(s') && s'.closed == s.closed && s'.appended == s.appended && At(s', p).HasSignal?
      && At(s', p).signal !in s'.closed && s'.current == Some(At(s', p).signal)
  {
    InvStep(s, TakeSignal(p));
  }

  lemma {:induction false} InvAlways(s: State, actions: seq<Action>)
    requires Inv(s) && IsRun(s, actions)
    ensures Inv(Final(s, actions))
    decreases |actions|
  {
    if actions != [] {
      InvStep(s, actions[0]);
      InvAlways(Do(s, actions[0]), actions[1..]);
    }
  }

  /** Whether something was appended after the last broadcast. */
  predicate AppendedSince(actions: seq<Action>) {
    actions != [] && (actions[|actions| - 1].Append? || (!actions[|actions| - 1].Broadcast? && AppendedSince(actions[..|actions| - 1])))
  }

  lemma {:induction false} RunOfPrefix(s: State, actions: seq<Action>)
    requires actions != [] && IsRun(s, actions)
    ensures var n := |actions| - 1;
      IsRun(s, actions[..n]) && Can(Final(s, actions[..n]), actions[n]) && Final(s, actions) == Do(Final(s, actions[..n]), actions[n])
    decreases |actions|
  {
    hide Can, Do;
    if |actions| > 1 {
      RunOfPrefix(Do(s, actions[0]), actions[1..]);
      assert actions[1..][..|actions| - 2] == actions[..|actions| - 1][1..];
    }
  }

  /** The worker owes a broadcast exactly for what it appended after the last one. */
  lemma {:induction false} OwesWhatItAppended(s: State, actions: seq<Action>)
    requires Init(s) && IsRun(s, actions)
    ensures Final(s, actions).unannounced <==> AppendedSince(actions)
    decreases |actions|
  {
    if actions != [] {
      RunOfPrefix(s, actions);
      OwesWhatItAppended(s, actions[..|actions| - 1]);
    }
  }

  /** No wake-up is lost: for any number of pollers and any interleaving, a call that sleeps while the
      stream holds updates its read did not cover can wake, or the worker still owes the broadcast. */
  lemma NoLostWakeUp(s: State, actions: seq<Action>, p: nat)
    requires Init(s) && IsRun(s, actions)
    requires At(Final(s, actions), p).Waiting? && At(Final(s, actions), p).seen < Final(s, actions).appended
    ensures var f := Final(s, actions); var signal := At(f, p).signal;
      (signal in f.closed && Can(f, Wake(p)))
      || (f.unannounced && Can(f, Broadcast) && signal in Do(f, Broadcast).closed && Can(Do(f, Broadcast), Wake(p)))
  {
    InvAlways(s, actions);
    var f := Final(s, actions);
    assert Sound(f, f.pollers[p].signal);
  }

  /** Only a closed signal wakes, only a call that sleeps is woken or times out, and only what was appended
      is announced. */
  lemma WakesForAReason(s: State, p: nat)
    ensures Can(s, Wake(p)) ==> At(s, p).Waiting? && At(s, p).signal in s.closed
    ensures Can(s, TimeOut(p)) ==> At(s, p).Waiting?
    ensures Can(s, Broadcast) ==> s.unannounced
  {
  }

  /** A broadcast leaves no call, asleep or on its way to sleep, with an open signal. */
  lemma BroadcastReachesAll(s: State, actions: seq<Action>, p: nat)
    requires Init(s) && IsRun(s, actions) && Can(Final(s, actions), Broadcast)
    requires !At(Final(s, actions), p).Away?
    ensures var f := Do(Final(s, actions), Broadcast); At(f, p).signal in f.closed && f.current.None?
  {
    InvAlways(s, actions);
    var f := Final(s, actions);
    assert Sound(f, f.pollers[p].signal);
  }
}
