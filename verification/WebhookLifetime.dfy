/** When a bot's replay loop runs: SetWebhook, DeleteWebhook, restarts and Stop, called from any
    number of goroutines, under the lock that serializes them; loops run and exit on their own. */
module WebhookLifetime {
  import opened Basics

  datatype Op = SetWebhook(url: bool, drop: bool) | DeleteWebhook(drop: bool) | Restart | Stop

  /** Where a goroutine stands inside one of the operations. From AtStop on it holds the lock. */
  datatype Pc =
    | Idle
    | AtLock(op: Op)
    | AtStop(op: Op)       // stopWebhookDeliveryLocked is about to look for a loop
    | AwaitDone(op: Op)    // it cancelled the loop and waits for its done channel
    | AtSave(op: Op)       // the new configuration is about to be written to Redis
    | AtConfig(op: Op)
    | AtDrop(op: Op)       // DropPendingUpdates
    | AtStart(op: Op)      // the (deferred) startWebhookDeliveryLocked
    | AtUnlock

  /** A replay loop lives until it notices its cancelled context and closes done. */
  datatype Loop = Running | Cancelled | Exited

  datatype State = State(
    holder: Option<nat>,      // who holds webhookMu
    pcs: map<nat, Pc>,        // every goroutine
    loops: map<nat, Loop>,    // every loop ever started
    current: Option<nat>,     // the loop webhookCancel and webhookDone belong to
    stopped: bool,            // webhookStopped
    url: bool,                // webhookURL is not empty
    ready: bool)              // the bot is authorized; it has a dispatcher and a store

  datatype Action =
    | Call(t: nat, op: Op) | Lock(t: nat) | Cancel(t: nat) | Join(t: nat) | Save(t: nat, ok: bool)
    | Configure(t: nat) | Drop(t: nat) | Start(t: nat) | Unlock(t: nat)
    | Exit(loop: nat)         // a cancelled loop returns
    | Authorize               // the bot id becomes known

  ghost predicate Init(s: State) {
    && s.holder.None? && s.loops == map[] && s.current.None? && !s.stopped
    && forall t | t in s.pcs :: s.pcs[t].Idle?
  }

  function At(s: State, t: nat): Pc { if t in s.pcs then s.pcs[t] else Idle }

  predicate Can(s: State, a: Action) {
    match a
    case Call(t, _) => At(s, t).Idle?
    case Lock(t) => At(s, t).AtLock? && s.holder.None?
    case Cancel(t) => At(s, t).AtStop?
    case Join(t) => At(s, t).AwaitDone? && s.current.Some? && s.current.value in s.loops && s.loops[s.current.value].Exited?
    case Save(t, _) => At(s, t).AtSave?
    case Configure(t) => At(s, t).AtConfig?
    case Drop(t) => At(s, t).AtDrop?
    case Start(t) => At(s, t).AtStart?
    case Unlock(t) => At(s, t).AtUnlock?
    case Exit(l) => l in s.loops && s.loops[l].Cancelled?
    case Authorize => true
  }

  /** What follows stopWebhookDeliveryLocked. */
  function AfterStop(op: Op): Pc {
    match op
    case SetWebhook(_, _) | DeleteWebhook(_) => AtSave(op)
    case Restart => AtStart(op)
    case Stop => AtUnlock
  }

  function Fresh(s: State): nat { |s.loops| }

  function Do(s: State, a: Action): State
    requires Can(s, a)
  {
    match a
    case Call(t, op) => s.(pcs := s.pcs[t := AtLock(op)])
    case Lock(t) =>
      var op := s.pcs[t].op;
      s.(holder := Some(t), pcs := s.pcs[t := AtStop(op)], stopped := s.stopped || op.Stop?)
    case Cancel(t) =>
      var op := s.pcs[t].op;
      if s.current.None? then s.(pcs := s.pcs[t := AfterStop(op)])
      else
        var l := s.current.value;
        s.(pcs := s.pcs[t := AwaitDone(op)],
           loops := if l in s.loops && s.loops[l].Running? then s.loops[l := Cancelled] else s.loops)
    case Join(t) => s.(current := None, pcs := s.pcs[t := AfterStop(s.pcs[t].op)])
    case Save(t, ok) => s.(pcs := s.pcs[t := if ok then AtConfig(s.pcs[t].op) else AtStart(s.pcs[t].op)])
    case Configure(t) =>
      var op := s.pcs[t].op;
      var drop := (op.SetWebhook? || op.DeleteWebhook?) && op.drop;
      s.(url := op.SetWebhook? && op.url, pcs := s.pcs[t := if drop then AtDrop(op) else AtStart(op)])
    case Drop(t) => s.(pcs := s.pcs[t := AtStart(s.pcs[t].op)])
    case Start(t) =>
      var s' := s.(pcs := s.pcs[t := AtUnlock]);
      if s.stopped || !s.url || !s.ready then s'
      else s'.(loops := s.loops[Fresh(s) := Running], current := Some(Fresh(s)))
    case Unlock(t) => s.(holder := None, pcs := s.pcs[t := Idle])
    case Exit(l) => s.(loops := s.loops[l := Exited])
    case Authorize => s.(ready := true)
  }

  /** A run is a start state and any sequence of actions, each possible when it is taken. */
  ghost predicate IsRun(s: State, actions: seq<Action>)
    decreases |actions|
  {
    actions == [] || (Can(s, actions[0]) && IsRun(Do(s, actions[0]), actions[1..]))
  }

  ghost function Final(s: State, actions: seq<Action>): State
    requires IsRun(s, actions)
    decreases |actions|
  {
    if actions == [] then s else Final(Do(s, actions[0]), actions[1..])
  }

  predicate Alive(s: State, l: nat) { l in s.loops && !s.loops[l].Exited? }

  predicate Locked(pc: Pc) { !pc.Idle? && !pc.AtLock? }

  predicate LoopFree(pc: Pc) { pc.AtSave? || pc.AtConfig? || pc.AtDrop? || pc.AtStart? }

  ghost predicate Inv(s: State) {
    && (forall t | t in s.pcs && Locked(s.pcs[t]) :: s.holder == Some(t))
    && (forall l: nat | Alive(s, l) :: s.current == Some(l))
    && (forall l | l in s.loops :: l < |s.loops|)
    && (s.current.Some? ==> s.current.value in s.loops)
    && (forall t | t in s.pcs && LoopFree(s.pcs[t]) :: s.current.None?)
    && (forall t | t in s.pcs && s.pcs[t].AwaitDone? :: s.current.Some? && !s.loops[s.current.value].Running?)
    && (s.stopped && s.current.Some? ==>
          s.holder.Some? && At(s, s.holder.value) in {AtStop(Stop), AwaitDone(Stop)})
  }

  lemma InvInit(s: State)
    requires Init(s)
    ensures Inv(s)
  {
  }

  lemma StartStep(s: State, t: nat)
    requires Inv(s) && Can(s, Start(t))
    ensures Inv(Do(s, Start(t)))
  {
    assert s.current.None? && s.holder == Some(t);
    var s' := Do(s, Start(t));
    assert Fresh(s) !in s.loops;
    if s'.loops != s.loops {
      assert s'.loops.Keys == s.loops.Keys + {Fresh(s)};
    }
  }

  /** The steps that change the loops: cancelling, exiting. */
  lemma CancelStep(s: State, t: nat)
    requires Inv(s) && Can(s, Cancel(t))
    ensures Inv(Do(s, Cancel(t)))
  {
    assert Do(s, Cancel(t)).loops.Keys == s.loops.Keys;
    assert |Do(s, Cancel(t)).loops| == |s.loops|;
  }

  lemma ExitStep(s: State, l: nat)
    requires Inv(s) && Can(s, Exit(l))
    ensures Inv(Do(s, Exit(l)))
  {
    assert Do(s, Exit(l)).loops.Keys == s.loops.Keys;
    assert |Do(s, Exit(l)).loops| == |s.loops|;
  }

  lemma LockStep(s: State, a: Action)
    requires Inv(s) && Can(s, a) && (a.Call? || a.Lock? || a.Unlock?)
    ensures Inv(Do(s, a))
  {
  }

  lemma QuietStep(s: State, a: Action)
    requires Inv(s) && Can(s, a) && (a.Join? || a.Save? || a.Configure? || a.Drop? || a.Authorize?)
    ensures Inv(Do(s, a))
  {
  }

  lemma InvStep(s: State, a: Action)
    requires Inv(s) && Can(s, a)
    ensures Inv(Do(s, a))
  {
    hide *;
    match a
    case Start(t) => StartStep(s, t);
    case Cancel(t) => CancelStep(s, t);
    case Exit(l) => ExitStep(s, l);
    case Call(_, _) => LockStep(s, a);
    case Lock(_) => LockStep(s, a);
    case Unlock(_) => LockStep(s, a);
    case _ => QuietStep(s, a);
  }

  lemma {:induction false} InvAlways(s: State, actions: seq<Action>)
    requires Inv(s) && IsRun(s, actions)
    ensures Inv(Final(s, actions))
    decreases |actions|
  {
    if actions != [] {
      InvStep(s, actions[0]);
      InvAlways(Do(s, actions[0]), actions[1..]);
    }
  }

  /** In every reachable state at most one replay loop is alive, and while pending updates are being
      dropped none is. */
  lemma AtMostOneLoop(s: State, actions: seq<Action>)
    requires Init(s) && IsRun(s, actions)
    ensures var f := Final(s, actions);
      && (forall l: nat, m: nat | Alive(f, l) && Alive(f, m) :: l == m)
      && (forall t: nat, l: nat | At(f, t).AtDrop? :: !Alive(f, l))
  {
    InvInit(s);
    InvAlways(s, actions);
  }

  lemma StoppedStep(s: State, a: Action)
    requires Inv(s) && s.stopped && Can(s, a)
    ensures Do(s, a).stopped && Do(s, a).loops.Keys == s.loops.Keys
  {
  }

  lemma {:induction false} NoneStartedOnceStopped(s: State, actions: seq<Action>)
    requires Inv(s) && s.stopped && IsRun(s, actions)
    ensures Final(s, actions).stopped && Final(s, actions).loops.Keys == s.loops.Keys
    decreases |actions|
  {
    if actions != [] {
      StoppedStep(s, actions[0]);
      InvStep(s, actions[0]);
      NoneStartedOnceStopped(Do(s, actions[0]), actions[1..]);
    }
  }

  /** Once a Stop has returned no loop is alive, and none ever is again, whatever is called later. */
  lemma StopIsFinal(s: State, before: seq<Action>, after: seq<Action>)
    requires Init(s) && IsRun(s, before)
    requires var f := Final(s, before); f.stopped && f.holder.None? && IsRun(f, after)
    ensures var f := Final(s, before); forall l: nat :: !Alive(f, l) && !Alive(Final(f, after), l)
  {
    InvInit(s);
    InvAlways(s, before);
    var f := Final(s, before);
    InvAlways(f, after);
    NoneStartedOnceStopped(f, after);
    ExitedForGood(f, after);
  }

  lemma {:induction false} ExitedForGood(s: State, actions: seq<Action>)
    requires Inv(s) && s.stopped && IsRun(s, actions)
    ensures forall l | l in s.loops && s.loops[l].Exited? :: l in Final(s, actions).loops && Final(s, actions).loops[l].Exited?
    decreases |actions|
  {
    if actions != [] {
      StoppedStep(s, actions[0]);
      InvStep(s, actions[0]);
      ExitedForGood(Do(s, actions[0]), actions[1..]);
    }
  }

  /** Whoever holds the lock can go on, or waits for a loop that was cancelled and can exit: the
      operations cannot deadlock with the loop. */
  lemma HolderProgresses(s: State, actions: seq<Action>) returns (a: Action)
    requires Init(s) && IsRun(s, actions)
    requires exists t :: Locked(At(Final(s, actions), t))
    ensures Can(Final(s, actions), a)
    ensures a.Exit? || (!a.Call? && !a.Lock? && !a.Authorize? && Locked(At(Final(s, actions), a.t)))
  {
    InvInit(s);
    InvAlways(s, actions);
    var f := Final(s, actions);
    var t :| Locked(At(f, t));
    a := match At(f, t)
      case AtStop(_) => Cancel(t)
      case AwaitDone(_) => (if f.loops[f.current.value].Exited? then Join(t) else Exit(f.current.value))
      case AtSave(_) => Save(t, true)
      case AtConfig(_) => Configure(t)
      case AtDrop(_) => Drop(t)
      case AtStart(_) => Start(t)
      case _ => Unlock(t);
  }
}
