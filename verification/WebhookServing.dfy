/** What the lifetime operations achieve: a loop runs exactly when a webhook is configured, the
    configuration is the one saved last, and pending updates are dropped exactly when that was asked. */
module WebhookServing {
  import opened Basics
  import opened WebhookLifetime

  /** What was asked for and done so far: the configuration that was saved last, whether the bot was
      ready when a loop was last to be started, who has yet to save a configuration, and who has yet to
      drop the pending updates. */
  datatype Past = Past(url: bool, started: bool, unsaved: set<nat>, owes: set<nat>)

  predicate Configures(op: Op) { op.SetWebhook? || op.DeleteWebhook? }

  predicate WantsDrop(op: Op) { (op.SetWebhook? || op.DeleteWebhook?) && op.drop }

  predicate WantsUrl(op: Op) { op.SetWebhook? && op.url }

  function Noted(h: Past, s: State, a: Action): Past
    requires Can(s, a)
  {
    match a
    case Lock(t) => if Configures(At(s, t).op) then h.(unsaved := h.unsaved + {t}) else h
    case Save(t, false) => h.(unsaved := h.unsaved - {t})
    case Save(t, true) =>
      h.(unsaved := h.unsaved - {t}, url := WantsUrl(At(s, t).op),
         owes := if WantsDrop(At(s, t).op) then h.owes + {t} else h.owes)
    case Drop(t) => h.(owes := h.owes - {t})
    case Start(_) => h.(started := s.ready)
    case _ => h
  }

  ghost function PastAfter(h: Past, s: State, actions: seq<Action>): Past
    requires IsRun(s, actions)
    decreases |actions|
  {
    if actions == [] then h else PastAfter(Noted(h, s, actions[0]), Do(s, actions[0]), actions[1..])
  }

  /** A loop runs, and nobody has told it to stop. */
  predicate Running(s: State, l: nat) { l in s.loops && s.loops[l].Running? }

  ghost predicate Serving(s: State) { exists l: nat :: Running(s, l) }

  /** It is the current one. */
  predicate CurrentRuns(s: State) { s.current.Some? && Running(s, s.current.value) }

  lemma ServingByCurrent(s: State)
    requires Inv(s)
    ensures Serving(s) <==> CurrentRuns(s)
  {
    forall l: nat | Running(s, l) ensures CurrentRuns(s) { assert Alive(s, l); }
  }

  /** Where the holder of the lock stands. */
  function HolderAt(s: State): Pc { if s.holder.Some? then At(s, s.holder.value) else Idle }

  /** Between two operations, or before one has stopped the loop or after it has started one. */
  predicate Settled(pc: Pc) { pc.Idle? || pc.AtStop? || pc.AtUnlock? }

  ghost predicate Configured(s: State, h: Past) {
    && (s.url == h.url || HolderAt(s).AtConfig?)
    && (HolderAt(s).AtConfig? ==> h.url == WantsUrl(HolderAt(s).op))
  }

  predicate HasToSave(pc: Pc) { pc.AtSave? || ((pc.AtStop? || pc.AwaitDone?) && Configures(pc.op)) }

  predicate HasToDrop(pc: Pc) { pc.AtDrop? || (pc.AtConfig? && WantsDrop(pc.op)) }

  /** The holder of the lock, if it stands there. */
  function HolderIf(s: State, there: bool): set<nat> { if there && s.holder.Some? then {s.holder.value} else {} }

  ghost predicate Unsaved(s: State, h: Past) { h.unsaved == HolderIf(s, HasToSave(HolderAt(s))) }

  ghost predicate Owed(s: State, h: Past) { h.owes == HolderIf(s, HasToDrop(HolderAt(s))) }

  /** The holder of the lock is inside an operation. */
  predicate Holding(s: State) { s.holder.Some? ==> Locked(HolderAt(s)) }

  ghost predicate Serves(s: State, h: Past) {
    && Holding(s)
    && (HolderAt(s) in {AtStop(Stop), AwaitDone(Stop)} ==> s.stopped)
    && (Settled(HolderAt(s)) && !s.stopped ==> (CurrentRuns(s) <==> s.url && h.started))
  }

  /** The steps of somebody who does not hold the lock, and of nobody. */
  predicate Outside(a: Action) { a.Call? || a.Exit? || a.Authorize? }

  /** Only the holder moves on inside an operation. */
  lemma HolderStep(s: State, a: Action)
    requires Inv(s) && Holding(s) && Can(s, a)
    ensures var s' := Do(s, a);
      && (Outside(a) ==> s'.holder == s.holder && HolderAt(s') == HolderAt(s))
      && (a.Lock? ==> s.holder.None? && s'.holder == Some(a.t))
      && (!Outside(a) && !a.Lock? ==> s.holder == Some(a.t) && (s'.holder == s.holder || (a.Unlock? && s'.holder.None?)))
  {
  }

  lemma ConfiguredStep(s: State, h: Past, a: Action)
    requires Inv(s) && Holding(s) && Configured(s, h) && Can(s, a)
    ensures Configured(Do(s, a), Noted(h, s, a))
  {
    hide Inv;
    HolderStep(s, a);
  }

  lemma OwedStep(s: State, h: Past, a: Action)
    requires Inv(s) && Holding(s) && Owed(s, h) && Can(s, a)
    ensures Owed(Do(s, a), Noted(h, s, a))
  {
    hide Inv;
    HolderStep(s, a);
  }

  lemma UnsavedStep(s: State, h: Past, a: Action)
    requires Inv(s) && Holding(s) && Unsaved(s, h) && Can(s, a)
    ensures Unsaved(Do(s, a), Noted(h, s, a))
  {
    hide Inv;
    HolderStep(s, a);
  }

  lemma ServesStep(s: State, h: Past, a: Action)
    requires Inv(s) && Serves(s, h) && Can(s, a)
    ensures Serves(Do(s, a), Noted(h, s, a))
  {
    HolderStep(s, a);
    if Outside(a) { ServesOutside(s, h, a); } else { ServesInside(s, h, a); }
  }

  lemma ServesOutside(s: State, h: Past, a: Action)
    requires Inv(s) && Serves(s, h) && Can(s, a) && Outside(a)
    requires Do(s, a).holder == s.holder && HolderAt(Do(s, a)) == HolderAt(s)
    ensures Serves(Do(s, a), Noted(h, s, a))
  {
    hide Inv, HolderAt, Settled;
  }

  lemma NoneRunsInside(s: State)
    requires Inv(s)
    ensures LoopFree(HolderAt(s)) ==> s.current.None?
    ensures HolderAt(s).AwaitDone? ==> !CurrentRuns(s)
  {
  }

  lemma ServesInside(s: State, h: Past, a: Action)
    requires Inv(s) && Serves(s, h) && Can(s, a) && !Outside(a)
    requires a.Lock? || s.holder == Some(a.t)
    ensures Serves(Do(s, a), Noted(h, s, a))
  {
    hide Inv;
    NoneRunsInside(s);
  }

  lemma HoldingNow(s: State, h: Past)
    requires Serves(s, h)
    ensures Holding(s)
  {
  }

  lemma {:induction false} PastHolds(s: State, h: Past, actions: seq<Action>)
    requires Inv(s) && Serves(s, h) && Configured(s, h) && Unsaved(s, h) && Owed(s, h) && IsRun(s, actions)
    ensures var f, g := Final(s, actions), PastAfter(h, s, actions);
      Inv(f) && Serves(f, g) && Configured(f, g) && Unsaved(f, g) && Owed(f, g)
    decreases |actions|
  {
    hide Inv, Serves, Configured, Unsaved, Owed, Holding, Can, Do, Noted;
    if actions != [] {
      HoldingNow(s, h);
      InvStep(s, actions[0]);
      ServesStep(s, h, actions[0]);
      ConfiguredStep(s, h, actions[0]);
      UnsavedStep(s, h, actions[0]);
      OwedStep(s, h, actions[0]);
      PastHolds(Do(s, actions[0]), Noted(h, s, actions[0]), actions[1..]);
    }
  }

  /** Whenever nobody is in the middle of an operation and the bot is not stopped, a replay loop runs if
      and only if the configuration saved last has a URL and the bot was ready when a loop was last to be
      started. That configuration is the one in use, every operation that sets one has tried to save it, and
      no pending updates are left that were to be dropped. */
  lemma LoopRunsExactlyWhenConfigured(s: State, actions: seq<Action>)
    requires Init(s) && IsRun(s, actions)
    requires var f := Final(s, actions); f.holder.None? && !f.stopped
    ensures var f, h := Final(s, actions), PastAfter(Past(s.url, false, {}, {}), s, actions);
      (Serving(f) <==> h.url && h.started) && f.url == h.url && h.unsaved == {} && h.owes == {}
  {
    InvInit(s);
    PastHolds(s, Past(s.url, false, {}, {}), actions);
    ServingByCurrent(Final(s, actions));
  }

  /** A configuration is saved, and pending updates are dropped, only by an operation that was asked to. */
  lemma DoesWhatWasAsked(s: State, actions: seq<Action>, t: nat)
    requires Init(s) && IsRun(s, actions)
    ensures var f, h := Final(s, actions), PastAfter(Past(s.url, false, {}, {}), s, actions);
      (Can(f, Drop(t)) ==> t in h.owes) && (At(f, t).AtSave? ==> t in h.unsaved)
  {
    InvInit(s);
    PastHolds(s, Past(s.url, false, {}, {}), actions);
  }

  /** How many steps the operation that holds the lock still takes, with that of the loop it waits for. */
  function StepsLeft(s: State): nat {
    match HolderAt(s)
    case AtStop(_) => 8
    case AwaitDone(_) => if s.current.Some? && s.current.value in s.loops && s.loops[s.current.value].Exited? then 6 else 7
    case AtSave(_) => 5
    case AtConfig(_) => 4
    case AtDrop(_) => 3
    case AtStart(_) => 2
    case AtUnlock => 1
    case _ => 0
  }

  /** Every operation comes to an end: each step of its own, and the exit of the loop it waits for, brings
      it nearer, no other step takes it further away, and the last one frees the lock. */
  lemma OperationsEnd(s: State, actions: seq<Action>, a: Action)
    requires Init(s) && IsRun(s, actions) && Can(Final(s, actions), a) && Final(s, actions).holder.Some?
    ensures var f := Final(s, actions); var g := Do(f, a);
      && StepsLeft(g) <= StepsLeft(f) && StepsLeft(f) > 0
      && (!Outside(a) || (a.Exit? && HolderAt(f).AwaitDone?) ==> StepsLeft(g) < StepsLeft(f))
      && (StepsLeft(g) == 0 <==> g.holder.None?)
  {
    InvInit(s);
    PastHolds(s, Past(s.url, false, {}, {}), actions);
    StepsTaken(Final(s, actions), a);
  }

  lemma StepsTaken(f: State, a: Action)
    requires Inv(f) && Holding(f) && Can(f, a) && f.holder.Some?
    ensures var g := Do(f, a);
      && StepsLeft(g) <= StepsLeft(f) && StepsLeft(f) > 0
      && (!Outside(a) || (a.Exit? && HolderAt(f).AwaitDone?) ==> StepsLeft(g) < StepsLeft(f))
      && (StepsLeft(g) == 0 <==> g.holder.None?)
  {
    HolderStep(f, a);
    if a.Exit? { assert Alive(f, a.loop); }
  }

  /** Anyone who is idle can call an operation, and waits for the lock; the lock goes to one who waits when
      it is free. Once the bot is authorized it is ready. */
  lemma CallsAreHeard(s: State, t: nat, op: Op)
    ensures At(s, t).Idle? ==> Can(s, Call(t, op)) && At(Do(s, Call(t, op)), t) == AtLock(op)
    ensures At(s, t) == AtLock(op) && s.holder.None? ==>
      Can(s, Lock(t)) && Do(s, Lock(t)).holder == Some(t) && At(Do(s, Lock(t)), t) == AtStop(op)
    ensures Can(s, Authorize) && Do(s, Authorize).ready
  {
  }

  /** The bot is ready, and whatever URL it has a loop was started for, or is about to be. */
  ghost predicate Prompt(s: State, h: Past) {
    s.ready && (h.started || !s.url || LoopFree(HolderAt(s)))
  }

  lemma PromptStep(s: State, h: Past, a: Action)
    requires Inv(s) && Prompt(s, h) && Can(s, a)
    ensures Prompt(Do(s, a), Noted(h, s, a))
  {
  }

  lemma {:induction false} PromptAlways(s: State, h: Past, actions: seq<Action>)
    requires Inv(s) && Prompt(s, h) && IsRun(s, actions)
    ensures Prompt(Final(s, actions), PastAfter(h, s, actions))
    decreases |actions|
  {
    hide Inv, Prompt, Can, Do, Noted;
    if actions != [] {
      InvStep(s, actions[0]);
      PromptStep(s, h, actions[0]);
      PromptAlways(Do(s, actions[0]), Noted(h, s, actions[0]), actions[1..]);
    }
  }

  /** A bot that was ready before it had a webhook serves every webhook it is given, and runs no loop
      without one. */
  lemma UrlIsServed(s: State, actions: seq<Action>)
    requires Init(s) && s.ready && !s.url && IsRun(s, actions)
    requires var f := Final(s, actions); f.holder.None? && !f.stopped
    ensures Serving(Final(s, actions)) <==> Final(s, actions).url
  {
    InvInit(s);
    LoopRunsExactlyWhenConfigured(s, actions);
    PromptAlways(s, Past(s.url, false, {}, {}), actions);
  }
}
