/** What callers of GetOrCreate are told: by the steps taken inside their call, and nothing else. */
module BotOutcomes {
  import opened Basics
  import opened BotRegistry

  datatype Registration = Registration(token: Token, bot: nat)

  /** What happened so far: the calls in which a bot could not be made, the bot that was found or
      stored in each of the others, everything that was ever registered, and the bots that were reported
      as revoked before they were. */
  datatype Past = Past(refused: set<nat>, given: map<nat, nat>, stored: set<Registration>, tooEarly: set<nat>)

  ghost function Noted(h: Past, s: State, a: Action): Past
    requires Can(s, a)
  {
    match a
    case Misconfigured(t) => h.(refused := h.refused + {At(s, t).call})
    case StartFail(t) => h.(refused := h.refused + {At(s, t).call})
    case Check(t) =>
      if At(s, t).token in s.bots then h.(given := h.given[At(s, t).call := s.bots[At(s, t).token]]) else h
    case Store(t) =>
      h.(given := h.given[At(s, t).call := At(s, t).bot], stored := h.stored + {Registration(At(s, t).token, At(s, t).bot)})
    case Revoked(b) => if exists r :: r in h.stored && r.bot == b then h else h.(tooEarly := h.tooEarly + {b})
    case _ => h
  }

  ghost function PastAfter(h: Past, s: State, actions: seq<Action>): Past
    requires IsRun(s, actions)
    decreases |actions|
  {
    if actions == [] then h else PastAfter(Noted(h, s, actions[0]), Do(s, actions[0]), actions[1..])
  }

  const NOTHING_YET := Past({}, map[], {}, {})

  /** The result is what happened in the call. */
  predicate IsResult(h: Past, call: nat, r: Outcome) {
    if call in h.refused then call !in h.given && r == Failed else call in h.given && r == Bot(h.given[call])
  }

  /** Nothing has been decided in the call. */
  predicate Open(h: Past, call: nat) { call !in h.refused && call !in h.given }

  predicate Told(h: Past, pc: Pc) {
    match pc
    case Checking(_, call) => Open(h, call)
    case Starting(_, call, _) => Open(h, call)
    case Storing(_, call, _) => Open(h, call)
    case Finishing(_, call, r) => IsResult(h, call, r)
    case Deleting(_, call, r) => IsResult(h, call, r)
    case Returned(token, from, r) =>
      if from.Some? then IsResult(h, from.value, r) else r.Bot? && Registration(token, r.bot) in h.stored
    case _ => true
  }

  ghost predicate PcsTold(s: State, h: Past) { forall t | t in s.pcs :: Told(h, s.pcs[t]) }

  ghost predicate CallsTold(s: State, h: Past) {
    forall c: nat | c < |s.calls| && s.calls[c].done :: IsResult(h, c, s.calls[c].result)
  }

  ghost predicate CallsMade(s: State, h: Past) {
    (forall c | c in h.refused :: c < |s.calls|) && (forall c | c in h.given :: c < |s.calls|)
  }

  ghost predicate AllTold(s: State, h: Past) { PcsTold(s, h) && CallsTold(s, h) && CallsMade(s, h) }

  /** What is registered, or was given to a call, was stored for its token. */
  ghost predicate AllStored(s: State, h: Past) {
    && (forall k | k in s.bots :: Registration(k, s.bots[k]) in h.stored)
    && (forall c | c in h.given :: c < |s.calls| && Registration(s.calls[c].token, h.given[c]) in h.stored)
  }

  /** A bot is stored only after its client became ready. */
  ghost predicate AllConnected(s: State, h: Past) {
    && (forall t | t in s.pcs && s.pcs[t].Storing? :: s.pcs[t].bot in s.connected)
    && (forall r | r in h.stored :: r.bot in s.connected)
    && (forall b | b in s.connected :: b < |s.made|)
  }

  /** A bot that is registered was stored before; one that is still being made was not. Whether either
      was reported too early is on record. */
  ghost predicate AllDated(s: State, h: Past) {
    && (forall t | t in s.pcs && Makes(s.pcs[t]) :: (forall r | r in h.stored :: r.bot != s.pcs[t].bot))
    && (forall t | t in s.pcs && Makes(s.pcs[t]) :: s.pcs[t].bot in s.early <==> s.pcs[t].bot in h.tooEarly)
    && (forall k | k in s.bots :: s.bots[k] in s.early <==> s.bots[k] in h.tooEarly)
    && (forall r | r in h.stored :: r.bot < |s.made|)
    && (forall b | b in h.tooEarly :: b < |s.made|)
  }

  /** The steps that decide a call. */
  predicate Decides(a: Action) { a.Misconfigured? || a.StartFail? || a.Check? || a.Store? }

  /** Only the call's own leader decides it. */
  lemma DecidedByLeader(s: State, h: Past, a: Action, t: nat)
    requires Leaders(s) && Followers(s) && PcsTold(s, h) && Can(s, a) && Decides(a) && t in s.pcs && t != a.t
    ensures Told(Noted(h, s, a), s.pcs[t])
  {
    assert LeaderOk(s, a.t, At(s, a.t));
    assert Told(h, s.pcs[t]) && FollowerOk(s, s.pcs[t]);
    if Leads(s.pcs[t]) { assert LeaderOk(s, t, s.pcs[t]); }
  }

  lemma DecidedStep(s: State, h: Past, a: Action)
    requires Leaders(s) && Followers(s) && PcsTold(s, h) && AllStored(s, h) && Can(s, a) && Decides(a)
    ensures PcsTold(Do(s, a), Noted(h, s, a))
  {
    var s', h' := Do(s, a), Noted(h, s, a);
    forall t | t in s'.pcs ensures Told(h', s'.pcs[t]) {
      if t != a.t { DecidedByLeader(s, h, a, t); } else { assert Told(h, s.pcs[t]); }
    }
  }

  lemma PassedOnStep(s: State, h: Past, a: Action)
    requires PcsTold(s, h) && CallsTold(s, h) && CallsMade(s, h) && AllStored(s, h) && Can(s, a) && !Decides(a)
    ensures PcsTold(Do(s, a), Noted(h, s, a))
  {
  }

  lemma CallsStep(s: State, h: Past, a: Action)
    requires Leaders(s) && PcsTold(s, h) && CallsTold(s, h) && CallsMade(s, h) && Can(s, a)
    ensures CallsTold(Do(s, a), Noted(h, s, a)) && CallsMade(Do(s, a), Noted(h, s, a))
  {
  }

  lemma ToldStep(s: State, h: Past, a: Action)
    requires Leaders(s) && Followers(s) && AllTold(s, h) && AllStored(s, h) && Can(s, a)
    ensures AllTold(Do(s, a), Noted(h, s, a))
  {
    hide Leaders, Followers, PcsTold, CallsTold, CallsMade, AllStored, Can, Do, Noted;
    if Decides(a) { DecidedStep(s, h, a); } else { PassedOnStep(s, h, a); }
    CallsStep(s, h, a);
  }

  lemma StoredStep(s: State, h: Past, a: Action)
    requires Leaders(s) && AllStored(s, h) && Can(s, a)
    ensures AllStored(Do(s, a), Noted(h, s, a))
  {
    hide Leaders, AllStored, Can, Do, Noted;
    if Decides(a) { StoredByDecision(s, h, a); } else { StoredKept(s, h, a); }
  }

  lemma StoredByDecision(s: State, h: Past, a: Action)
    requires Leaders(s) && AllStored(s, h) && Can(s, a) && Decides(a)
    ensures AllStored(Do(s, a), Noted(h, s, a))
  {
    assert LeaderOk(s, a.t, At(s, a.t));
  }

  lemma StoredKept(s: State, h: Past, a: Action)
    requires AllStored(s, h) && Can(s, a) && !Decides(a)
    ensures AllStored(Do(s, a), Noted(h, s, a))
  {
  }

  lemma ConnectedStep(s: State, h: Past, a: Action)
    requires AllConnected(s, h) && Can(s, a)
    ensures AllConnected(Do(s, a), Noted(h, s, a))
  {
  }

  lemma DatedStep(s: State, h: Past, a: Action)
    requires Makers(s) && Registered(s) && Instances(s) && AllDated(s, h) && Can(s, a) && OnBots(a)
    ensures AllDated(Do(s, a), Noted(h, s, a))
  {
    if a.Revoked? { RevokedDated(s, h, a.bot); }
  }

  lemma RevokedDated(s: State, h: Past, b: nat)
    requires Makers(s) && Registered(s) && Instances(s) && AllDated(s, h) && Can(s, Revoked(b))
    ensures AllDated(Do(s, Revoked(b)), Noted(h, s, Revoked(b)))
  {
  }

  lemma DatedKept(s: State, h: Past, a: Action)
    requires Makers(s) && Instances(s) && AllDated(s, h) && Can(s, a) && !OnBots(a)
    ensures AllDated(Do(s, a), Noted(h, s, a))
  {
    hide Makers, Instances, AllDated, Can, Do, Noted;
    if a.Check? { DatedByCheck(s, h, a.t); } else { DatedOtherwise(s, h, a); }
  }

  lemma DatedByCheck(s: State, h: Past, t: nat)
    requires Makers(s) && Instances(s) && AllDated(s, h) && Can(s, Check(t))
    ensures AllDated(Do(s, Check(t)), Noted(h, s, Check(t)))
  {
  }

  lemma DatedOtherwise(s: State, h: Past, a: Action)
    requires Makers(s) && AllDated(s, h) && Can(s, a) && !OnBots(a) && !a.Check?
    ensures AllDated(Do(s, a), Noted(h, s, a))
  {
  }

  lemma {:induction false} ToldAlways(s: State, h: Past, actions: seq<Action>)
    requires Inv(s) && AllTold(s, h) && AllStored(s, h) && AllConnected(s, h) && AllDated(s, h) && IsRun(s, actions)
    ensures var f, g := Final(s, actions), PastAfter(h, s, actions);
      Inv(f) && AllTold(f, g) && AllStored(f, g) && AllConnected(f, g) && AllDated(f, g)
    decreases |actions|
  {
    hide Leaders, Entries, Followers, Led, Makers, Registered, Instances, Outcomes, AllTold, AllStored, AllConnected, AllDated, Can, Do, Noted;
    if actions != [] {
      InvStep(s, actions[0]);
      ToldStep(s, h, actions[0]);
      StoredStep(s, h, actions[0]);
      ConnectedStep(s, h, actions[0]);
      if OnBots(actions[0]) { DatedStep(s, h, actions[0]); } else { DatedKept(s, h, actions[0]); }
      ToldAlways(Do(s, actions[0]), Noted(h, s, actions[0]), actions[1..]);
    }
  }

  /** Whoever returns from a call fails if and only if the bot could not be made in that call, and
      otherwise has the bot that was found or stored in it. Who found a bot at once does not fail. Every
      bot that is returned was registered for the token asked for, after its client had become ready. */
  lemma CallersAreTold(s: State, actions: seq<Action>, t: nat)
    requires Init(s) && IsRun(s, actions) && At(Final(s, actions), t).Returned?
    ensures var pc, h := At(Final(s, actions), t), PastAfter(NOTHING_YET, s, actions);
      && (pc.result.Failed? <==> pc.from.Some? && pc.from.value in h.refused)
      && (pc.result.Bot? && pc.from.Some? ==> pc.from.value in h.given && h.given[pc.from.value] == pc.result.bot)
      && (pc.result.Bot? ==> Registration(pc.token, pc.result.bot) in h.stored && pc.result.bot in Final(s, actions).connected)
  {
    hide Leaders, Entries, Led, Makers, Registered, Instances, Outcomes, Can, Do, Noted;
    InitHolds(s);
    ToldAlways(s, NOTHING_YET, actions);
  }

  lemma InitHolds(s: State)
    requires Init(s)
    ensures Inv(s) && AllTold(s, NOTHING_YET) && AllStored(s, NOTHING_YET)
    ensures AllConnected(s, NOTHING_YET) && AllDated(s, NOTHING_YET)
  {
  }

  /** A registered bot is a stopped one if and only if its token was reported as revoked before it was
      registered. */
  lemma RegisteredUnlessTooEarly(s: State, actions: seq<Action>, k: Token)
    requires Init(s) && IsRun(s, actions) && k in Final(s, actions).bots
    ensures var f := Final(s, actions);
      f.bots[k] in f.retired <==> f.bots[k] in PastAfter(NOTHING_YET, s, actions).tooEarly
  {
    hide Table, Makers, Instances, Outcomes, AllTold, AllStored, AllConnected, Can, Do, Noted;
    InitHolds(s);
    ToldAlways(s, NOTHING_YET, actions);
  }

  /** No call is refused while a bot of its token is registered. */
  lemma NotRefusedWhileRegistered(s: State, actions: seq<Action>, a: Action)
    requires Init(s) && IsRun(s, actions) && Can(Final(s, actions), a) && (a.Misconfigured? || a.StartFail?)
    ensures At(Final(s, actions), a.t).token !in Final(s, actions).bots
  {
    Reachable(s, actions);
  }

  /** How many steps a caller still takes, at most. */
  function StepsLeft(pc: Pc): nat {
    match pc
    case Out => 0
    case FastPath(_) => 9
    case Entering(_) => 8
    case Following(_, _) => 2
    case Checking(_, _) => 7
    case Starting(_, _, _) => 6
    case Storing(_, _, _) => 5
    case Finishing(_, _, _) => 4
    case Deleting(_, _, _) => 3
    case Returned(_, _, _) => 1
  }

  /** Whose step it is, if it is a caller's. */
  function Walker(a: Action): Option<nat> {
    match a
    case Request(_, _) | Connect(_) | Unload(_) | Revoked(_) | StopAll => None
    case _ => Some(a.t)
  }

  /** Every call comes to an end: each step of a caller brings it nearer to its return, and nobody else
      moves it. Anyone outside can ask for a bot. */
  lemma CallersMoveOn(s: State, a: Action, t: nat, token: Token)
    requires Can(s, a)
    ensures Walker(a) == Some(t) ==> StepsLeft(At(Do(s, a), t)) < StepsLeft(At(s, t))
    ensures Walker(a) != Some(t) && !(a.Request? && a.t == t) ==> At(Do(s, a), t) == At(s, t)
    ensures At(s, t).Out? ==> Can(s, Request(t, token)) && At(Do(s, Request(t, token)), t) == FastPath(token)
  {
  }

  /** Closing, resetting and stopping are always possible, and so is the report that the token of a
      running bot was revoked. */
  lemma AlwaysPossible(s: State, actions: seq<Action>, k: Token, b: nat)
    requires Init(s) && IsRun(s, actions)
    ensures var f := Final(s, actions); Can(f, Unload(k)) && Can(f, StopAll) && (b in f.connected ==> Can(f, Revoked(b)))
  {
    hide Inv, AllTold, AllStored, AllDated, Noted;
    InitHolds(s);
    ToldAlways(s, NOTHING_YET, actions);
  }

  /** They take effect: the bot is no longer registered, and it is stopped. */
  lemma TakenOut(s: State, actions: seq<Action>, a: Action)
    requires Init(s) && IsRun(s, actions) && Can(Final(s, actions), a)
    ensures var f := Final(s, actions); var g := Do(f, a);
      && (a.Unload? && a.token in f.bots ==> a.token !in g.bots && f.bots[a.token] in g.retired)
      && (a.StopAll? ==> g.bots == map[] && forall k | k in f.bots :: f.bots[k] in g.retired)
      && (a.Revoked? ==> a.bot in g.retired && forall k | k in g.bots :: g.bots[k] != a.bot)
  {
    Reachable(s, actions);
  }
}
