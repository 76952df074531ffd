/** GetOrCreate: the singleflight call table and the map of running bots, stepped by any number of
    goroutines, interleaved with CloseBot, ResetBot, StopAll and revoked tokens. */
module BotRegistry {
  import opened Basics

  type Token = nat

  datatype Outcome = Bot(bot: nat) | Failed

  /** A flightCall: `result` is meaningful once `done`. Calls are numbered as they are made. */
  datatype Call = Call(token: Token, leader: nat, done: bool, result: Outcome)

  /** A bot instance, numbered as it is made, with the goroutine that made it. */
  datatype Instance = Instance(token: Token, maker: nat)

  /** Where a goroutine stands in GetOrCreate. */
  datatype Pc =
    | Out
    | FastPath(token: Token)
    | Entering(token: Token)                                // botFlight.Do, before its lock
    | Following(token: Token, call: nat)                    // waits for the leader
    | Checking(token: Token, call: nat)                     // leader: the double check
    | Starting(token: Token, call: nat, bot: nat)           // leader: bot.Start runs
    | Storing(token: Token, call: nat, bot: nat)            // leader: before bots[token] = bot
    | Finishing(token: Token, call: nat, result: Outcome)   // leader: its function returned
    | Deleting(token: Token, call: nat, result: Outcome)    // leader: after wg.Done
    | Returned(token: Token, from: Option<nat>, result: Outcome)

  datatype State = State(
    flight: map<Token, nat>,
    calls: seq<Call>,
    bots: map<Token, nat>,
    made: seq<Instance>,
    connected: set<nat>,     // its client has become ready
    retired: set<nat>,       // stopped, or taken out of the map by someone who goes on to stop it
    early: set<nat>,         // reported as revoked before it was stored in the map
    pcs: map<nat, Pc>)

  datatype Action =
    | Request(t: nat, token: Token)
    | Look(t: nat) | Enter(t: nat) | Join(t: nat)
    | Check(t: nat) | Misconfigured(t: nat)
    | Connect(bot: nat) | StartOk(t: nat) | StartFail(t: nat)
    | Store(t: nat) | Finish(t: nat) | Delete(t: nat) | Leave(t: nat)
    | Unload(token: Token)     // CloseBot and ResetBot
    | Revoked(bot: nat)        // dropRevokedBot
    | StopAll

  ghost predicate Init(s: State) {
    s == State(map[], [], map[], [], {}, {}, {}, map[])
  }

  function At(s: State, t: nat): Pc { if t in s.pcs then s.pcs[t] else Out }

  function Go(s: State, t: nat, pc: Pc): State { s.(pcs := s.pcs[t := pc]) }

  predicate Can(s: State, a: Action) {
    match a
    case Request(t, _) => At(s, t).Out?
    case Look(t) => At(s, t).FastPath?
    case Enter(t) => At(s, t).Entering?
    case Join(t) => At(s, t).Following? && At(s, t).call < |s.calls| && s.calls[At(s, t).call].done
    case Check(t) => At(s, t).Checking?
    case Misconfigured(t) => At(s, t).Checking? && At(s, t).token !in s.bots
    case Connect(b) => b < |s.made|
    case StartOk(t) => At(s, t).Starting? && At(s, t).bot in s.connected
    case StartFail(t) => At(s, t).Starting?
    case Store(t) => At(s, t).Storing?
    case Finish(t) => At(s, t).Finishing? && At(s, t).call < |s.calls|
    case Delete(t) => At(s, t).Deleting?
    case Leave(t) => At(s, t).Returned?
    case Unload(_) => true
    case Revoked(b) => b in s.connected && b < |s.made|
    case StopAll => true
  }

  function Do(s: State, a: Action): State
    requires Can(s, a)
  {
    match a
    case Request(t, token) => Go(s, t, FastPath(token))
    case Look(t) =>
      var token := At(s, t).token;
      Go(s, t, if token in s.bots then Returned(token, None, Bot(s.bots[token])) else Entering(token))
    case Enter(t) =>
      var token := At(s, t).token;
      var c := |s.calls|;
      if token in s.flight then Go(s, t, Following(token, s.flight[token]))
      else Go(s.(flight := s.flight[token := c], calls := s.calls + [Call(token, t, false, Failed)]), t, Checking(token, c))
    case Join(t) =>
      var pc := At(s, t);
      Go(s, t, Returned(pc.token, Some(pc.call), s.calls[pc.call].result))
    case Check(t) =>
      var pc := At(s, t);
      if pc.token in s.bots then Go(s, t, Finishing(pc.token, pc.call, Bot(s.bots[pc.token])))
      else Go(s.(made := s.made + [Instance(pc.token, t)]), t, Starting(pc.token, pc.call, |s.made|))
    case Misconfigured(t) => Go(s, t, Finishing(At(s, t).token, At(s, t).call, Failed))
    case Connect(b) => s.(connected := s.connected + {b})
    case StartOk(t) => Go(s, t, Storing(At(s, t).token, At(s, t).call, At(s, t).bot))
    case StartFail(t) =>
      var pc := At(s, t);
      Go(s.(retired := s.retired + {pc.bot}), t, Finishing(pc.token, pc.call, Failed))
    case Store(t) =>
      var pc := At(s, t);
      Go(s.(bots := s.bots[pc.token := pc.bot]), t, Finishing(pc.token, pc.call, Bot(pc.bot)))
    case Finish(t) =>
      var pc := At(s, t);
      Go(s.(calls := s.calls[pc.call := s.calls[pc.call].(done := true, result := pc.result)]), t,
         Deleting(pc.token, pc.call, pc.result))
    case Delete(t) =>
      var pc := At(s, t);
      Go(s.(flight := s.flight - {pc.token}), t, Returned(pc.token, Some(pc.call), pc.result))
    case Leave(t) => Go(s, t, Out)
    case Unload(token) =>
      if token in s.bots then s.(bots := s.bots - {token}, retired := s.retired + {s.bots[token]}) else s
    case Revoked(b) =>
      var token := s.made[b].token;
      var registered := token in s.bots && s.bots[token] == b;
      s.(bots := if registered then s.bots - {token} else s.bots,
         retired := s.retired + {b},
         early := if registered || b in s.retired then s.early else s.early + {b})
    case StopAll => s.(bots := map[], retired := s.retired + s.bots.Values)
  }

  ghost predicate IsRun(s: State, actions: seq<Action>)
    decreases |actions|
  {
    actions == [] || (Can(s, actions[0]) && IsRun(Do(s, actions[0]), actions[1..]))
  }

  ghost function Final(s: State, actions: seq<Action>): State
    requires IsRun(s, actions)
    decreases |actions|
  {
    if actions == [] then s else Final(Do(s, actions[0]), actions[1..])
  }

  predicate Leads(pc: Pc) { pc.Checking? || pc.Starting? || pc.Storing? || pc.Finishing? || pc.Deleting? }

  predicate Makes(pc: Pc) { pc.Starting? || pc.Storing? }

  /** The call a leading goroutine holds is its own, and its token's entry in the table is that call. */
  ghost predicate LeaderOk(s: State, t: nat, pc: Pc)
    requires Leads(pc)
  {
    && pc.call < |s.calls|
    && pc.token in s.flight && s.flight[pc.token] == pc.call
    && s.calls[pc.call].leader == t && s.calls[pc.call].token == pc.token
    && (s.calls[pc.call].done <==> pc.Deleting?)
    && (pc.Deleting? ==> s.calls[pc.call].result == pc.result)
  }

  ghost predicate Leaders(s: State) {
    forall t | t in s.pcs && Leads(s.pcs[t]) :: LeaderOk(s, t, s.pcs[t])
  }

  /** Every entry of the call table has a goroutine that leads it. */
  ghost predicate Entries(s: State) {
    forall k | k in s.flight ::
      && s.flight[k] < |s.calls| && s.calls[s.flight[k]].token == k
      && Leads(At(s, s.calls[s.flight[k]].leader)) && At(s, s.calls[s.flight[k]].leader).call == s.flight[k]
  }

  /** Goroutines wait for a call of their own token, and return what that call was finished with. */
  ghost predicate FollowerOk(s: State, pc: Pc) {
    && (pc.Following? ==> pc.call < |s.calls| && s.calls[pc.call].token == pc.token)
    && (pc.Returned? && pc.from.Some? ==>
          pc.from.value < |s.calls| && s.calls[pc.from.value] == Call(pc.token, s.calls[pc.from.value].leader, true, pc.result))
  }

  ghost predicate Followers(s: State) {
    forall t | t in s.pcs :: FollowerOk(s, s.pcs[t])
  }

  /** A call that is not done has a goroutine that still leads it. */
  ghost predicate Led(s: State) {
    forall c | 0 <= c < |s.calls| && !s.calls[c].done ::
      Leads(At(s, s.calls[c].leader)) && At(s, s.calls[c].leader).call == c
  }

  ghost predicate Table(s: State) { Leaders(s) && Entries(s) && Followers(s) && Led(s) }

  /** A leader makes an instance of its token only while none is registered for it. */
  ghost predicate Makers(s: State) {
    forall t | t in s.pcs && Makes(s.pcs[t]) ::
      && s.pcs[t].token !in s.bots
      && s.pcs[t].bot < |s.made| && s.made[s.pcs[t].bot] == Instance(s.pcs[t].token, t)
      && (s.pcs[t].bot in s.retired <==> s.pcs[t].bot in s.early)
  }

  ghost predicate Registered(s: State) {
    forall k | k in s.bots ::
      && s.bots[k] < |s.made| && s.made[s.bots[k]].token == k
      && (s.bots[k] in s.retired <==> s.bots[k] in s.early)
  }

  /** An instance nobody has retired is registered, or still being made by its maker. */
  ghost predicate Held(s: State, b: nat)
    requires b < |s.made|
  {
    || (s.made[b].token in s.bots && s.bots[s.made[b].token] == b)
    || (Makes(At(s, s.made[b].maker)) && At(s, s.made[b].maker).bot == b)
  }

  ghost predicate Instances(s: State) {
    && (forall b: nat | b < |s.made| && b !in s.retired :: Held(s, b))
    && (forall b | b in s.retired :: b < |s.made|)
    && (forall b | b in s.early :: b in s.retired)
  }

  /** A bot handed to a caller was made for the token the caller asked for. */
  ghost predicate OutcomeOk(s: State, token: Token, o: Outcome) {
    o.Bot? ==> o.bot < |s.made| && s.made[o.bot].token == token
  }

  ghost predicate Outcomes(s: State) {
    && (forall t | t in s.pcs && (s.pcs[t].Finishing? || s.pcs[t].Deleting? || s.pcs[t].Returned?) ::
          OutcomeOk(s, s.pcs[t].token, s.pcs[t].result))
    && (forall c | 0 <= c < |s.calls| :: OutcomeOk(s, s.calls[c].token, s.calls[c].result))
  }

  ghost predicate Inv(s: State) { Table(s) && Makers(s) && Registered(s) && Instances(s) && Outcomes(s) }

  /** The steps that write the call table. */
  predicate OnTable(a: Action) { a.Enter? || a.Finish? || a.Delete? }

  /** The steps that write the registry. */
  predicate OnBots(a: Action) { a.Store? || a.Unload? || a.Revoked? || a.StopAll? }

  lemma LeadersStep(s: State, a: Action)
    requires Table(s) && Can(s, a) && OnTable(a)
    ensures Leaders(Do(s, a))
  {
  }

  lemma LeadersKept(s: State, a: Action)
    requires Table(s) && Can(s, a) && !OnTable(a)
    ensures Leaders(Do(s, a))
  {
  }

  lemma EntriesStep(s: State, a: Action)
    requires Leaders(s) && Entries(s) && Can(s, a) && OnTable(a)
    ensures Entries(Do(s, a))
  {
  }

  lemma EntriesKept(s: State, a: Action)
    requires Entries(s) && Can(s, a) && !OnTable(a)
    ensures Entries(Do(s, a))
  {
  }

  lemma FollowersStep(s: State, a: Action)
    requires Table(s) && Can(s, a)
    ensures Followers(Do(s, a))
  {
  }

  lemma MakersStep(s: State, a: Action)
    requires Leaders(s) && Makers(s) && Registered(s) && Instances(s) && Can(s, a) && OnBots(a)
    ensures Makers(Do(s, a))
  {
  }

  lemma MakersKept(s: State, a: Action)
    requires Makers(s) && Instances(s) && Can(s, a) && !OnBots(a)
    ensures Makers(Do(s, a))
  {
  }

  lemma RegisteredStep(s: State, a: Action)
    requires Makers(s) && Registered(s) && Instances(s) && Can(s, a)
    ensures Registered(Do(s, a))
  {
  }

  lemma InstancesStep(s: State, a: Action)
    requires Makers(s) && Registered(s) && Instances(s) && Can(s, a) && OnBots(a)
    ensures Instances(Do(s, a))
  {
  }

  lemma InstancesKept(s: State, a: Action)
    requires Makers(s) && Instances(s) && Can(s, a) && !OnBots(a)
    ensures Instances(Do(s, a))
  {
  }

  lemma OutcomesStep(s: State, a: Action)
    requires Leaders(s) && Outcomes(s) && Can(s, a) && OnTable(a)
    ensures Outcomes(Do(s, a))
  {
  }

  lemma OutcomesKept(s: State, a: Action)
    requires Followers(s) && Makers(s) && Registered(s) && Outcomes(s) && Can(s, a) && !OnTable(a)
    ensures Outcomes(Do(s, a))
  {
  }

  lemma LeadersOf(s: State)
    requires Table(s)
    ensures Leaders(s) && Followers(s)
  {
  }

  lemma LedStep(s: State, a: Action)
    requires Leaders(s) && Led(s) && Can(s, a)
    ensures Led(Do(s, a))
  {
  }

  lemma TableStep(s: State, a: Action)
    requires Table(s) && Can(s, a)
    ensures Table(Do(s, a))
  {
    hide Leaders, Entries, Followers, Led, Can, Do;
    if OnTable(a) { LeadersStep(s, a); } else { LeadersKept(s, a); }
    if OnTable(a) { EntriesStep(s, a); } else { EntriesKept(s, a); }
    FollowersStep(s, a);
    LedStep(s, a);
  }

  lemma InvStep(s: State, a: Action)
    requires Inv(s) && Can(s, a)
    ensures Inv(Do(s, a))
  {
    hide Table, Makers, Registered, Instances, Outcomes, Can, Do;
    TableStep(s, a);
    LeadersOf(s);
    RegisteredStep(s, a);
    if OnBots(a) {
      MakersStep(s, a);
      InstancesStep(s, a);
    } else {
      MakersKept(s, a);
      InstancesKept(s, a);
    }
    if OnTable(a) { OutcomesStep(s, a); } else { OutcomesKept(s, a); }
  }

  lemma {:induction false} InvAlways(s: State, actions: seq<Action>)
    requires Inv(s) && IsRun(s, actions)
    ensures Inv(Final(s, actions))
    decreases |actions|
  {
    hide Inv, Can, Do;
    if actions != [] {
      InvStep(s, actions[0]);
      InvAlways(Do(s, actions[0]), actions[1..]);
    }
  }

  lemma Reachable(s: State, actions: seq<Action>)
    requires Init(s) && IsRun(s, actions)
    ensures Inv(Final(s, actions))
  {
    InvAlways(s, actions);
  }

  /** At every step each token has at most one leader, the token's entry in the table is that
      leader's call, so the entry it deletes when it leaves is its own. */
  lemma OneLeader(s: State, actions: seq<Action>)
    requires Init(s) && IsRun(s, actions)
    ensures var f := Final(s, actions);
      forall t: nat, u: nat | Leads(At(f, t)) && Leads(At(f, u)) && At(f, t).token == At(f, u).token ::
        t == u && At(f, t).token in f.flight && f.flight[At(f, t).token] == At(f, t).call
  {
    Reachable(s, actions);
  }

  /** Whoever returns from a call, its leader and each follower, returns the same pair: the one the
      leader's function produced; and a bot that is returned is a bot of the token asked for. */
  lemma CallersAgree(s: State, actions: seq<Action>, t: nat, u: nat)
    requires Init(s) && IsRun(s, actions)
    requires At(Final(s, actions), t).Returned? && At(Final(s, actions), u).Returned?
    ensures var f := Final(s, actions);
      At(f, t).from.Some? && At(f, t).from == At(f, u).from ==> At(f, t).result == At(f, u).result
    ensures var f := Final(s, actions);
      At(f, t).result.Bot? ==> At(f, t).result.bot < |f.made| && f.made[At(f, t).result.bot].token == At(f, t).token
  {
    Reachable(s, actions);
  }

  lemma ResultStep(s: State, a: Action, c: nat)
    requires Leaders(s) && Can(s, a) && c < |s.calls| && s.calls[c].done
    ensures c < |Do(s, a).calls| && Do(s, a).calls[c] == s.calls[c]
  {
  }

  /** What a call was finished with stays what every later follower is given. */
  lemma {:induction false} ResultIsFinal(s: State, actions: seq<Action>, c: nat)
    requires Inv(s) && IsRun(s, actions)
    requires c < |s.calls| && s.calls[c].done
    ensures c < |Final(s, actions).calls| && Final(s, actions).calls[c] == s.calls[c]
    decreases |actions|
  {
    hide Leaders, Entries, Followers, Led, Makers, Registered, Instances, Outcomes, Can, Do;
    if actions != [] {
      InvStep(s, actions[0]);
      ResultStep(s, actions[0], c);
      ResultIsFinal(Do(s, actions[0]), actions[1..], c);
    }
  }

  lemma BotsStep(s: State, a: Action)
    requires Makers(s) && Can(s, a)
    ensures forall k | k in s.bots && k in Do(s, a).bots :: Do(s, a).bots[k] == s.bots[k]
    ensures forall b | |s.made| <= b < |Do(s, a).made| :: Do(s, a).made[b].token !in s.bots
  {
  }

  /** From any reachable state, a step makes a bot only of a token that has none registered, and never
      replaces a registered instance by another. */
  lemma NeverASecondSession(s: State, actions: seq<Action>, a: Action)
    requires Init(s) && IsRun(s, actions) && Can(Final(s, actions), a)
    ensures var f := Final(s, actions); var g := Do(f, a);
      && (forall k | k in f.bots && k in g.bots :: g.bots[k] == f.bots[k])
      && (forall b | |f.made| <= b < |g.made| :: g.made[b].token !in f.bots)
      && (forall t: nat | Makes(At(g, t)) :: At(g, t).token !in g.bots)
  {
    hide Can, Do, Table, Leaders, Entries, Followers, Led, Registered, Instances, Outcomes;
    Reachable(s, actions);
    InvStep(Final(s, actions), a);
    BotsStep(Final(s, actions), a);
  }

  /** Two instances of one token that nobody has retired are the same instance. */
  lemma OneLiveSession(s: State, actions: seq<Action>, a: nat, b: nat)
    requires Init(s) && IsRun(s, actions)
    requires var f := Final(s, actions);
      a < |f.made| && b < |f.made| && a !in f.retired && b !in f.retired && f.made[a].token == f.made[b].token
    ensures a == b
  {
    Reachable(s, actions);
    var f := Final(s, actions);
    assert Held(f, a) && Held(f, b);
  }

  /** A registered bot is live, except when its token was reported as revoked before it was stored. */
  lemma RegisteredIsLive(s: State, actions: seq<Action>, k: Token)
    requires Init(s) && IsRun(s, actions) && k in Final(s, actions).bots
    ensures var f := Final(s, actions); f.bots[k] !in f.retired <==> f.bots[k] !in f.early
  {
    Reachable(s, actions);
  }

  /** The exception is real: dropRevokedBot stops a bot between its start and its storing, and the
      leader then registers the stopped bot. */
  lemma RevokedBeforeStored() returns (s: State, actions: seq<Action>)
    ensures Init(s) && IsRun(s, actions)
    ensures 7 in Final(s, actions).bots && Final(s, actions).bots[7] in Final(s, actions).retired
  {
    hide IsRun, Final;
    s := State(map[], [], map[], [], {}, {}, {}, map[]);
    var s1 := Do(s, Request(0, 7));
    var s2 := Do(s1, Look(0));
    var s3 := Do(s2, Enter(0));
    var s4 := Do(s3, Check(0));
    var s5 := Do(s4, Connect(0));
    var s6 := Do(s5, StartOk(0));
    var s7 := Do(s6, Revoked(0));
    var s8 := Do(s7, Store(0));
    actions := Resting(s8);
    actions := Prepended(s7, Store(0), s8, actions);
    actions := Prepended(s6, Revoked(0), s7, actions);
    actions := Prepended(s5, StartOk(0), s6, actions);
    actions := Prepended(s4, Connect(0), s5, actions);
    actions := Prepended(s3, Check(0), s4, actions);
    actions := Prepended(s2, Enter(0), s3, actions);
    actions := Prepended(s1, Look(0), s2, actions);
    actions := Prepended(s, Request(0, 7), s1, actions);
  }

  lemma Resting(s: State) returns (none: seq<Action>)
    ensures IsRun(s, none) && Final(s, none) == s
  {
    none := [];
  }

  lemma Prepended(s: State, a: Action, s': State, actions: seq<Action>) returns (all: seq<Action>)
    requires Can(s, a) && s' == Do(s, a) && IsRun(s', actions)
    ensures IsRun(s, all) && Final(s, all) == Final(s', actions)
  {
    all := [a] + actions;
    assert all[1..] == actions;
  }

  /** Nobody waits for ever on a call that nobody leads: whoever is inside GetOrCreate can take a step,
      or follows a call whose leader can. */
  lemma CallerProgresses(s: State, actions: seq<Action>, t: nat) returns (a: Action)
    requires Init(s) && IsRun(s, actions) && !At(Final(s, actions), t).Out?
    ensures Can(Final(s, actions), a)
    ensures var f := Final(s, actions); var pc := At(f, t);
      && (a.Look? || a.Enter? || a.Join? || a.Check? || a.StartFail? || a.Store? || a.Finish? || a.Delete? || a.Leave?)
      && (a.t == t || (pc.Following? && pc.call < |f.calls| && !f.calls[pc.call].done && a.t == f.calls[pc.call].leader))
  {
    Reachable(s, actions);
    var f := Final(s, actions);
    var u := if At(f, t).Following? && !f.calls[At(f, t).call].done then f.calls[At(f, t).call].leader else t;
    a := match At(f, u)
      case FastPath(_) => Look(u)
      case Entering(_) => Enter(u)
      case Following(_, _) => Join(u)
      case Checking(_, _) => Check(u)
      case Starting(_, _, _) => StartFail(u)
      case Storing(_, _, _) => Store(u)
      case Finishing(_, _, _) => Finish(u)
      case Deleting(_, _, _) => Delete(u)
      case Returned(_, _, _) => Leave(u);
  }
}
