/** Commands that lead to the matches the results speak of: a roster that gets ready and fights, one of its
    players called by a forbidden word, and a player dealt no hand because of his ticket's seed. */
module Witnesses {
  import opened ServerSteps
  import opened ServerInvariants
  import Bytes
  import SimTypes
  import SimSteps
  import SimInvariants
  import Sim = Simulation
  import BossLedger
  import CardHand
  import CardEffects
  import HandRuns
  import Registrations
  import ServedResults
  import SessionNames
  import Snapshots
  import Results = ResultAgreement
  import ResultFields

  // ---- A roster that gets ready ----

  predicate Calm(p: SimTypes.Player) {
    p.connected && p.silentTicks == 0 && !p.lastInput.shoot
  }

  predicate Saying(a: SimTypes.Action, id: string) {
    a.actionType == "ready" && a.tick == 1 && a.playerId == id
  }

  ghost predicate Said(queue: seq<SimTypes.Action>, id: string) {
    exists i :: 0 <= i < |queue| && Saying(queue[i], id)
  }

  predicate AllReady(queue: seq<SimTypes.Action>) {
    forall i :: 0 <= i < |queue| ==> queue[i].actionType == "ready" && queue[i].tick == 1
  }

  /** A boss match before its first tick: `ids` have joined, and those in `done` have said they are ready. */
  ghost predicate Waiting(rules: SimTypes.Rules, s: SimSteps.State, ids: seq<string>, done: seq<string>) {
    && SimTypes.BossMode(rules) && s.tick == 0 && s.boss.hp > 0 && s.inputs == map[] && s.ready == {}
    && |s.roster| == |ids| && (forall id :: id in s.players <==> id in ids)
    && (forall id :: id in s.roster ==> id in ids)
    && (forall id :: id in s.players ==> Calm(s.players[id]))
    && AllReady(s.queue) && (forall id :: id in done ==> Said(s.queue, id))
    && (forall id :: id in s.pendingReady ==> id in done) && (forall id :: id in s.actionIds ==> id in done)
    && forall id :: id in s.players && id !in done ==> s.players[id].lastSequence == 0
  }

  /** The windows of a match as the server configures it, or wider. */
  predicate Roomy(rules: SimTypes.Rules) {
    && rules.maxSequenceAhead >= 1 && rules.maxTicksAhead >= 1 && rules.timeoutTicks > 1 && rules.maxActionIdBytes >= 128
    && rules.maxActionTypeBytes >= 5 && rules.maxPayloadBytes >= 1
  }

  function ReadyAction(matchId: string, id: string): SimTypes.Action {
    SimTypes.Action(true, matchId, id, 1, 1, id, "ready", 1, false, false, Bytes.None, Bytes.None, Bytes.None, Bytes.Some(true), "", "")
  }

  lemma StartWaits(rules: SimTypes.Rules)
    requires SimTypes.BossMode(rules) && rules.bossMaxHp > 0
    ensures Waiting(rules, SimSteps.Start(rules), [], [])
  {
  }

  lemma JoinWaits(rules: SimTypes.Rules, s: SimSteps.State, ids: seq<string>, id: string, x: int, y: int)
    requires Waiting(rules, s, ids, []) && SimSteps.MayJoin(rules, s, id)
    ensures Waiting(rules, SimSteps.AddPlayer(rules, s, id, x, y), ids + [id], [])
  {
    var i := Sim.InsertShape(id, s.roster);
    InsertedIs(s.roster, i, id);
    hide SimSteps.MayJoin, CardEffects.Insert, SimSteps.SpawnPoint, SimSteps.Clamp, SimTypes.IsBossMode;
  }

  lemma InsertedIs(roster: seq<string>, i: nat, id: string)
    requires i <= |roster|
    ensures |roster[..i] + [id] + roster[i..]| == |roster| + 1
    ensures forall x :: x in roster[..i] + [id] + roster[i..] ==> x in roster || x == id
  {
  }

  lemma SeedWaits(rules: SimTypes.Rules, s: SimSteps.State, ids: seq<string>, id: string, seed: SimTypes.ServerSeed, opening: seq<string>, energy: real, deck: seq<string>)
    requires Waiting(rules, s, ids, [])
    ensures Waiting(rules, SimSteps.SeedHand(s, id, seed, opening, energy, deck), ids, [])
  {
    hide SimSteps.SeedAgrees, SimSteps.Opened, SimTypes.IsBossMode;
  }

  lemma ReadyPasses(rules: SimTypes.Rules, s: SimSteps.State, ids: seq<string>, done: seq<string>, id: string)
    requires Waiting(rules, s, ids, done) && Roomy(rules) && id in ids && id !in done && SimTypes.AuditToken(id) && |id| <= 128
    ensures SimSteps.ActionFault(rules, s, ReadyAction(rules.matchId, id)) == ""
  {
    hide SimTypes.AuditToken, Said, SimSteps.ActionShapeFault;
    ReadyShape(rules, s, ids, done, id);
  }

  lemma ReadyShape(rules: SimTypes.Rules, s: SimSteps.State, ids: seq<string>, done: seq<string>, id: string)
    requires Waiting(rules, s, ids, done) && Roomy(rules) && id in ids && id !in done && SimTypes.AuditToken(id) && |id| <= 128
    ensures SimSteps.ActionShapeFault(rules, s, ReadyAction(rules.matchId, id)) == ""
  {
    var a := ReadyAction(rules.matchId, id);
    assert |a.actionType| == 5 && a.actionId != "" && a.actionId !in s.actionIds && id !in s.pendingReady;
    assert SimSteps.ReadyFault(rules, s, a) == "";
    hide SimTypes.AuditToken, Said, SimSteps.ReadyFault;
  }

  lemma SaidMore(queue: seq<SimTypes.Action>, a: SimTypes.Action, id: string)
    requires Said(queue, id) || Saying(a, id)
    ensures Said(queue + [a], id)
  {
    var more := queue + [a];
    if Said(queue, id) {
      var i :| 0 <= i < |queue| && Saying(queue[i], id);
      assert Saying(more[i], id);
    } else {
      assert Saying(more[|queue|], id);
    }
  }

  lemma ReadyWaits(rules: SimTypes.Rules, s: SimSteps.State, ids: seq<string>, done: seq<string>, id: string)
    requires Waiting(rules, s, ids, done) && Roomy(rules) && id in ids && id !in done && SimTypes.AuditToken(id) && |id| <= 128
    ensures Waiting(rules, SimSteps.AcceptAction(rules, s, ReadyAction(rules.matchId, id)), ids, done + [id])
  {
    var a := ReadyAction(rules.matchId, id);
    ReadyPasses(rules, s, ids, done, id);
    SimSteps.AcceptedFacts(rules, s, a);
    hide SimSteps.ActionFault, SimTypes.AuditToken, SimTypes.IsBossMode;
    forall x | x in done + [id]
      ensures Said(s.queue + [a], x)
    {
      SaidMore(s.queue, a, x);
    }
    hide Said;
  }

  // ---- The first tick ----

  /** Nothing that matters for the start has changed: the boss, who is there, the queue; all connected. */
  ghost predicate Steady(s: SimSteps.State, u: SimSteps.State) {
    && u.boss == s.boss && u.roster == s.roster && u.queue == s.queue && u.inputs == s.inputs
    && (forall id :: id in u.players <==> id in s.players)
    && forall id :: id in u.players ==> u.players[id].connected && !u.players[id].lastInput.shoot
  }

  lemma QuietTick(rules: SimTypes.Rules, s: SimSteps.State, u: SimSteps.State, id: string)
    requires Steady(s, u) && s.inputs == map[] && rules.timeoutTicks > 1 && id in u.players && u.players[id].silentTicks == 0
    ensures Steady(s, SimSteps.PlayTick(rules, u, id, 1))
    ensures var v := SimSteps.PlayTick(rules, u, id, 1); forall other :: other != id && other in v.players && other in u.players ==> v.players[other] == u.players[other]
  {
    hide SimSteps.Axis, SimSteps.Clamp, CardHand.Recovered, SimTypes.IsBossMode;
  }

  lemma {:induction false} QuietTicks(rules: SimTypes.Rules, s: SimSteps.State, ids: seq<string>, enabled: bool)
    requires s.inputs == map[] && rules.timeoutTicks > 1 && (forall id :: id in s.players ==> Calm(s.players[id]))
    requires BossLedger.Distinct(ids)
    ensures var u := SimSteps.TickPlayers(rules, s, ids, enabled, 1);
      Steady(s, u) && forall id :: id in u.players && id !in ids ==> u.players[id] == s.players[id]
    decreases |ids|
  {
    hide SimSteps.PlayTick;
    if ids != [] {
      var front, id := ids[..|ids| - 1], ids[|ids| - 1];
      QuietTicks(rules, s, front, enabled);
      var before := SimSteps.TickPlayers(rules, s, front, enabled, 1);
      assert id !in front;
      if id in before.players {
        assert before.players[id] == s.players[id];
        QuietTick(rules, s, before, id);
      }
    }
  }

  /** Applying ready actions makes their players ready and touches nothing else of interest. */
  lemma {:induction false} ReadyApplied(rules: SimTypes.Rules, s: SimSteps.State, actions: seq<SimTypes.Action>)
    requires AllReady(actions)
    ensures var u := SimSteps.ApplyActions(rules, s, actions, 1);
      && u.boss == s.boss && u.roster == s.roster && u.players == s.players
      && forall i :: 0 <= i < |actions| ==> actions[i].playerId in u.ready
    decreases |actions|
  {
    if actions != [] {
      ReadyApplied(rules, s, actions[..|actions| - 1]);
      hide SimSteps.CastCard;
    }
  }

  lemma {:induction false} SplitAll(queue: seq<SimTypes.Action>)
    requires AllReady(queue)
    ensures SimSteps.Split(queue, 1, true) == queue
  {
    if queue != [] {
      SplitAll(queue[1..]);
      assert queue == [queue[0]] + queue[1..];
    }
  }

  lemma SortedSaid(queue: seq<SimTypes.Action>, id: string)
    requires AllReady(queue) && Said(queue, id)
    ensures var sorted := CardEffects.Sort(queue, SimSteps.ActsBefore);
      AllReady(sorted) && exists i :: 0 <= i < |sorted| && sorted[i].playerId == id
  {
    var sorted := CardEffects.Sort(queue, SimSteps.ActsBefore);
    CardEffects.SortPermutes(queue, SimSteps.ActsBefore);
    hide CardEffects.Sort;
    forall i | 0 <= i < |sorted|
      ensures sorted[i].actionType == "ready" && sorted[i].tick == 1
    {
      assert sorted[i] in multiset(queue);
    }
    var j :| 0 <= j < |queue| && Saying(queue[j], id);
    assert queue[j] in multiset(sorted);
  }

  /** Everyone said ready for this tick, so that everyone is when its actions are applied. */
  lemma AllTurnReady(rules: SimTypes.Rules, s: SimSteps.State, u: SimSteps.State, ids: seq<string>)
    requires u.queue == s.queue && AllReady(s.queue) && ids != [] && forall id :: id in ids ==> Said(s.queue, id)
    ensures var v := SimSteps.ActionsTick(rules, u, 1);
      && v.boss == u.boss && v.roster == u.roster && v.players == u.players && forall id :: id in ids ==> id in v.ready
  {
    SplitAll(s.queue);
    var sorted := CardEffects.Sort(s.queue, SimSteps.ActsBefore);
    SortedSaid(s.queue, ids[0]);
    ReadyApplied(rules, u, sorted);
    forall id | id in ids
      ensures id in SimSteps.ApplyActions(rules, u, sorted, 1).ready
    {
      SortedSaid(s.queue, id);
    }
    hide SimSteps.ApplyActions, SimSteps.Split, CardEffects.Sort, Said;
  }

  lemma FinishStarts(rules: SimTypes.Rules, v: SimSteps.State)
    requires SimTypes.BossMode(rules) && 4 <= |v.roster| <= 8
    requires forall id :: id in v.roster ==> id in v.players && v.players[id].connected && id in v.ready
    ensures SimSteps.Finish(rules, v, 1).boss.started && SimSteps.Finish(rules, v, 1).roster == v.roster
  {
    hide SimTypes.IsBossMode, SimSteps.Spawns;
  }

  /** A full roster that is ready fights from the first tick on. */
  lemma RosterStarts(rules: SimTypes.Rules, s: SimSteps.State, ids: seq<string>)
    requires Waiting(rules, s, ids, ids) && SimInvariants.RosterSound(s) && rules.timeoutTicks > 1 && 4 <= |ids| <= 8
    ensures SimSteps.Tick(rules, s).boss.started && SimSteps.Tick(rules, s).roster == s.roster
  {
    var enabled := SimSteps.InputEnabled(rules, s, 1);
    var played := SimSteps.TickPlayers(rules, s, s.roster, enabled, 1);
    var m := SimSteps.InputsTick(rules, s, 1);
    QuietTicks(rules, s, s.roster, enabled);
    AllTurnReady(rules, s, m, ids);
    FinishStarts(rules, SimSteps.ActionsTick(rules, m, 1));
    SimInvariants.TickParts(rules, s);
    hide SimSteps.TickPlayers, SimSteps.InputEnabled, SimSteps.ActionsTick, SimSteps.Finish, SimSteps.Tick, Said, SimTypes.IsBossMode,
      BossLedger.Distinct;
  }

  // ---- Commands ----

  const HALL: string := "hall"

  function Guest(id: string): Ticket {
    Ticket(id, HALL, id, "u", "world_boss", "r", [], [], 0.0, SimTypes.NoSeed)
  }

  function JoinRun(ids: seq<string>, n: nat): seq<Command>
    requires n <= |ids|
  {
    if n == 0 then [] else JoinRun(ids, n - 1) + [Admit(Guest(ids[n - 1]))]
  }

  function Says(id: string): Command {
    Ask(HALL, Sim.SubmitAction(ReadyAction(HALL, id)))
  }

  /** The players join; then the first `n` of them say they are ready. */
  function ReadyRun(ids: seq<string>, n: nat): seq<Command>
    requires n <= |ids|
  {
    if n == 0 then JoinRun(ids, |ids|) else ReadyRun(ids, n - 1) + [Says(ids[n - 1])]
  }

  /** The players join, say they are ready, and the match ticks once. */
  function FightRun(ids: seq<string>): seq<Command> {
    ReadyRun(ids, |ids|) + [Ask(HALL, Sim.Advance)]
  }

  /** The server takes tickets of these guests, in a boss match of its own. */
  ghost predicate Lets(env: Env, ids: seq<string>) {
    && !env.coop("world_boss") && BossLedger.Distinct(ids)
    && forall id :: id in ids ==> env.ticketFault(Guest(id)) == "" && SimTypes.AuditToken(id) && |id| <= 128
  }

  /** The state of the server with these guests in the hall, those in `done` ready. */
  ghost predicate Hall(s: Server, ids: seq<string>, done: seq<string>) {
    && s.results == map[] && s.cancelled == {} && s.pending == map[] && (done == [] ==> s.locked == {})
    && |s.sessions| == |ids| && (forall t :: t in s.sessions <==> t in ids)
    && (forall t :: t in s.sessions ==> s.sessions[t] == SessionOf(Guest(t)))
    && HALL in s.sims && Played(s.sims[HALL], ids, done)
  }

  ghost predicate Played(m: Match, ids: seq<string>, done: seq<string>) {
    && m.rules.modeId == "world_boss" && m.rules.matchId == HALL && m.ruleset == "r" && Roomy(m.rules)
    && SimInvariants.RosterSound(m.state) && Waiting(m.rules, m.state, ids, done)
  }

  lemma SeatedPlayed(m: Match, ids: seq<string>, id: string)
    requires Played(m, ids, []) && SimSteps.MayJoin(m.rules, m.state, id)
    ensures Played(Seated(m, Guest(id)), ids + [id], [])
  {
    var joined := SimSteps.AddPlayer(m.rules, m.state, id, SpotX(|m.state.roster|), 0);
    JoinWaits(m.rules, m.state, ids, id, SpotX(|m.state.roster|), 0);
    SeedWaits(m.rules, joined, ids + [id], id, SimTypes.NoSeed, [], 0.0, []);
    JoinedRoster(m, id);
    hide SimSteps.MayJoin, SimSteps.NewPlayer, CardEffects.Insert, Waiting, SimTypes.IsBossMode, SimSteps.SeedAgrees, SimSteps.Opened;
  }

  lemma JoinedRoster(m: Match, id: string)
    requires SimInvariants.RosterSound(m.state) && SimSteps.MayJoin(m.rules, m.state, id)
    ensures SimInvariants.RosterSound(SimSteps.AddPlayer(m.rules, m.state, id, SpotX(|m.state.roster|), 0))
  {
    var t := SimSteps.AddPlayer(m.rules, m.state, id, SpotX(|m.state.roster|), 0);
    var i := Sim.InsertShape(id, m.state.roster);
    hide SimSteps.NewPlayer, CardEffects.Insert, SimTypes.AuditToken, SimTypes.IsBossMode, SimInvariants.RosterSound;
    Sim.InsertedRoster(m.state, t, id, i);
  }

  lemma NewHall(env: Env, id: string)
    ensures Played(Joined(env, EMPTY, Guest(id)), [], [])
  {
    StartWaits(Joined(env, EMPTY, Guest(id)).rules);
    hide Waiting;
  }

  lemma GuestMayJoin(m: Match, ids: seq<string>, id: string)
    requires Played(m, ids, []) && |ids| < 4 && id !in ids && SimTypes.AuditToken(id)
    ensures SimSteps.MayJoin(m.rules, m.state, id)
  {
    hide SimTypes.AuditToken, Said, SimTypes.IsBossMode;
  }

  lemma HallPasses(env: Env, s: Server, ids: seq<string>, id: string)
    requires Hall(s, ids, []) && |ids| < 4 && id !in ids && !env.coop("world_boss") && env.ticketFault(Guest(id)) == ""
    ensures RegisterFault(env, s, Guest(id)) == ""
  {
    assert TicketsOf(s.sessions, HALL) == s.sessions.Keys;
    assert |s.sessions.Keys| == |s.sessions|;
    hide Played;
  }

  lemma HallEnrols(env: Env, s: Server, ids: seq<string>, id: string)
    requires Hall(s, ids, []) && |ids| < 4 && id !in ids && SimTypes.AuditToken(id)
    ensures EnrolFault(env, s, Guest(id)) == "" && Played(Seated(Joined(env, s, Guest(id)), Guest(id)), ids + [id], [])
  {
    GuestMayJoin(s.sims[HALL], ids, id);
    SeatedPlayed(s.sims[HALL], ids, id);
    hide SimSteps.MayJoin, Seated, Waiting, RulesFor, SimTypes.AuditToken;
  }

  /** The hall with one guest more. */
  lemma HallGrows(s: Server, ids: seq<string>, id: string, m: Match)
    requires Hall(s, ids, []) && id !in ids && Played(m, ids + [id], [])
    ensures Hall(s.(sessions := s.sessions[id := SessionOf(Guest(id))], sims := s.sims[HALL := m], pending := s.pending - {HALL}), ids + [id], [])
  {
    hide Played;
  }

  lemma HallOpens(id: string, m: Match)
    requires Played(m, [id], [])
    ensures Hall(EMPTY.(sessions := EMPTY.sessions[id := SessionOf(Guest(id))], sims := EMPTY.sims[HALL := m], pending := EMPTY.pending - {HALL}), [id], [])
  {
    hide Played;
  }

  lemma AdmitIs(env: Env, s: Server, id: string)
    requires RegisterFault(env, s, Guest(id)) == "" && EnrolFault(env, s, Guest(id)) == ""
    ensures Execute(env, s, Admit(Guest(id))) == s.(sessions := s.sessions[id := SessionOf(Guest(id))],
      sims := s.sims[HALL := Seated(Joined(env, s, Guest(id)), Guest(id))], pending := s.pending - {HALL})
  {
    hide RegisterFault, EnrolFault, Joined, Seated, Register, Configure, Simulate, Submit, Cancel, Retire;
    Registrations.RegisterIs(env, s, Guest(id));
  }

  lemma AdmitHall(env: Env, s: Server, ids: seq<string>, id: string)
    requires Hall(s, ids, []) && |ids| < 4 && id !in ids && SimTypes.AuditToken(id)
    requires !env.coop("world_boss") && env.ticketFault(Guest(id)) == ""
    ensures Hall(Execute(env, s, Admit(Guest(id))), ids + [id], [])
  {
    hide *;
    HallPasses(env, s, ids, id);
    HallEnrols(env, s, ids, id);
    AdmitIs(env, s, id);
    HallGrows(s, ids, id, Seated(Joined(env, s, Guest(id)), Guest(id)));
  }

  lemma FirstGuest(env: Env, id: string)
    requires SimTypes.AuditToken(id) && !env.coop("world_boss") && env.ticketFault(Guest(id)) == ""
    ensures Hall(Execute(env, EMPTY, Admit(Guest(id))), [id], [])
  {
    hide *;
    var m := Joined(env, EMPTY, Guest(id));
    FirstPasses(env, id);
    NewHall(env, id);
    GuestMayJoin(m, [], id);
    SeatedPlayed(m, [], id);
    assert [] + [id] == [id];
    FirstEnrols(env, id);
    AdmitIs(env, EMPTY, id);
    HallOpens(id, Seated(m, Guest(id)));
  }

  lemma FirstPasses(env: Env, id: string)
    requires !env.coop("world_boss") && env.ticketFault(Guest(id)) == ""
    ensures RegisterFault(env, EMPTY, Guest(id)) == ""
  {
    assert TicketsOf(map[], HALL) == {};
  }

  lemma FirstEnrols(env: Env, id: string)
    requires SimSteps.MayJoin(Joined(env, EMPTY, Guest(id)).rules, Joined(env, EMPTY, Guest(id)).state, id)
    ensures EnrolFault(env, EMPTY, Guest(id)) == ""
  {
    hide SimSteps.MayJoin;
  }

  lemma ExecuteMore(env: Env, commands: seq<Command>, c: Command)
    ensures ExecuteAll(env, EMPTY, commands + [c]) == Execute(env, ExecuteAll(env, EMPTY, commands), c)
  {
    hide Execute;
    var more := commands + [c];
    assert more[..|more| - 1] == commands && more[|more| - 1] == c;
  }

  lemma LetsOne(env: Env, ids: seq<string>, i: nat)
    requires Lets(env, ids) && i < |ids|
    ensures !env.coop("world_boss") && env.ticketFault(Guest(ids[i])) == "" && SimTypes.AuditToken(ids[i]) && |ids[i]| <= 128
    ensures ids[i] !in ids[..i] && ids[..i + 1] == ids[..i] + [ids[i]]
  {
    hide SimTypes.AuditToken;
  }

  ghost predicate HallAfter(env: Env, commands: seq<Command>, ids: seq<string>, done: seq<string>) {
    Hall(ExecuteAll(env, EMPTY, commands), ids, done)
  }

  lemma HallBehind(env: Env, commands: seq<Command>, ids: seq<string>, done: seq<string>)
    ensures HallAfter(env, commands, ids, done) <==> Hall(ExecuteAll(env, EMPTY, commands), ids, done)
  {
    hide Hall, ExecuteAll;
  }

  /** The first `n` guests are there. */
  ghost predicate HallJoined(env: Env, ids: seq<string>, n: nat)
    requires n <= |ids|
  {
    HallAfter(env, JoinRun(ids, n), ids[..n], [])
  }

  lemma {:induction false} AllJoin(env: Env, ids: seq<string>, n: nat)
    requires Lets(env, ids) && 1 <= |ids| <= 4 && n <= |ids|
    ensures n > 0 ==> HallJoined(env, ids, n)
    decreases n
  {
    hide HallAfter, Hall, Execute, SimTypes.AuditToken, Lets, ExecuteAll;
    if n == 0 {
      return;
    }
    var front, last := ids[..n - 1], ids[n - 1];
    LetsOne(env, ids, n - 1);
    ExecuteMore(env, JoinRun(ids, n - 1), Admit(Guest(last)));
    HallBehind(env, JoinRun(ids, n), ids[..n], []);
    HallBehind(env, JoinRun(ids, n - 1), front, []);
    if n == 1 {
      EmptyRun(env);
      FirstGuest(env, last);
      assert ids[..1] == [last];
    } else {
      AllJoin(env, ids, n - 1);
      AdmitHall(env, ExecuteAll(env, EMPTY, JoinRun(ids, n - 1)), front, last);
    }
  }

  lemma EmptyRun(env: Env)
    ensures ExecuteAll(env, EMPTY, []) == EMPTY
  {
  }

  lemma SayPlayed(m: Match, ids: seq<string>, done: seq<string>, id: string)
    requires Played(m, ids, done) && id in ids && id !in done && SimTypes.AuditToken(id) && |id| <= 128
    ensures Played(m.(state := Sim.Do(m.rules, m.state, Sim.SubmitAction(ReadyAction(HALL, id)))), ids, done + [id])
  {
    ReadyWaits(m.rules, m.state, ids, done, id);
    AcceptedRoster(m.rules, m.state, ReadyAction(HALL, id));
    hide Waiting, SimTypes.AuditToken, SimSteps.AcceptAction;
  }

  lemma AcceptedRoster(rules: SimTypes.Rules, s: SimSteps.State, a: SimTypes.Action)
    requires SimInvariants.RosterSound(s)
    ensures SimInvariants.RosterSound(SimSteps.AcceptAction(rules, s, a))
  {
    if SimSteps.ActionFault(rules, s, a) == "" {
      SimSteps.AcceptedFacts(rules, s, a);
    }
    hide SimSteps.ActionFault, BossLedger.Distinct;
  }

  /** The hall after its match has been asked something. */
  lemma HallGoesOn(s: Server, ids: seq<string>, done: seq<string>, more: seq<string>, m: Match, locks: bool)
    requires Hall(s, ids, done) && Played(m, ids, more) && more != []
    ensures Hall(WithSim(s, HALL, m, locks), ids, more)
  {
    hide Played, ReadyToLock;
  }

  lemma AskIs(env: Env, s: Server, step: Sim.Step)
    requires HALL in s.sims && HALL !in s.results && Askable(step) && (Asker(step).Some? ==> SessionFor(s.sessions, HALL, Asker(step).value))
    ensures var m := s.sims[HALL];
      Execute(env, s, Ask(HALL, step)) == WithSim(s, HALL, m.(state := Sim.Do(m.rules, m.state, step)), Locks(m, step))
  {
    hide Sim.Do, Locks, SessionFor, WithSim, Register, Configure, Submit, Cancel, Retire;
  }

  lemma HallRuns(s: Server, ids: seq<string>, done: seq<string>)
    requires Hall(s, ids, done)
    ensures HALL in s.sims && HALL !in s.results && Played(s.sims[HALL], ids, done)
  {
    hide Played;
  }

  lemma SayHall(env: Env, s: Server, ids: seq<string>, done: seq<string>, id: string)
    requires Hall(s, ids, done) && id in ids && id !in done && SimTypes.AuditToken(id) && |id| <= 128
    ensures Hall(Execute(env, s, Says(id)), ids, done + [id])
  {
    hide Hall, Execute, Played, Sim.Do, Locks, SessionFor, WithSim, SimTypes.AuditToken;
    HallRuns(s, ids, done);
    HasSession(s, ids, done, id);
    var m, step := s.sims[HALL], Sim.SubmitAction(ReadyAction(HALL, id));
    AskIs(env, s, step);
    SayPlayed(m, ids, done, id);
    HallGoesOn(s, ids, done, done + [id], m.(state := Sim.Do(m.rules, m.state, step)), Locks(m, step));
  }

  lemma HasSession(s: Server, ids: seq<string>, done: seq<string>, id: string)
    requires Hall(s, ids, done) && id in ids
    ensures SessionFor(s.sessions, HALL, id)
  {
    assert id in s.sessions && s.sessions[id].matchId == HALL;
    hide Played;
  }

  lemma {:induction false} AllSay(env: Env, ids: seq<string>, n: nat)
    requires Lets(env, ids) && 1 <= |ids| <= 4 && n <= |ids|
    ensures HallAfter(env, ReadyRun(ids, n), ids, ids[..n])
    decreases n
  {
    hide HallAfter, Hall, Execute, SimTypes.AuditToken, JoinRun, Lets, ExecuteAll;
    if n == 0 {
      AllJoin(env, ids, |ids|);
      assert ids[..|ids|] == ids && ids[..0] == [];
    } else {
      LetsOne(env, ids, n - 1);
      ExecuteMore(env, ReadyRun(ids, n - 1), Says(ids[n - 1]));
      AllSay(env, ids, n - 1);
      HallBehind(env, ReadyRun(ids, n - 1), ids, ids[..n - 1]);
      HallBehind(env, ReadyRun(ids, n), ids, ids[..n]);
      SayHall(env, ExecuteAll(env, EMPTY, ReadyRun(ids, n - 1)), ids, ids[..n - 1], ids[n - 1]);
    }
  }

  /** A world boss match that fights, of these players and no others. */
  ghost predicate Fights(s: Server, ids: seq<string>) {
    && HALL in s.sims && s.sims[HALL].rules.modeId == "world_boss" && s.sims[HALL].state.boss.started && HALL !in s.results
    && (forall id :: id in ids ==> id in s.sims[HALL].state.roster) && forall id :: id in ids ==> SessionFor(s.sessions, HALL, id)
  }

  lemma FightsOn(s: Server, ids: seq<string>, m: Match, locks: bool)
    requires HALL !in s.results && m.rules.modeId == "world_boss" && m.state.boss.started
    requires forall id :: id in ids ==> id in m.state.roster && SessionFor(s.sessions, HALL, id)
    ensures Fights(WithSim(s, HALL, m, locks), ids)
  {
    hide ReadyToLock, SessionFor;
  }

  lemma PlayedStarts(m: Match, ids: seq<string>)
    requires Played(m, ids, ids) && |ids| == 4
    ensures m.rules.modeId == "world_boss"
    ensures var t := Sim.Do(m.rules, m.state, Sim.Advance); t.boss.started && forall id :: id in ids ==> id in t.roster
  {
    RosterStarts(m.rules, m.state, ids);
    hide SimSteps.Tick, Said, AllReady, Calm, BossLedger.Distinct;
  }

  lemma TickHall(env: Env, s: Server, ids: seq<string>)
    requires Hall(s, ids, ids) && |ids| == 4
    ensures Fights(Execute(env, s, Ask(HALL, Sim.Advance)), ids)
  {
    hide Hall, Execute, Played, Sim.Do, Locks, SessionFor, WithSim, Fights;
    HallRuns(s, ids, ids);
    var m := s.sims[HALL];
    PlayedStarts(m, ids);
    forall id | id in ids
      ensures SessionFor(s.sessions, HALL, id)
    {
      HasSession(s, ids, ids, id);
    }
    AskIs(env, s, Sim.Advance);
    FightsOn(s, ids, m.(state := Sim.Do(m.rules, m.state, Sim.Advance)), Locks(m, Sim.Advance));
  }

  /** Any four guests the server takes can bring it to a fight. */
  lemma FightReached(env: Env, ids: seq<string>)
    requires Lets(env, ids) && |ids| == 4
    ensures Fights(ExecuteAll(env, EMPTY, FightRun(ids)), ids)
  {
    hide HallAfter, Hall, Execute, Fights, Lets, ReadyRun, ExecuteAll;
    AllSay(env, ids, 4);
    assert ids[..4] == ids;
    HallBehind(env, ReadyRun(ids, 4), ids, ids);
    ExecuteMore(env, ReadyRun(ids, 4), Ask(HALL, Sim.Advance));
    TickHall(env, ExecuteAll(env, EMPTY, ReadyRun(ids, 4)), ids);
  }

  // ---- A result that is built and refused ----

  const WALLET: seq<string> := ["a", "b", "c", "wallet"]

  lemma WalletTokens()
    ensures |WALLET| == 4 && BossLedger.Distinct(WALLET) && forall id :: id in WALLET ==> SimTypes.AuditToken(id) && |id| <= 128
  {
  }

  /** Reached by commands from the empty server: four players, one of them called wallet, join a world boss match,
      get ready and fight; the result the server then builds it refuses. */
  lemma WalletMatchIsRefused(env: Env, players: seq<string>)
    requires Lets(env, WALLET) && SessionNames.ChecksTokens(env) && ServedResults.Signing(env)
    requires PlayersOf(ExecuteAll(env, EMPTY, FightRun(WALLET)), HALL, players)
    ensures var s := ExecuteAll(env, EMPTY, FightRun(WALLET));
      && HALL in s.sims
      && var f := Facts(env, HALL, s.sims[HALL], players);
         && Results.Build(f, env.release) == Results.Built(Results.BuiltSigned(f, env.release))
         && Results.Submit(f, s.results, Results.BuiltSigned(f, env.release), env.release)
              == (Results.NotAccepted("mode_result_mutation_forbidden"), s.results)
  {
    hide *;
    var s := ExecuteAll(env, EMPTY, FightRun(WALLET));
    WalletTokens();
    FightReached(env, WALLET);
    ReachedParts(env, FightRun(WALLET), s, players);
    FightParts(env, s, players);
    ServedResults.WalletIsAWord();
    var j := WalletPlace(s);
    ServedResults.WordyPlayerIsRefused(env, HALL, s.sims[HALL], players, s.results, j, 1);
  }

  lemma ReachedParts(env: Env, commands: seq<Command>, s: Server, players: seq<string>)
    requires SessionNames.ChecksTokens(env) && ServedResults.Signing(env)
    requires s == ExecuteAll(env, EMPTY, commands) && PlayersOf(s, HALL, players)
    ensures Sound(env, s) && SessionNames.SessionsNamed(s) && ServedResults.AllProper(s)
  {
    hide *;
    ServedResults.SigningIsSound(env);
    EmptySound(env);
    RunsSound(env, EMPTY, commands);
    SessionNames.SessionsAreTokens(env, commands);
    ServedResults.RunsProper(env, commands);
  }

  lemma FightParts(env: Env, s: Server, players: seq<string>)
    requires Fights(s, WALLET) && PlayersOf(s, HALL, players)
    requires Sound(env, s) && SessionNames.SessionsNamed(s) && ServedResults.AllProper(s)
    ensures HALL in s.sims && s.sims[HALL].rules.modeId == "world_boss" && s.sims[HALL].state.boss.started && HALL !in s.results
    ensures ServedResults.Proper(s.sims[HALL]) && Snapshots.TokenRoster(s.sims[HALL].state)
    ensures players != [] && "" !in players && HALL != ""
  {
    ServedResults.RosterTokens(env, s, HALL);
    ServedResults.PlayersNamed(s, HALL, players);
    assert "wallet" in WALLET;
    assert "wallet" in players;
    hide Sound, SessionNames.SessionsNamed, ServedResults.Proper, Snapshots.TokenRoster, CardEffects.Sorted, SessionFor;
  }

  lemma WalletPlace(s: Server) returns (j: nat)
    requires Fights(s, WALLET)
    ensures HALL in s.sims && j < |s.sims[HALL].state.roster| && s.sims[HALL].state.roster[j] == "wallet"
  {
    assert "wallet" in WALLET;
    j :| j < |s.sims[HALL].state.roster| && s.sims[HALL].state.roster[j] == "wallet";
  }

  // ---- A player without a hand ----

  /** Two tickets for one match, of two players, whose seeds differ; the server takes both. */
  ghost predicate Conflict(env: Env, a: Ticket, b: Ticket) {
    && a.matchId == b.matchId && a.modeId == b.modeId && a.ruleset == b.ruleset && a.playerId != b.playerId && a.ticketId != b.ticketId
    && env.ticketFault(a) == "" && env.ticketFault(b) == "" && SimTypes.AuditToken(a.playerId) && SimTypes.AuditToken(b.playerId)
    && Seats(env, a.modeId) >= 2 && a.serverSeed.SeedIs? && b.serverSeed.SeedIs? && a.serverSeed.value != b.serverSeed.value
  }

  ghost predicate AloneIn(m: Match, a: Ticket)
    requires a.serverSeed.SeedIs?
  {
    && m.rules.modeId == a.modeId && m.ruleset == a.ruleset && m.state.purgeSeed == Bytes.Some(a.serverSeed.value)
    && |m.state.roster| == 1 && forall id :: id in m.state.players ==> id == a.playerId
  }

  /** The server with the first player alone, the match under his seed. */
  ghost predicate Alone(s: Server, a: Ticket)
    requires a.serverSeed.SeedIs?
  {
    && s.results == map[] && s.cancelled == {} && s.pending == map[] && s.locked == {}
    && s.sessions == map[a.ticketId := SessionOf(a)] && a.matchId in s.sims && AloneIn(s.sims[a.matchId], a)
  }

  lemma FirstAlone(env: Env, a: Ticket, b: Ticket)
    requires Conflict(env, a, b)
    ensures Alone(Execute(env, EMPTY, Admit(a)), a)
  {
    hide SimTypes.AuditToken, Seats, Execute, RegisterFault, EnrolFault, Seated, Joined;
    FirstTicketPasses(env, a);
    Registrations.NewMatchTakes(env, EMPTY, a);
    SeatedAlone(env, a);
    AdmitTicketIs(env, EMPTY, a);
    AloneMakes(a, Seated(Joined(env, EMPTY, a), a));
  }

  lemma FirstTicketPasses(env: Env, a: Ticket)
    requires env.ticketFault(a) == "" && Seats(env, a.modeId) >= 2
    ensures RegisterFault(env, EMPTY, a) == ""
  {
    assert TicketsOf(map[], a.matchId) == {};
    hide Seats;
  }

  lemma AloneMakes(a: Ticket, m: Match)
    requires a.serverSeed.SeedIs? && AloneIn(m, a)
    ensures Alone(EMPTY.(sessions := EMPTY.sessions[a.ticketId := SessionOf(a)], sims := EMPTY.sims[a.matchId := m], pending := EMPTY.pending - {a.matchId}), a)
  {
  }

  lemma SeatedAlone(env: Env, a: Ticket)
    requires a.serverSeed.SeedIs? && SimTypes.AuditToken(a.playerId)
    ensures AloneIn(Seated(Joined(env, EMPTY, a), a), a)
  {
    hide SimTypes.AuditToken, SimTypes.IsBossMode, SimSteps.Opened, SimSteps.SpawnPoint, SimSteps.Clamp;
  }

  lemma AdmitTicketIs(env: Env, s: Server, t: Ticket)
    requires RegisterFault(env, s, t) == "" && EnrolFault(env, s, t) == ""
    ensures Execute(env, s, Admit(t)) == s.(sessions := s.sessions[t.ticketId := SessionOf(t)],
      sims := s.sims[t.matchId := Seated(Joined(env, s, t), t)], pending := s.pending - {t.matchId})
  {
    hide RegisterFault, EnrolFault, Joined, Seated, Register, Configure, Simulate, Submit, Cancel, Retire;
    Registrations.RegisterIs(env, s, t);
  }

  lemma SecondPasses(env: Env, s: Server, a: Ticket, b: Ticket)
    requires Conflict(env, a, b) && Alone(s, a)
    ensures RegisterFault(env, s, b) == ""
  {
    assert TicketsOf(s.sessions, b.matchId) <= {a.ticketId};
    assert |TicketsOf(s.sessions, b.matchId)| <= 1 by {
      assert TicketsOf(s.sessions, b.matchId) == {} || TicketsOf(s.sessions, b.matchId) == {a.ticketId};
    }
    hide Seats, SimTypes.AuditToken;
  }

  lemma SecondEnrols(env: Env, s: Server, a: Ticket, b: Ticket)
    requires Conflict(env, a, b) && Alone(s, a)
    ensures EnrolFault(env, s, b) == "" && Joined(env, s, b) == s.sims[b.matchId]
    ensures SimSteps.MayJoin(s.sims[b.matchId].rules, s.sims[b.matchId].state, b.playerId)
  {
    hide Seats, SimTypes.AuditToken, SimTypes.IsBossMode;
  }

  lemma SeatedHandless(m: Match, b: Ticket)
    requires SimSteps.MayJoin(m.rules, m.state, b.playerId) && !SimSteps.SeedAgrees(m.state, b.serverSeed)
    ensures b.playerId in Seated(m, b).state.players
    ensures Seated(m, b).state.players[b.playerId].hand == CardHand.HandState([], 0.0, map[], 0, [])
  {
    HandRuns.HandFollowsSeed(m.rules, m.state, b.playerId, SpotX(|m.state.roster|), 0, b.serverSeed, b.handCards, b.initialEnergy, b.deckCards);
    hide SimSteps.MayJoin, SimSteps.SeedAgrees, SimSteps.AddPlayer, SimSteps.SeedHand;
  }

  /** Registered and in the match, but without the hand his ticket names. */
  ghost predicate Handless(s: Server, b: Ticket) {
    && b.ticketId in s.sessions && b.matchId in s.sims && b.playerId in s.sims[b.matchId].state.players
    && s.sims[b.matchId].state.players[b.playerId].hand == CardHand.HandState([], 0.0, map[], 0, [])
  }

  /** Reached by two registrations: the second player, whose seed differs, plays without a hand. */
  lemma HandlessReached(env: Env, a: Ticket, b: Ticket)
    requires Conflict(env, a, b)
    ensures Handless(ExecuteAll(env, EMPTY, [Admit(a)] + [Admit(b)]), b)
  {
    hide ExecuteAll, Execute, Conflict, Alone, RegisterFault, EnrolFault, Seated, Joined, SimSteps.MayJoin, SimSteps.SeedAgrees;
    assert [Admit(a)] == [] + [Admit(a)];
    ExecuteMore(env, [], Admit(a));
    EmptyRun(env);
    ExecuteMore(env, [Admit(a)], Admit(b));
    var s := Execute(env, EMPTY, Admit(a));
    FirstAlone(env, a, b);
    SecondHandless(env, s, a, b);
  }

  lemma SecondHandless(env: Env, s: Server, a: Ticket, b: Ticket)
    requires Conflict(env, a, b) && Alone(s, a)
    ensures Handless(Execute(env, s, Admit(b)), b)
  {
    hide ExecuteAll, Execute, RegisterFault, EnrolFault, Seated, Joined, SimSteps.MayJoin, SimTypes.AuditToken, Seats;
    SecondPasses(env, s, a, b);
    SecondEnrols(env, s, a, b);
    AdmitTicketIs(env, s, b);
    SeatedHandless(s.sims[b.matchId], b);
  }

  // ---- A server that takes them ----

  function Zeros(n: nat): string {
    seq(n, i => '0')
  }

  function AnyRelease(): Results.Release {
    Results.Release(Results.Version(1, "1", "1", "1"), key => Zeros(64), (result, key) => Zeros(128))
  }

  function AnyAccount(): Snapshots.Account {
    Snapshots.Account(ResultFields.Summary(0, 0, 64, 0, 0, 0, 0, 0, 0, 0, 0, "", "", "", "", "", 0, "", "", 0),
                      name => Bytes.None, name => 0)
  }

  /** A server that takes every ticket of valid ids; bullets stand still. */
  function AnyEnv(): Env {
    Env("server-1", 1, 4, mode => false,
        (t: Ticket) => if SimTypes.AuditToken(t.matchId) && SimTypes.AuditToken(t.playerId) && SimTypes.AuditToken(t.modeId) then ""
                       else "ticket_invalid",
        [], (bullets, players, id, card, tick) => bullets, (bullets, players, tick) => bullets,
        match_ => AnyAccount(), match_ => "sha256:000", AnyRelease())
  }

  lemma AnyEnvServes()
    ensures SessionNames.ChecksTokens(AnyEnv()) && ServedResults.Signing(AnyEnv())
  {
    hide SimTypes.AuditToken;
  }

  lemma AnyEnvLets()
    ensures Lets(AnyEnv(), WALLET)
  {
    WalletTokens();
    HallTokens();
    hide SimTypes.AuditToken;
  }

  lemma HallTokens()
    ensures SimTypes.AuditToken(HALL) && SimTypes.AuditToken("world_boss")
  {
  }

  /** Nothing is assumed: there is a server and a run of commands after which the result that it builds it
      refuses. */
  lemma RefusedResultExists(players: seq<string>)
    requires PlayersOf(ExecuteAll(AnyEnv(), EMPTY, FightRun(WALLET)), HALL, players)
    ensures var env, s := AnyEnv(), ExecuteAll(AnyEnv(), EMPTY, FightRun(WALLET));
      && HALL in s.sims
      && var f := Facts(env, HALL, s.sims[HALL], players);
         && Results.Build(f, env.release) == Results.Built(Results.BuiltSigned(f, env.release))
         && Results.Submit(f, s.results, Results.BuiltSigned(f, env.release), env.release)
              == (Results.NotAccepted("mode_result_mutation_forbidden"), s.results)
  {
    hide *;
    AnyEnvServes();
    AnyEnvLets();
    WalletMatchIsRefused(AnyEnv(), players);
  }
}
