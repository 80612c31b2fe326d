/** Where a tick of src/simulation.cpp puts the players: each goes where his own buttons say, inside the arena,
    and nothing else moves anybody. */
module Positions {
  import opened SimTypes
  import opened SimSteps
  import SimInvariants
  import Sim = Simulation
  import BossLedger
  import TransferLedger
  import CardHand
  import CardEffects

  // ---- Buttons ----

  predicate Up(i: Input) {
    i.directionBits % 2 == 1
  }

  predicate Down(i: Input) {
    i.directionBits / 2 % 2 == 1
  }

  predicate Left(i: Input) {
    i.directionBits / 4 % 2 == 1
  }

  predicate Right(i: Input) {
    i.directionBits / 8 % 2 == 1
  }

  function Speed(i: Input): int {
    if i.slow then 2500 else 5000
  }

  function Lesser(a: int, b: int): int {
    if a < b then a else b
  }

  function Greater(a: int, b: int): int {
    if a < b then b else a
  }

  /** The coordinate `v` after one tick: up to `bound` with one button, down to its negative with the other, the
      same with both or neither. */
  function Stepped(v: int, less: bool, more: bool, speed: int, bound: int): int {
    if more && !less then Lesser(v + speed, bound)
    else if less && !more then Greater(v - speed, -bound)
    else v
  }

  predicate InArena(p: Player) {
    -120000 <= p.x <= 120000 && -90000 <= p.y <= 90000
  }

  ghost predicate AllInArena(s: State) {
    forall id :: id in s.players ==> InArena(s.players[id])
  }

  // ---- Who plays a tick, and what ----

  /** The player's input of the next tick: what is buffered for it, or what he last held. */
  function Pressed(s: State, id: string): Input
    requires id in s.players
  {
    if (s.tick + 1, id) in s.inputs then s.inputs[(s.tick + 1, id)] else s.players[id].lastInput
  }

  /** He has been silent as long as the rules allow, this tick included. */
  predicate FallsSilent(rules: Rules, s: State, id: string)
    requires id in s.players
  {
    (s.tick + 1, id) !in s.inputs && rules.timeoutTicks > 0 && s.players[id].silentTicks + 1 >= rules.timeoutTicks
  }

  predicate BossRules(rules: Rules) {
    rules.modeId == "world_boss" || rules.modeId == "instance_boss"
  }

  /** The player has been ready, or says so for the next tick. */
  predicate ReadyNext(s: State, id: string) {
    id in s.ready
    || exists i :: 0 <= i < |s.queue| && s.queue[i].playerId == id && s.queue[i].actionType == "ready" && s.queue[i].tick == s.tick + 1
  }

  /** A boss match of four to eight players, all connected and ready for the next tick. */
  predicate AllSet(rules: Rules, s: State) {
    && BossRules(rules) && 4 <= |s.roster| <= 8
    && forall i :: 0 <= i < |s.roster| ==>
         s.roster[i] in s.players && s.players[s.roster[i]].connected && ReadyNext(s, s.roster[i])
  }

  /** Input counts in the next tick: always but in a boss match, there once combat has begun or is about to, and
      until the boss is down. */
  predicate InputCounts(rules: Rules, s: State) {
    BossRules(rules) ==> s.boss.hp > 0 && (s.boss.started || AllSet(rules, s))
  }

  lemma InputCountsIs(rules: Rules, s: State)
    ensures InputEnabled(rules, s, s.tick + 1) <==> InputCounts(rules, s)
  {
  }

  predicate Plays(rules: Rules, s: State, id: string) {
    id in s.players && s.players[id].connected && !FallsSilent(rules, s, id) && InputCounts(rules, s)
  }

  /** Where the player stands after the tick. */
  predicate Moves(p: Player, q: Player, i: Input) {
    && q.x == Stepped(p.x, Left(i), Right(i), Speed(i), 120000)
    && q.y == Stepped(p.y, Up(i), Down(i), Speed(i), 90000)
  }

  predicate Stays(p: Player, q: Player) {
    q.x == p.x && q.y == p.y
  }

  ghost predicate SamePlaces(s: State, t: State) {
    && (forall id :: id in t.players <==> id in s.players)
    && forall id :: id in t.players && id in s.players ==> Stays(s.players[id], t.players[id])
  }

  // ---- One player ----

  lemma SteppedIs(v: int, less: bool, more: bool, speed: int, bound: int)
    requires -bound <= v <= bound && speed >= 0
    ensures Clamp(v + (if less == more then 0 else if more then 1 else -1) * speed, bound) == Stepped(v, less, more, speed, bound)
  {
  }

  lemma AxisIs(i: Input)
    ensures Axis(i.directionBits, 4, 8) == (if Left(i) == Right(i) then 0 else if Right(i) then 1 else -1)
    ensures Axis(i.directionBits, 1, 2) == (if Up(i) == Down(i) then 0 else if Down(i) then 1 else -1)
  {
  }

  lemma MoveMoves(p: Player, i: Input)
    requires InArena(p)
    ensures Moves(p, SimSteps.Move(p, i), i)
  {
    AxisIs(i);
    SteppedIs(p.x, Left(i), Right(i), Speed(i), 120000);
    SteppedIs(p.y, Up(i), Down(i), Speed(i), 90000);
    hide Axis, Clamp, Stepped, Left, Right, Up, Down;
  }

  lemma CastStays(rules: Rules, s: State, id: string, slot: int, tick: nat)
    ensures SamePlaces(s, CastCard(rules, s, id, slot, tick))
  {
    hide CardHand.ValidateCast, CardHand.AfterCast, BossLedger.Register;
  }

  lemma ShootStays(rules: Rules, s: State, id: string, input: Input, tick: nat)
    ensures Shoot(rules, s, id, input, tick).players == s.players
  {
    hide BossLedger.Register, ReadyToStart;
  }

  lemma SilencedIs(rules: Rules, s: State, u: State, id: string)
    requires id in s.players && id in u.players && u.players[id] == s.players[id] && u.inputs == s.inputs
    ensures Silenced(rules, u, id, s.tick + 1) == FallsSilent(rules, s, id)
  {
  }

  /** A silent player's part of a tick. */
  lemma SilentStays(rules: Rules, u: State, id: string, tick: nat)
    requires id in u.players && Silenced(rules, u, id, tick)
    ensures var t := PlayTick(rules, u, id, tick); id in t.players && Stays(u.players[id], t.players[id]) && !t.players[id].connected
  {
    hide SilentTicks;
  }

  lemma MovedMoves(rules: Rules, u: State, id: string, tick: nat)
    requires id in u.players && InArena(u.players[id])
    ensures var t := Moved(rules, u, id, tick); id in t.players && Moves(u.players[id], t.players[id], TickInput(u, id, tick))
  {
    var heard := Heard(rules, u, id, tick);
    MoveMoves(heard.(hand := CardHand.Recovered(heard.hand)), TickInput(u, id, tick));
    hide SilentTicks, SimSteps.Move, CardHand.Recovered, TickInput, Stepped, Left, Right, Up, Down;
  }

  lemma PlayTickMoves(rules: Rules, u: State, id: string, tick: nat)
    requires id in u.players && InArena(u.players[id]) && !Silenced(rules, u, id, tick)
    ensures var t := PlayTick(rules, u, id, tick); id in t.players && Moves(u.players[id], t.players[id], TickInput(u, id, tick))
  {
    hide Silenced, Moved, Shoot, CastCard, TickInput, Stepped, Left, Right, Up, Down;
    var input := TickInput(u, id, tick);
    MovedMoves(rules, u, id, tick);
    ShootStays(rules, Moved(rules, u, id, tick), id, input, tick);
    CastStays(rules, Shoot(rules, Moved(rules, u, id, tick), id, input, tick), id, input.cardSlot, tick);
  }

  lemma PressedIs(s: State, u: State, id: string)
    requires id in s.players && id in u.players && u.players[id] == s.players[id] && u.inputs == s.inputs
    ensures var i, j := TickInput(u, id, s.tick + 1), Pressed(s, id); i.directionBits == j.directionBits && i.slow == j.slow
  {
  }

  lemma SameButtons(p: Player, q: Player, i: Input, j: Input)
    requires i.directionBits == j.directionBits && i.slow == j.slow && Moves(p, q, i)
    ensures Moves(p, q, j)
  {
    hide Stepped;
  }

  /** The place of a player after the players' part of a tick. */
  ghost predicate Placed(rules: Rules, s: State, u: State, id: string) {
    && id in s.players && id in u.players
    && (if Plays(rules, s, id) then Moves(s.players[id], u.players[id], Pressed(s, id)) else Stays(s.players[id], u.players[id]))
  }

  lemma TickPlayerPlaces(rules: Rules, s: State, u: State, id: string)
    requires id in s.players && id in u.players && u.players[id] == s.players[id] && u.inputs == s.inputs && InArena(s.players[id])
    ensures Placed(rules, s, TickPlayer(rules, u, id, InputEnabled(rules, s, s.tick + 1), s.tick + 1), id)
  {
    var t := s.tick + 1;
    InputCountsIs(rules, s);
    SilencedIs(rules, s, u, id);
    PressedIs(s, u, id);
    hide InputEnabled, InputCounts, Silenced, PlayTick, TickInput, FallsSilent, Moves, Stays, Pressed;
    SameStays(s.players[id]);
    if s.players[id].connected && InputEnabled(rules, s, t) {
      if Silenced(rules, u, id, t) {
        SilentStays(rules, u, id, t);
      } else {
        PlayTickMoves(rules, u, id, t);
        SameButtons(s.players[id], PlayTick(rules, u, id, t).players[id], TickInput(u, id, t), Pressed(s, id));
      }
    }
  }

  lemma SameStays(p: Player)
    ensures Stays(p, p)
  {
  }

  // ---- All players ----

  lemma TickPlayerOthers(rules: Rules, u: State, id: string, enabled: bool, tick: nat, other: string)
    requires other in u.players && other != id
    ensures var t := TickPlayer(rules, u, id, enabled, tick); other in t.players && t.players[other] == u.players[other]
  {
    if id in u.players {
      SimInvariants.PlayTickOthers(rules, u, id, tick, other);
    }
    hide PlayTick;
  }

  lemma {:induction false} PlayersPlaced(rules: Rules, s: State, ids: seq<string>)
    requires BossLedger.Distinct(ids) && AllInArena(s)
    ensures var u := TickPlayers(rules, s, ids, InputEnabled(rules, s, s.tick + 1), s.tick + 1);
      && u.inputs == s.inputs && (forall id :: id in u.players <==> id in s.players)
      && (forall id :: id in s.players && id in ids ==> Placed(rules, s, u, id))
      && forall id :: id in s.players && id in u.players && id !in ids ==> u.players[id] == s.players[id]
    decreases |ids|
  {
    hide InputEnabled, TickPlayer, Placed, InArena;
    if ids != [] {
      var front, last := ids[..|ids| - 1], ids[|ids| - 1];
      var enabled, t := InputEnabled(rules, s, s.tick + 1), s.tick + 1;
      var u := TickPlayers(rules, s, front, enabled, t);
      var v := TickPlayer(rules, u, last, enabled, t);
      PlayersPlaced(rules, s, front);
      assert last !in front;
      LastPlaced(rules, s, u, last, enabled);
      SimInvariants.TickPlayersBooks(rules, s, ids, enabled, t);
      SimInvariants.BooksParts(s, v);
      forall id | id in s.players && id in ids && id != last
        ensures Placed(rules, s, v, id)
      {
        assert id in front;
        TickPlayerOthers(rules, u, last, enabled, t, id);
        PlacedOn(rules, s, u, v, id);
      }
      forall id | id in s.players && id !in ids
        ensures id in v.players && v.players[id] == s.players[id]
      {
        TickPlayerOthers(rules, u, last, enabled, t, id);
      }
    }
  }

  lemma LastPlaced(rules: Rules, s: State, u: State, id: string, enabled: bool)
    requires u.inputs == s.inputs && (forall x :: x in u.players <==> x in s.players) && AllInArena(s)
    requires enabled == InputEnabled(rules, s, s.tick + 1) && (id in s.players ==> u.players[id] == s.players[id])
    ensures id in s.players ==> Placed(rules, s, TickPlayer(rules, u, id, enabled, s.tick + 1), id)
  {
    hide InputEnabled, TickPlayer, Placed;
    if id in s.players {
      TickPlayerPlaces(rules, s, u, id);
    }
  }

  lemma PlacedOn(rules: Rules, s: State, u: State, v: State, id: string)
    requires Placed(rules, s, u, id) && id in v.players && v.players[id] == u.players[id]
    ensures Placed(rules, s, v, id)
  {
    hide Plays, Moves, Pressed;
  }

  // ---- The rest of a tick ----

  lemma ActionStays(rules: Rules, s: State, a: Action, tick: nat)
    ensures SamePlaces(s, ApplyAction(rules, s, a, tick))
  {
    hide CastCard, TransferLedger.Apply, TransferLedger.Made, ApplyReconnect, SamePlaces;
    var slot := if a.slot.Some? then a.slot.value else -1;
    CastStays(rules, s, a.playerId, slot, tick);
    ReconnectStays(s, a);
    SamePlacesBy(s, s, ApplyAction(rules, s, a, tick));
    SamePlacesBy(s, CastCard(rules, s, a.playerId, slot, tick), ApplyAction(rules, s, a, tick));
  }

  lemma ReconnectStays(s: State, a: Action)
    ensures SamePlaces(s, ApplyReconnect(s, a))
  {
  }

  lemma SamePlacesBy(s: State, t: State, u: State)
    ensures SamePlaces(s, s) && (SamePlaces(s, t) && u.players == t.players ==> SamePlaces(s, u))
  {
  }

  lemma StaysOn(s: State, t: State, u: State)
    requires SamePlaces(s, t) && SamePlaces(t, u)
    ensures SamePlaces(s, u)
  {
  }

  lemma {:induction false} ActionsStay(rules: Rules, s: State, actions: seq<Action>, tick: nat)
    ensures SamePlaces(s, ApplyActions(rules, s, actions, tick))
    decreases |actions|
  {
    hide ApplyAction;
    if actions != [] {
      var before := ApplyActions(rules, s, actions[..|actions| - 1], tick);
      ActionsStay(rules, s, actions[..|actions| - 1], tick);
      ActionStays(rules, before, actions[|actions| - 1], tick);
      StaysOn(s, before, ApplyAction(rules, before, actions[|actions| - 1], tick));
    }
  }

  lemma SecondHalfStays(rules: Rules, m: State, t: nat)
    ensures SamePlaces(m, Finish(rules, ActionsTick(rules, m, t), t))
  {
    ActionsStay(rules, m, CardEffects.Sort(Split(m.queue, t, true), ActsBefore), t);
    hide ApplyActions, CardEffects.Sort, Split, ReadyToStart, Spawns, IsBossMode;
  }

  lemma PlacedThrough(rules: Rules, s: State, u: State, v: State, id: string)
    requires Placed(rules, s, u, id) && SamePlaces(u, v)
    ensures Placed(rules, s, v, id)
  {
    hide Plays, Stepped, Pressed, Left, Right, Up, Down, Speed;
  }

  /** The mode actions of a tick, and what follows them, move nobody. */
  lemma FirstHalfPlaces(rules: Rules, s: State, id: string)
    requires SimInvariants.RosterSound(s) && AllInArena(s) && id in s.roster
    ensures Placed(rules, s, InputsTick(rules, s, s.tick + 1), id)
  {
    PlayersPlaced(rules, s, s.roster);
    hide TickPlayers, InputEnabled, WithoutTick, AllInArena;
    var played := TickPlayers(rules, s, s.roster, InputEnabled(rules, s, s.tick + 1), s.tick + 1);
    PlacedOn(rules, s, played, InputsTick(rules, s, s.tick + 1), id);
    hide Placed;
  }

  /** A whole tick: a connected player who is not silenced goes where his buttons say when input is enabled, no
      further than the arena; everybody else, and after the defeat everyone, stays where he was. */
  lemma TickMoves(rules: Rules, s: State, id: string)
    requires SimInvariants.RosterSound(s) && AllInArena(s) && id in s.roster
    ensures id in s.players && id in Tick(rules, s).players
    ensures var p, q := s.players[id], Tick(rules, s).players[id];
      if Plays(rules, s, id) then Moves(p, q, Pressed(s, id)) else Stays(p, q)
  {
    if Defeated(rules, s) {
      DefeatedStays(rules, s, id);
    } else {
      hide *;
      var t := s.tick + 1;
      var m := InputsTick(rules, s, t);
      SimInvariants.TickParts(rules, s);
      FirstHalfPlaces(rules, s, id);
      SecondHalfStays(rules, m, t);
      PlacedThrough(rules, s, m, Tick(rules, s), id);
      PlacedMeans(rules, s, Tick(rules, s), id);
    }
  }

  lemma PlacedMeans(rules: Rules, s: State, u: State, id: string)
    requires Placed(rules, s, u, id)
    ensures id in s.players && id in u.players
    ensures if Plays(rules, s, id) then Moves(s.players[id], u.players[id], Pressed(s, id)) else Stays(s.players[id], u.players[id])
  {
    hide Plays, Moves, Stays, Pressed;
  }

  lemma DefeatedStays(rules: Rules, s: State, id: string)
    requires SimInvariants.RosterSound(s) && id in s.roster && Defeated(rules, s)
    ensures id in s.players && Tick(rules, s).players == s.players && !Plays(rules, s, id)
  {
    hide FallsSilent, BossLedger.Distinct;
  }

  // ---- Every run ----

  lemma MovesInArena(p: Player, q: Player, i: Input)
    requires InArena(p) && Moves(p, q, i)
    ensures InArena(q)
  {
    hide Left, Right, Up, Down;
  }

  lemma TickInArena(rules: Rules, s: State)
    requires SimInvariants.Inv(rules, s) && AllInArena(s)
    ensures AllInArena(Tick(rules, s))
  {
    SimInvariants.InvParts(rules, s);
    SameRoster(rules, s);
    hide Tick, SimInvariants.Inv, SimInvariants.RosterSound, InArena, Moves, Plays, Pressed;
    var t := Tick(rules, s);
    forall id | id in t.players
      ensures InArena(t.players[id])
    {
      TickMoves(rules, s, id);
      if Plays(rules, s, id) {
        MovesInArena(s.players[id], t.players[id], Pressed(s, id));
      } else {
        StaysInArena(s.players[id], t.players[id]);
      }
    }
  }

  lemma StaysInArena(p: Player, q: Player)
    requires InArena(p) && Stays(p, q)
    ensures InArena(q)
  {
  }

  lemma SameRoster(rules: Rules, s: State)
    requires SimInvariants.Inv(rules, s)
    ensures forall id :: id in Tick(rules, s).players ==> id in s.roster && id in s.players
  {
    if Defeated(rules, s) {
      SimInvariants.DefeatedTick(rules, s);
      hide Tick, BossLedger.Distinct;
    } else {
      hide *;
      var t := s.tick + 1;
      var m := InputsTick(rules, s, t);
      SimInvariants.InvParts(rules, s);
      SimInvariants.TickParts(rules, s);
      SimInvariants.InputsTickBooks(rules, s, t);
      SecondHalfStays(rules, m, t);
      SamePeople(rules, s, m, Tick(rules, s));
    }
  }

  lemma SamePeople(rules: Rules, s: State, m: State, t: State)
    requires SimInvariants.RosterSound(s) && SimInvariants.SamePlayers(s, m) && SamePlaces(m, t)
    ensures forall id :: id in t.players ==> id in s.roster && id in s.players
  {
    hide Stays, BossLedger.Distinct;
  }

  lemma SamePlacesInArena(s: State, t: State)
    requires AllInArena(s) && SamePlaces(s, t)
    ensures AllInArena(t)
  {
  }

  lemma JoinInArena(rules: Rules, s: State, id: string, x: int, y: int)
    requires AllInArena(s)
    ensures AllInArena(AddPlayer(rules, s, id, x, y))
  {
    hide MayJoin, CardEffects.Insert, SpawnPoint, NeutralInput, IsBossMode;
  }

  lemma OtherStepStays(rules: Rules, s: State, step: Sim.Step)
    requires !step.Join? && !step.Advance?
    ensures SamePlaces(s, Sim.Do(rules, s, step))
  {
    hide AuditToken, IsBossMode, SeedAgrees, Opened, AcceptInput, AcceptAction;
    match step
    case Grant(card, terms) =>
    case Seed(id, seed, opening, energy, deck) =>
    case SetConnected(id, connected) =>
    case SubmitInput(input) => InputStays(rules, s, input);
    case SubmitAction(action) => AcceptedStays(rules, s, action);
  }

  lemma InputStays(rules: Rules, s: State, input: Input)
    ensures SamePlaces(s, AcceptInput(rules, s, input))
  {
    if InputFault(rules, s, input) == "" {
      SimInvariants.ValidInput(rules, s, input);
    }
    hide InputFault;
  }

  lemma AcceptedStays(rules: Rules, s: State, a: Action)
    ensures SamePlaces(s, AcceptAction(rules, s, a))
  {
    if ActionFault(rules, s, a) == "" {
      AcceptedFacts(rules, s, a);
    }
    hide ActionFault;
  }

  /** In every run all players stand in the arena. */
  lemma {:induction false} RunsStayInArena(rules: Rules, steps: seq<Sim.Step>)
    requires BossMode(rules) ==> rules.bossMaxHp > 0
    ensures AllInArena(Sim.Run(rules, Start(rules), steps))
    decreases |steps|
  {
    hide Sim.Do, InArena;
    if steps != [] {
      var front, last := steps[..|steps| - 1], steps[|steps| - 1];
      var s := Sim.Run(rules, Start(rules), front);
      RunsStayInArena(rules, front);
      SimInvariants.StartsSound(rules);
      Sim.RunsAreSound(rules, Start(rules), front);
      hide AllInArena, SimInvariants.Inv;
      StepInArena(rules, s, last);
    }
  }

  lemma StepInArena(rules: Rules, s: State, step: Sim.Step)
    requires SimInvariants.Inv(rules, s) && AllInArena(s)
    ensures AllInArena(Sim.Do(rules, s, step))
  {
    hide AllInArena, SimInvariants.Inv, AddPlayer, Tick, Configure, SeedHand, Connect, AcceptInput, AcceptAction;
    match step
    case Join(id, x, y) => JoinInArena(rules, s, id, x, y);
    case Advance => TickInArena(rules, s);
    case _ =>
      OtherStepStays(rules, s, step);
      SamePlacesInArena(s, Sim.Do(rules, s, step));
  }

  /** So after any run: a tick takes every player who plays where his buttons say, and leaves all others. */
  lemma PlayersGoWhereTheyPress(rules: Rules, steps: seq<Sim.Step>, id: string)
    requires BossMode(rules) ==> rules.bossMaxHp > 0
    requires id in Sim.Run(rules, Start(rules), steps).players
    ensures var s := Sim.Run(rules, Start(rules), steps);
      var t := Sim.Do(rules, s, Sim.Advance);
      && id in t.players
      && if Plays(rules, s, id) then Moves(s.players[id], t.players[id], Pressed(s, id)) else Stays(s.players[id], t.players[id])
  {
    RunsStayInArena(rules, steps);
    SimInvariants.StartsSound(rules);
    Sim.RunsAreSound(rules, Start(rules), steps);
    var s := Sim.Run(rules, Start(rules), steps);
    SimInvariants.InvParts(rules, s);
    hide Sim.Run, SimInvariants.Inv, Tick, AllInArena, Plays, Moves, Pressed, Stays, BossLedger.Distinct;
    assert id in s.roster;
    TickMoves(rules, s, id);
  }

  // ---- Newcomers and the silent ----

  /** The eight places of a boss match: sixty thousand from the centre, no two alike. */
  lemma SpawnPlaces(i: nat, j: nat)
    requires i < j < 8
    ensures SpawnPoint(i) != SpawnPoint(j)
    ensures 3599900000 <= SpawnPoint(i).0 * SpawnPoint(i).0 + SpawnPoint(i).1 * SpawnPoint(i).1 <= 3600000000
  {
    SpawnDistance(i);
  }

  lemma SpawnDistance(i: nat)
    requires i < 8
    ensures 3599900000 <= SpawnPoint(i).0 * SpawnPoint(i).0 + SpawnPoint(i).1 * SpawnPoint(i).1 <= 3600000000
    ensures -60000 <= SpawnPoint(i).0 <= 60000 && -60000 <= SpawnPoint(i).1 <= 60000
  {
    assert i % 8 == i;
  }

  /** A newcomer to a boss match stands on the next of them, elsewhere where he was put, in the arena, and stands
      still; nobody else moves. */
  lemma NewcomerPlaced(rules: Rules, s: State, id: string, x: int, y: int)
    requires MayJoin(rules, s, id)
    ensures var t := AddPlayer(rules, s, id, x, y);
      && id in t.players && t.players[id].connected && InArena(t.players[id])
      && (BossRules(rules) && |s.roster| < 8 ==> (t.players[id].x, t.players[id].y) == SpawnPoint(|s.roster|))
      && (!BossRules(rules) && -120000 <= x <= 120000 && -90000 <= y <= 90000 ==> t.players[id].x == x && t.players[id].y == y)
      && forall other :: other in s.players ==> other in t.players && t.players[other] == s.players[other]
  {
    if |s.roster| < 8 {
      SpawnDistance(|s.roster|);
    }
    hide MayJoin, SpawnPoint, CardEffects.Insert, NeutralInput;
  }

  /** A player who falls silent is disconnected by the players' part of the tick, if input counts in it. */
  lemma SilentIsDropped(rules: Rules, s: State, id: string)
    requires SimInvariants.RosterSound(s) && id in s.roster && s.players[id].connected && FallsSilent(rules, s, id) && InputCounts(rules, s)
    ensures var u := InputsTick(rules, s, s.tick + 1); id in u.players && !u.players[id].connected
  {
    RosterParts(s);
    InputCountsIs(rules, s);
    hide InputEnabled, InputCounts, TickPlayers, WithoutTick, FallsSilent, SimInvariants.RosterSound, BossLedger.Distinct;
    DroppedAmong(rules, s, s.roster, id);
  }

  lemma RosterParts(s: State)
    requires SimInvariants.RosterSound(s)
    ensures BossLedger.Distinct(s.roster) && forall id :: id in s.roster <==> id in s.players
  {
  }

  lemma {:induction false} DroppedAmong(rules: Rules, s: State, ids: seq<string>, id: string)
    requires BossLedger.Distinct(ids) && id in s.players && s.players[id].connected && FallsSilent(rules, s, id)
    requires InputEnabled(rules, s, s.tick + 1)
    ensures var u := TickPlayers(rules, s, ids, true, s.tick + 1);
      && u.inputs == s.inputs && id in u.players
      && (if id in ids then !u.players[id].connected else u.players[id] == s.players[id])
    decreases |ids|
  {
    hide TickPlayer, FallsSilent, InputEnabled;
    if ids != [] {
      var front, last, t := ids[..|ids| - 1], ids[|ids| - 1], s.tick + 1;
      var u := TickPlayers(rules, s, front, true, t);
      DroppedAmong(rules, s, front, id);
      SimInvariants.TickPlayersBooks(rules, s, ids, true, t);
      SimInvariants.BooksParts(s, TickPlayers(rules, s, ids, true, t));
      if last == id {
        assert id !in front;
        DropOne(rules, s, u, id);
      } else {
        TickPlayerOthers(rules, u, last, true, t, id);
      }
    }
  }

  lemma DropOne(rules: Rules, s: State, u: State, id: string)
    requires id in s.players && id in u.players && u.players[id] == s.players[id] && u.inputs == s.inputs
    requires s.players[id].connected && FallsSilent(rules, s, id)
    ensures var t := TickPlayer(rules, u, id, true, s.tick + 1); id in t.players && !t.players[id].connected
  {
    SilencedIs(rules, s, u, id);
    hide Silenced, FallsSilent, PlayTick;
    SilentStays(rules, u, id, s.tick + 1);
  }
}
