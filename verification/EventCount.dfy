/** The event counter of src/simulation.cpp, which reconnecting players name as their cursor. */
module EventCount {
  import opened SimTypes
  import opened SimSteps
  import CardHand
  import CardEffects
  import BossLedger
  import TransferLedger
  import Sim = Simulation

  lemma CastCounts(rules: Rules, s: State, id: string, slot: int, tick: nat)
    ensures s.eventCount <= CastCard(rules, s, id, slot, tick).eventCount <= s.eventCount + 1
  {
    hide CardHand.ValidateCast, CardHand.AfterCast, BossLedger.Register;
  }

  lemma ShotCounts(rules: Rules, s: State, id: string, input: Input, tick: nat)
    ensures s.eventCount <= Shoot(rules, s, id, input, tick).eventCount
  {
    hide BossLedger.Register, ReadyToStart;
  }

  lemma MovedCounts(rules: Rules, s: State, id: string, tick: nat)
    requires id in s.players
    ensures Moved(rules, s, id, tick).eventCount == s.eventCount
  {
    hide SilentTicks, Axis, Clamp, CardHand.Recovered;
  }

  lemma ConnectCounts(rules: Rules, s: State, id: string, connected: bool)
    requires id in s.players
    ensures s.eventCount <= Connect(rules, s, id, connected).eventCount
  {
  }

  lemma PlayTickCounts(rules: Rules, s: State, id: string, tick: nat)
    requires id in s.players
    ensures s.eventCount <= PlayTick(rules, s, id, tick).eventCount
  {
    hide Silenced, Heard, Moved, Shoot, CastCard, Connect, TickInput;
    if Silenced(rules, s, id, tick) {
      ConnectCounts(rules, s.(players := s.players[id := Heard(rules, s, id, tick)]), id, false);
    } else {
      var input := TickInput(s, id, tick);
      MovedCounts(rules, s, id, tick);
      ShotCounts(rules, Moved(rules, s, id, tick), id, input, tick);
      CastCounts(rules, Shoot(rules, Moved(rules, s, id, tick), id, input, tick), id, input.cardSlot, tick);
    }
  }

  lemma {:induction false} PlayersCount(rules: Rules, s: State, ids: seq<string>, enabled: bool, tick: nat)
    ensures s.eventCount <= TickPlayers(rules, s, ids, enabled, tick).eventCount
    decreases |ids|
  {
    hide PlayTick;
    if ids != [] {
      var before, id := TickPlayers(rules, s, ids[..|ids| - 1], enabled, tick), ids[|ids| - 1];
      PlayersCount(rules, s, ids[..|ids| - 1], enabled, tick);
      if id in before.players && before.players[id].connected && enabled {
        PlayTickCounts(rules, before, id, tick);
      }
    }
  }

  lemma ActionCounts(rules: Rules, s: State, a: Action, tick: nat)
    ensures s.eventCount <= ApplyAction(rules, s, a, tick).eventCount
  {
    var slot := if a.slot.Some? then a.slot.value else -1;
    hide CastCard, TransferLedger.Apply, TransferLedger.Made, ApplyReconnect;
    CastCounts(rules, s, a.playerId, slot, tick);
    ReturnCounts(s, a);
  }

  lemma ReturnCounts(s: State, a: Action)
    ensures s.eventCount <= ApplyReconnect(s, a).eventCount
  {
  }

  lemma {:induction false} ActionsCount(rules: Rules, s: State, actions: seq<Action>, tick: nat)
    ensures s.eventCount <= ApplyActions(rules, s, actions, tick).eventCount
    decreases |actions|
  {
    hide ApplyAction;
    if actions != [] {
      ActionsCount(rules, s, actions[..|actions| - 1], tick);
      ActionCounts(rules, ApplyActions(rules, s, actions[..|actions| - 1], tick), actions[|actions| - 1], tick);
    }
  }

  lemma FinishCounts(rules: Rules, s: State, t: nat)
    ensures s.eventCount <= Finish(rules, s, t).eventCount
  {
    hide ReadyToStart, IsBossMode, Spawns;
  }

  lemma InputsCount(rules: Rules, s: State, t: nat)
    ensures s.eventCount <= InputsTick(rules, s, t).eventCount
  {
    PlayersCount(rules, s, s.roster, InputEnabled(rules, s, t), t);
    hide TickPlayers, InputEnabled, WithoutTick;
  }

  lemma AgendaCounts(rules: Rules, s: State, t: nat)
    ensures s.eventCount <= ActionsTick(rules, s, t).eventCount
  {
    ActionsCount(rules, s, CardEffects.Sort(Split(s.queue, t, true), ActsBefore), t);
    hide ApplyActions, Split, CardEffects.Sort;
  }

  lemma TickCounts(rules: Rules, s: State)
    ensures s.eventCount <= Tick(rules, s).eventCount
  {
    var t := s.tick + 1;
    InputsCount(rules, s, t);
    AgendaCounts(rules, InputsTick(rules, s, t), t);
    FinishCounts(rules, ActionsTick(rules, InputsTick(rules, s, t), t), t);
    hide InputsTick, ActionsTick, Finish, Defeated;
  }

  lemma AcceptCounts(rules: Rules, s: State, a: Action)
    ensures AcceptAction(rules, s, a).eventCount == s.eventCount
  {
    if ActionFault(rules, s, a) == "" {
      AcceptedFacts(rules, s, a);
    }
    hide ActionFault, TransferLedger.Queue;
  }

  lemma StepCounts(rules: Rules, s: State, step: Sim.Step)
    ensures s.eventCount <= Sim.Do(rules, s, step).eventCount
  {
    hide Tick, AcceptAction, InputFault, MayJoin, NewPlayer, CardEffects.Insert, SeedAgrees, Opened, AuditToken, IsBossMode;
    match step
    case Join(id, x, y) =>
    case Grant(card, terms) =>
    case Seed(id, seed, opening, energy, deck) =>
    case SetConnected(id, connected) =>
    case SubmitInput(input) =>
    case SubmitAction(action) => AcceptCounts(rules, s, action);
    case Advance => TickCounts(rules, s);
  }

  /** No run forgets an event. */
  lemma {:induction false} EventsKept(rules: Rules, s: State, steps: seq<Sim.Step>)
    ensures s.eventCount <= Sim.Run(rules, s, steps).eventCount
    decreases |steps|
  {
    hide Sim.Do;
    if steps != [] {
      EventsKept(rules, s, steps[..|steps| - 1]);
      StepCounts(rules, Sim.Run(rules, s, steps[..|steps| - 1]), steps[|steps| - 1]);
    }
  }

  /** So a player who comes back with the count of events he has seen, or less, is never told that his cursor is
      ahead, however much has happened since. */
  lemma SeenCursorNeverAhead(rules: Rules, s: State, steps: seq<Sim.Step>, a: Action)
    requires a.cursor.Some? && 0 <= a.cursor.value <= s.eventCount
    ensures ReconnectFault(Sim.Run(rules, s, steps), a) != "reconnect_cursor_ahead"
  {
    EventsKept(rules, s, steps);
    hide Sim.Run;
  }

  // ---- One event each ----

  /** A change of a player's connection is one event, no change none. */
  lemma ConnectionIsOneEvent(rules: Rules, s: State, id: string, connected: bool)
    requires id in s.players
    ensures Connect(rules, s, id, connected).eventCount == s.eventCount + (if s.players[id].connected == connected then 0 else 1)
  {
  }

  /** A shot or a card that brings the boss down is one, any other none. */
  lemma OnlyTheDefeatIsAnEvent(rules: Rules, s: State, id: string, input: Input, tick: nat)
    requires s.boss.started && (s.boss.defeatedTick == 0 <==> s.boss.hp > 0)
    ensures var t := Shoot(rules, s, id, input, tick);
      t.eventCount == s.eventCount + (if s.boss.hp > 0 && t.boss.hp == 0 then 1 else 0)
  {
  }

  lemma OnlyACardsDefeatIsAnEvent(rules: Rules, s: State, id: string, slot: int, tick: nat)
    requires s.boss.defeatedTick == 0 <==> s.boss.hp > 0
    ensures var t := CastCard(rules, s, id, slot, tick);
      t.eventCount == s.eventCount + (if s.boss.hp > 0 && t.boss.hp == 0 then 1 else 0)
  {
    hide CardHand.ValidateCast, CardHand.AfterCast;
  }

  /** An applied mode action is one event: a transfer only when it is made, a reconnect one more when it connects
      the player, a card one more when it brings the boss down. */
  lemma ActionIsOneEvent(rules: Rules, s: State, a: Action, tick: nat)
    requires s.boss.defeatedTick == 0 <==> s.boss.hp > 0
    ensures var t := ApplyAction(rules, s, a, tick);
      t.eventCount == s.eventCount
        + (if a.actionType == "transfer_card" then (if t.transfers.count != s.transfers.count then 1 else 0)
           else if a.actionType == "reconnect" && a.playerId in s.players && !s.players[a.playerId].connected then 2
           else if a.actionType == "cast_card" && s.boss.hp > 0 && t.boss.hp == 0 then 2
           else 1)
  {
    hide CastCard, TransferLedger.Apply, TransferLedger.Made, Present, ApplyReconnect;
    if a.actionType == "cast_card" {
      CardIsOneEvent(rules, s, a, tick);
    } else if a.actionType == "transfer_card" {
      TransferIsOneEvent(rules, s, a, tick);
    } else if a.actionType == "reconnect" {
      ReturnEvents(s, a);
    }
  }

  lemma CardIsOneEvent(rules: Rules, s: State, a: Action, tick: nat)
    requires a.actionType == "cast_card" && (s.boss.defeatedTick == 0 <==> s.boss.hp > 0)
    ensures var t := ApplyAction(rules, s, a, tick); t.eventCount == s.eventCount + (if s.boss.hp > 0 && t.boss.hp == 0 then 2 else 1)
  {
    OnlyACardsDefeatIsAnEvent(rules, s, a.playerId, if a.slot.Some? then a.slot.value else -1, tick);
    hide CastCard;
  }

  lemma TransferIsOneEvent(rules: Rules, s: State, a: Action, tick: nat)
    requires a.actionType == "transfer_card"
    ensures var t := ApplyAction(rules, s, a, tick);
      t.eventCount == s.eventCount + (if t.transfers.count != s.transfers.count then 1 else 0)
  {
    TransferEvent(s, a);
    hide TransferLedger.Apply, TransferLedger.Made, Present;
  }

  lemma ReturnEvents(s: State, a: Action)
    ensures ApplyReconnect(s, a).eventCount == s.eventCount + (if a.playerId in s.players && !s.players[a.playerId].connected then 2 else 1)
  {
  }

  lemma TransferEvent(s: State, a: Action)
    ensures var here := Present(s, a.playerId) && Present(s, a.target);
      TransferLedger.Made(s.transfers, a, here) <==> TransferLedger.Apply(s.transfers, a, here).count != s.transfers.count
  {
  }
}
