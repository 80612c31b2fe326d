/** The authoritative simulation of src/simulation.cpp as steps on its state. The two buffers keyed by tick
    are kept flat: inputs by tick and player, mode actions as one queue in order of acceptance. */
module SimSteps {
  import opened Bytes
  import opened SimTypes
  import opened BossLedger
  import opened TransferLedger
  import CardHand
  import CardEffects

  datatype Accepted = Accepted(player: string, sequence: nat)

  /** A player's cards on the books: the opening hand last dealt to him and what he has cast since, in order. */
  datatype CardBook = CardBook(opening: seq<string>, cast: seq<string>)

  /** The last four fields are history: what was accepted, which real inputs were applied, whether a tick after
      the defeat has dropped the buffers, and the players' books. */
  datatype State = State(
    tick: nat, roster: seq<string>, players: map<string, Player>, ready: set<string>, pendingReady: set<string>,
    pendingReconnect: set<string>, boss: Boss, transfers: Transfers, inputs: map<(nat, string), Input>,
    queue: seq<Action>, actionIds: set<string>, bullets: seq<Bullet>, eventCount: nat, purgeSeed: Option<int>,
    accepted: seq<Accepted>, applied: seq<Input>, cleared: bool, books: map<string, CardBook>)

  function Start(rules: Rules): State {
    State(0, [], map[], {}, {}, {},
          if BossMode(rules) then Boss(rules.bossMaxHp, rules.bossMaxHp, 0, map[], 0, false, []) else NO_BOSS,
          NO_TRANSFERS, map[], [], {}, [], 0, None, [], [], false, map[])
  }

  predicate Defeated(rules: Rules, s: State) {
    BossMode(rules) && s.boss.hp == 0
  }

  // ---- Players ----

  function Clamp(v: int, bound: int): int {
    if v < -bound then -bound else if v > bound then bound else v
  }

  function SpawnPoint(i: nat): (int, int) {
    var k := i % 8;
    if k == 0 then (0, -60000) else if k == 1 then (60000, 0) else if k == 2 then (0, 60000) else if k == 3 then (-60000, 0)
    else if k == 4 then (42426, -42426) else if k == 5 then (42426, 42426) else if k == 6 then (-42426, 42426) else (-42426, -42426)
  }

  function NeutralInput(rules: Rules, id: string): Input {
    Input(true, rules.matchId, id, 0, 0, 0, false, false, false, -1, "")
  }

  function NewPlayer(rules: Rules, s: State, id: string, x: int, y: int): Player {
    var at := if BossMode(rules) then SpawnPoint(|s.roster|) else (x, y);
    Player(Clamp(at.0, HALF_WIDTH), Clamp(at.1, HALF_HEIGHT), 0, true, 0, NeutralInput(rules, id),
           CardHand.HandState([], 0.0, map[], 0, []))
  }

  predicate MayJoin(rules: Rules, s: State, id: string) {
    AuditToken(id) && id !in s.players && !(BossMode(rules) && |s.roster| >= BOSS_MAX_PLAYERS)
  }

  function AddPlayer(rules: Rules, s: State, id: string, x: int, y: int): State {
    if !MayJoin(rules, s, id) then s else
    s.(roster := CardEffects.Insert(id, s.roster, CardEffects.Leq),
       players := s.players[id := NewPlayer(rules, s, id, x, y)], books := s.books[id := CardBook([], [])],
       boss := if BossMode(rules) then s.boss.(shares := s.boss.shares[id := 0]) else s.boss)
  }

  /** ConfigureTransferableCard. */
  function Configure(rules: Rules, s: State, id: string, card: Card): State {
    if !BossMode(rules) || !AuditToken(id) || |id| > MAX_CARD_ID_BYTES || !AuditToken(card.owner) || card.owner !in s.players then s
    else s.(transfers := s.transfers.(cards := s.transfers.cards[id := card]))
  }

  /** The ticket's seed is readable and not another than the match has. */
  predicate SeedAgrees(s: State, seed: ServerSeed) {
    !seed.Unreadable? && (seed.SeedIs? && s.purgeSeed.Some? ==> seed.value == s.purgeSeed.value)
  }

  /** SeedPlayerHand: a seed that does not agree leaves the player without a hand. */
  function SeedHand(s: State, id: string, seed: ServerSeed, opening: seq<string>, energy: real, deck: seq<string>): State {
    if id !in s.players || !SeedAgrees(s, seed) then s
    else s.(purgeSeed := if seed.SeedIs? then Some(seed.value) else s.purgeSeed,
            players := s.players[id := s.players[id].(hand := Opened(s.players[id].hand, opening, energy, deck))],
            books := s.books[id := CardBook(opening, [])])
  }

  function Opened(hand: CardHand.HandState, opening: seq<string>, energy: real, deck: seq<string>): CardHand.HandState {
    hand.(cards := opening, energy := energy, deck := deck, drawCursor := if deck == [] then 0 else |opening|)
  }

  /** SetPlayerConnected of a known player. */
  function Connect(rules: Rules, s: State, id: string, connected: bool): State
    requires id in s.players
  {
    var p := s.players[id];
    if p.connected == connected then s else
    var q := p.(connected := connected, silentTicks := 0,
                lastInput := if connected then NeutralInput(rules, id) else p.lastInput);
    s.(players := s.players[id := q], eventCount := s.eventCount + 1,
       pendingReconnect := if connected then s.pendingReconnect - {id} else s.pendingReconnect,
       ready := if connected then s.ready else s.ready - {id},
       pendingReady := if connected then s.pendingReady else s.pendingReady - {id})
  }

  // ---- Accepting inputs ----

  /** ValidateInput: the reason for refusing, empty when valid. */
  function InputFault(rules: Rules, s: State, input: Input): string {
    if !input.compatible then "version_incompatible"
    else if input.matchId != rules.matchId then "match_mismatch"
    else if Defeated(rules, s) then "boss_defeated"
    else if input.playerId !in s.players then "player_unknown"
    else if BossMode(rules) && |s.roster| < BOSS_MIN_PLAYERS then "boss_min_players_not_met"
    else if !s.players[input.playerId].connected then "player_disconnected"
    else if input.sequence == 0 then "seq_missing"
    else if input.sequence <= s.players[input.playerId].lastSequence then "seq_replay"
    else if input.sequence - s.players[input.playerId].lastSequence > rules.maxSequenceAhead then "seq_too_far_ahead"
    else if input.tick <= s.tick then "input_tick_too_old"
    else if input.tick - s.tick > rules.maxTicksAhead then "input_tick_too_far_ahead"
    else if (input.tick, input.playerId) in s.inputs then "input_tick_duplicate"
    else if input.directionBits >= 16 then "invalid_direction_bits"
    else if input.cardSlot < -1 || input.cardSlot > CardHand.HAND_LIMIT then "invalid_card_slot"
    else if |input.modeActionId| > rules.maxActionIdBytes then "input_mode_action_id_too_large"
    else if input.modeActionId != "" && !AuditToken(input.modeActionId) then "input_mode_action_id_invalid"
    else ""
  }

  function AcceptInput(rules: Rules, s: State, input: Input): State {
    if InputFault(rules, s, input) != "" then s else Buffered(s, input)
  }

  function Buffered(s: State, input: Input): State
    requires input.playerId in s.players
  {
    s.(inputs := s.inputs[(input.tick, input.playerId) := input],
       players := s.players[input.playerId := s.players[input.playerId].(lastSequence := input.sequence)],
       accepted := s.accepted + [Accepted(input.playerId, input.sequence)])
  }

  // ---- Accepting mode actions ----

  /** ValidateModeAction up to the checks that depend on the type. */
  function ActionFault(rules: Rules, s: State, a: Action): string {
    if !a.compatible then "version_incompatible"
    else if a.matchId != rules.matchId then "match_mismatch"
    else if Defeated(rules, s) then "boss_defeated"
    else if a.playerId !in s.players then "player_unknown"
    else if a.actionType == "reconnect" && s.players[a.playerId].connected then "reconnect_player_connected"
    else if !s.players[a.playerId].connected && a.actionType != "reconnect" then "player_disconnected"
    else if a.sequence == 0 then "seq_missing"
    else if a.sequence <= s.players[a.playerId].lastSequence then "seq_replay"
    else if a.sequence - s.players[a.playerId].lastSequence > rules.maxSequenceAhead then "seq_too_far_ahead"
    else if a.tick <= s.tick then "mode_action_tick_too_old"
    else if a.tick - s.tick > rules.maxTicksAhead then "mode_action_tick_too_far_ahead"
    else ActionShapeFault(rules, s, a)
  }

  function ActionShapeFault(rules: Rules, s: State, a: Action): string {
    if a.actionId == "" || a.actionType == "" || a.payloadBytes == 0 then "mode_action_missing_fields"
    else if |a.actionId| > rules.maxActionIdBytes then "mode_action_id_too_large"
    else if !AuditToken(a.actionId) then "mode_action_id_invalid"
    else if |a.actionType| > rules.maxActionTypeBytes then "mode_action_type_too_large"
    else if a.payloadBytes > rules.maxPayloadBytes then "mode_action_payload_too_large"
    else if !AllowedType(a.actionType) then "mode_action_type_unsupported"
    else if a.authoritative then "mode_action_client_result_forbidden"
    else if a.claims then "mode_action_authority_field_forbidden"
    else if a.actionType == "reconnect" then ReconnectFault(s, a)
    else if a.actionType == "cast_card" then CastFault(s, a)
    else if a.actionType == "select_round_card" then SelectFault(rules, s, a)
    else if a.actionType == "ready" then ReadyFault(rules, s, a)
    else TransferFault(rules, s, a)
  }

  function DuplicateFault(s: State, a: Action): string {
    if a.actionId in s.actionIds then "mode_action_duplicate" else ""
  }

  function ReconnectFault(s: State, a: Action): string {
    if a.playerId in s.pendingReconnect then "reconnect_already_pending"
    else if a.cursor.None? then "reconnect_cursor_missing"
    else if a.cursor.value < 0 then "reconnect_cursor_invalid"
    else if a.cursor.value > s.eventCount then "reconnect_cursor_ahead"
    else DuplicateFault(s, a)
  }

  function CastFault(s: State, a: Action): string {
    if a.slot.None? then "cast_card_slot_missing"
    else if a.slot.value < 0 || a.slot.value > CardHand.HAND_LIMIT then "cast_card_slot_invalid"
    else DuplicateFault(s, a)
  }

  function SelectFault(rules: Rules, s: State, a: Action): string {
    if rules.modeId != "battle_royale" then "select_round_card_mode_unsupported"
    else if a.candidate.None? then "select_round_card_candidate_missing"
    else if a.candidate.value < 0 || a.candidate.value > 2 then "select_round_card_candidate_invalid"
    else DuplicateFault(s, a)
  }

  function ReadyFault(rules: Rules, s: State, a: Action): string {
    if !BossMode(rules) then "ready_mode_unsupported"
    else if a.ready.None? then "ready_payload_missing"
    else if !a.ready.value then "ready_payload_not_true"
    else if a.playerId in s.ready || a.playerId in s.pendingReady then "ready_already_set"
    else DuplicateFault(s, a)
  }

  function TransferFault(rules: Rules, s: State, a: Action): string {
    if !BossMode(rules) then "transfer_card_mode_unsupported"
    else if a.target == "" || a.card == "" then "transfer_card_payload_missing_fields"
    else if !AuditToken(a.card) || |a.card| > MAX_CARD_ID_BYTES then "transfer_card_instance_id_invalid"
    else if !AuditToken(a.target) then "transfer_card_target_invalid"
    else if a.target == a.playerId then "transfer_card_self_forbidden"
    else if a.target !in s.players then "transfer_card_target_unknown"
    else if !s.players[a.target].connected then "transfer_card_target_disconnected"
    else if a.card in s.transfers.reserved then "transfer_card_duplicate"
    else if a.card !in s.transfers.cards then "transfer_card_not_authorized"
    else if s.transfers.cards[a.card].owner != a.playerId then "transfer_card_owner_mismatch"
    else if !s.transfers.cards[a.card].modeAllowed then "transfer_card_mode_forbidden"
    else if !s.transfers.cards[a.card].costPaid then "transfer_card_cost_unpaid"
    else if !s.transfers.cards[a.card].cooldownReady then "transfer_card_cooldown_blocked"
    else DuplicateFault(s, a)
  }

  function AcceptAction(rules: Rules, s: State, a: Action): State {
    if ActionFault(rules, s, a) != "" then s else
    AcceptedFacts(rules, s, a);
    Queued(s, a)
  }

  function Queued(s: State, a: Action): State
    requires a.playerId in s.players && (IsTransfer(a) ==> a.card in s.transfers.cards)
  {
    Booked(Reserved(s, a), a)
  }

  function Reserved(s: State, a: Action): State
    requires IsTransfer(a) ==> a.card in s.transfers.cards
  {
    s.(pendingReady := if a.actionType == "ready" then s.pendingReady + {a.playerId} else s.pendingReady,
       pendingReconnect := if a.actionType == "reconnect" then s.pendingReconnect + {a.playerId} else s.pendingReconnect,
       transfers := if IsTransfer(a) then Queue(s.transfers, a) else s.transfers)
  }

  function Booked(s: State, a: Action): State
    requires a.playerId in s.players
  {
    s.(players := s.players[a.playerId := s.players[a.playerId].(lastSequence := a.sequence)],
       actionIds := s.actionIds + {a.actionId}, queue := s.queue + [a],
       accepted := s.accepted + [Accepted(a.playerId, a.sequence)])
  }

  /** What the checks leave of an accepted action. */
  lemma AcceptedFacts(rules: Rules, s: State, a: Action)
    requires ActionFault(rules, s, a) == ""
    ensures a.playerId in s.players && !Defeated(rules, s) && a.actionId !in s.actionIds
    ensures s.players[a.playerId].lastSequence < a.sequence <= s.players[a.playerId].lastSequence + rules.maxSequenceAhead
    ensures s.tick < a.tick <= s.tick + rules.maxTicksAhead
    ensures IsTransfer(a) ==> BossMode(rules) && a.card != "" && a.target != "" && a.card in s.transfers.cards && a.card !in s.transfers.reserved
  {
    hide AuditToken, ActionShapeFault;
    ShapeFacts(rules, s, a);
  }

  lemma ShapeFacts(rules: Rules, s: State, a: Action)
    requires ActionShapeFault(rules, s, a) == ""
    ensures a.actionId !in s.actionIds
    ensures IsTransfer(a) ==> BossMode(rules) && a.card != "" && a.target != "" && a.card in s.transfers.cards && a.card !in s.transfers.reserved
  {
    hide AuditToken;
  }

  // ---- Applying inputs ----

  predicate ReadyBy(s: State, id: string, tick: nat) {
    id in s.ready || exists i :: 0 <= i < |s.queue| && s.queue[i].tick == tick && s.queue[i].actionType == "ready" && s.queue[i].playerId == id
  }

  /** BossReadyToStartForTick. */
  predicate ReadyToStart(rules: Rules, s: State, tick: nat) {
    && BossMode(rules) && BOSS_MIN_PLAYERS <= |s.roster| <= BOSS_MAX_PLAYERS
    && forall i :: 0 <= i < |s.roster| ==>
         s.roster[i] in s.players && s.players[s.roster[i]].connected && ReadyBy(s, s.roster[i], tick)
  }

  predicate InputEnabled(rules: Rules, s: State, tick: nat) {
    !Defeated(rules, s) && (!BossMode(rules) || s.boss.started || ReadyToStart(rules, s, tick))
  }

  function Axis(bits: nat, negative: nat, positive: nat): int
    requires negative > 0 && positive > 0
  {
    var n, p := (bits / negative) % 2 == 1, (bits / positive) % 2 == 1;
    if n == p then 0 else if p then 1 else -1
  }

  function Move(p: Player, input: Input): Player {
    var speed := if input.slow then 2500 else 5000;
    p.(x := Clamp(p.x + Axis(input.directionBits, 4, 8) * speed, HALF_WIDTH),
       y := Clamp(p.y + Axis(input.directionBits, 1, 2) * speed, HALF_HEIGHT))
  }

  /** The boss after damage; its defeat is an event. */
  function Hurt(s: State, boss: Boss): State {
    s.(boss := boss, eventCount := if |boss.defeats| > |s.boss.defeats| then s.eventCount + 1 else s.eventCount)
  }

  /** ApplyBossDamageForInput. */
  function Shoot(rules: Rules, s: State, id: string, input: Input, tick: nat): State {
    if !BossMode(rules) || !input.shoot || s.boss.hp == 0 then s else
    var begun := if s.boss.started then s.boss else s.boss.(started := ReadyToStart(rules, s, tick));
    Hurt(s, if begun.started then Register(begun, id, tick, Min(SHOT_DAMAGE, begun.hp)) else begun)
  }

  function BookOf(books: map<string, CardBook>, id: string): CardBook {
    if id in books then books[id] else CardBook([], [])
  }

  /** The books when the player has cast a card. */
  function Entered(books: map<string, CardBook>, id: string, card: string): map<string, CardBook> {
    books[id := BookOf(books, id).(cast := BookOf(books, id).cast + [card])]
  }

  /** ExecuteCastCard: an accepted cast books the hand, hurts the boss and changes the bullets. */
  function CastCard(rules: Rules, s: State, id: string, slot: int, tick: nat): State {
    if id !in s.players then s else
    var r := CardHand.ValidateCast(rules.catalog, s.players[id].hand, slot, tick);
    if !r.Cast? then s else
    var d := r.definition;
    var played := s.players[id].(hand := CardHand.AfterCast(rules.catalog, s.players[id].hand, slot, tick));
    var players := s.players[id := played];
    Hurt(s, if BossMode(rules) && d.damage > 0 && s.boss.hp > 0 then Register(s.boss, id, tick, d.damage) else s.boss)
      .(players := players, books := Entered(s.books, id, s.players[id].hand.cards[r.slot]), bullets := rules.effect(s.bullets, players, id, d, tick))
  }

  /** The buffered input of this tick, or the last one held. */
  function TickInput(s: State, id: string, tick: nat): Input
    requires id in s.players
  {
    if (tick, id) in s.inputs then s.inputs[(tick, id)] else s.players[id].lastInput.(tick := s.tick + 1)
  }

  function SilentTicks(rules: Rules, s: State, id: string, tick: nat): nat
    requires id in s.players
  {
    if (tick, id) in s.inputs then 0
    else if rules.timeoutTicks > 0 && s.players[id].silentTicks < rules.timeoutTicks then s.players[id].silentTicks + 1
    else s.players[id].silentTicks
  }

  /** Silent for too long: the player is dropped instead of played. */
  predicate Silenced(rules: Rules, s: State, id: string, tick: nat)
    requires id in s.players
  {
    (tick, id) !in s.inputs && rules.timeoutTicks > 0 && SilentTicks(rules, s, id, tick) >= rules.timeoutTicks
  }

  function Heard(rules: Rules, s: State, id: string, tick: nat): Player
    requires id in s.players
  {
    s.players[id].(silentTicks := SilentTicks(rules, s, id, tick),
                   lastInput := if (tick, id) in s.inputs then s.inputs[(tick, id)] else s.players[id].lastInput)
  }

  function Moved(rules: Rules, s: State, id: string, tick: nat): State
    requires id in s.players
  {
    var heard := Heard(rules, s, id, tick);
    s.(players := s.players[id := Move(heard.(hand := CardHand.Recovered(heard.hand)), TickInput(s, id, tick))],
       applied := if (tick, id) in s.inputs then s.applied + [s.inputs[(tick, id)]] else s.applied)
  }

  /** One connected player's part of a tick, with input enabled. */
  function PlayTick(rules: Rules, s: State, id: string, tick: nat): State
    requires id in s.players
  {
    if Silenced(rules, s, id, tick) then
      Connect(rules, s.(players := s.players[id := Heard(rules, s, id, tick)]), id, false)
    else
      var input := TickInput(s, id, tick);
      var shot := Shoot(rules, Moved(rules, s, id, tick), id, input, tick);
      if (tick, id) in s.inputs && input.cardSlot >= 0 then CastCard(rules, shot, id, input.cardSlot, tick) else shot
  }

  function TickPlayer(rules: Rules, s: State, id: string, enabled: bool, tick: nat): State {
    if id !in s.players || !s.players[id].connected || !enabled then s else PlayTick(rules, s, id, tick)
  }

  /** The players' part of a tick, in the order of their ids. */
  function TickPlayers(rules: Rules, s: State, ids: seq<string>, enabled: bool, tick: nat): State {
    if ids == [] then s else
    TickPlayer(rules, TickPlayers(rules, s, ids[..|ids| - 1], enabled, tick), ids[|ids| - 1], enabled, tick)
  }

  // ---- Applying mode actions ----

  /** The queued actions of one tick (`mine`) or of all the others, in order. */
  function Split(queue: seq<Action>, tick: nat, mine: bool): seq<Action> {
    if queue == [] then [] else
    (if (queue[0].tick == tick) == mine then [queue[0]] else []) + Split(queue[1..], tick, mine)
  }

  predicate ActsBefore(a: Action, b: Action) {
    a.sequence < b.sequence || (a.sequence == b.sequence &&
      ((a.playerId != b.playerId && CardEffects.Leq(a.playerId, b.playerId))
       || (a.playerId == b.playerId && CardEffects.Leq(a.actionId, b.actionId))))
  }

  predicate Present(s: State, id: string) {
    id in s.players && s.players[id].connected
  }

  function ApplyAction(rules: Rules, s: State, a: Action, tick: nat): State {
    if a.actionType == "reconnect" then ApplyReconnect(s, a)
    else if a.actionType == "ready" then
      s.(ready := s.ready + {a.playerId}, pendingReady := s.pendingReady - {a.playerId}, eventCount := s.eventCount + 1)
    else if a.actionType == "cast_card" then
      Counted(CastCard(rules, s, a.playerId, if a.slot.Some? then a.slot.value else -1, tick))
    else if IsTransfer(a) then
      var present := Present(s, a.playerId) && Present(s, a.target);
      s.(transfers := Apply(s.transfers, a, present),
         eventCount := if Made(s.transfers, a, present) then s.eventCount + 1 else s.eventCount)
    else Counted(s)
  }

  function Counted(s: State): State {
    s.(eventCount := s.eventCount + 1)
  }

  function ApplyReconnect(s: State, a: Action): State {
    var t := s.(pendingReconnect := s.pendingReconnect - {a.playerId}, eventCount := s.eventCount + 1);
    if a.playerId in s.players && !s.players[a.playerId].connected then
      t.(players := s.players[a.playerId := s.players[a.playerId].(connected := true)], eventCount := s.eventCount + 2)
    else t
  }

  function ApplyActions(rules: Rules, s: State, actions: seq<Action>, tick: nat): State {
    if actions == [] then s else
    ApplyAction(rules, ApplyActions(rules, s, actions[..|actions| - 1], tick), actions[|actions| - 1], tick)
  }

  // ---- A tick ----

  function WithoutTick(inputs: map<(nat, string), Input>, tick: nat): map<(nat, string), Input> {
    map k | k in inputs && k.0 != tick :: inputs[k]
  }

  function Tick(rules: Rules, s: State): State {
    if Defeated(rules, s) then s.(inputs := map[], queue := [], cleared := true) else
    var t := s.tick + 1;
    Finish(rules, ActionsTick(rules, InputsTick(rules, s, t), t), t)
  }

  /** The first half: every player's input, then the tick's inputs are gone. */
  function InputsTick(rules: Rules, s: State, t: nat): State {
    var played := TickPlayers(rules, s, s.roster, InputEnabled(rules, s, t), t);
    played.(inputs := WithoutTick(played.inputs, t), tick := t)
  }

  /** The second half: the tick's mode actions in their order, then they are gone. */
  function ActionsTick(rules: Rules, s: State, t: nat): State {
    var acted := ApplyActions(rules, s, CardEffects.Sort(Split(s.queue, t, true), ActsBefore), t);
    acted.(queue := Split(acted.queue, t, false))
  }

  function Finish(rules: Rules, s: State, t: nat): State {
    var begun := if BossMode(rules) && !s.boss.started then s.(boss := s.boss.(started := ReadyToStart(rules, s, t))) else s;
    if Defeated(rules, begun) then begun else
    begun.(bullets := rules.drift(begun.bullets, begun.players, t),
           eventCount := if Spawns(rules, |begun.bullets|, begun.boss.started, t) then begun.eventCount + 1 else begun.eventCount)
  }

  /** SpawnBulletsForTick has something to spawn, which is an event. */
  predicate Spawns(rules: Rules, bullets: nat, started: bool, t: nat) {
    && t > 0 && rules.spawnPeriod > 0 && t % rules.spawnPeriod == 0 && bullets < rules.maxBullets
    && (!BossMode(rules) || started)
  }
}
