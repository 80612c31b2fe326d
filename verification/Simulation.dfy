/** Runs of the simulation, and the simulation object. */
module Simulation {
  import opened Bytes
  import opened SimTypes
  import opened BossLedger
  import opened TransferLedger
  import opened SimSteps
  import opened SimInvariants
  import CardHand
  import CardEffects

  // ---- Newcomers ----

  lemma {:induction false} InsertShape(x: string, s: seq<string>) returns (i: nat)
    ensures i <= |s| && CardEffects.Insert(x, s, CardEffects.Leq) == s[..i] + [x] + s[i..]
  {
    hide CardEffects.Leq;
    if s == [] || CardEffects.Leq(x, s[0]) {
      i := 0;
    } else {
      var j := InsertShape(x, s[1..]);
      i := j + 1;
      assert s[..i] == [s[0]] + s[1..][..j] && s[i..] == s[1..][j..];
    }
  }

  lemma InsertedRoster(s: State, t: State, id: string, i: nat)
    requires RosterSound(s) && id !in s.players && i <= |s.roster|
    requires t.roster == s.roster[..i] + [id] + s.roster[i..]
    requires forall x :: x in t.players <==> x in s.players || x == id
    ensures RosterSound(t)
  {
    forall x
      ensures x in t.roster <==> x in s.roster || x == id
    {
      assert s.roster == s.roster[..i] + s.roster[i..];
    }
  }

  lemma NewcomerSequences(rules: Rules, s: State, t: State, id: string)
    requires SequencesSound(rules, s) && id !in s.players && t.accepted == s.accepted
    requires id in t.players && t.players[id].lastSequence == 0
    requires forall x :: x in t.players <==> x in s.players || x == id
    requires forall x :: x in s.players ==> t.players[x] == s.players[x]
    ensures SequencesSound(rules, t)
  {
    forall x
      ensures Sequenced(rules, t, x)
    {
      assert Sequenced(rules, s, x);
    }
  }

  lemma NewcomerBoss(rules: Rules, s: State, t: State, id: string, i: nat)
    requires BossSound(rules, s) && RosterSound(s) && id !in s.players && i <= |s.roster|
    requires t.roster == s.roster[..i] + [id] + s.roster[i..]
    requires t.boss == if BossMode(rules) then s.boss.(shares := s.boss.shares[id := 0]) else s.boss
    ensures BossSound(rules, t)
  {
    assert s.roster == s.roster[..i] + s.roster[i..];
    hide Conserved, Distinct;
    if BossMode(rules) {
      NewcomerConserves(s.boss, s.roster[..i], s.roster[i..], id);
    }
  }

  lemma NewcomerBuffers(rules: Rules, s: State, t: State, id: string)
    requires InputsSound(rules, s) && QueueSound(rules, s) && t.inputs == s.inputs && t.queue == s.queue && t.tick == s.tick
    requires t.actionIds == s.actionIds && forall x :: x in t.players <==> x in s.players || x == id
    ensures InputsSound(rules, t) && QueueSound(rules, t)
  {
  }

  lemma NewcomerTransfers(rules: Rules, s: State, t: State)
    requires TransfersSound(rules, s) && t.transfers == s.transfers && t.queue == s.queue && t.cleared == s.cleared
    requires t.boss.hp == s.boss.hp
    ensures TransfersSound(rules, t)
  {
    hide Balanced, Named;
  }

  lemma AddPlayerKeepsInv(rules: Rules, s: State, id: string, x: int, y: int)
    requires Inv(rules, s)
    ensures Inv(rules, AddPlayer(rules, s, id, x, y)) && EdgesKept(s, AddPlayer(rules, s, id, x, y))
  {
    var t := AddPlayer(rules, s, id, x, y);
    InvParts(rules, s);
    StepEdges(rules, s, t);
    if MayJoin(rules, s, id) {
      var i := InsertShape(id, s.roster);
      hide Inv, BossSound, TransfersSound, InputsSound, QueueSound, SequencesSound, AppliedSound, RosterSound, EdgesKept,
        CardEffects.Insert, AuditToken, SpawnPoint, Clamp;
      InsertedRoster(s, t, id, i);
      NewcomerSequences(rules, s, t, id);
      NewcomerBoss(rules, s, t, id, i);
      NewcomerBuffers(rules, s, t, id);
      NewcomerTransfers(rules, s, t);
      AppliedCarry(s, t);
      InvMake(rules, t);
    }
  }

  // ---- Runs ----

  datatype Step =
    | Join(id: string, x: int, y: int)
    | Grant(card: string, terms: Card)
    | Seed(id: string, seed: ServerSeed, opening: seq<string>, energy: real, deck: seq<string>)
    | SetConnected(id: string, connected: bool)
    | SubmitInput(input: Input)
    | SubmitAction(action: Action)
    | Advance

  function Do(rules: Rules, s: State, step: Step): State {
    match step
    case Join(id, x, y) => AddPlayer(rules, s, id, x, y)
    case Grant(card, terms) => Configure(rules, s, card, terms)
    case Seed(id, seed, opening, energy, deck) => SeedHand(s, id, seed, opening, energy, deck)
    case SetConnected(id, connected) => if id in s.players then Connect(rules, s, id, connected) else s
    case SubmitInput(input) => AcceptInput(rules, s, input)
    case SubmitAction(action) => AcceptAction(rules, s, action)
    case Advance => Tick(rules, s)
  }

  function Run(rules: Rules, s: State, steps: seq<Step>): State {
    if steps == [] then s else Do(rules, Run(rules, s, steps[..|steps| - 1]), steps[|steps| - 1])
  }

  lemma StepKeepsInv(rules: Rules, s: State, step: Step)
    requires Inv(rules, s)
    ensures Inv(rules, Do(rules, s, step)) && EdgesKept(s, Do(rules, s, step))
  {
    hide Inv, EdgesKept, AddPlayer, Configure, SeedHand, Connect, AcceptInput, AcceptAction, Tick;
    match step
    case Join(id, x, y) => AddPlayerKeepsInv(rules, s, id, x, y);
    case Grant(card, terms) => ConfigureKeepsInv(rules, s, card, terms);
    case Seed(id, seed, opening, energy, deck) => SeedKeepsInv(rules, s, id, seed, opening, energy, deck);
    case SetConnected(id, connected) =>
      if id in s.players {
        ConnectKeepsInv(rules, s, id, connected);
      } else {
        EdgesStay(rules, s);
      }
    case SubmitInput(input) => AcceptInputKeepsInv(rules, s, input);
    case SubmitAction(action) => AcceptActionKeepsInv(rules, s, action);
    case Advance => TickKeepsInv(rules, s);
  }

  lemma EdgesStay(rules: Rules, s: State)
    requires Inv(rules, s)
    ensures EdgesKept(s, s)
  {
    StepEdges(rules, s, s);
  }

  lemma EdgesTrans(s: State, t: State, u: State)
    requires EdgesKept(s, t) && EdgesKept(t, u)
    ensures EdgesKept(s, u)
  {
  }

  /** Every run keeps every invariant, and no transfer, once made, is undone, repeated or freed. */
  lemma {:induction false} RunsAreSound(rules: Rules, s: State, steps: seq<Step>)
    requires Inv(rules, s)
    ensures Inv(rules, Run(rules, s, steps)) && EdgesKept(s, Run(rules, s, steps))
  {
    hide Inv, EdgesKept, Do;
    if steps == [] {
      EdgesStay(rules, s);
    } else {
      var before := Run(rules, s, steps[..|steps| - 1]);
      RunsAreSound(rules, s, steps[..|steps| - 1]);
      StepKeepsInv(rules, before, steps[|steps| - 1]);
      EdgesTrans(s, before, Run(rules, s, steps));
    }
  }

  // ---- What a run guarantees ----

  /** In a boss mode, after any run: hit points and damage make up the configured bar, the players' shares make
      up the damage, and the defeat is dated and announced exactly when and once no hit point is left. */
  lemma BossDamageConserved(rules: Rules, steps: seq<Step>)
    requires BossMode(rules) && rules.bossMaxHp > 0
    ensures Conserved(Run(rules, Start(rules), steps).boss, Run(rules, Start(rules), steps).roster)
    ensures Run(rules, Start(rules), steps).boss.maxHp == rules.bossMaxHp
  {
    StartsSound(rules);
    RunsAreSound(rules, Start(rules), steps);
  }

  /** After any run the accepted sequence numbers of each player, inputs and mode actions together, rise
      strictly and by no more than the configured gap. */
  lemma SequencesRise(rules: Rules, steps: seq<Step>, id: string, i: nat, j: nat)
    requires BossMode(rules) ==> rules.bossMaxHp > 0
    requires var numbers := SequencesOf(Run(rules, Start(rules), steps).accepted, id); i < j < |numbers|
    ensures var numbers := SequencesOf(Run(rules, Start(rules), steps).accepted, id);
      && numbers[i] < numbers[j] && numbers[i + 1] - numbers[i] <= rules.maxSequenceAhead
  {
    StartsSound(rules);
    RunsAreSound(rules, Start(rules), steps);
    var s := Run(rules, Start(rules), steps);
    assert Sequenced(rules, s, id);
    hide Run, Inv, SequencesOf;
    ClimbsRise(SequencesOf(s.accepted, id), rules.maxSequenceAhead, i, j);
  }

  lemma {:induction false} ClimbsRise(numbers: seq<nat>, gap: nat, i: nat, j: nat)
    requires Climbs(numbers, gap) && i < j < |numbers|
    ensures numbers[i] < numbers[j] && numbers[i + 1] - numbers[i] <= gap
    decreases j - i
  {
    ClimbsNext(numbers, gap, i);
    if i + 1 < j {
      ClimbsRise(numbers, gap, i + 1, j);
    }
  }

  lemma ClimbsNext(numbers: seq<nat>, gap: nat, i: nat)
    requires Climbs(numbers, gap) && i + 1 < |numbers|
    ensures numbers[i] < numbers[i + 1] <= numbers[i] + gap
  {
    assert Last(numbers[..i + 1]) == numbers[i];
  }

  /** After any run no player has two real inputs applied at one tick, and none ahead of its tick; what is
      still buffered lies ahead, within the look-ahead. */
  lemma InputsAppliedOnce(rules: Rules, steps: seq<Step>)
    requires BossMode(rules) ==> rules.bossMaxHp > 0
    ensures var s := Run(rules, Start(rules), steps);
      && InputsSound(rules, s)
      && (forall i :: 0 <= i < |s.applied| ==> s.applied[i].tick <= s.tick)
      && forall i, j :: 0 <= i < j < |s.applied| ==>
           (s.applied[i].tick, s.applied[i].playerId) != (s.applied[j].tick, s.applied[j].playerId)
  {
    StartsSound(rules);
    RunsAreSound(rules, Start(rules), steps);
    hide Run, BossSound, TransfersSound, InputsSound, QueueSound, SequencesSound;
  }

  /** After any run there are as many transfers as cards transferred; and until a tick after the defeat, a
      card is reserved exactly when it was transferred or one queued transfer names it. */
  lemma TransfersBalance(rules: Rules, steps: seq<Step>, card: string)
    requires BossMode(rules) ==> rules.bossMaxHp > 0
    ensures var s := Run(rules, Start(rules), steps);
      && s.transfers.count == |s.transfers.edges|
      && (!s.cleared ==> Settled(s.transfers, s.queue, card))
      && (s.cleared ==> Defeated(rules, s))
  {
    StartsSound(rules);
    RunsAreSound(rules, Start(rules), steps);
    hide Run, BossSound, InputsSound, QueueSound, SequencesSound, AppliedSound, Settled, RosterSound, Named;
  }

  /** `t` is `s` but for who is there, what they hold, and the buffers. */
  ghost predicate Played(s: State, t: State) {
    && t.tick == s.tick && t.boss == s.boss.(shares := t.boss.shares) && t.bullets == s.bullets
    && t.accepted == s.accepted && t.applied == s.applied
    && t.transfers.edges == s.transfers.edges && t.transfers.count == s.transfers.count
  }

  lemma StepAfterDefeat(rules: Rules, s: State, step: Step)
    requires Defeated(rules, s)
    ensures Played(s, Do(rules, s, step)) && Defeated(rules, Do(rules, s, step))
    ensures Do(rules, s, Advance) == s.(inputs := map[], queue := [], cleared := true)
  {
    hide MayJoin, NewPlayer, CardEffects.Insert, AuditToken, InputsTick, ActionsTick, Finish, IsBossMode, SeedAgrees, Opened;
    match step
    case Join(id, x, y) =>
    case Grant(card, terms) =>
    case Seed(id, seed, opening, energy, deck) =>
    case SetConnected(id, connected) =>
    case SubmitInput(input) => InputRefused(rules, s, input);
    case SubmitAction(action) => ActionRefused(rules, s, action);
    case Advance =>
  }

  lemma InputRefused(rules: Rules, s: State, input: Input)
    requires Defeated(rules, s)
    ensures AcceptInput(rules, s, input) == s
  {
    hide AuditToken;
  }

  lemma ActionRefused(rules: Rules, s: State, a: Action)
    requires Defeated(rules, s)
    ensures AcceptAction(rules, s, a) == s
  {
    hide AuditToken, ActionShapeFault, Queued;
  }

  /** Once the boss is defeated, nothing more is played, whatever is sent, whoever comes and goes: no tick
      passes, no damage, input, transfer or bullet is added, and any tick in the run only drops the buffers. */
  lemma {:induction false} NothingAfterDefeat(rules: Rules, s: State, steps: seq<Step>)
    requires Defeated(rules, s)
    ensures var t := Run(rules, s, steps);
      Played(s, t) && Defeated(rules, t) && Do(rules, t, Advance) == t.(inputs := map[], queue := [], cleared := true)
    decreases |steps|
  {
    hide Do, Defeated;
    if steps == [] {
      StepAfterDefeat(rules, s, Advance);
    } else {
      var front, last := steps[..|steps| - 1], steps[|steps| - 1];
      NothingAfterDefeat(rules, s, front);
      StepAfterDefeat(rules, Run(rules, s, front), last);
      StepAfterDefeat(rules, Run(rules, s, steps), Advance);
    }
  }

  lemma SameRoster(s: State, t: State)
    requires RosterSound(s) && t.roster == s.roster && forall id :: id in t.players <==> id in s.players
    ensures RosterSound(t)
  {
  }

  lemma CastHeld(rules: Rules, hand: CardHand.HandState, slot: int, tick: int)
    ensures var r := CardHand.ValidateCast(rules.catalog, hand, slot, tick); r.Cast? ==> r.slot == slot && r.slot < |hand.cards|
  {
    hide CardHand.FindFrom, CardHand.TrimCardId;
  }

  // ---- The object ----

  class BattleSimulation {
    const rules: Rules
    var tick: nat
    var roster: seq<string>
    var players: map<string, Player>
    var ready: set<string>
    var pendingReady: set<string>
    var pendingReconnect: set<string>
    var boss: Boss
    var transfers: Transfers
    var inputs: map<(nat, string), Input>
    var queue: seq<Action>
    var actionIds: set<string>
    var bullets: seq<Bullet>
    var eventCount: nat
    var purgeSeed: Option<int>
    ghost var accepted: seq<Accepted>
    ghost var applied: seq<Input>
    ghost var cleared: bool
    ghost var books: map<string, CardBook>

    ghost function Now(): State
      reads this
    {
      State(tick, roster, players, ready, pendingReady, pendingReconnect, boss, transfers, inputs, queue, actionIds, bullets,
            eventCount, purgeSeed, accepted, applied, cleared, books)
    }

    ghost predicate Valid()
      reads this
    {
      Inv(rules, Now())
    }

    constructor (rules: Rules)
      requires IsBossMode(rules.modeId) ==> rules.bossMaxHp > 0
      ensures this.rules == rules && Now() == Start(rules) && Valid()
    {
      this.rules := rules;
      tick, roster, players, ready, pendingReady, pendingReconnect := 0, [], map[], {}, {}, {};
      boss := if IsBossMode(rules.modeId) then Boss(rules.bossMaxHp, rules.bossMaxHp, 0, map[], 0, false, []) else NO_BOSS;
      transfers, inputs, queue, actionIds, bullets, eventCount, purgeSeed := NO_TRANSFERS, map[], [], {}, [], 0, None;
      accepted, applied, cleared, books := [], [], false, map[];
      new;
      StartsSound(rules);
      hide Inv;
    }

    method AddPlayer(id: string, x: int, y: int) returns (added: bool)
      requires Valid()
      modifies this
      ensures Valid() && Now() == SimSteps.AddPlayer(rules, old(Now()), id, x, y)
      ensures added <==> MayJoin(rules, old(Now()), id)
    {
      AddPlayerKeepsInv(rules, Now(), id, x, y);
      hide Inv, EdgesKept, AuditToken, CardEffects.Insert, NewPlayer;
      if !AuditToken(id) || id in players || (IsBossMode(rules.modeId) && |roster| >= BOSS_MAX_PLAYERS) {
        return false;
      }
      Enlist(id, x, y);
      added := true;
    }

    method Enlist(id: string, x: int, y: int)
      requires MayJoin(rules, Now(), id)
      modifies this`roster, this`players, this`boss, this`books
      ensures Now() == SimSteps.AddPlayer(rules, old(Now()), id, x, y)
    {
      hide MayJoin, CardEffects.Insert, NewPlayer;
      var player := PlacePlayer(id, x, y);
      roster := CardEffects.Insert(id, roster, CardEffects.Leq);
      players := players[id := player];
      books := books[id := CardBook([], [])];
      if IsBossMode(rules.modeId) {
        boss := boss.(shares := boss.shares[id := 0]);
      }
    }

    method PlacePlayer(id: string, x: int, y: int) returns (player: Player)
      ensures player == NewPlayer(rules, Now(), id, x, y)
    {
      hide SpawnPoint, Clamp;
      var at := if IsBossMode(rules.modeId) then SpawnPoint(|roster|) else (x, y);
      player := Player(Clamp(at.0, HALF_WIDTH), Clamp(at.1, HALF_HEIGHT), 0, true, 0, NeutralInput(rules, id),
                       CardHand.HandState([], 0.0, map[], 0, []));
    }

    method ConfigureTransferableCard(id: string, card: Card) returns (configured: bool)
      requires Valid()
      modifies this`transfers
      ensures Valid() && Now() == Configure(rules, old(Now()), id, card)
    {
      ConfigureKeepsInv(rules, Now(), id, card);
      hide Inv, EdgesKept, AuditToken;
      if !IsBossMode(rules.modeId) || !AuditToken(id) || |id| > MAX_CARD_ID_BYTES || !AuditToken(card.owner)
         || card.owner !in players {
        return false;
      }
      transfers := transfers.(cards := transfers.cards[id := card]);
      configured := true;
    }

    method SeedPlayerHand(id: string, seed: ServerSeed, opening: seq<string>, energy: real, deck: seq<string>) returns (seeded: bool)
      requires Valid()
      modifies this`players, this`purgeSeed, this`books
      ensures Valid() && Now() == SeedHand(old(Now()), id, seed, opening, energy, deck)
      ensures seeded == (id in old(players) && SeedAgrees(old(Now()), seed))
    {
      SeedKeepsInv(rules, Now(), id, seed, opening, energy, deck);
      hide Inv, EdgesKept, SeedHand, SeedAgrees;
      seeded := TrySeed(id, seed, opening, energy, deck);
    }

    method TrySeed(id: string, seed: ServerSeed, opening: seq<string>, energy: real, deck: seq<string>) returns (seeded: bool)
      modifies this`players, this`purgeSeed, this`books
      ensures Now() == SeedHand(old(Now()), id, seed, opening, energy, deck)
      ensures seeded == (id in old(players) && SeedAgrees(old(Now()), seed))
    {
      hide Opened;
      seeded := id in players && SeedAgreed(seed);
      if !seeded {
        return;
      }
      if seed.SeedIs? {
        purgeSeed := Some(seed.value);
      }
      DealHand(id, opening, energy, deck);
    }

    predicate SeedAgreed(seed: ServerSeed)
      reads this
    {
      match seed
      case NoSeed => true
      case Unreadable => false
      case SeedIs(value) => purgeSeed.None? || value == purgeSeed.value
    }

    method DealHand(id: string, opening: seq<string>, energy: real, deck: seq<string>)
      requires id in players
      modifies this`players, this`books
      ensures players == old(players)[id := old(players)[id].(hand := Opened(old(players)[id].hand, opening, energy, deck))]
      ensures books == old(books)[id := CardBook(opening, [])]
    {
      var player := players[id];
      var hand := player.hand.(cards := opening, energy := energy, deck := deck,
                               drawCursor := if deck == [] then 0 else |opening|);
      players := players[id := player.(hand := hand)];
      books := books[id := CardBook(opening, [])];
    }

    method SetPlayerConnected(id: string, connected: bool) returns (known: bool)
      requires Valid()
      modifies this
      ensures Valid() && known == (id in old(players))
      ensures Now() == Do(rules, old(Now()), SetConnected(id, connected))
    {
      StepKeepsInv(rules, Now(), SetConnected(id, connected));
      hide Inv, EdgesKept;
      if id !in players {
        return false;
      }
      Reconnect(id, connected);
      known := true;
    }

    method Reconnect(id: string, connected: bool)
      requires id in players
      modifies this`players, this`ready, this`pendingReady, this`pendingReconnect, this`eventCount
      ensures Now() == Connect(rules, old(Now()), id, connected)
    {
      hide NeutralInput;
      var player := players[id];
      if player.connected != connected {
        player := player.(connected := connected, silentTicks := 0);
        if connected {
          player := player.(lastInput := NeutralInput(rules, id));
          pendingReconnect := pendingReconnect - {id};
        } else {
          ready := ready - {id};
          pendingReady := pendingReady - {id};
        }
        players := players[id := player];
        eventCount := eventCount + 1;
      }
    }

    method ValidateInput(input: Input) returns (fault: string)
      ensures fault == InputFault(rules, Now(), input)
    {
      hide AuditToken;
      if !input.compatible { return "version_incompatible"; }
      if input.matchId != rules.matchId { return "match_mismatch"; }
      if IsBossMode(rules.modeId) && boss.hp == 0 { return "boss_defeated"; }
      if input.playerId !in players { return "player_unknown"; }
      if IsBossMode(rules.modeId) && |roster| < BOSS_MIN_PLAYERS { return "boss_min_players_not_met"; }
      var player := players[input.playerId];
      if !player.connected { return "player_disconnected"; }
      if input.sequence == 0 { return "seq_missing"; }
      if input.sequence <= player.lastSequence { return "seq_replay"; }
      if input.sequence - player.lastSequence > rules.maxSequenceAhead { return "seq_too_far_ahead"; }
      if input.tick <= tick { return "input_tick_too_old"; }
      if input.tick - tick > rules.maxTicksAhead { return "input_tick_too_far_ahead"; }
      if (input.tick, input.playerId) in inputs { return "input_tick_duplicate"; }
      if input.directionBits >= 16 { return "invalid_direction_bits"; }
      if input.cardSlot < -1 || input.cardSlot > CardHand.HAND_LIMIT { return "invalid_card_slot"; }
      if |input.modeActionId| > rules.maxActionIdBytes { return "input_mode_action_id_too_large"; }
      if input.modeActionId != "" && !AuditToken(input.modeActionId) { return "input_mode_action_id_invalid"; }
      fault := "";
    }

    method AcceptInput(input: Input) returns (fault: string)
      requires Valid()
      modifies this
      ensures Valid() && fault == InputFault(rules, old(Now()), input)
      ensures Now() == SimSteps.AcceptInput(rules, old(Now()), input)
    {
      AcceptInputKeepsInv(rules, Now(), input);
      fault := ValidateInput(input);
      hide Inv, EdgesKept, Defeated, Buffered;
      if fault == "" {
        ValidInput(rules, Now(), input);
        hide InputFault;
        BufferInput(input);
      }
    }

    method BufferInput(input: Input)
      requires input.playerId in players
      modifies this
      ensures Now() == Buffered(old(Now()), input)
    {
      inputs := inputs[(input.tick, input.playerId) := input];
      players := players[input.playerId := players[input.playerId].(lastSequence := input.sequence)];
      accepted := accepted + [Accepted(input.playerId, input.sequence)];
    }

    method AcceptModeAction(a: Action) returns (fault: string)
      requires Valid()
      modifies this
      ensures Valid() && fault == ActionFault(rules, old(Now()), a)
      ensures Now() == AcceptAction(rules, old(Now()), a)
    {
      AcceptActionKeepsInv(rules, Now(), a);
      fault := ValidateModeAction(a);
      hide Inv, EdgesKept, Defeated, Queued, ActionFault;
      if fault == "" {
        AcceptedFacts(rules, Now(), a);
        QueueAction(a);
      }
    }

    method QueueAction(a: Action)
      requires a.playerId in players && (IsTransfer(a) ==> a.card in transfers.cards)
      modifies this
      ensures Now() == Queued(old(Now()), a)
    {
      hide Reserved, Booked;
      ReserveFor(a);
      Book(a);
    }

    method Book(a: Action)
      requires a.playerId in players
      modifies this
      ensures Now() == Booked(old(Now()), a)
    {
      players := players[a.playerId := players[a.playerId].(lastSequence := a.sequence)];
      actionIds := actionIds + {a.actionId};
      queue := queue + [a];
      accepted := accepted + [Accepted(a.playerId, a.sequence)];
    }

    /** What an accepted action holds until its tick: readiness, a reconnect, or a card. */
    method ReserveFor(a: Action)
      requires IsTransfer(a) ==> a.card in transfers.cards
      modifies this`pendingReady, this`pendingReconnect, this`transfers
      ensures Now() == Reserved(old(Now()), a)
    {
      hide Queue;
      if a.actionType == "ready" {
        pendingReady := pendingReady + {a.playerId};
      }
      if a.actionType == "reconnect" {
        pendingReconnect := pendingReconnect + {a.playerId};
      }
      if a.actionType == "transfer_card" {
        transfers := Queue(transfers, a);
      }
    }

    method ValidateModeAction(a: Action) returns (fault: string)
      ensures fault == ActionFault(rules, Now(), a)
    {
      hide ActionShapeFault;
      if !a.compatible { return "version_incompatible"; }
      if a.matchId != rules.matchId { return "match_mismatch"; }
      if IsBossMode(rules.modeId) && boss.hp == 0 { return "boss_defeated"; }
      if a.playerId !in players { return "player_unknown"; }
      var player := players[a.playerId];
      if a.actionType == "reconnect" && player.connected { return "reconnect_player_connected"; }
      if !player.connected && a.actionType != "reconnect" { return "player_disconnected"; }
      if a.sequence == 0 { return "seq_missing"; }
      if a.sequence <= player.lastSequence { return "seq_replay"; }
      if a.sequence - player.lastSequence > rules.maxSequenceAhead { return "seq_too_far_ahead"; }
      if a.tick <= tick { return "mode_action_tick_too_old"; }
      if a.tick - tick > rules.maxTicksAhead { return "mode_action_tick_too_far_ahead"; }
      fault := ValidateShape(a);
    }

    method ValidateShape(a: Action) returns (fault: string)
      ensures fault == ActionShapeFault(rules, Now(), a)
    {
      hide AuditToken, ReconnectFault, CastFault, SelectFault, ReadyFault, TransferFault;
      if a.actionId == "" || a.actionType == "" || a.payloadBytes == 0 { return "mode_action_missing_fields"; }
      if |a.actionId| > rules.maxActionIdBytes { return "mode_action_id_too_large"; }
      if !AuditToken(a.actionId) { return "mode_action_id_invalid"; }
      if |a.actionType| > rules.maxActionTypeBytes { return "mode_action_type_too_large"; }
      if a.payloadBytes > rules.maxPayloadBytes { return "mode_action_payload_too_large"; }
      if !AllowedType(a.actionType) { return "mode_action_type_unsupported"; }
      if a.authoritative { return "mode_action_client_result_forbidden"; }
      if a.claims { return "mode_action_authority_field_forbidden"; }
      if a.actionType == "transfer_card" {
        fault := ValidateTransfer(a);
      } else {
        fault := ValidateOther(a);
      }
    }

    method ValidateOther(a: Action) returns (fault: string)
      requires AllowedType(a.actionType) && a.actionType != "transfer_card"
      ensures fault == if a.actionType == "reconnect" then ReconnectFault(Now(), a)
        else if a.actionType == "cast_card" then CastFault(Now(), a)
        else if a.actionType == "select_round_card" then SelectFault(rules, Now(), a)
        else ReadyFault(rules, Now(), a)
    {
      if a.actionType == "reconnect" {
        if a.playerId in pendingReconnect { return "reconnect_already_pending"; }
        if a.cursor.None? { return "reconnect_cursor_missing"; }
        if a.cursor.value < 0 { return "reconnect_cursor_invalid"; }
        if a.cursor.value > eventCount { return "reconnect_cursor_ahead"; }
      } else if a.actionType == "cast_card" {
        if a.slot.None? { return "cast_card_slot_missing"; }
        if a.slot.value < 0 || a.slot.value > CardHand.HAND_LIMIT { return "cast_card_slot_invalid"; }
      } else if a.actionType == "select_round_card" {
        if rules.modeId != "battle_royale" { return "select_round_card_mode_unsupported"; }
        if a.candidate.None? { return "select_round_card_candidate_missing"; }
        if a.candidate.value < 0 || a.candidate.value > 2 { return "select_round_card_candidate_invalid"; }
      } else {
        if !IsBossMode(rules.modeId) { return "ready_mode_unsupported"; }
        if a.ready.None? { return "ready_payload_missing"; }
        if !a.ready.value { return "ready_payload_not_true"; }
        if a.playerId in ready || a.playerId in pendingReady { return "ready_already_set"; }
      }
      fault := if a.actionId in actionIds then "mode_action_duplicate" else "";
    }

    method ValidateTransfer(a: Action) returns (fault: string)
      ensures fault == TransferFault(rules, Now(), a)
    {
      hide AuditToken;
      if !IsBossMode(rules.modeId) { return "transfer_card_mode_unsupported"; }
      if a.target == "" || a.card == "" { return "transfer_card_payload_missing_fields"; }
      if !AuditToken(a.card) || |a.card| > MAX_CARD_ID_BYTES { return "transfer_card_instance_id_invalid"; }
      if !AuditToken(a.target) { return "transfer_card_target_invalid"; }
      if a.target == a.playerId { return "transfer_card_self_forbidden"; }
      if a.target !in players { return "transfer_card_target_unknown"; }
      if !players[a.target].connected { return "transfer_card_target_disconnected"; }
      if a.card in transfers.reserved { return "transfer_card_duplicate"; }
      if a.card !in transfers.cards { return "transfer_card_not_authorized"; }
      var card := transfers.cards[a.card];
      if card.owner != a.playerId { return "transfer_card_owner_mismatch"; }
      if !card.modeAllowed { return "transfer_card_mode_forbidden"; }
      if !card.costPaid { return "transfer_card_cost_unpaid"; }
      if !card.cooldownReady { return "transfer_card_cooldown_blocked"; }
      fault := if a.actionId in actionIds then "mode_action_duplicate" else "";
    }

    // ---- The tick ----

    method IsReady(id: string, forTick: nat) returns (r: bool)
      ensures r == ReadyBy(Now(), id, forTick)
    {
      if id in ready {
        return true;
      }
      for i := 0 to |queue|
        invariant forall j :: 0 <= j < i ==>
          !(queue[j].tick == forTick && queue[j].actionType == "ready" && queue[j].playerId == id)
      {
        if queue[i].tick == forTick && queue[i].actionType == "ready" && queue[i].playerId == id {
          return true;
        }
      }
      r := false;
    }

    method BossReadyToStartForTick(forTick: nat) returns (r: bool)
      requires RosterSound(Now())
      ensures r == ReadyToStart(rules, Now(), forTick)
    {
      hide ReadyBy, Distinct;
      if !IsBossMode(rules.modeId) || |roster| < BOSS_MIN_PLAYERS || |roster| > BOSS_MAX_PLAYERS {
        return false;
      }
      for i := 0 to |roster|
        invariant forall j :: 0 <= j < i ==>
          roster[j] in players && players[roster[j]].connected && ReadyBy(Now(), roster[j], forTick)
      {
        var isReady := IsReady(roster[i], forTick);
        if roster[i] !in players || !players[roster[i]].connected || !isReady {
          return false;
        }
      }
      r := true;
    }

    method ApplyBossDamageForInput(id: string, input: Input, forTick: nat)
      requires RosterSound(Now())
      modifies this`boss, this`eventCount
      ensures Now() == Shoot(rules, old(Now()), id, input, forTick)
    {
      hide ReadyToStart, RosterSound, Register;
      if !IsBossMode(rules.modeId) || !input.shoot || boss.hp == 0 {
        return;
      }
      if !boss.started {
        var start := BossReadyToStartForTick(forTick);
        boss := boss.(started := start);
      }
      if !boss.started {
        return;
      }
      RegisterBossDamage(id, forTick, Min(SHOT_DAMAGE, boss.hp));
    }

    method RegisterBossDamage(id: string, forTick: nat, damage: nat)
      modifies this`boss, this`eventCount
      ensures Now() == Hurt(old(Now()), Register(old(boss), id, forTick, damage))
    {
      if boss.hp == 0 {
        return;
      }
      var applied := Min(damage, boss.hp);
      boss := boss.(hp := boss.hp - applied, total := boss.total + applied,
                    shares := boss.shares[id := DamageOf(boss.shares, id) + applied]);
      if boss.hp == 0 && boss.defeatedTick == 0 {
        boss := boss.(defeatedTick := forTick, defeats := boss.defeats + [Defeat(forTick, id, boss.total)]);
        eventCount := eventCount + 1;
      }
    }

    method ExecuteCastCard(id: string, slot: int, forTick: nat)
      modifies this`players, this`boss, this`bullets, this`eventCount, this`books
      ensures Now() == CastCard(rules, old(Now()), id, slot, forTick)
    {
      hide CardHand.ValidateCast, CardHand.AfterCast, Register, Entered;
      if id !in players {
        return;
      }
      var cast := CardHand.ValidateCast(rules.catalog, players[id].hand, slot, forTick);
      if !cast.Cast? {
        return;
      }
      CastHeld(rules, players[id].hand, slot, forTick);
      books := Entered(books, id, players[id].hand.cards[cast.slot]);
      var hand := CardHand.AfterCast(rules.catalog, players[id].hand, slot, forTick);
      players := players[id := players[id].(hand := hand)];
      if IsBossMode(rules.modeId) && cast.definition.damage > 0 && boss.hp > 0 {
        RegisterBossDamage(id, forTick, cast.definition.damage);
      }
      bullets := rules.effect(bullets, players, id, cast.definition, forTick);
    }

    method TickOnePlayer(id: string, enabled: bool, forTick: nat)
      requires RosterSound(Now())
      modifies this
      ensures Now() == TickPlayer(rules, old(Now()), id, enabled, forTick)
    {
      hide RosterSound, Shoot, CastCard, Connect, CardHand.Recovered, Axis, Clamp;
      if id !in players || !players[id].connected {
        return;
      }
      var player := players[id];
      var buffered := (forTick, id) in inputs;
      var input := player.lastInput.(tick := tick + 1);
      if buffered {
        input := inputs[(forTick, id)];
        player := player.(lastInput := input);
      }
      if !enabled {
        return;
      }
      if buffered {
        player := player.(silentTicks := 0);
      } else if rules.timeoutTicks > 0 {
        if player.silentTicks < rules.timeoutTicks {
          player := player.(silentTicks := player.silentTicks + 1);
        }
        if player.silentTicks >= rules.timeoutTicks {
          players := players[id := player];
          Reconnect(id, false);
          return;
        }
      }
      player := Move(player.(hand := CardHand.Recovered(player.hand)), input);
      players := players[id := player];
      if buffered {
        applied := applied + [input];
      }
      SameRoster(old(Now()), Now());
      ApplyBossDamageForInput(id, input, forTick);
      if buffered && input.cardSlot >= 0 {
        ExecuteCastCard(id, input.cardSlot, forTick);
      }
    }

    method TickAllPlayers(enabled: bool, forTick: nat)
      requires RosterSound(Now())
      modifies this
      ensures Now() == TickPlayers(rules, old(Now()), old(roster), enabled, forTick)
    {
      ghost var start := Now();
      var ids := roster;
      for i := 0 to |ids|
        invariant Now() == TickPlayers(rules, start, ids[..i], enabled, forTick)
      {
        TickPlayersBooks(rules, start, ids[..i], enabled, forTick);
        BooksParts(start, Now());
        hide TickPlayer, RosterSound, SameBooks;
        assert ids[..i + 1][..i] == ids[..i];
        TickOnePlayer(ids[i], enabled, forTick);
      }
      assert ids[..|ids|] == ids;
    }

    method ApplyReconnectModeAction(a: Action)
      modifies this`pendingReconnect, this`players, this`eventCount
      ensures Now() == ApplyReconnect(old(Now()), a)
    {
      pendingReconnect := pendingReconnect - {a.playerId};
      if a.playerId in players && !players[a.playerId].connected {
        players := players[a.playerId := players[a.playerId].(connected := true)];
        eventCount := eventCount + 1;
      }
      eventCount := eventCount + 1;
    }

    /** ApplyTransferCardModeAction; a rejected transfer leaves no event. */
    method ApplyTransferCard(a: Action)
      modifies this`transfers, this`eventCount
      ensures var here := Present(old(Now()), a.playerId) && Present(old(Now()), a.target);
        Now() == old(Now()).(transfers := Apply(old(transfers), a, here),
                             eventCount := if Made(old(transfers), a, here) then old(eventCount) + 1 else old(eventCount))
    {
      hide Apply, Made;
      var here := a.playerId in players && players[a.playerId].connected && a.target in players && players[a.target].connected;
      var made := Made(transfers, a, here);
      transfers := Apply(transfers, a, here);
      if made {
        eventCount := eventCount + 1;
      }
    }

    method ApplyOneAction(a: Action, forTick: nat)
      modifies this
      ensures Now() == ApplyAction(rules, old(Now()), a, forTick)
    {
      hide CastCard, Apply, Made, ApplyReconnect;
      if a.actionType == "reconnect" {
        ApplyReconnectModeAction(a);
        return;
      }
      if a.actionType == "transfer_card" {
        ApplyTransferCard(a);
        return;
      }
      if a.actionType == "ready" {
        ready := ready + {a.playerId};
        pendingReady := pendingReady - {a.playerId};
      } else if a.actionType == "cast_card" {
        ExecuteCastCard(a.playerId, if a.slot.Some? then a.slot.value else -1, forTick);
      }
      eventCount := eventCount + 1;
    }

    method ApplyModeActionsForTick(forTick: nat)
      modifies this
      ensures Now() == ActionsTick(rules, old(Now()), forTick)
    {
      ghost var start := Now();
      var actions := CardEffects.Sort(Split(queue, forTick, true), ActsBefore);
      hide CardEffects.Sort, Split, ActsBefore;
      for i := 0 to |actions|
        invariant Now() == ApplyActions(rules, start, actions[..i], forTick)
      {
        hide ApplyAction;
        assert actions[..i + 1][..i] == actions[..i];
        ApplyOneAction(actions[i], forTick);
      }
      assert actions[..|actions|] == actions;
      queue := Split(queue, forTick, false);
    }

    method Tick()
      requires Valid()
      modifies this
      ensures Valid() && Now() == SimSteps.Tick(rules, old(Now()))
    {
      hide Inv, EdgesKept, RosterSound, BossSound, TransfersSound, InputsSound, QueueSound, SequencesSound, AppliedSound,
        InputsTick, ActionsTick, Finish, SimSteps.Tick;
      TickKeepsInv(rules, Now());
      if IsBossMode(rules.modeId) && boss.hp == 0 {
        DefeatedTick(rules, Now());
        DropBuffers();
      } else {
        TickParts(rules, Now());
        InvParts(rules, Now());
        PlayTick();
      }
    }

    method DropBuffers()
      modifies this`inputs, this`queue, this`cleared
      ensures Now() == old(Now()).(inputs := map[], queue := [], cleared := true)
    {
      inputs, queue, cleared := map[], [], true;
    }

    method PlayTick()
      requires RosterSound(Now()) && BossSound(rules, Now())
      modifies this
      ensures Now() == Finish(rules, ActionsTick(rules, InputsTick(rules, old(Now()), old(tick) + 1), old(tick) + 1), old(tick) + 1)
    {
      hide RosterSound, BossSound, InputsTick, ActionsTick, Finish, SamePlayers, Split, WithoutTick;
      var forTick := tick + 1;
      InputsTickBooks(rules, Now(), forTick);
      PlayInputs(forTick);
      ActionsTickBooks(rules, Now(), forTick);
      ApplyModeActionsForTick(forTick);
      FinishTick(forTick);
    }

    method PlayInputs(forTick: nat)
      requires RosterSound(Now())
      modifies this
      ensures Now() == InputsTick(rules, old(Now()), forTick)
    {
      var enabled := BattleInputEnabledForTick(forTick);
      hide InputEnabled, TickPlayers, RosterSound;
      TickAllPlayers(enabled, forTick);
      inputs := WithoutTick(inputs, forTick);
      tick := forTick;
    }

    method BattleInputEnabledForTick(forTick: nat) returns (enabled: bool)
      requires RosterSound(Now())
      ensures enabled == InputEnabled(rules, Now(), forTick)
    {
      hide ReadyToStart, RosterSound;
      if IsBossMode(rules.modeId) && boss.hp == 0 {
        return false;
      }
      if !IsBossMode(rules.modeId) || boss.started {
        return true;
      }
      enabled := BossReadyToStartForTick(forTick);
    }

    method FinishTick(forTick: nat)
      requires RosterSound(Now())
      modifies this`boss, this`bullets, this`eventCount
      ensures Now() == Finish(rules, old(Now()), forTick)
    {
      hide ReadyToStart, RosterSound;
      if IsBossMode(rules.modeId) && !boss.started {
        var start := BossReadyToStartForTick(forTick);
        boss := boss.(started := start);
      }
      if !(IsBossMode(rules.modeId) && boss.hp == 0) {
        if Spawns(rules, |bullets|, boss.started, forTick) {
          eventCount := eventCount + 1;
        }
        bullets := rules.drift(bullets, players, forTick);
      }
    }
  }}
