/** What every step of the simulation keeps. */
module SimInvariants {
  import opened SimTypes
  import opened BossLedger
  import opened TransferLedger
  import opened SimSteps
  import CardHand
  import CardEffects

  // ---- The invariant, part by part ----

  ghost predicate RosterSound(s: State) {
    Distinct(s.roster) && forall id :: id in s.players <==> id in s.roster
  }

  ghost predicate BossSound(rules: Rules, s: State) {
    if BossMode(rules) then s.boss.maxHp == rules.bossMaxHp && Conserved(s.boss, s.roster) else s.boss == NO_BOSS
  }

  /** Until a tick after the defeat drops the queue, the transfers balance. */
  ghost predicate TransfersSound(rules: Rules, s: State) {
    && Named(s.queue)
    && (if s.cleared then
          Defeated(rules, s) && s.transfers.count == |s.transfers.edges|
          && forall card :: card in s.transfers.edges ==> card in s.transfers.reserved
        else Balanced(s.transfers, s.queue))
  }

  /** Every buffered input lies within the look-ahead, under its own tick and player. */
  ghost predicate InputsSound(rules: Rules, s: State) {
    forall k :: k in s.inputs ==>
      s.tick < k.0 <= s.tick + rules.maxTicksAhead && k.1 in s.players && s.inputs[k].tick == k.0 && s.inputs[k].playerId == k.1
  }

  ghost predicate QueueSound(rules: Rules, s: State) {
    forall i :: 0 <= i < |s.queue| ==>
      s.tick < s.queue[i].tick <= s.tick + rules.maxTicksAhead && s.queue[i].actionId in s.actionIds && s.queue[i].playerId in s.players
  }

  /** The accepted sequence numbers of one player, oldest first. */
  function SequencesOf(accepted: seq<Accepted>, id: string): seq<nat> {
    if accepted == [] then [] else
    SequencesOf(accepted[..|accepted| - 1], id)
      + (if accepted[|accepted| - 1].player == id then [accepted[|accepted| - 1].sequence] else [])
  }

  function Last(numbers: seq<nat>): nat {
    if numbers == [] then 0 else numbers[|numbers| - 1]
  }

  /** Each number is above the one before, by at most `gap`. */
  ghost predicate Climbs(numbers: seq<nat>, gap: nat) {
    forall i :: 0 <= i < |numbers| ==> Last(numbers[..i]) < numbers[i] <= Last(numbers[..i]) + gap
  }

  ghost predicate SequencesSound(rules: Rules, s: State) {
    forall id :: Sequenced(rules, s, id)
  }

  ghost predicate Sequenced(rules: Rules, s: State, id: string) {
    var numbers := SequencesOf(s.accepted, id);
    Climbs(numbers, rules.maxSequenceAhead) && Last(numbers) == if id in s.players then s.players[id].lastSequence else 0
  }

  /** Real inputs are applied at ticks gone by, at most one per player and tick. */
  ghost predicate AppliedSound(s: State) {
    && (forall i :: 0 <= i < |s.applied| ==> s.applied[i].tick <= s.tick)
    && forall i, j :: 0 <= i < j < |s.applied| ==>
         s.applied[i].tick != s.applied[j].tick || s.applied[i].playerId != s.applied[j].playerId
  }

  ghost predicate Inv(rules: Rules, s: State) {
    && RosterSound(s) && BossSound(rules, s) && TransfersSound(rules, s) && InputsSound(rules, s)
    && QueueSound(rules, s) && SequencesSound(rules, s) && AppliedSound(s)
  }

  lemma StartsSound(rules: Rules)
    requires BossMode(rules) ==> rules.bossMaxHp > 0
    ensures Inv(rules, Start(rules))
  {
    forall id
      ensures Sequenced(rules, Start(rules), id)
    {
    }
    forall card
      ensures Settled(NO_TRANSFERS, [], card)
    {
    }
  }

  // ---- Frames ----

  /** `t` differs from `s` in nothing the buffers, the transfers and the sequence numbers depend on. */
  ghost predicate SameBooks(s: State, t: State) {
    && t.tick == s.tick && t.roster == s.roster && t.transfers == s.transfers && t.inputs == s.inputs && t.queue == s.queue
    && t.actionIds == s.actionIds && t.accepted == s.accepted && t.cleared == s.cleared && SamePlayers(s, t)
  }

  ghost predicate SamePlayers(s: State, t: State) {
    && (forall id :: id in t.players <==> id in s.players)
    && forall id :: id in s.players && id in t.players ==> t.players[id].lastSequence == s.players[id].lastSequence
  }

  lemma PlayersTrans(s: State, t: State, u: State)
    requires SamePlayers(s, t) && SamePlayers(t, u)
    ensures SamePlayers(s, u)
  {
  }

  lemma BooksTrans(s: State, t: State, u: State)
    requires SameBooks(s, t) && SameBooks(t, u)
    ensures SameBooks(s, u)
  {
    PlayersTrans(s, t, u);
    hide SamePlayers;
  }

  lemma SequencesCarry(rules: Rules, s: State, t: State)
    requires SequencesSound(rules, s) && SamePlayers(s, t) && t.accepted == s.accepted
    ensures SequencesSound(rules, t)
  {
    forall id
      ensures Sequenced(rules, t, id)
    {
      assert Sequenced(rules, s, id);
    }
  }

  lemma RosterCarry(s: State, t: State)
    requires RosterSound(s) && SamePlayers(s, t) && t.roster == s.roster
    ensures RosterSound(t)
  {
  }

  lemma QueueCarry(rules: Rules, s: State, t: State)
    requires QueueSound(rules, s) && SamePlayers(s, t) && t.queue == s.queue && t.tick == s.tick && t.actionIds == s.actionIds
    ensures QueueSound(rules, t)
  {
  }

  lemma InputsCarry(rules: Rules, s: State, t: State)
    requires InputsSound(rules, s) && SamePlayers(s, t) && t.inputs == s.inputs && t.tick == s.tick
    ensures InputsSound(rules, t)
  {
  }

  // ---- Small steps ----

  lemma ConnectBooks(rules: Rules, s: State, id: string, connected: bool)
    requires id in s.players
    ensures SameBooks(s, Connect(rules, s, id, connected))
    ensures Connect(rules, s, id, connected).boss == s.boss && Connect(rules, s, id, connected).applied == s.applied
  {
  }

  lemma CastBooks(rules: Rules, s: State, id: string, slot: int, tick: nat)
    ensures SameBooks(s, CastCard(rules, s, id, slot, tick)) && CastCard(rules, s, id, slot, tick).applied == s.applied
  {
    hide CardHand.ValidateCast, CardHand.AfterCast;
  }

  lemma CastBoss(rules: Rules, s: State, id: string, slot: int, tick: nat)
    requires BossSound(rules, s) && RosterSound(s) && tick > 0
    ensures BossSound(rules, CastCard(rules, s, id, slot, tick))
  {
    hide CardHand.ValidateCast, CardHand.AfterCast, Register, Conserved, Distinct, IsBossMode;
    if id in s.players && BossMode(rules) {
      var r := CardHand.ValidateCast(rules.catalog, s.players[id].hand, slot, tick);
      if r.Cast? && r.definition.damage > 0 && s.boss.hp > 0 {
        RegisterConserves(s.boss, s.roster, id, tick, r.definition.damage);
      }
    }
  }

  lemma ShootBooks(rules: Rules, s: State, id: string, input: Input, tick: nat)
    ensures SameBooks(s, Shoot(rules, s, id, input, tick)) && Shoot(rules, s, id, input, tick).applied == s.applied
    ensures Shoot(rules, s, id, input, tick).players == s.players
  {
    hide Register, ReadyToStart;
  }

  lemma ShootBoss(rules: Rules, s: State, id: string, input: Input, tick: nat)
    requires BossSound(rules, s) && RosterSound(s) && tick > 0 && id in s.players
    ensures BossSound(rules, Shoot(rules, s, id, input, tick))
  {
    hide Register, ReadyToStart, Distinct, IsBossMode, SumOver;
    if BossMode(rules) && input.shoot && s.boss.hp != 0 {
      var begun := if s.boss.started then s.boss else s.boss.(started := ReadyToStart(rules, s, tick));
      assert Conserved(begun, s.roster);
      RegisterConserves(begun, s.roster, id, tick, Min(SHOT_DAMAGE, begun.hp));
    }
  }

  lemma HeardBooks(rules: Rules, s: State, id: string, tick: nat)
    requires id in s.players
    ensures SameBooks(s, s.(players := s.players[id := Heard(rules, s, id, tick)]))
  {
    hide SilentTicks;
  }

  lemma MovedBooks(rules: Rules, s: State, id: string, tick: nat)
    requires id in s.players
    ensures var moved := Moved(rules, s, id, tick);
      && SameBooks(s, moved) && moved.boss == s.boss && id in moved.players
      && moved.applied == (if (tick, id) in s.inputs then s.applied + [s.inputs[(tick, id)]] else s.applied)
  {
    hide SilentTicks, Axis, Clamp, CardHand.Recovered;
  }

  lemma PlayTickBooks(rules: Rules, s: State, id: string, tick: nat)
    requires id in s.players
    ensures SameBooks(s, PlayTick(rules, s, id, tick))
  {
    hide Silenced, Heard, Moved, Shoot, CastCard, Connect, SameBooks, TickInput;
    if Silenced(rules, s, id, tick) {
      var quiet := s.(players := s.players[id := Heard(rules, s, id, tick)]);
      HeardBooks(rules, s, id, tick);
      ConnectBooks(rules, quiet, id, false);
      BooksTrans(s, quiet, PlayTick(rules, s, id, tick));
    } else {
      var input, moved := TickInput(s, id, tick), Moved(rules, s, id, tick);
      var shot := Shoot(rules, moved, id, input, tick);
      MovedBooks(rules, s, id, tick);
      ShootBooks(rules, moved, id, input, tick);
      BooksTrans(s, moved, shot);
      CastBooks(rules, shot, id, input.cardSlot, tick);
      BooksTrans(s, shot, CastCard(rules, shot, id, input.cardSlot, tick));
    }
  }

  lemma BossOnlyNeeds(rules: Rules, s: State, t: State)
    requires BossSound(rules, s) && t.boss == s.boss && t.roster == s.roster
    ensures BossSound(rules, t)
  {
    hide Conserved;
  }

  lemma BooksParts(s: State, t: State)
    requires SameBooks(s, t)
    ensures t.tick == s.tick && t.roster == s.roster && t.transfers == s.transfers && t.inputs == s.inputs && t.queue == s.queue
    ensures t.actionIds == s.actionIds && t.accepted == s.accepted && t.cleared == s.cleared && SamePlayers(s, t)
    ensures forall id :: id in t.players <==> id in s.players
    ensures RosterSound(s) ==> RosterSound(t)
  {
  }

  lemma PlayTickBoss(rules: Rules, s: State, id: string, tick: nat)
    requires id in s.players && BossSound(rules, s) && RosterSound(s) && tick > 0
    ensures BossSound(rules, PlayTick(rules, s, id, tick))
  {
    hide Silenced, Heard, Moved, Shoot, CastCard, Connect, SameBooks, TickInput, BossSound, RosterSound;
    if Silenced(rules, s, id, tick) {
      var quiet := s.(players := s.players[id := Heard(rules, s, id, tick)]);
      BossOnlyNeeds(rules, s, quiet);
      ConnectBooks(rules, quiet, id, false);
      BooksParts(quiet, PlayTick(rules, s, id, tick));
      BossOnlyNeeds(rules, quiet, PlayTick(rules, s, id, tick));
    } else {
      var input, moved := TickInput(s, id, tick), Moved(rules, s, id, tick);
      MovedBooks(rules, s, id, tick);
      BooksParts(s, moved);
      BossOnlyNeeds(rules, s, moved);
      ShootBoss(rules, moved, id, input, tick);
      ShootBooks(rules, moved, id, input, tick);
      var shot := Shoot(rules, moved, id, input, tick);
      BooksParts(moved, shot);
      CastBoss(rules, shot, id, input.cardSlot, tick);
    }
  }

  /** A player's tick applies its buffered input, if any, and only that. */
  lemma PlayTickApplies(rules: Rules, s: State, id: string, tick: nat)
    requires id in s.players
    ensures PlayTick(rules, s, id, tick).applied ==
      if (tick, id) in s.inputs then s.applied + [s.inputs[(tick, id)]] else s.applied
  {
    hide Heard, Moved, Shoot, CastCard, Connect, SameBooks, SilentTicks;
    if Silenced(rules, s, id, tick) {
      ConnectBooks(rules, s.(players := s.players[id := Heard(rules, s, id, tick)]), id, false);
    } else {
      var input, moved := TickInput(s, id, tick), Moved(rules, s, id, tick);
      MovedBooks(rules, s, id, tick);
      ShootBooks(rules, moved, id, input, tick);
      CastBooks(rules, Shoot(rules, moved, id, input, tick), id, input.cardSlot, tick);
    }
  }

  // ---- All players of a tick ----

  lemma PlayTickOthers(rules: Rules, s: State, id: string, tick: nat, other: string)
    requires id in s.players && other in s.players && other != id
    ensures other in PlayTick(rules, s, id, tick).players && PlayTick(rules, s, id, tick).players[other] == s.players[other]
  {
    var moved := Moved(rules, s, id, tick);
    assert moved.players[other] == s.players[other];
    ShootBooks(rules, moved, id, TickInput(s, id, tick), tick);
    hide Heard, SilentTicks, TickInput, Moved, Shoot, CardHand.ValidateCast, CardHand.AfterCast, Register, SameBooks;
  }

  /** The buffered inputs a tick will apply: those of connected players, in order. */
  function AppliedAt(s: State, ids: seq<string>, enabled: bool, tick: nat): seq<Input> {
    if ids == [] then [] else
    var id := ids[|ids| - 1];
    AppliedAt(s, ids[..|ids| - 1], enabled, tick)
      + (if enabled && Present(s, id) && (tick, id) in s.inputs then [s.inputs[(tick, id)]] else [])
  }

  ghost predicate PlayersKept(s: State, t: State, ids: seq<string>) {
    forall other :: other in s.players && other !in ids ==> other in t.players && t.players[other] == s.players[other]
  }

  lemma {:induction false} TickPlayersBooks(rules: Rules, s: State, ids: seq<string>, enabled: bool, tick: nat)
    ensures SameBooks(s, TickPlayers(rules, s, ids, enabled, tick))
  {
    hide PlayTick;
    if ids != [] {
      var before, id := TickPlayers(rules, s, ids[..|ids| - 1], enabled, tick), ids[|ids| - 1];
      TickPlayersBooks(rules, s, ids[..|ids| - 1], enabled, tick);
      if id in before.players && before.players[id].connected && enabled {
        PlayTickBooks(rules, before, id, tick);
        BooksTrans(s, before, PlayTick(rules, before, id, tick));
      }
    }
  }

  lemma {:induction false} TickPlayersBoss(rules: Rules, s: State, ids: seq<string>, enabled: bool, tick: nat)
    requires BossSound(rules, s) && RosterSound(s) && tick > 0
    ensures BossSound(rules, TickPlayers(rules, s, ids, enabled, tick))
  {
    hide PlayTick, BossSound, SameBooks, RosterSound;
    if ids != [] {
      var before, id := TickPlayers(rules, s, ids[..|ids| - 1], enabled, tick), ids[|ids| - 1];
      TickPlayersBoss(rules, s, ids[..|ids| - 1], enabled, tick);
      TickPlayersBooks(rules, s, ids[..|ids| - 1], enabled, tick);
      BooksParts(s, before);
      if id in before.players && before.players[id].connected && enabled {
        PlayTickBoss(rules, before, id, tick);
      }
    }
  }

  lemma TickPlayerKeeps(rules: Rules, s: State, t: State, ids: seq<string>, id: string, enabled: bool, tick: nat)
    requires PlayersKept(s, t, ids) && SameBooks(s, t)
    ensures PlayersKept(s, TickPlayer(rules, t, id, enabled, tick), ids + [id])
  {
    hide PlayTick;
    var u := TickPlayer(rules, t, id, enabled, tick);
    forall other | other in s.players && other !in ids + [id]
      ensures other in u.players && u.players[other] == s.players[other]
    {
      if id in t.players {
        PlayTickOthers(rules, t, id, tick, other);
      }
    }
  }

  /** What a tick applies is read off the state it starts in. */
  lemma {:induction false} TickPlayersApply(rules: Rules, s: State, ids: seq<string>, enabled: bool, tick: nat)
    requires Distinct(ids)
    ensures TickPlayers(rules, s, ids, enabled, tick).applied == s.applied + AppliedAt(s, ids, enabled, tick)
    ensures PlayersKept(s, TickPlayers(rules, s, ids, enabled, tick), ids)
  {
    hide PlayTick, SameBooks;
    if ids != [] {
      var front, id := ids[..|ids| - 1], ids[|ids| - 1];
      var before := TickPlayers(rules, s, front, enabled, tick);
      TickPlayersApply(rules, s, front, enabled, tick);
      TickPlayersBooks(rules, s, front, enabled, tick);
      BooksParts(s, before);
      TickPlayerKeeps(rules, s, before, front, id, enabled, tick);
      assert front + [id] == ids;
      OneMoreApplied(rules, s, before, front, id, enabled, tick);
    }
  }

  lemma OneMoreApplied(rules: Rules, s: State, before: State, front: seq<string>, id: string, enabled: bool, tick: nat)
    requires Distinct(front + [id]) && PlayersKept(s, before, front) && before.inputs == s.inputs
    requires forall x :: x in before.players <==> x in s.players
    requires before.applied == s.applied + AppliedAt(s, front, enabled, tick)
    ensures TickPlayer(rules, before, id, enabled, tick).applied == s.applied + AppliedAt(s, front + [id], enabled, tick)
  {
    hide PlayTick, PlayersKept;
    assert (front + [id])[..|front|] == front;
    if id in before.players {
      SameBefore(s, before, front, id);
      PlayTickApplies(rules, before, id, tick);
    }
  }

  lemma SameBefore(s: State, before: State, front: seq<string>, id: string)
    requires Distinct(front + [id]) && PlayersKept(s, before, front) && id in s.players
    ensures id in before.players && before.players[id] == s.players[id]
  {
    LastIsNew(front, id);
  }

  lemma LastIsNew(front: seq<string>, id: string)
    requires Distinct(front + [id])
    ensures id !in front && Distinct(front)
  {
    forall k | 0 <= k < |front|
      ensures front[k] != id
    {
      assert (front + [id])[k] == front[k] && (front + [id])[|front|] == id;
    }
    assert forall k :: 0 <= k < |front| ==> (front + [id])[k] == front[k];
  }

  // ---- Exactly once ----

  lemma {:induction false} AppliedAtIs(s: State, ids: seq<string>, enabled: bool, tick: nat, i: nat)
    requires i < |AppliedAt(s, ids, enabled, tick)|
    ensures var input := AppliedAt(s, ids, enabled, tick)[i];
      exists k :: 0 <= k < |ids| && AppliesFor(s, ids[k], enabled, tick, input)
  {
    var n := |ids| - 1;
    var front, input := AppliedAt(s, ids[..n], enabled, tick), AppliedAt(s, ids, enabled, tick)[i];
    if i < |front| {
      AppliedAtIs(s, ids[..n], enabled, tick, i);
      var k :| 0 <= k < n && AppliesFor(s, ids[..n][k], enabled, tick, input);
      assert AppliesFor(s, ids[k], enabled, tick, input);
    } else {
      assert AppliesFor(s, ids[n], enabled, tick, input);
    }
  }

  predicate AppliesFor(s: State, id: string, enabled: bool, tick: nat, input: Input) {
    enabled && Present(s, id) && (tick, id) in s.inputs && input == s.inputs[(tick, id)]
  }

  lemma {:induction false} AppliedAtHas(s: State, ids: seq<string>, enabled: bool, tick: nat, id: string)
    requires id in ids && enabled && Present(s, id) && (tick, id) in s.inputs
    ensures s.inputs[(tick, id)] in AppliedAt(s, ids, enabled, tick)
  {
    var n := |ids| - 1;
    if ids[n] != id {
      AppliedAtHas(s, ids[..n], enabled, tick, id);
    }
  }

  /** Inputs of one tick, of different listed players. */
  ghost predicate OnePerPlayer(a: seq<Input>, ids: seq<string>, tick: nat) {
    && (forall i :: 0 <= i < |a| ==> a[i].tick == tick && a[i].playerId in ids)
    && forall i, j :: 0 <= i < j < |a| ==> a[i].playerId != a[j].playerId
  }

  lemma OnePerPlayerSnoc(a: seq<Input>, front: seq<string>, tick: nat, id: string, input: Input)
    requires OnePerPlayer(a, front, tick) && id !in front && input.tick == tick && input.playerId == id
    ensures OnePerPlayer(a + [input], front + [id], tick) && OnePerPlayer(a + [], front + [id], tick)
  {
    assert a + [] == a;
  }

  lemma OnePerPlayerWider(a: seq<Input>, front: seq<string>, tick: nat, id: string)
    requires OnePerPlayer(a, front, tick)
    ensures OnePerPlayer(a + [], front + [id], tick)
  {
    assert a + [] == a;
  }

  lemma {:induction false} AppliedAtDistinct(rules: Rules, s: State, ids: seq<string>, enabled: bool, tick: nat)
    requires Distinct(ids) && InputsSound(rules, s)
    ensures OnePerPlayer(AppliedAt(s, ids, enabled, tick), ids, tick)
  {
    if ids != [] {
      var front, id := ids[..|ids| - 1], ids[|ids| - 1];
      assert ids == front + [id];
      LastIsNew(front, id);
      AppliedAtDistinct(rules, s, front, enabled, tick);
      OnePerPlayerWider(AppliedAt(s, front, enabled, tick), front, tick, id);
      var k := (tick, id);
      if k in s.inputs {
        assert s.inputs[k].tick == k.0 && s.inputs[k].playerId == k.1;
        OnePerPlayerSnoc(AppliedAt(s, front, enabled, tick), front, tick, id, s.inputs[k]);
      }
      hide OnePerPlayer;
    }
  }

  lemma AppliedGrows(rules: Rules, s: State, t: State, enabled: bool)
    requires AppliedSound(s) && InputsSound(rules, s) && RosterSound(s) && t.tick == s.tick + 1
    requires t.applied == s.applied + AppliedAt(s, s.roster, enabled, s.tick + 1)
    ensures AppliedSound(t)
  {
    AppliedAtDistinct(rules, s, s.roster, enabled, s.tick + 1);
    hide AppliedAt, InputsSound, RosterSound;
  }

  /** The first half of a tick applies exactly the buffered inputs of the connected players, when input is
      enabled, and none otherwise; it drops exactly the tick's inputs. */
  lemma InputsTickExact(rules: Rules, s: State, t: nat)
    requires RosterSound(s)
    ensures InputsTick(rules, s, t).applied == s.applied + AppliedAt(s, s.roster, InputEnabled(rules, s, t), t)
    ensures forall k :: k in InputsTick(rules, s, t).inputs <==> k in s.inputs && k.0 != t
    ensures forall k :: k in InputsTick(rules, s, t).inputs ==> InputsTick(rules, s, t).inputs[k] == s.inputs[k]
  {
    hide InputEnabled, TickPlayers, AppliedAt, SameBooks;
    TickPlayersApply(rules, s, s.roster, InputEnabled(rules, s, t), t);
    TickPlayersBooks(rules, s, s.roster, InputEnabled(rules, s, t), t);
    BooksParts(s, TickPlayers(rules, s, s.roster, InputEnabled(rules, s, t), t));
  }

  /** A buffered input at its own tick: applied then if its player is connected and input is enabled, and
      gone from the buffer either way; nothing else is applied. */
  lemma BufferedInputAppliedOnce(rules: Rules, s: State, id: string, input: Input)
    requires Inv(rules, s) && !Defeated(rules, s)
    requires (s.tick + 1, id) in s.inputs && s.inputs[(s.tick + 1, id)] == input
    ensures var t := s.tick + 1;
      var after := InputsTick(rules, s, t);
      && (t, id) !in after.inputs && s.applied <= after.applied
      && (input in after.applied[|s.applied|..] <==> InputEnabled(rules, s, t) && Present(s, id))
  {
    var t := s.tick + 1;
    InputsTickExact(rules, s, t);
    var enabled := InputEnabled(rules, s, t);
    var a := AppliedAt(s, s.roster, enabled, t);
    var after := InputsTick(rules, s, t);
    hide InputEnabled, InputsTick, AppliedAt, BossSound, TransfersSound, QueueSound, SequencesSound, AppliedSound;
    assert after.applied[|s.applied|..] == a;
    if enabled && Present(s, id) {
      AppliedAtHas(s, s.roster, enabled, t, id);
    }
    if input in a {
      var i :| 0 <= i < |a| && a[i] == input;
      AppliedAtIs(s, s.roster, enabled, t, i);
      var k :| 0 <= k < |s.roster| && AppliesFor(s, s.roster[k], enabled, t, input);
      assert s.inputs[(t, s.roster[k])].playerId == s.roster[k];
    }
  }

  // ---- Mode actions of a tick ----

  lemma {:induction false} SplitCopies(queue: seq<Action>, tick: nat, card: string)
    ensures Copies(Split(queue, tick, true), card) + Copies(Split(queue, tick, false), card) == Copies(queue, card)
  {
    if queue != [] {
      var mine, others := Split(queue[1..], tick, true), Split(queue[1..], tick, false);
      SplitCopies(queue[1..], tick, card);
      CopiesCons(queue[0], mine, card);
      CopiesCons(queue[0], others, card);
      assert [] + mine == mine && [] + others == others;
    }
  }

  lemma {:induction false} InsertCopies(a: Action, s: seq<Action>, card: string)
    ensures Copies(CardEffects.Insert(a, s, ActsBefore), card) == Copies([a] + s, card)
  {
    hide ActsBefore;
    CopiesCons(a, s, card);
    if s != [] && !ActsBefore(a, s[0]) {
      InsertCopies(a, s[1..], card);
      CopiesCons(a, s[1..], card);
      CopiesCons(s[0], CardEffects.Insert(a, s[1..], ActsBefore), card);
    }
  }

  lemma {:induction false} SortCopies(s: seq<Action>, card: string)
    ensures Copies(CardEffects.Sort(s, ActsBefore), card) == Copies(s, card)
  {
    hide CardEffects.Insert, ActsBefore;
    if s != [] {
      SortCopies(s[1..], card);
      InsertCopies(s[0], CardEffects.Sort(s[1..], ActsBefore), card);
      CopiesCons(s[0], CardEffects.Sort(s[1..], ActsBefore), card);
    }
  }

  lemma {:induction false} SplitElements(queue: seq<Action>, tick: nat, mine: bool, i: nat)
    requires i < |Split(queue, tick, mine)|
    ensures Split(queue, tick, mine)[i] in queue && (Split(queue, tick, mine)[i].tick == tick) == mine
  {
    if (queue[0].tick == tick) == mine {
      if i > 0 {
        SplitElements(queue[1..], tick, mine, i - 1);
      }
    } else {
      SplitElements(queue[1..], tick, mine, i);
    }
  }

  lemma SortElements(s: seq<Action>, i: nat)
    requires i < |CardEffects.Sort(s, ActsBefore)|
    ensures CardEffects.Sort(s, ActsBefore)[i] in s
  {
    CardEffects.SortPermutes(s, ActsBefore);
    assert CardEffects.Sort(s, ActsBefore)[i] in multiset(s);
  }

  /** The actions of a tick in the order they are applied. */
  function Agenda(s: State, t: nat): seq<Action> {
    CardEffects.Sort(Split(s.queue, t, true), ActsBefore)
  }

  lemma AgendaNamed(s: State, t: nat)
    requires Named(s.queue)
    ensures Named(Agenda(s, t)) && Named(Split(s.queue, t, false))
  {
    hide CardEffects.Sort, ActsBefore, Split;
    forall i: nat | i < |Agenda(s, t)|
      ensures Agenda(s, t)[i] in s.queue
    {
      SortElements(Split(s.queue, t, true), i);
      var j :| 0 <= j < |Split(s.queue, t, true)| && Split(s.queue, t, true)[j] == Agenda(s, t)[i];
      SplitElements(s.queue, t, true, j);
    }
    forall i: nat | i < |Split(s.queue, t, false)|
      ensures Split(s.queue, t, false)[i] in s.queue
    {
      SplitElements(s.queue, t, false, i);
    }
  }

  lemma AgendaBalanced(s: State, t: nat)
    requires Balanced(s.transfers, s.queue)
    ensures Balanced(s.transfers, Agenda(s, t) + Split(s.queue, t, false))
  {
    hide CardEffects.Sort, ActsBefore, Split, Copies;
    forall card
      ensures Copies(s.queue, card) == Copies(Agenda(s, t) + Split(s.queue, t, false), card)
    {
      SplitCopies(s.queue, t, card);
      SortCopies(Split(s.queue, t, true), card);
      CopiesConcat(Agenda(s, t), Split(s.queue, t, false), card);
    }
    SameCopiesBalance(s.transfers, s.queue, Agenda(s, t) + Split(s.queue, t, false));
  }

  /** `t` differs from `s` in nothing the buffers and the sequence numbers depend on. */
  ghost predicate SameBuffers(s: State, t: State) {
    && t.tick == s.tick && t.roster == s.roster && t.inputs == s.inputs && t.queue == s.queue
    && t.actionIds == s.actionIds && t.accepted == s.accepted && t.cleared == s.cleared && t.applied == s.applied && SamePlayers(s, t)
  }

  lemma BuffersTrans(s: State, t: State, u: State)
    requires SameBuffers(s, t) && SameBuffers(t, u)
    ensures SameBuffers(s, u)
  {
    PlayersTrans(s, t, u);
    hide SamePlayers;
  }

  lemma BuffersParts(s: State, t: State)
    requires SameBuffers(s, t)
    ensures t.tick == s.tick && t.roster == s.roster && t.inputs == s.inputs && t.queue == s.queue
    ensures t.actionIds == s.actionIds && t.accepted == s.accepted && t.cleared == s.cleared && t.applied == s.applied && SamePlayers(s, t)
    ensures RosterSound(s) ==> RosterSound(t)
  {
  }

  lemma CastBuffers(rules: Rules, s: State, id: string, slot: int, tick: nat)
    ensures SameBuffers(s, CastCard(rules, s, id, slot, tick)) && CastCard(rules, s, id, slot, tick).transfers == s.transfers
  {
    CastBooks(rules, s, id, slot, tick);
    hide CastCard, SamePlayers;
  }

  lemma ReconnectBuffers(s: State, a: Action)
    ensures SameBuffers(s, ApplyReconnect(s, a))
    ensures ApplyReconnect(s, a).transfers == s.transfers && ApplyReconnect(s, a).boss == s.boss
  {
  }

  lemma CountedBuffers(s: State, t: State)
    requires SameBuffers(s, t)
    ensures SameBuffers(s, Counted(t))
  {
  }

  lemma SelfBuffers(s: State, t: State)
    requires t == s.(eventCount := t.eventCount, ready := t.ready, pendingReady := t.pendingReady, transfers := t.transfers)
    ensures SameBuffers(s, t)
  {
  }

  lemma ApplyActionBuffers(rules: Rules, s: State, a: Action, tick: nat)
    ensures SameBuffers(s, ApplyAction(rules, s, a, tick))
    ensures !IsTransfer(a) ==> ApplyAction(rules, s, a, tick).transfers == s.transfers
  {
    hide CastCard, Apply, Made, SameBuffers, ApplyReconnect;
    if a.actionType == "reconnect" {
      ReconnectBuffers(s, a);
    } else if a.actionType == "cast_card" {
      var slot := if a.slot.Some? then a.slot.value else -1;
      CastBuffers(rules, s, a.playerId, slot, tick);
      CountedBuffers(s, CastCard(rules, s, a.playerId, slot, tick));
    } else {
      SelfBuffers(s, ApplyAction(rules, s, a, tick));
    }
  }

  lemma ApplyActionBoss(rules: Rules, s: State, a: Action, tick: nat)
    requires BossSound(rules, s) && RosterSound(s) && tick > 0
    ensures BossSound(rules, ApplyAction(rules, s, a, tick))
  {
    hide CastCard, Apply, Made, SameBuffers, ApplyReconnect, BossSound, RosterSound;
    var t := ApplyAction(rules, s, a, tick);
    ApplyActionBuffers(rules, s, a, tick);
    BuffersParts(s, t);
    if a.actionType == "reconnect" {
      ReconnectBuffers(s, a);
      BossOnlyNeeds(rules, s, t);
    } else if a.actionType == "cast_card" {
      var slot := if a.slot.Some? then a.slot.value else -1;
      var cast := CastCard(rules, s, a.playerId, slot, tick);
      CastBoss(rules, s, a.playerId, slot, tick);
      CastBuffers(rules, s, a.playerId, slot, tick);
      BossOnlyNeeds(rules, cast, t);
    } else {
      BossOnlyNeeds(rules, s, t);
    }
  }

  lemma {:induction false} ApplyActionsBuffers(rules: Rules, s: State, actions: seq<Action>, tick: nat)
    ensures SameBuffers(s, ApplyActions(rules, s, actions, tick))
  {
    hide ApplyAction;
    if actions != [] {
      var before := ApplyActions(rules, s, actions[..|actions| - 1], tick);
      ApplyActionsBuffers(rules, s, actions[..|actions| - 1], tick);
      ApplyActionBuffers(rules, before, actions[|actions| - 1], tick);
      BuffersTrans(s, before, ApplyActions(rules, s, actions, tick));
    }
  }

  lemma {:induction false} ApplyActionsBoss(rules: Rules, s: State, actions: seq<Action>, tick: nat)
    requires BossSound(rules, s) && RosterSound(s) && tick > 0
    ensures BossSound(rules, ApplyActions(rules, s, actions, tick))
  {
    hide ApplyAction, BossSound, RosterSound, SameBuffers;
    if actions != [] {
      var before := ApplyActions(rules, s, actions[..|actions| - 1], tick);
      ApplyActionsBoss(rules, s, actions[..|actions| - 1], tick);
      ApplyActionsBuffers(rules, s, actions[..|actions| - 1], tick);
      BuffersParts(s, before);
      ApplyActionBoss(rules, before, actions[|actions| - 1], tick);
    }
  }

  /** Transfers already made stay, under the same two players. */
  ghost predicate EdgesKept(s: State, t: State) {
    forall card :: card in s.transfers.edges ==>
      card in t.transfers.edges && t.transfers.edges[card] == s.transfers.edges[card] && card in t.transfers.reserved
  }

  lemma ApplyActionBalances(rules: Rules, s: State, a: Action, rest: seq<Action>, tick: nat)
    requires Balanced(s.transfers, [a] + rest) && (IsTransfer(a) ==> a.card != "" && a.target != "")
    ensures Balanced(ApplyAction(rules, s, a, tick).transfers, rest)
    ensures EdgesKept(s, ApplyAction(rules, s, a, tick))
  {
    if IsTransfer(a) {
      TransferStep(rules, s, a, tick);
      ApplyBalances(s.transfers, a, rest, Present(s, a.playerId) && Present(s, a.target));
      hide Balanced, Apply, ApplyAction, Made;
    } else {
      SkipBalances(s.transfers, a, rest);
      ApplyActionBuffers(rules, s, a, tick);
      BalancedKeeps(s.transfers, rest);
      hide Balanced, ApplyAction;
    }
  }

  lemma TransferStep(rules: Rules, s: State, a: Action, tick: nat)
    requires IsTransfer(a)
    ensures ApplyAction(rules, s, a, tick).transfers == Apply(s.transfers, a, Present(s, a.playerId) && Present(s, a.target))
  {
    hide Apply, Made;
  }

  lemma BalancedKeeps(t: Transfers, queue: seq<Action>)
    requires Balanced(t, queue)
    ensures t.count == |t.edges| && forall card :: card in t.edges ==> card in t.reserved
  {
    hide Copies;
    forall card | card in t.edges
      ensures card in t.reserved
    {
      assert Settled(t, queue, card);
    }
  }

  lemma {:induction false} ApplyActionsBalances(rules: Rules, s: State, actions: seq<Action>, rest: seq<Action>, tick: nat)
    requires Balanced(s.transfers, actions + rest) && Named(actions)
    ensures Balanced(ApplyActions(rules, s, actions, tick).transfers, rest)
    ensures EdgesKept(s, ApplyActions(rules, s, actions, tick))
    decreases |actions|
  {
    if actions == [] {
      assert actions + rest == rest;
      BalancedKeeps(s.transfers, rest);
      hide Balanced;
    } else {
      var front, a := actions[..|actions| - 1], actions[|actions| - 1];
      assert actions + rest == front + ([a] + rest);
      hide Balanced, ApplyAction;
      ApplyActionsBalances(rules, s, front, [a] + rest, tick);
      var before := ApplyActions(rules, s, front, tick);
      ApplyActionBalances(rules, before, a, rest, tick);
    }
  }

  // ---- Whole ticks ----

  lemma WithoutTickKeeps(rules: Rules, s: State, t: State)
    requires InputsSound(rules, s) && SamePlayers(s, t) && t.tick == s.tick + 1
    requires t.inputs == WithoutTick(s.inputs, t.tick)
    ensures InputsSound(rules, t)
  {
  }

  lemma QueueSplits(rules: Rules, s: State, t: State)
    requires QueueSound(rules, s) && SamePlayers(s, t) && t.tick == s.tick + 1 && t.actionIds == s.actionIds
    requires t.queue == Split(s.queue, t.tick, false)
    ensures QueueSound(rules, t)
  {
    hide Split, SamePlayers;
    forall i: nat | i < |t.queue|
      ensures t.tick < t.queue[i].tick <= t.tick + rules.maxTicksAhead && t.queue[i].actionId in t.actionIds && t.queue[i].playerId in t.players
    {
      SplitElements(s.queue, t.tick, false, i);
      var j :| 0 <= j < |s.queue| && s.queue[j] == t.queue[i];
      SamePlayer(s, t, s.queue[j].playerId);
    }
  }

  lemma SamePlayer(s: State, t: State, id: string)
    requires SamePlayers(s, t)
    ensures id in t.players <==> id in s.players
  {
  }

  /** The books after the first half of a tick. */
  lemma InputsTickBooks(rules: Rules, s: State, t: nat)
    requires RosterSound(s) && BossSound(rules, s) && t > 0
    ensures var u := InputsTick(rules, s, t);
      && u.tick == t && u.roster == s.roster && u.transfers == s.transfers && u.queue == s.queue && u.actionIds == s.actionIds
      && u.accepted == s.accepted && u.cleared == s.cleared && SamePlayers(s, u) && u.inputs == WithoutTick(s.inputs, t)
      && BossSound(rules, u) && RosterSound(u)
  {
    var enabled := InputEnabled(rules, s, t);
    var played := TickPlayers(rules, s, s.roster, enabled, t);
    TickPlayersBooks(rules, s, s.roster, enabled, t);
    TickPlayersBoss(rules, s, s.roster, enabled, t);
    BooksParts(s, played);
    BossOnlyNeeds(rules, played, InputsTick(rules, s, t));
    hide TickPlayers, InputEnabled, BossSound, SameBooks;
  }

  lemma ActionsTickBooks(rules: Rules, s: State, t: nat)
    requires RosterSound(s) && BossSound(rules, s) && t > 0
    ensures var u := ActionsTick(rules, s, t);
      && u.tick == s.tick && u.roster == s.roster && u.inputs == s.inputs && u.queue == Split(s.queue, t, false)
      && u.actionIds == s.actionIds && u.accepted == s.accepted && u.cleared == s.cleared && u.applied == s.applied
      && SamePlayers(s, u) && BossSound(rules, u) && RosterSound(u)
  {
    var acted := ApplyActions(rules, s, Agenda(s, t), t);
    ApplyActionsBuffers(rules, s, Agenda(s, t), t);
    ApplyActionsBoss(rules, s, Agenda(s, t), t);
    BuffersParts(s, acted);
    BossOnlyNeeds(rules, acted, ActionsTick(rules, s, t));
    hide ApplyActions, Split, CardEffects.Sort, BossSound, RosterSound, SameBuffers, SamePlayers;
  }

  lemma ActionsTickBalances(rules: Rules, s: State, t: nat)
    requires Balanced(s.transfers, s.queue) && Named(s.queue)
    ensures Balanced(ActionsTick(rules, s, t).transfers, Split(s.queue, t, false)) && Named(Split(s.queue, t, false))
    ensures EdgesKept(s, ActionsTick(rules, s, t))
  {
    AgendaNamed(s, t);
    AgendaBalanced(s, t);
    ApplyActionsBalances(rules, s, Agenda(s, t), Split(s.queue, t, false), t);
    hide ApplyActions, Split, CardEffects.Sort, Balanced, Named;
  }

  lemma FinishKeeps(rules: Rules, s: State, t: nat)
    requires BossSound(rules, s)
    ensures var u := Finish(rules, s, t);
      && u == s.(boss := u.boss, bullets := u.bullets, eventCount := u.eventCount) && BossSound(rules, u)
      && u.boss == s.boss.(started := u.boss.started)
  {
    hide ReadyToStart, SumOver;
  }

  lemma TickParts(rules: Rules, s: State)
    requires !Defeated(rules, s)
    ensures Tick(rules, s) == Finish(rules, ActionsTick(rules, InputsTick(rules, s, s.tick + 1), s.tick + 1), s.tick + 1)
  {
    hide Finish, ActionsTick, InputsTick;
  }

  lemma NotCleared(rules: Rules, s: State)
    requires TransfersSound(rules, s) && !Defeated(rules, s)
    ensures !s.cleared && Balanced(s.transfers, s.queue) && Named(s.queue)
  {
    hide Balanced;
  }

  lemma TransfersAre(rules: Rules, s: State)
    requires Named(s.queue) && !s.cleared && Balanced(s.transfers, s.queue)
    ensures TransfersSound(rules, s)
  {
    hide Balanced;
  }

  lemma InvParts(rules: Rules, s: State)
    requires Inv(rules, s)
    ensures RosterSound(s) && BossSound(rules, s) && TransfersSound(rules, s) && InputsSound(rules, s)
    ensures QueueSound(rules, s) && SequencesSound(rules, s) && AppliedSound(s)
  {
  }

  lemma InvMake(rules: Rules, s: State)
    requires RosterSound(s) && BossSound(rules, s) && TransfersSound(rules, s) && InputsSound(rules, s)
    requires QueueSound(rules, s) && SequencesSound(rules, s) && AppliedSound(s)
    ensures Inv(rules, s)
  {
  }

  /** The middle of a tick with every part but the final one accounted for. */
  lemma MiddleSound(rules: Rules, s: State)
    requires Inv(rules, s) && !Defeated(rules, s)
    ensures var t := s.tick + 1;
      var u := ActionsTick(rules, InputsTick(rules, s, t), t);
      Inv(rules, u) && u.tick == t && EdgesKept(s, u) && s.applied <= u.applied
  {
    hide *;
    var t := s.tick + 1;
    var m := InputsTick(rules, s, t);
    var u := ActionsTick(rules, m, t);
    InvParts(rules, s);
    NotCleared(rules, s);
    InputsTickBooks(rules, s, t);
    InputsTickExact(rules, s, t);
    ActionsTickBooks(rules, m, t);
    ActionsTickBalances(rules, m, t);
    PlayersTrans(s, m, u);
    EdgesFrom(s, m, u);
    AppliedGrows(rules, s, u, InputEnabled(rules, s, t));
    WithoutTickKeeps(rules, s, u);
    QueueSplits(rules, s, u);
    SequencesCarry(rules, s, u);
    TransfersAre(rules, u);
    InvMake(rules, u);
  }

  lemma EdgesFrom(s: State, m: State, u: State)
    requires m.transfers == s.transfers && EdgesKept(m, u)
    ensures EdgesKept(s, u)
  {
  }

  lemma FinishInv(rules: Rules, s: State, t: nat)
    requires Inv(rules, s) && !s.cleared
    ensures Inv(rules, Finish(rules, s, t)) && Finish(rules, s, t).transfers == s.transfers
    ensures Finish(rules, s, t).applied == s.applied && Finish(rules, s, t).tick == s.tick
  {
    var u := Finish(rules, s, t);
    FinishKeeps(rules, s, t);
    SamePlayersSelf(s, u);
    SequencesCarry(rules, s, u);
    RosterCarry(s, u);
    QueueCarry(rules, s, u);
    InputsCarry(rules, s, u);
    hide Finish, BossSound, Balanced, Settled, Named, SequencesSound, QueueSound, InputsSound, RosterSound, SamePlayers;
  }

  lemma SamePlayersSelf(s: State, t: State)
    requires t.players == s.players
    ensures SamePlayers(s, t)
  {
  }

  lemma MiddleOpen(rules: Rules, s: State)
    requires Inv(rules, s) && !Defeated(rules, s)
    ensures !ActionsTick(rules, InputsTick(rules, s, s.tick + 1), s.tick + 1).cleared
  {
    hide *;
    InvParts(rules, s);
    NotCleared(rules, s);
    InputsTickBooks(rules, s, s.tick + 1);
    ActionsTickBooks(rules, InputsTick(rules, s, s.tick + 1), s.tick + 1);
  }

  /** A tick keeps every invariant, and every transfer made before it. */
  lemma TickKeepsInv(rules: Rules, s: State)
    requires Inv(rules, s)
    ensures Inv(rules, Tick(rules, s)) && EdgesKept(s, Tick(rules, s)) && s.applied <= Tick(rules, s).applied
    ensures s.tick <= Tick(rules, s).tick
  {
    if Defeated(rules, s) {
      DefeatedTick(rules, s);
    } else {
      hide *;
      MiddleSound(rules, s);
      MiddleOpen(rules, s);
      TickParts(rules, s);
      var t := s.tick + 1;
      var u := ActionsTick(rules, InputsTick(rules, s, t), t);
      FinishInv(rules, u, t);
      EdgesSame(s, u, Tick(rules, s));
    }
  }

  lemma EdgesSame(s: State, u: State, v: State)
    requires EdgesKept(s, u) && v.transfers == u.transfers
    ensures EdgesKept(s, v)
  {
  }

  lemma DefeatedTick(rules: Rules, s: State)
    requires Inv(rules, s) && Defeated(rules, s)
    ensures Inv(rules, Tick(rules, s)) && EdgesKept(s, Tick(rules, s))
    ensures Tick(rules, s) == s.(inputs := map[], queue := [], cleared := true)
  {
    var u := Tick(rules, s);
    SamePlayersSelf(s, u);
    SequencesCarry(rules, s, u);
    RosterCarry(s, u);
    if !s.cleared {
      BalancedKeeps(s.transfers, s.queue);
    }
    hide Conserved, Balanced, SequencesSound, RosterSound, SamePlayers;
  }

  // ---- The other steps ----

  lemma AcceptedSnoc(accepted: seq<Accepted>, player: string, sequence: nat, id: string)
    ensures SequencesOf(accepted + [Accepted(player, sequence)], id)
      == SequencesOf(accepted, id) + (if player == id then [sequence] else [])
  {
    assert (accepted + [Accepted(player, sequence)])[..|accepted|] == accepted;
  }

  lemma ClimbsSnoc(numbers: seq<nat>, next: nat, gap: nat)
    requires Climbs(numbers, gap) && Last(numbers) < next <= Last(numbers) + gap
    ensures Climbs(numbers + [next], gap)
  {
    forall i | 0 <= i <= |numbers|
      ensures Last((numbers + [next])[..i]) < (numbers + [next])[i] <= Last((numbers + [next])[..i]) + gap
    {
      assert (numbers + [next])[..i] == numbers[..i];
      if i == |numbers| {
        assert numbers[..i] == numbers;
      }
    }
  }

  /** One more accepted number of one player, which becomes its last. */
  lemma SequencesGrow(rules: Rules, s: State, t: State, player: string, sequence: nat)
    requires SequencesSound(rules, s) && player in s.players && t.accepted == s.accepted + [Accepted(player, sequence)]
    requires s.players[player].lastSequence < sequence <= s.players[player].lastSequence + rules.maxSequenceAhead
    requires t.players == s.players[player := s.players[player].(lastSequence := sequence)]
    ensures SequencesSound(rules, t)
  {
    forall id
      ensures Sequenced(rules, t, id)
    {
      assert Sequenced(rules, s, id);
      AcceptedSnoc(s.accepted, player, sequence, id);
      hide SequencesOf;
      if id == player {
        ClimbsSnoc(SequencesOf(s.accepted, id), sequence, rules.maxSequenceAhead);
      } else {
        assert SequencesOf(s.accepted, id) + [] == SequencesOf(s.accepted, id);
      }
    }
  }

  lemma ValidInput(rules: Rules, s: State, input: Input)
    requires InputFault(rules, s, input) == ""
    ensures input.playerId in s.players && !Defeated(rules, s)
    ensures s.players[input.playerId].lastSequence < input.sequence <= s.players[input.playerId].lastSequence + rules.maxSequenceAhead
    ensures s.tick < input.tick <= s.tick + rules.maxTicksAhead && (input.tick, input.playerId) !in s.inputs
  {
    hide AuditToken;
  }

  lemma AcceptInputKeepsInv(rules: Rules, s: State, input: Input)
    requires Inv(rules, s)
    ensures Inv(rules, AcceptInput(rules, s, input)) && EdgesKept(s, AcceptInput(rules, s, input))
  {
    var t := AcceptInput(rules, s, input);
    InvParts(rules, s);
    StepEdges(rules, s, s);
    if InputFault(rules, s, input) == "" {
      ValidInput(rules, s, input);
      NotCleared(rules, s);
      SequencesGrow(rules, s, t, input.playerId, input.sequence);
      hide InputFault, Defeated, BossSound, SequencesSound, Balanced, Named, Conserved, TransfersSound, AppliedSound, Distinct;
      InputBuffered(rules, s, t, input);
      BossOnlyNeeds(rules, s, t);
      TransfersAre(rules, t);
      AppliedCarry(s, t);
      InvMake(rules, t);
    }
  }

  lemma AppliedCarry(s: State, t: State)
    requires AppliedSound(s) && t.applied == s.applied && s.tick <= t.tick
    ensures AppliedSound(t)
  {
  }

  lemma InputBuffered(rules: Rules, s: State, t: State, input: Input)
    requires RosterSound(s) && InputsSound(rules, s) && QueueSound(rules, s) && input.playerId in s.players
    requires s.tick < input.tick <= s.tick + rules.maxTicksAhead
    requires t.inputs == s.inputs[(input.tick, input.playerId) := input] && t.tick == s.tick && t.roster == s.roster
    requires t.queue == s.queue && t.actionIds == s.actionIds && forall id :: id in t.players <==> id in s.players
    ensures RosterSound(t) && InputsSound(rules, t) && QueueSound(rules, t)
  {
  }

  /** A state that keeps the transfers keeps the edges. */
  lemma StepEdges(rules: Rules, s: State, t: State)
    requires TransfersSound(rules, s) && t.transfers == s.transfers
    ensures EdgesKept(s, t)
  {
    if !s.cleared {
      BalancedKeeps(s.transfers, s.queue);
    }
    hide Balanced;
  }

  lemma QueueEdges(rules: Rules, s: State, t: State, a: Action)
    requires TransfersSound(rules, s) && a.card in s.transfers.cards && t.transfers == Queue(s.transfers, a)
    ensures EdgesKept(s, t)
  {
    StepEdges(rules, s, s);
  }

  lemma ActionQueued(rules: Rules, s: State, t: State, a: Action)
    requires RosterSound(s) && InputsSound(rules, s) && QueueSound(rules, s) && a.playerId in s.players
    requires s.tick < a.tick <= s.tick + rules.maxTicksAhead
    requires t.queue == s.queue + [a] && t.actionIds == s.actionIds + {a.actionId} && t.tick == s.tick && t.roster == s.roster
    requires t.inputs == s.inputs && forall id :: id in t.players <==> id in s.players
    ensures RosterSound(t) && InputsSound(rules, t) && QueueSound(rules, t)
  {
  }

  lemma AcceptActionKeepsInv(rules: Rules, s: State, a: Action)
    requires Inv(rules, s)
    ensures Inv(rules, AcceptAction(rules, s, a)) && EdgesKept(s, AcceptAction(rules, s, a))
  {
    var t := AcceptAction(rules, s, a);
    InvParts(rules, s);
    StepEdges(rules, s, s);
    if ActionFault(rules, s, a) == "" {
      AcceptedFacts(rules, s, a);
      NotCleared(rules, s);
      hide ActionFault, Defeated, BossSound, SequencesSound, Balanced, Named, Conserved, TransfersSound, AppliedSound, Distinct,
        RosterSound, InputsSound, QueueSound, EdgesKept, Queue;
      SequencesGrow(rules, s, t, a.playerId, a.sequence);
      ActionQueued(rules, s, t, a);
      BossOnlyNeeds(rules, s, t);
      AppliedCarry(s, t);
      if IsTransfer(a) {
        QueueBalances(s.transfers, s.queue, a);
        QueueEdges(rules, s, t, a);
      } else {
        OtherQueueBalances(s.transfers, s.queue, a);
        StepEdges(rules, s, t);
      }
      NamedSnoc(s.queue, a);
      TransfersAre(rules, t);
      InvMake(rules, t);
    }
  }

  lemma NamedSnoc(queue: seq<Action>, a: Action)
    requires Named(queue) && (IsTransfer(a) ==> a.card != "" && a.target != "")
    ensures Named(queue + [a])
  {
  }

  lemma ConnectKeepsInv(rules: Rules, s: State, id: string, connected: bool)
    requires Inv(rules, s) && id in s.players
    ensures Inv(rules, Connect(rules, s, id, connected)) && EdgesKept(s, Connect(rules, s, id, connected))
  {
    var t := Connect(rules, s, id, connected);
    hide Connect, Inv, SameBooks, BossSound, TransfersSound, InputsSound, QueueSound, SequencesSound, AppliedSound, RosterSound, SamePlayers;
    InvParts(rules, s);
    ConnectBooks(rules, s, id, connected);
    BooksKeepInv(rules, s, t);
  }

  /** A step that changes only what the invariant does not look at keeps it. */
  lemma BooksKeepInv(rules: Rules, s: State, t: State)
    requires Inv(rules, s) && SameBooks(s, t) && t.boss == s.boss && t.applied == s.applied
    ensures Inv(rules, t) && EdgesKept(s, t)
  {
    hide *;
    InvParts(rules, s);
    BooksParts(s, t);
    SequencesCarry(rules, s, t);
    QueueCarry(rules, s, t);
    InputsCarry(rules, s, t);
    AppliedCarry(s, t);
    BossOnlyNeeds(rules, s, t);
    TransfersCarry(rules, s, t);
    StepEdges(rules, s, t);
    InvMake(rules, t);
  }

  lemma TransfersCarry(rules: Rules, s: State, t: State)
    requires TransfersSound(rules, s) && t.transfers == s.transfers && t.queue == s.queue && t.cleared == s.cleared && t.boss == s.boss
    ensures TransfersSound(rules, t)
  {
    hide Balanced, Named;
  }

  lemma SeedKeepsInv(rules: Rules, s: State, id: string, seed: ServerSeed, opening: seq<string>, energy: real, deck: seq<string>)
    requires Inv(rules, s)
    ensures Inv(rules, SeedHand(s, id, seed, opening, energy, deck)) && EdgesKept(s, SeedHand(s, id, seed, opening, energy, deck))
  {
    hide Inv, EdgesKept;
    var t := SeedHand(s, id, seed, opening, energy, deck);
    assert SameBooks(s, t);
    BooksKeepInv(rules, s, t);
  }

  lemma ConfigureKeepsInv(rules: Rules, s: State, id: string, card: Card)
    requires Inv(rules, s)
    ensures Inv(rules, Configure(rules, s, id, card)) && EdgesKept(s, Configure(rules, s, id, card))
  {
    var t := Configure(rules, s, id, card);
    InvParts(rules, s);
    StepEdges(rules, s, s);
    SamePlayersSelf(s, t);
    SequencesCarry(rules, s, t);
    QueueCarry(rules, s, t);
    InputsCarry(rules, s, t);
    RosterCarry(s, t);
    CardsBalance(s.transfers, s.queue, t.transfers.cards);
    hide AuditToken, SequencesSound, QueueSound, InputsSound, RosterSound, SamePlayers, Conserved, Balanced, Named, Settled;
  }

  lemma CardsBalance(t: Transfers, queue: seq<Action>, cards: map<string, Card>)
    ensures Balanced(t, queue) ==> Balanced(t.(cards := cards), queue)
  {
    if Balanced(t, queue) {
      forall card
        ensures Settled(t.(cards := cards), queue, card)
      {
        assert Settled(t, queue, card);
      }
    }
  }
}
