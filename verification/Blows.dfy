/** How much damage the players of a boss match do in src/simulation.cpp: ten for a shot, its damage for a card,
    no more than what is left, and credited to whoever did it. */
module Blows {
  import opened SimTypes
  import opened SimSteps
  import opened BossLedger
  import opened Positions
  import SimInvariants
  import CardHand
  import CardEffects
  import TransferLedger

  /** The boss `c` is `b` after `player` hit it for `n`: what was left counts, for the player alone. */
  ghost predicate Hit(b: Boss, c: Boss, player: string, n: nat) {
    && c.hp == (if n >= b.hp then 0 else b.hp - n)
    && c.total == b.total + (b.hp - c.hp) && c.started == b.started && c.maxHp == b.maxHp
    && DamageOf(c.shares, player) == DamageOf(b.shares, player) + (b.hp - c.hp)
    && forall other :: other != player ==> DamageOf(c.shares, other) == DamageOf(b.shares, other)
  }

  lemma RegisterHits(b: Boss, player: string, tick: nat, n: nat)
    ensures Hit(b, Register(b, player, tick, n), player, n)
  {
  }

  lemma Unhit(b: Boss, player: string)
    ensures Hit(b, b, player, 0)
  {
  }

  lemma HitTwice(a: Boss, b: Boss, c: Boss, player: string, m: nat, n: nat)
    requires Hit(a, b, player, m) && Hit(b, c, player, n)
    ensures Hit(a, c, player, m + n)
  {
  }

  // ---- A shot, a card ----

  predicate Fighting(rules: Rules, s: State) {
    BossRules(rules) && s.boss.started
  }

  /** Once combat has begun a shot does ten, whoever fires it. */
  lemma ShotHits(rules: Rules, s: State, id: string, input: Input, tick: nat)
    requires Fighting(rules, s)
    ensures Hit(s.boss, Shoot(rules, s, id, input, tick).boss, id, if input.shoot then 10 else 0)
  {
    Unhit(s.boss, id);
    if input.shoot && s.boss.hp != 0 {
      RegisterHits(s.boss, id, tick, Min(SHOT_DAMAGE, s.boss.hp));
    }
    hide Register, ReadyToStart;
  }

  /** The damage of casting the card in the slot, none when the cast is refused. */
  function CardDamage(rules: Rules, hand: CardHand.HandState, slot: int, tick: nat): nat {
    var r := CardHand.ValidateCast(rules.catalog, hand, slot, tick);
    if r.Cast? && r.definition.damage > 0 then r.definition.damage else 0
  }

  /** An accepted cast does the damage of its card, a refused one none. */
  lemma CastHits(rules: Rules, s: State, id: string, slot: int, tick: nat)
    requires BossRules(rules) && id in s.players
    ensures Hit(s.boss, CastCard(rules, s, id, slot, tick).boss, id, CardDamage(rules, s.players[id].hand, slot, tick))
  {
    Unhit(s.boss, id);
    var r := CardHand.ValidateCast(rules.catalog, s.players[id].hand, slot, tick);
    if r.Cast? && r.definition.damage > 0 {
      RegisterHits(s.boss, id, tick, r.definition.damage);
    }
    hide Register, CardHand.ValidateCast, CardHand.AfterCast;
  }

  // ---- A player's part of a tick ----

  /** What a player who plays the next tick does to the boss: his shot, and his card when it is a real input. */
  function Blow(rules: Rules, s: State, id: string): nat {
    if !Plays(rules, s, id) then 0 else
    (if Pressed(s, id).shoot then 10 else 0)
    + (if (s.tick + 1, id) in s.inputs && Pressed(s, id).cardSlot >= 0
       then CardDamage(rules, CardHand.Recovered(s.players[id].hand), Pressed(s, id).cardSlot, s.tick + 1) else 0)
  }

  lemma PressedFully(s: State, u: State, id: string)
    requires id in s.players && id in u.players && u.players[id] == s.players[id] && u.inputs == s.inputs
    ensures var i, j := TickInput(u, id, s.tick + 1), Pressed(s, id); i.shoot == j.shoot && i.cardSlot == j.cardSlot
  {
  }

  lemma MovedIs(rules: Rules, u: State, id: string, tick: nat)
    requires id in u.players
    ensures var t := Moved(rules, u, id, tick);
      id in t.players && t.boss == u.boss && t.players[id].hand == CardHand.Recovered(u.players[id].hand)
  {
    hide SilentTicks, Axis, Clamp, CardHand.Recovered;
  }

  lemma ShotHands(rules: Rules, s: State, id: string, input: Input, tick: nat)
    ensures Shoot(rules, s, id, input, tick).players == s.players
  {
    hide Register, ReadyToStart;
  }

  lemma PlayHits(rules: Rules, u: State, id: string, tick: nat)
    requires Fighting(rules, u) && id in u.players && !Silenced(rules, u, id, tick)
    ensures var input := TickInput(u, id, tick);
      Hit(u.boss, PlayTick(rules, u, id, tick).boss, id,
        (if input.shoot then 10 else 0)
        + (if (tick, id) in u.inputs && input.cardSlot >= 0 then CardDamage(rules, CardHand.Recovered(u.players[id].hand), input.cardSlot, tick) else 0))
  {
    hide Silenced, Moved, Shoot, CastCard, TickInput, CardDamage, Hit, CardHand.Recovered;
    var input, moved := TickInput(u, id, tick), Moved(rules, u, id, tick);
    var shot := Shoot(rules, moved, id, input, tick);
    MovedIs(rules, u, id, tick);
    ShotHits(rules, moved, id, input, tick);
    ShotHands(rules, moved, id, input, tick);
    if (tick, id) in u.inputs && input.cardSlot >= 0 {
      CastHits(rules, shot, id, input.cardSlot, tick);
      HitTwice(u.boss, shot.boss, CastCard(rules, shot, id, input.cardSlot, tick).boss, id, if input.shoot then 10 else 0,
               CardDamage(rules, CardHand.Recovered(u.players[id].hand), input.cardSlot, tick));
    }
  }

  lemma SilentHitsNobody(rules: Rules, u: State, id: string, tick: nat)
    requires id in u.players && Silenced(rules, u, id, tick)
    ensures PlayTick(rules, u, id, tick).boss == u.boss
  {
    hide SilentTicks;
  }

  lemma TickPlayerHits(rules: Rules, s: State, u: State, id: string)
    requires id in s.players && id in u.players && u.players[id] == s.players[id] && u.inputs == s.inputs && Fighting(rules, u)
    ensures Hit(u.boss, TickPlayer(rules, u, id, InputEnabled(rules, s, s.tick + 1), s.tick + 1).boss, id, Blow(rules, s, id))
  {
    var t := s.tick + 1;
    InputCountsIs(rules, s);
    SilencedIs(rules, s, u, id);
    PressedFully(s, u, id);
    Unhit(u.boss, id);
    hide InputEnabled, InputCounts, Silenced, PlayTick, TickInput, FallsSilent, Pressed, Hit, CardDamage, CardHand.Recovered;
    if s.players[id].connected && InputEnabled(rules, s, t) {
      if Silenced(rules, u, id, t) {
        SilentHitsNobody(rules, u, id, t);
      } else {
        PlayHits(rules, u, id, t);
      }
    }
  }

  // ---- All players ----

  function Blows(rules: Rules, s: State, ids: seq<string>): nat {
    if ids == [] then 0 else Blows(rules, s, ids[..|ids| - 1]) + Blow(rules, s, ids[|ids| - 1])
  }

  /** What counts of a blow after others of that sum: what they left of the hit points, at most. */
  function Counts(hp: nat, before: nat, blow: nat): nat {
    if before >= hp then 0 else Min(blow, hp - before)
  }

  /** The boss after hits of these players: what they did in all, or what was left; each is credited what counts
      of his own, in their order. */
  ghost predicate HitBy(rules: Rules, s: State, c: Boss, ids: seq<string>) {
    && c.hp == (if Blows(rules, s, ids) >= s.boss.hp then 0 else s.boss.hp - Blows(rules, s, ids))
    && c.started == s.boss.started && c.total == s.boss.total + (s.boss.hp - c.hp)
    && (forall k :: 0 <= k < |ids| ==> Credited(rules, s, c, ids, k))
    && forall id :: id !in ids ==> DamageOf(c.shares, id) == DamageOf(s.boss.shares, id)
  }

  ghost predicate Credited(rules: Rules, s: State, c: Boss, ids: seq<string>, k: nat)
    requires k < |ids|
  {
    DamageOf(c.shares, ids[k]) == DamageOf(s.boss.shares, ids[k]) + Counts(s.boss.hp, Blows(rules, s, ids[..k]), Blow(rules, s, ids[k]))
  }

  lemma HitByMore(rules: Rules, s: State, b: Boss, c: Boss, ids: seq<string>, id: string)
    requires HitBy(rules, s, b, ids) && Hit(b, c, id, Blow(rules, s, id)) && id !in ids
    ensures HitBy(rules, s, c, ids + [id])
  {
    var all := ids + [id];
    assert all[..|ids|] == ids && all[|ids|] == id;
    hide Blow;
    forall k: nat | k < |all|
      ensures Credited(rules, s, c, all, k)
    {
      if k < |ids| {
        assert all[..k] == ids[..k] && all[k] == ids[k];
        assert Credited(rules, s, b, ids, k);
      }
    }
  }

  lemma {:induction false} PlayersHit(rules: Rules, s: State, ids: seq<string>)
    requires Distinct(ids) && Fighting(rules, s) && forall id :: id in ids ==> id in s.players
    ensures var u := TickPlayers(rules, s, ids, InputEnabled(rules, s, s.tick + 1), s.tick + 1);
      && HitBy(rules, s, u.boss, ids) && u.inputs == s.inputs
      && (forall id :: id in u.players <==> id in s.players)
      && forall id :: id in s.players && id in u.players && id !in ids ==> u.players[id] == s.players[id]
    decreases |ids|
  {
    hide InputEnabled, TickPlayer, Blow, HitBy, Hit;
    if ids == [] {
      NobodyHits(rules, s);
    } else {
      var front, last := ids[..|ids| - 1], ids[|ids| - 1];
      var enabled, t := InputEnabled(rules, s, s.tick + 1), s.tick + 1;
      var u := TickPlayers(rules, s, front, enabled, t);
      var v := TickPlayer(rules, u, last, enabled, t);
      PlayersHit(rules, s, front);
      assert last !in front && ids == front + [last];
      StillFighting(rules, s, u, front);
      TickPlayerHits(rules, s, u, last);
      HitByMore(rules, s, u.boss, v.boss, front, last);
      SimInvariants.TickPlayersBooks(rules, s, ids, enabled, t);
      SimInvariants.BooksParts(s, v);
      forall id | id in s.players && id !in ids
        ensures id in v.players && v.players[id] == s.players[id]
      {
        TickPlayerOthers(rules, u, last, enabled, t, id);
      }
    }
  }

  lemma NobodyHits(rules: Rules, s: State)
    ensures HitBy(rules, s, s.boss, [])
  {
    hide Blow;
  }

  lemma StillFighting(rules: Rules, s: State, u: State, ids: seq<string>)
    requires Fighting(rules, s) && HitBy(rules, s, u.boss, ids)
    ensures Fighting(rules, u)
  {
    hide Blows, Blow;
  }

  // ---- A whole tick ----

  /** No card is cast by a mode action of the next tick. */
  predicate NoCastQueued(s: State) {
    forall i :: 0 <= i < |s.queue| && s.queue[i].tick == s.tick + 1 ==> s.queue[i].actionType != "cast_card"
  }

  lemma {:induction false} SplitTick(queue: seq<Action>, tick: nat)
    ensures forall a :: a in Split(queue, tick, true) ==> a in queue && a.tick == tick
  {
    if queue != [] {
      SplitTick(queue[1..], tick);
    }
  }

  lemma AgendaCastless(s: State)
    requires NoCastQueued(s)
    ensures forall a :: a in CardEffects.Sort(Split(s.queue, s.tick + 1, true), ActsBefore) ==> a.actionType != "cast_card"
  {
    var mine := Split(s.queue, s.tick + 1, true);
    var sorted := CardEffects.Sort(mine, ActsBefore);
    SplitTick(s.queue, s.tick + 1);
    CardEffects.SortPermutes(mine, ActsBefore);
    hide CardEffects.Sort, Split;
    forall a | a in sorted
      ensures a.actionType != "cast_card"
    {
      assert a in multiset(sorted) && a in multiset(mine);
      var j :| 0 <= j < |s.queue| && s.queue[j] == a;
    }
  }

  lemma {:induction false} ActionsSpare(rules: Rules, s: State, actions: seq<Action>, tick: nat)
    requires forall a :: a in actions ==> a.actionType != "cast_card"
    ensures ApplyActions(rules, s, actions, tick).boss == s.boss
    decreases |actions|
  {
    hide ApplyAction;
    if actions != [] {
      var front, last := actions[..|actions| - 1], actions[|actions| - 1];
      assert last in actions && forall a :: a in front ==> a in actions;
      ActionsSpare(rules, s, front, tick);
      ActionSpares(rules, ApplyActions(rules, s, front, tick), last, tick);
    }
  }

  lemma ActionSpares(rules: Rules, s: State, a: Action, tick: nat)
    requires a.actionType != "cast_card"
    ensures ApplyAction(rules, s, a, tick).boss == s.boss
  {
    hide CastCard, TransferLedger.Apply, TransferLedger.Made;
  }

  lemma SecondHalfSpares(rules: Rules, s: State, m: State)
    requires NoCastQueued(s) && m.queue == s.queue && m.boss.started
    ensures Finish(rules, ActionsTick(rules, m, s.tick + 1), s.tick + 1).boss == m.boss
  {
    AgendaCastless(s);
    ActionsSpare(rules, m, CardEffects.Sort(Split(m.queue, s.tick + 1, true), ActsBefore), s.tick + 1);
    hide ApplyActions, CardEffects.Sort, Split, ReadyToStart, Spawns, IsBossMode;
  }

  /** A tick of a fight: the boss loses the shots and cards of those who play it, or what it had left; nobody is
      credited what another did. */
  lemma TickHits(rules: Rules, s: State)
    requires SimInvariants.RosterSound(s) && SimInvariants.BossSound(rules, s) && Fighting(rules, s) && s.boss.hp > 0 && NoCastQueued(s)
    ensures HitBy(rules, s, Tick(rules, s).boss, s.roster)
  {
    hide *;
    var t := s.tick + 1;
    var m := InputsTick(rules, s, t);
    FightOn(rules, s);
    SimInvariants.TickParts(rules, s);
    FirstHalfHits(rules, s);
    SecondHalfSpares(rules, s, m);
  }

  lemma FightOn(rules: Rules, s: State)
    requires Fighting(rules, s) && s.boss.hp > 0
    ensures !Defeated(rules, s)
  {
  }

  lemma FirstHalfHits(rules: Rules, s: State)
    requires SimInvariants.RosterSound(s) && SimInvariants.BossSound(rules, s) && Fighting(rules, s)
    ensures var m := InputsTick(rules, s, s.tick + 1); HitBy(rules, s, m.boss, s.roster) && m.queue == s.queue && m.boss.started
  {
    SimInvariants.InputsTickBooks(rules, s, s.tick + 1);
    AllPlayers(s);
    PlayersHit(rules, s, s.roster);
    hide TickPlayers, InputEnabled, WithoutTick, Blows, Blow, SimInvariants.RosterSound, SimInvariants.BossSound, SimInvariants.SamePlayers, Distinct;
  }

  lemma AllPlayers(s: State)
    requires SimInvariants.RosterSound(s)
    ensures Distinct(s.roster) && forall id :: id in s.roster ==> id in s.players
  {
  }
}
