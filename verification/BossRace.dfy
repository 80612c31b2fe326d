/** The boss race object of src/boss_race.cpp, its methods proved against the steps of RaceSteps and RaceRuns. */
module BossRace {
  import opened Bytes
  import opened RaceBullets
  import opened RaceField
  import opened RaceLedger
  import opened RaceSteps
  import opened RaceRuns
  import CardEffects

  const DEFAULT_BOSS_HP: nat := 6000

  // ---- Chains of operations on one player ----

  lemma PutTwice(s: Race, id: string, d: Desk, e: Desk)
    ensures Put(Put(s, id, d), id, e) == Put(s, id, e) && On(Put(s, id, d), id) == d
  {
    assert s.racers[id := d.r][id := e.r] == s.racers[id := e.r];
  }

  lemma PutSame(s: Race, id: string)
    requires id in s.racers
    ensures Put(s, id, On(s, id)) == s
  {
    assert s.racers[id := s.racers[id]] == s.racers;
  }

  lemma EnteredTouches(d: Desk, tick: nat)
    ensures Touches(d, Entered(d, tick))
  {
    hide Mine, AddScore, RaceField.Standing, Cleared;
    EnterTouches(d, tick);
    AddScoreTouches(Enter(d, tick), RaceField.Standing(d.live, d.r.id) * CLEAR_POINTS, tick);
    TouchesBoth(d, Enter(d, tick), Entered(d, tick));
  }

  lemma ScoreKeepsPhase(d: Desk, delta: nat, tick: nat)
    ensures AddScore(d, delta, tick).r.phase == d.r.phase
  {
  }

  // ---- Erasing the shots that were used up ----

  ghost predicate Ascending(consumed: seq<nat>, n: nat) {
    && (forall k :: 0 <= k < |consumed| ==> consumed[k] < n)
    && forall j, k :: 0 <= j < k < |consumed| ==> consumed[j] < consumed[k]
  }

  /** What is left when the listed places are erased, last first. */
  ghost function Unspent(shots: seq<MyBullet>, consumed: seq<nat>): seq<MyBullet>
    requires Ascending(consumed, |shots|)
    decreases |consumed|
  {
    if consumed == [] then shots else
    var c := consumed[|consumed| - 1];
    Unspent(shots[..c], consumed[..|consumed| - 1]) + shots[c + 1..]
  }

  lemma {:induction false} KeptGrows(shots: seq<MyBullet>, consumed: seq<nat>, tail: seq<MyBullet>)
    requires Ascending(consumed, |shots|)
    ensures Ascending(consumed, |shots + tail|) && Unspent(shots + tail, consumed) == Unspent(shots, consumed) + tail
    decreases |consumed|
  {
    if consumed != [] {
      var c := consumed[|consumed| - 1];
      assert (shots + tail)[..c] == shots[..c];
      assert (shots + tail)[c + 1..] == shots[c + 1..] + tail;
      hide Unspent;
      KeptLast(shots, consumed);
      KeptLast(shots + tail, consumed);
    }
  }

  lemma KeptLast(shots: seq<MyBullet>, consumed: seq<nat>)
    requires Ascending(consumed, |shots|) && consumed != []
    ensures var c := consumed[|consumed| - 1];
      Ascending(consumed[..|consumed| - 1], c) && Unspent(shots, consumed) == Unspent(shots[..c], consumed[..|consumed| - 1]) + shots[c + 1..]
  {
  }

  lemma KeptConsumes(shots: seq<MyBullet>, consumed: seq<nat>, b: MyBullet)
    requires Ascending(consumed, |shots|)
    ensures Ascending(consumed + [|shots|], |shots + [b]|) && Unspent(shots + [b], consumed + [|shots|]) == Unspent(shots, consumed)
  {
    var more := consumed + [|shots|];
    assert Ascending(more, |shots + [b]|);
    assert more[..|more| - 1] == consumed && (shots + [b])[..|shots|] == shots && (shots + [b])[|shots| + 1..] == [];
    KeptLast(shots + [b], more);
  }

  /** What the place after `shots` may come to: kept, kept with one hit less, or used up. */
  lemma ShotOutcomes(shots: seq<MyBullet>, consumed: seq<nat>, b: MyBullet)
    requires Ascending(consumed, |shots|)
    ensures Ascending(consumed, |shots| + 1) && Ascending(consumed + [|shots|], |shots| + 1)
    ensures forall c: MyBullet :: Unspent(shots + [c], consumed) == Unspent(shots, consumed) + [c]
    ensures Unspent(shots + [b], consumed + [|shots|]) == Unspent(shots, consumed)
  {
    hide Unspent;
    KeptConsumes(shots, consumed, b);
    assert Ascending(consumed, |shots| + 1);
    forall c: MyBullet
      ensures Unspent(shots + [c], consumed) == Unspent(shots, consumed) + [c]
    {
      KeptGrows(shots, consumed, [c]);
    }
  }

  /** Erasing the last listed place leaves the others to erase. */
  lemma EraseOne(shots: seq<MyBullet>, consumed: seq<nat>)
    requires Ascending(consumed, |shots|) && consumed != []
    ensures var c, front := consumed[|consumed| - 1], consumed[..|consumed| - 1];
      var erased := shots[..c] + shots[c + 1..];
      Ascending(front, |erased|) && Unspent(erased, front) == Unspent(shots, consumed)
  {
    var c, front := consumed[|consumed| - 1], consumed[..|consumed| - 1];
    KeptLast(shots, consumed);
    KeptGrows(shots[..c], front, shots[c + 1..]);
  }

  lemma JudgeSnoc(rules: Rules, s: Race, shots: seq<MyBullet>, i: nat, tick: nat)
    requires i < |shots|
    ensures JudgeAll(rules, s, shots[..i + 1], tick) == JudgeOne(rules, JudgeAll(rules, s, shots[..i], tick), shots[i], tick)
    ensures LeftOf(rules, s, shots[..i + 1], tick)
      == LeftOf(rules, s, shots[..i], tick) + Left(JudgeAll(rules, s, shots[..i], tick), shots[i])
  {
    assert shots[..i + 1][..i] == shots[..i];
    hide JudgeOne, Left;
  }

  // ---- Loops over the players ----

  lemma DoSnoc(rules: Rules, s: Race, acts: seq<Act>, i: nat, tick: nat)
    requires i < |acts|
    ensures DoAll(rules, s, acts[..i + 1], tick) == Do(rules, DoAll(rules, s, acts[..i], tick), acts[i], tick)
  {
    assert acts[..i + 1][..i] == acts[..i];
    hide Do;
  }

  ghost predicate In(ids: seq<string>, s: Race) {
    forall id :: id in ids ==> id in s.racers
  }

  lemma TimerStep(s: Race, ids: seq<string>, i: nat, tick: nat)
    requires i < |ids| && In(ids, s) && tick % TIMER_INTERVAL == 0
    ensures var t := Put(s, ids[i], AddScore(On(s, ids[i]), TIMER_POINTS, tick));
      In(ids[i..], s) && In(ids[i + 1..], t) && Timer(s, ids[i..], tick) == Timer(t, ids[i + 1..], tick)
  {
    assert ids[i..][1..] == ids[i + 1..];
    hide AddScore;
  }

  lemma FlushStep(s: Race, ids: seq<string>, i: nat, tick: nat)
    requires i < |ids| && In(ids, s)
    ensures var t := Put(s, ids[i], Flush(On(s, ids[i]), tick));
      In(ids[i..], s) && In(ids[i + 1..], t) && FlushAll(s, ids[i..], tick) == FlushAll(t, ids[i + 1..], tick)
  {
    assert ids[i..][1..] == ids[i + 1..];
    hide Flush;
  }

  lemma DownStep(s: Race, ids: seq<string>, i: nat)
    requires i < |ids| && In(ids, s)
    ensures In(ids[i..], s) && In(ids[i + 1..], s)
    ensures FirstDown(s, ids[i..]) == if s.racers[ids[i]].hp == 0 then Some(ids[i]) else FirstDown(s, ids[i + 1..])
  {
    assert ids[i..][1..] == ids[i + 1..];
  }

  lemma AllOver(s: Race, ids: seq<string>, tick: nat)
    ensures In(ids[|ids|..], s)
    ensures Timer(s, ids[|ids|..], tick) == s && FlushAll(s, ids[|ids|..], tick) == s && FirstDown(s, ids[|ids|..]) == None
  {
  }

  /** What a tick comes to, as its phases leave it. */
  lemma TickByParts(rules: Rules, s: Race, play: Play)
    requires RaceRuns.Sound(rules, s) && s.stage != Finished
    ensures Joined(s) && Joined(StartIfReady(s)) && Ledgers(rules, StartIfReady(s))
    ensures var started, tick := StartIfReady(s), s.tick + 1;
      TickRace(rules, s, play) == (if started.stage == Running then RunTick(rules, started, play, tick) else started).(tick := tick)
  {
    StartKeeps(rules, s);
    hide RunTick, Ledgers;
  }

  lemma RunTickByParts(rules: Rules, s: Race, play: Play, tick: nat)
    requires Joined(s) && Ledgers(rules, s)
    ensures SameRace(s, Middle(rules, s, play, tick)) && In(s.roster, Winner(Middle(rules, s, play, tick), tick))
    ensures var f := FlushAll(Winner(Middle(rules, s, play, tick), tick), s.roster, tick);
      f.roster == s.roster && |s.log| <= |f.log| && f.tick == s.tick && f.cursor == s.cursor
      && RunTick(rules, s, play, tick) == f.(cursor := s.cursor + |f.log| - |s.log|)
  {
    MiddleKeeps(rules, s, play, tick);
    var middle := Middle(rules, s, play, tick);
    var m := Winner(middle, tick);
    OnlyStage(rules, middle, m);
    FlushAllKeeps(rules, m, m.roster, tick);
    hide Middle, Ledgers, FlushAll;
  }

  lemma StartIs(s: Race)
    ensures StartIfReady(s).log == s.log && StartIfReady(s).roster == s.roster && StartIfReady(s).racers == s.racers
    ensures StartIfReady(s).tick == s.tick && StartIfReady(s).cursor == s.cursor
  {
  }

  class BossRaceSimulation {
    const rules: Rules
    var stage: Stage
    var currentTick: nat
    var winnerPlayerId: string
    var winnerTick: nat
    var eventCursor: nat
    var roster: seq<string>
    var players: map<string, Racer>
    var liveBullets: seq<Bullet>
    var myBullets: seq<MyBullet>
    var tickEvents: seq<Event>
    /** The events of the ticks before, which the source has handed out and forgotten. */
    ghost var history: seq<Event>

    ghost function Contents(): Race
      reads this
    {
      Race(stage, currentTick, winnerPlayerId, winnerTick, eventCursor, roster, players, liveBullets, history + tickEvents)
    }

    ghost predicate Valid()
      reads this
    {
      rules.maxHp > 0 && RaceRuns.Sound(rules, Contents())
    }

    constructor (bossMaxHp: nat, bossNumber: nat)
      ensures Valid() && Contents() == EMPTY && myBullets == []
      ensures rules == Rules(if bossMaxHp == 0 then DEFAULT_BOSS_HP else bossMaxHp, bossNumber)
    {
      rules := Rules(if bossMaxHp == 0 then DEFAULT_BOSS_HP else bossMaxHp, bossNumber);
      stage, currentTick, winnerPlayerId, winnerTick, eventCursor := Waiting, 0, "", 0, 0;
      roster, players, liveBullets, myBullets, tickEvents, history := [], map[], [], [], [], [];
      new;
      EmptyRaceSound(rules);
      hide RaceRuns.Sound;
    }

    method AddPlayer(id: string) returns (ok: bool)
      requires Valid()
      modifies this
      ensures Valid() && ok == MayJoin(old(Contents()), id)
      ensures Contents() == (if ok then Join(rules, old(Contents()), id) else old(Contents()))
      ensures myBullets == old(myBullets)
    {
      ghost var s := Contents();
      if id == "" || |roster| >= MAX_PLAYERS || id in players {
        return false;
      }
      JoinSound(rules, s, id);
      hide RaceRuns.Sound, CardEffects.Insert;
      roster := CardEffects.Insert(id, roster, CardEffects.Leq);
      players := players[id := Racer(id, rules.maxHp, 0, 0, 0, false, 0, 1, 0, 0)];
      return true;
    }

    // ---- Operations on one player ----

    /** tick_events_.push_back. */
    method Emit(id: string, tick: nat, kind: Kind, value: nat)
      requires id in players && players[id].id == id
      modifies this`tickEvents
      ensures Contents() == Put(old(Contents()), id, Push(On(old(Contents()), id), tick, kind, value))
    {
      tickEvents := tickEvents + [Event(tick, kind, id, value)];
      assert history + tickEvents == history + old(tickEvents) + [Event(tick, kind, id, value)];
      PutSame(old(Contents()), id);
    }

    method AddScoreTo(id: string, delta: nat, tick: nat)
      requires id in players && players[id].id == id
      modifies this`players, this`tickEvents
      ensures Contents() == Put(old(Contents()), id, AddScore(On(old(Contents()), id), delta, tick))
    {
      ghost var s := Contents();
      PutSame(s, id);
      if delta == 0 {
        return;
      }
      players := players[id := players[id].(score := players[id].score + delta)];
      ghost var d := On(s, id).(r := players[id]);
      assert Contents() == Put(s, id, d);
      Emit(id, tick, ScoreGain, delta);
      PutTwice(s, id, d, Push(d, tick, ScoreGain, delta));
    }

    method PayBonus(id: string, tick: nat)
      requires id in players && players[id].id == id
      modifies this`players, this`tickEvents
      ensures Contents() == Put(old(Contents()), id, Bonus(rules, On(old(Contents()), id), tick))
    {
      ghost var s := Contents();
      PutSame(s, id);
      if players[id].hitTaken {
        return;
      }
      hide AddScore, CapturePoints;
      players := players[id := players[id].(spellGet := players[id].spellGet + 1)];
      ghost var d := On(s, id).(r := players[id]);
      assert Contents() == Put(s, id, d);
      AddScoreTo(id, CapturePoints(rules, players[id].graze), tick);
      PutTwice(s, id, d, AddScore(d, CapturePoints(rules, d.r.graze), tick));
    }

    /** The screen clear: marks the player's bullets and counts those it marked. */
    method ClearLiveBullets(id: string, tick: nat) returns (cleared: nat)
      modifies this`liveBullets
      ensures liveBullets == Cleared(old(liveBullets), id, tick)
      ensures cleared == RaceField.Standing(old(liveBullets), id)
    {
      ghost var before := liveBullets;
      cleared := 0;
      StandingNone(before, id);
      var i := 0;
      while i < |liveBullets|
        invariant i <= |liveBullets| == |before|
        invariant cleared == RaceField.Standing(before[..i], id)
        invariant forall j :: 0 <= j < i ==> liveBullets[j] == Marked(before[j], id, tick)
        invariant forall j :: i <= j < |before| ==> liveBullets[j] == before[j]
      {
        StandingSnoc(before, i, id);
        hide RaceField.Standing;
        var live := liveBullets[i];
        if live.owner == id && live.vanishTick == 0 {
          liveBullets := liveBullets[i := live.(vanishTick := tick)];
          cleared := cleared + 1;
        }
        i := i + 1;
      }
      assert before[..i] == before;
      assert liveBullets == Cleared(before, id, tick);
    }

    /** The middle of a phase change: the new phase, the screen clear and its score. */
    method EnterNextPhase(id: string, tick: nat)
      requires id in players && players[id].id == id
      modifies this`players, this`tickEvents, this`liveBullets
      ensures Contents() == Put(old(Contents()), id, Entered(On(old(Contents()), id), tick))
    {
      hide AddScore, Cleared, RaceField.Standing;
      ghost var s := Contents();
      ghost var d := On(s, id);
      var r := players[id];
      players := players[id := r.(phase := r.phase + 1, spellTotal := r.spellTotal + 1, hitTaken := false)];
      var cleared := ClearLiveBullets(id, tick);
      assert Contents() == Put(s, id, Enter(d, tick));
      PutTwice(s, id, Enter(d, tick), Entered(d, tick));
      AddScoreTo(id, cleared * CLEAR_POINTS, tick);
    }

    /** One turn of the loop of CheckSpellPhase. */
    method NextSpellPhase(id: string, tick: nat)
      requires id in players && players[id].id == id
      modifies this`players, this`tickEvents, this`liveBullets
      ensures Contents() == Put(old(Contents()), id, NextPhase(rules, On(old(Contents()), id), tick))
    {
      hide Entered, Bonus, Push, Mine;
      ghost var s := Contents();
      ghost var d := On(s, id);
      Emit(id, tick, PhaseEnd, players[id].phase);
      ghost var ended := Push(d, tick, PhaseEnd, d.r.phase);
      PushTouches(d, tick, PhaseEnd, d.r.phase);
      PutTwice(s, id, ended, Bonus(rules, ended, tick));
      PayBonus(id, tick);
      ghost var paid := Bonus(rules, ended, tick);
      BonusTouches(rules, ended, tick);
      PutTwice(s, id, paid, Entered(paid, tick));
      EnterNextPhase(id, tick);
      ghost var entered := Entered(paid, tick);
      EnteredTouches(paid, tick);
      PutTwice(s, id, entered, Push(entered, tick, PhaseStart, entered.r.phase));
      Emit(id, tick, PhaseStart, players[id].phase);
    }

    method CheckSpellPhase(id: string, tick: nat)
      requires id in players && players[id].id == id
      modifies this`players, this`tickEvents, this`liveBullets
      ensures Contents() == Put(old(Contents()), id, CheckPhase(rules, On(old(Contents()), id), tick))
    {
      hide NextPhase;
      ghost var s := Contents();
      ghost var d := On(s, id);
      PutSame(s, id);
      while Crosses(rules, players[id])
        invariant id in players && players[id].id == id && d == On(Contents(), id)
        invariant Contents() == Put(s, id, d)
        invariant CheckPhase(rules, d, tick) == CheckPhase(rules, On(s, id), tick)
        decreases SPELL_PHASES - players[id].phase
      {
        ghost var next := NextPhase(rules, d, tick);
        NextSpellPhase(id, tick);
        PutTwice(s, id, d, next);
        PutTwice(s, id, next, next);
        d := next;
      }
    }

    method HurtBoss(id: string, damage: nat)
      requires id in players
      modifies this`players
      ensures Contents() == Put(old(Contents()), id, On(old(Contents()), id).(r := Hurt(old(players[id]), damage)))
    {
      var r := players[id];
      var applied := Least(damage, r.hp);
      players := players[id := r.(hp := r.hp - applied, dealt := r.dealt + applied, pending := r.pending + applied)];
    }

    /** The end of ApplyBossDamage when the boss is down. */
    method AwardDefeat(id: string, tick: nat)
      requires id in players && players[id].id == id
      modifies this`players, this`tickEvents
      ensures Contents() == Put(old(Contents()), id, Defeated(rules, On(old(Contents()), id), tick))
    {
      hide AddScore, Push, Bonus, Mine;
      ghost var s := Contents();
      ghost var d := On(s, id);
      AddScoreTo(id, DESTROY_POINTS, tick);
      ghost var scored := AddScore(d, DESTROY_POINTS, tick);
      AddScoreTouches(d, DESTROY_POINTS, tick);
      ScoreKeepsPhase(d, DESTROY_POINTS, tick);
      ghost var caught := Push(scored, tick, SpellCapture, d.r.phase);
      PutTwice(s, id, scored, caught);
      Emit(id, tick, SpellCapture, players[id].phase);
      PushTouches(scored, tick, SpellCapture, d.r.phase);
      PutTwice(s, id, caught, Bonus(rules, caught, tick));
      PayBonus(id, tick);
    }

    method ApplyBossDamage(id: string, damage: nat, tick: nat)
      requires id in players && players[id].id == id
      modifies this`players, this`tickEvents, this`liveBullets
      ensures Contents() == Put(old(Contents()), id, Damage(rules, On(old(Contents()), id), damage, tick))
    {
      hide CheckPhase, Defeated, Mine, Hurt;
      ghost var s := Contents();
      ghost var d := On(s, id);
      PutSame(s, id);
      if damage == 0 || players[id].hp == 0 {
        return;
      }
      HurtBoss(id, damage);
      ghost var hurt := d.(r := Hurt(d.r, damage));
      HurtTouches(d, damage);
      ghost var checked := CheckPhase(rules, hurt, tick);
      PutTwice(s, id, hurt, checked);
      CheckSpellPhase(id, tick);
      CheckPhaseTouches(rules, hurt, tick);
      PutTwice(s, id, checked, Defeated(rules, checked, tick));
      if players[id].hp == 0 {
        AwardDefeat(id, tick);
      }
    }

    // ---- The own shots ----

    ghost predicate Named()
      reads this
    {
      forall id :: id in players ==> players[id].id == id
    }

    method HitBoss(id: string, damage: nat, tick: nat)
      requires id in players && Named()
      modifies this`players, this`tickEvents, this`liveBullets
      ensures Contents() == Put(old(Contents()), id, HitBy(rules, On(old(Contents()), id), damage, tick))
      ensures Named()
    {
      hide Damage, AddScore, Mine;
      ghost var s := Contents();
      ghost var d := On(s, id);
      ApplyBossDamage(id, damage, tick);
      ghost var hurt := Damage(rules, d, damage, tick);
      DamageTouches(rules, d, damage, tick);
      PutTwice(s, id, hurt, AddScore(hurt, HIT_POINTS, tick));
      AddScoreTo(id, HIT_POINTS, tick);
      HitByTouches(rules, d, damage, tick);
    }

    /** The first loop: judge each shot, changing it in place or listing it as used up. */
    method JudgeShots(tick: nat) returns (consumed: seq<nat>)
      requires Named()
      modifies this`players, this`tickEvents, this`liveBullets, this`myBullets
      ensures Named() && Contents() == JudgeAll(rules, old(Contents()), old(myBullets), tick)
      ensures Ascending(consumed, |myBullets|)
      ensures Unspent(myBullets, consumed) == LeftOf(rules, old(Contents()), old(myBullets), tick)
    {
      ghost var s, shots := Contents(), myBullets;
      hide HitBy, InBoss, Unspent, LeftOf, JudgeAll;
      consumed := [];
      NoShots(s, shots, tick);
      var i := 0;
      while i < |myBullets|
        invariant i <= |myBullets| == |shots| && Named()
        invariant Contents() == JudgeAll(rules, s, shots[..i], tick)
        invariant Ascending(consumed, i) && Unspent(myBullets[..i], consumed) == LeftOf(rules, s, shots[..i], tick)
        invariant forall k :: i <= k < |shots| ==> myBullets[k] == shots[k]
      {
        JudgeSnoc(rules, s, shots, i, tick);
        consumed := JudgeShot(i, consumed, tick);
        i := i + 1;
      }
      assert shots[..i] == shots && myBullets[..i] == myBullets;
    }

    lemma NoShots(s: Race, shots: seq<MyBullet>, tick: nat)
      ensures JudgeAll(rules, s, shots[..0], tick) == s
      ensures forall mine: seq<MyBullet> :: Unspent(mine[..0], []) == LeftOf(rules, s, shots[..0], tick)
    {
    }

    /** Judge one shot; `left` is what stays of it. */
    method Strike(b: MyBullet, tick: nat) returns (left: seq<MyBullet>)
      requires Named()
      modifies this`players, this`tickEvents, this`liveBullets
      ensures Named() && Contents() == JudgeOne(rules, old(Contents()), b, tick)
      ensures left == Left(old(Contents()), b) && |left| <= 1
    {
      hide HitBy, InBoss;
      left := [];
      if b.owner in players && players[b.owner].hp != 0 {
        if !InBoss(b) {
          return [b];
        }
        HitBoss(b.owner, b.damage, tick);
        if b.penetrate > 0 {
          left := [b.(penetrate := b.penetrate - 1)];
        }
      }
    }

    /** The body of that loop. */
    method JudgeShot(i: nat, before: seq<nat>, tick: nat) returns (consumed: seq<nat>)
      requires i < |myBullets| && Named() && Ascending(before, i)
      modifies this`players, this`tickEvents, this`liveBullets, this`myBullets
      ensures Named() && |myBullets| == |old(myBullets)|
      ensures Contents() == JudgeOne(rules, old(Contents()), old(myBullets)[i], tick)
      ensures Ascending(consumed, i + 1)
      ensures Unspent(myBullets[..i + 1], consumed) == Unspent(old(myBullets)[..i], before) + Left(old(Contents()), old(myBullets)[i])
      ensures forall k :: i < k < |myBullets| ==> myBullets[k] == old(myBullets)[k]
    {
      hide JudgeOne, Left, Unspent, Ascending;
      ghost var front := myBullets[..i];
      ShotOutcomes(front, before, myBullets[i]);
      assert myBullets[..i + 1] == front + [myBullets[i]];
      var left := Strike(myBullets[i], tick);
      if left == [] {
        consumed := before + [i];
      } else {
        consumed := before;
        myBullets := myBullets[i := left[0]];
        assert myBullets[..i + 1] == front + [left[0]];
        assert left == [left[0]];
      }
    }

    method JudgeMyBullets(tick: nat)
      requires Named()
      modifies this`players, this`tickEvents, this`liveBullets, this`myBullets
      ensures Named() && Contents() == JudgeAll(rules, old(Contents()), old(myBullets), tick)
      ensures myBullets == LeftOf(rules, old(Contents()), old(myBullets), tick)
    {
      ghost var left := LeftOf(rules, Contents(), myBullets, tick);
      hide Unspent, JudgeAll, LeftOf, Ascending;
      var consumed := JudgeShots(tick);
      EraseAll(consumed, left);
    }

    /** The second loop: erase the shots that were used up, from the last to the first. */
    method EraseAll(consumed: seq<nat>, ghost left: seq<MyBullet>)
      requires Ascending(consumed, |myBullets|) && Unspent(myBullets, consumed) == left
      modifies this`myBullets
      ensures myBullets == left
    {
      hide Unspent;
      var j := |consumed|;
      assert consumed[..j] == consumed;
      while j > 0
        invariant j <= |consumed| && Ascending(consumed[..j], |myBullets|)
        invariant Unspent(myBullets, consumed[..j]) == left
      {
        EraseOne(myBullets, consumed[..j]);
        assert consumed[..j][..j - 1] == consumed[..j - 1];
        j := j - 1;
        myBullets := myBullets[..consumed[j]] + myBullets[consumed[j] + 1..];
      }
      KeptNone(myBullets);
    }

    lemma KeptNone(shots: seq<MyBullet>)
      ensures Unspent(shots, []) == shots
    {
    }

    // ---- A tick ----

    method Execute(a: Act, tick: nat)
      requires Named()
      modifies this`players, this`tickEvents, this`liveBullets
      ensures Named() && Contents() == Do(rules, old(Contents()), a, tick)
    {
      hide Damage, AddScore, Push, Mine;
      if a.player !in players {
        return;
      }
      ghost var s := Contents();
      ghost var d := On(s, a.player);
      DoneTouches(rules, d, a, tick);
      match a
      case DamageBy(id, damage) => ApplyBossDamage(id, damage, tick);
      case StruckBy(id) =>
        players := players[id := players[id].(hitTaken := true)];
        ghost var spoiled := d.(r := d.r.(hitTaken := true));
        assert Contents() == Put(s, id, spoiled);
        PutTwice(s, id, spoiled, Push(spoiled, tick, PlayerHit, 0));
        Emit(id, tick, PlayerHit, 0);
      case GrazedBy(id) => Graze(id, tick);
      case NoticeOf(id) => Emit(id, tick, Notice, 0);
      case Reshapes(id, field) => liveBullets := field;
    }

    method Graze(id: string, tick: nat)
      requires id in players && players[id].id == id
      modifies this`players, this`tickEvents
      ensures Contents() == Put(old(Contents()), id, Grazed(On(old(Contents()), id), tick))
    {
      hide AddScore, Push, Mine;
      ghost var s := Contents();
      ghost var d := On(s, id);
      players := players[id := players[id].(graze := players[id].graze + 1)];
      assert Contents() == Put(s, id, MoreGraze(d));
      ghost var seen := Push(MoreGraze(d), tick, PlayerGraze, 0);
      PutTwice(s, id, MoreGraze(d), seen);
      Emit(id, tick, PlayerGraze, 0);
      PushTouches(MoreGraze(d), tick, PlayerGraze, 0);
      PutTwice(s, id, seen, AddScore(seen, GRAZE_POINTS, tick));
      AddScoreTo(id, GRAZE_POINTS, tick);
    }

    method ExecuteAll(acts: seq<Act>, tick: nat)
      requires Named()
      modifies this`players, this`tickEvents, this`liveBullets
      ensures Named() && Contents() == DoAll(rules, old(Contents()), acts, tick)
    {
      ghost var s := Contents();
      hide Do;
      var i := 0;
      while i < |acts|
        invariant i <= |acts| && Named() && Contents() == DoAll(rules, s, acts[..i], tick)
      {
        DoSnoc(rules, s, acts, i, tick);
        Execute(acts[i], tick);
        i := i + 1;
      }
      assert acts[..i] == acts;
    }

    method ScoreTime(tick: nat)
      requires Named() && In(roster, Contents())
      modifies this`players, this`tickEvents
      ensures Named() && Contents() == Timer(old(Contents()), roster, tick)
    {
      ghost var s := Contents();
      if tick % TIMER_INTERVAL != 0 {
        return;
      }
      hide AddScore, Timer;
      var i := 0;
      assert roster[0..] == roster;
      while i < |roster|
        invariant i <= |roster| && Named() && In(roster, Contents()) && In(roster[i..], Contents())
        invariant Timer(Contents(), roster[i..], tick) == Timer(s, roster, tick)
      {
        TimerStep(Contents(), roster, i, tick);
        AddScoreTouches(On(Contents(), roster[i]), TIMER_POINTS, tick);
        AddScoreTo(roster[i], TIMER_POINTS, tick);
        i := i + 1;
      }
      AllOver(Contents(), roster, tick);
    }

    method CheckRaceWinner(tick: nat)
      requires In(roster, Contents())
      modifies this`stage, this`winnerPlayerId, this`winnerTick
      ensures Contents() == Winner(old(Contents()), tick)
    {
      if stage == Finished {
        return;
      }
      ghost var s := Contents();
      hide FirstDown;
      var winner: Option<string> := None;
      var i := 0;
      assert roster[0..] == roster;
      assert Joined(s);
      while i < |roster|
        invariant i <= |roster| && winner == None && In(roster[i..], s) && Contents() == s
        invariant FirstDown(s, roster) == FirstDown(s, roster[i..])
      {
        DownStep(s, roster, i);
        if players[roster[i]].hp == 0 {
          winner := Some(roster[i]);
          break;
        }
        i := i + 1;
      }
      AllOver(s, roster, tick);
      assert FirstDown(s, roster) == winner;
      if winner.Some? {
        stage, winnerPlayerId, winnerTick := Finished, winner.value, tick;
      }
    }

    method FlushBossDamage(tick: nat)
      requires Named() && In(roster, Contents())
      modifies this`players, this`tickEvents
      ensures Contents() == FlushAll(old(Contents()), roster, tick)
    {
      ghost var s := Contents();
      hide FlushAll;
      var i := 0;
      assert roster[0..] == roster;
      while i < |roster|
        invariant i <= |roster| && Named() && In(roster, Contents()) && In(roster[i..], Contents())
        invariant FlushAll(Contents(), roster[i..], tick) == FlushAll(s, roster, tick)
      {
        FlushStep(Contents(), roster, i, tick);
        FlushOne(roster[i], tick);
        i := i + 1;
      }
      AllOver(Contents(), roster, tick);
    }

    method FlushOne(id: string, tick: nat)
      requires id in players && Named()
      modifies this`players, this`tickEvents
      ensures Named() && Contents() == Put(old(Contents()), id, Flush(On(old(Contents()), id), tick))
    {
      ghost var s := Contents();
      ghost var d := On(s, id);
      PutSame(s, id);
      var pending := players[id].pending;
      if pending != 0 && (tick % DAMAGE_INTERVAL == 0 || players[id].hp == 0) {
        Emit(id, tick, BossDamage, pending);
        ghost var told := Push(d, tick, BossDamage, pending);
        PutTwice(s, id, told, told.(r := d.r.(pending := 0)));
        players := players[id := players[id].(pending := 0)];
      }
    }

    /** Tick of a running race, up to the counting of its events. */
    method RunRace(play: Play, tick: nat)
      requires Named() && In(roster, Contents()) && Ledgers(rules, Contents()) && stage == Running
      modifies this`players, this`tickEvents, this`liveBullets, this`myBullets, this`stage, this`winnerPlayerId, this`winnerTick
      ensures Joined(old(Contents())) && SameRace(old(Contents()), Middle(rules, old(Contents()), play, tick))
      ensures In(roster, Winner(Middle(rules, old(Contents()), play, tick), tick))
      ensures Contents() == FlushAll(Winner(Middle(rules, old(Contents()), play, tick), tick), roster, tick)
    {
      hide DoAll, JudgeAll, Timer, Ledgers, FlushAll, Winner, LeftOf;
      ghost var s := Contents();
      MiddleKeeps(rules, s, play, tick);
      ScoreTime(tick);
      ExecuteAll(play.early, tick);
      liveBullets, myBullets := play.field, play.shots;
      JudgeMyBullets(tick);
      ExecuteAll(play.late, tick);
      CheckRaceWinner(tick);
      FlushBossDamage(tick);
    }

    /** A tick forgets the events of the one before, which here go into the history. */
    method BeginTick()
      modifies this`history, this`tickEvents, this`stage
      ensures Contents() == StartIfReady(old(Contents())) && tickEvents == []
    {
      history, tickEvents := history + tickEvents, [];
      if stage == Waiting && |roster| >= MIN_PLAYERS {
        stage := Running;
      }
      assert history + tickEvents == old(history + tickEvents);
    }

    method RunAndCount(play: Play, tick: nat)
      requires Named() && Joined(Contents()) && Ledgers(rules, Contents()) && stage == Running && tickEvents == []
      modifies this
      ensures Contents() == RunTick(rules, old(Contents()), play, tick)
      ensures history == old(history)
    {
      hide RunTick, Middle, FlushAll, Winner, Ledgers;
      ghost var s := Contents();
      RunTickByParts(rules, s, play, tick);
      RunRace(play, tick);
      eventCursor := eventCursor + |tickEvents|;
      assert |history + tickEvents| == |s.log| + |tickEvents|;
    }

    method Tick(play: Play)
      requires Valid()
      modifies this
      ensures Valid() && Joined(old(Contents())) && Ledgers(rules, old(Contents()))
      ensures Contents() == TickRace(rules, old(Contents()), play)
    {
      ghost var s := Contents();
      TickSound(rules, s, play);
      SoundNames();
      hide RaceRuns.Sound, RunTick, TickRace, Ledgers, StartIfReady;
      if stage == Finished {
        return;
      }
      TickByParts(rules, s, play);
      StartIs(s);
      var tick := currentTick + 1;
      BeginTick();
      if stage == Running {
        RunAndCount(play, tick);
      }
      currentTick := tick;
    }

    lemma SoundNames()
      requires Valid()
      ensures Named() && In(roster, Contents()) && Ledgers(rules, Contents())
      ensures stage == Finished ==> forall play :: TickRace(rules, Contents(), play) == Contents()
    {
      forall id | id in players
        ensures players[id].id == id
      {
        assert LedgerOf(rules, Contents(), id);
      }
      hide Ledgers, Decided, Reported, RunTick;
    }
  }
}