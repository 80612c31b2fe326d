/** How much damage a racer does in a race of src/boss_race.cpp: every hit takes its full damage off the hit
    points, as far as there are any, and over a whole race the hits add up. */
module RaceDamage {
  import opened RaceBullets
  import opened RaceField
  import opened RaceLedger
  import opened RaceSteps
  import RaceRuns
  import RaceWhole
  import CardHand
  import CardEffects

  /** `after` is `before` when its boss has taken `n`, of which only what was left counts. */
  predicate Takes(before: Racer, after: Racer, n: nat) {
    && after.hp == (if n >= before.hp then 0 else before.hp - n)
    && after.dealt == before.dealt + (before.hp - after.hp)
  }

  lemma TakesOn(a: Racer, b: Racer, c: Racer, m: nat, n: nat)
    requires Takes(a, b, m) && Takes(b, c, n)
    ensures Takes(a, c, m + n)
  {
  }

  // ---- One hit ----

  predicate SameWounds(r: Racer, s: Racer) {
    s.hp == r.hp && s.dealt == r.dealt && s.pending == r.pending
  }

  lemma BonusWoundless(rules: Rules, d: Desk, tick: nat)
    ensures SameWounds(d.r, Bonus(rules, d, tick).r)
  {
    hide CapturePoints;
  }

  lemma NextPhaseWoundless(rules: Rules, d: Desk, tick: nat)
    ensures SameWounds(d.r, NextPhase(rules, d, tick).r)
  {
    var ended := Push(d, tick, PhaseEnd, d.r.phase);
    BonusWoundless(rules, ended, tick);
    hide Bonus, Standing, Cleared;
  }

  lemma {:induction false} CheckPhaseWoundless(rules: Rules, d: Desk, tick: nat)
    ensures SameWounds(d.r, CheckPhase(rules, d, tick).r)
    decreases SPELL_PHASES - d.r.phase
  {
    hide NextPhase;
    if Crosses(rules, d.r) {
      NextPhaseWoundless(rules, d, tick);
      CheckPhaseWoundless(rules, NextPhase(rules, d, tick), tick);
    }
  }

  lemma DefeatedWoundless(rules: Rules, d: Desk, tick: nat)
    ensures SameWounds(d.r, Defeated(rules, d, tick).r)
  {
    BonusWoundless(rules, Push(AddScore(d, DESTROY_POINTS, tick), tick, SpellCapture, d.r.phase), tick);
    hide Bonus;
  }

  /** A hit takes exactly its damage, or what is left; what is dealt and what is still to be reported rise by
      what the hit points fall, through whatever phases and defeat follow. */
  lemma DamageTakes(rules: Rules, d: Desk, damage: nat, tick: nat)
    ensures var e := Damage(rules, d, damage, tick);
      && e.r.hp == (if damage >= d.r.hp then 0 else d.r.hp - damage)
      && e.r.dealt == d.r.dealt + (d.r.hp - e.r.hp)
      && e.r.pending == d.r.pending + (d.r.hp - e.r.hp)
  {
    if damage != 0 && d.r.hp != 0 {
      var hurt := d.(r := Hurt(d.r, damage));
      CheckPhaseWoundless(rules, hurt, tick);
      DefeatedWoundless(rules, CheckPhase(rules, hurt, tick), tick);
    }
    hide CheckPhase, Defeated;
  }

  // ---- The damage of a tick ----

  /** The shot's centre is in the boss's circle: radius 40000 around (0, -60000). */
  predicate Inside(b: MyBullet) {
    b.x * b.x + (b.y + 60000) * (b.y + 60000) <= 40000 * 40000
  }

  function ActDamage(a: Act, id: string): nat {
    if a.DamageBy? && a.player == id then a.damage else 0
  }

  function ActsDamage(acts: seq<Act>, id: string): nat {
    if acts == [] then 0 else ActsDamage(acts[..|acts| - 1], id) + ActDamage(acts[|acts| - 1], id)
  }

  function ShotDamage(b: MyBullet, id: string): nat {
    if b.owner == id && Inside(b) then b.damage else 0
  }

  function ShotsDamage(shots: seq<MyBullet>, id: string): nat {
    if shots == [] then 0 else ShotsDamage(shots[..|shots| - 1], id) + ShotDamage(shots[|shots| - 1], id)
  }

  ghost predicate TakesIn(s: Race, t: Race, id: string, n: nat)
    requires id in s.racers
  {
    id in t.racers && Takes(s.racers[id], t.racers[id], n)
  }

  lemma ThenTakes(s: Race, t: Race, u: Race, id: string, m: nat, n: nat)
    requires id in s.racers && TakesIn(s, t, id, m) && TakesIn(t, u, id, n)
    ensures TakesIn(s, u, id, m + n)
  {
    TakesOn(s.racers[id], t.racers[id], u.racers[id], m, n);
  }

  lemma DoneTakes(rules: Rules, d: Desk, a: Act, tick: nat)
    ensures Takes(d.r, Done(rules, d, a, tick).r, if a.DamageBy? then a.damage else 0)
  {
    if a.DamageBy? {
      DamageTakes(rules, d, a.damage, tick);
    }
    hide Damage;
  }

  lemma DoTakes(rules: Rules, s: Race, a: Act, tick: nat, id: string)
    requires id in s.racers
    ensures TakesIn(s, Do(rules, s, a, tick), id, ActDamage(a, id))
  {
    if a.player in s.racers {
      DoneTakes(rules, On(s, a.player), a, tick);
    }
    hide Done;
  }

  lemma {:induction false} DoAllTakes(rules: Rules, s: Race, acts: seq<Act>, tick: nat, id: string)
    requires id in s.racers
    ensures TakesIn(s, DoAll(rules, s, acts, tick), id, ActsDamage(acts, id))
    decreases |acts|
  {
    hide Do, Takes, ActDamage;
    if acts == [] {
      NoDamage(s, id);
    } else {
      var front, last := acts[..|acts| - 1], acts[|acts| - 1];
      var t := DoAll(rules, s, front, tick);
      DoAllTakes(rules, s, front, tick, id);
      DoTakes(rules, t, last, tick, id);
      ThenTakes(s, t, Do(rules, t, last, tick), id, ActsDamage(front, id), ActDamage(last, id));
    }
  }

  lemma NoDamage(s: Race, id: string)
    requires id in s.racers
    ensures TakesIn(s, s, id, 0)
  {
  }

  lemma InsideIs(b: MyBullet)
    ensures InBoss(b) <==> Inside(b)
  {
  }

  lemma JudgeOneTakes(rules: Rules, s: Race, b: MyBullet, tick: nat, id: string)
    requires id in s.racers
    ensures TakesIn(s, JudgeOne(rules, s, b, tick), id, ShotDamage(b, id))
  {
    InsideIs(b);
    if b.owner in s.racers {
      DamageTakes(rules, On(s, b.owner), b.damage, tick);
    }
    hide Damage, InBoss, Inside;
  }

  lemma {:induction false} JudgeAllTakes(rules: Rules, s: Race, shots: seq<MyBullet>, tick: nat, id: string)
    requires id in s.racers
    ensures TakesIn(s, JudgeAll(rules, s, shots, tick), id, ShotsDamage(shots, id))
    decreases |shots|
  {
    hide JudgeOne, Takes, ShotDamage;
    if shots == [] {
      NoDamage(s, id);
    } else {
      var front, last := shots[..|shots| - 1], shots[|shots| - 1];
      var t := JudgeAll(rules, s, front, tick);
      JudgeAllTakes(rules, s, front, tick, id);
      JudgeOneTakes(rules, t, last, tick, id);
      ThenTakes(s, t, JudgeOne(rules, t, last, tick), id, ShotsDamage(front, id), ShotDamage(last, id));
    }
  }

  lemma {:induction false} TimerTakes(s: Race, ids: seq<string>, tick: nat, id: string)
    requires id in s.racers && forall x :: x in ids ==> x in s.racers
    ensures TakesIn(s, Timer(s, ids, tick), id, 0)
    decreases |ids|
  {
    if ids != [] && tick % TIMER_INTERVAL == 0 {
      TimerTakes(Put(s, ids[0], AddScore(On(s, ids[0]), TIMER_POINTS, tick)), ids[1..], tick, id);
    }
  }

  lemma {:induction false} FlushTakes(s: Race, ids: seq<string>, tick: nat, id: string)
    requires id in s.racers && forall x :: x in ids ==> x in s.racers
    ensures TakesIn(s, FlushAll(s, ids, tick), id, 0)
    decreases |ids|
  {
    if ids != [] {
      FlushTakes(Put(s, ids[0], Flush(On(s, ids[0]), tick)), ids[1..], tick, id);
    }
  }

  /** What a racer's own acts and shots do in a tick. */
  function PlayDamage(play: Play, id: string): nat {
    ActsDamage(play.early, id) + ShotsDamage(play.shots, id) + ActsDamage(play.late, id)
  }

  lemma MiddleTakes(rules: Rules, s: Race, play: Play, tick: nat, id: string)
    requires RaceRuns.Joined(s) && id in s.racers
    ensures TakesIn(s, RaceRuns.Middle(rules, s, play, tick), id, PlayDamage(play, id))
  {
    hide DoAll, JudgeAll, Timer, Takes, ActsDamage, ShotsDamage;
    var t := Timer(s, s.roster, tick);
    var a := DoAll(rules, t, play.early, tick);
    var f := a.(live := play.field);
    var j := JudgeAll(rules, f, play.shots, tick);
    TimerTakes(s, s.roster, tick, id);
    DoAllTakes(rules, t, play.early, tick, id);
    ThenTakes(s, t, a, id, 0, ActsDamage(play.early, id));
    JudgeAllTakes(rules, f, play.shots, tick, id);
    ThenTakes(s, f, j, id, ActsDamage(play.early, id), ShotsDamage(play.shots, id));
    DoAllTakes(rules, j, play.late, tick, id);
    ThenTakes(s, j, DoAll(rules, j, play.late, tick), id, ActsDamage(play.early, id) + ShotsDamage(play.shots, id), ActsDamage(play.late, id));
  }

  lemma RunTickTakes(rules: Rules, s: Race, play: Play, tick: nat, id: string)
    requires RaceRuns.Joined(s) && RaceRuns.Ledgers(rules, s) && id in s.racers
    ensures TakesIn(s, RaceRuns.RunTick(rules, s, play, tick), id, PlayDamage(play, id))
  {
    RaceRuns.MiddleKeeps(rules, s, play, tick);
    MiddleTakes(rules, s, play, tick, id);
    var middle := RaceRuns.Middle(rules, s, play, tick);
    var m := Winner(middle, tick);
    RaceRuns.OnlyStage(rules, middle, m);
    FlushTakes(m, m.roster, tick, id);
    ThenTakes(s, m, FlushAll(m, m.roster, tick), id, PlayDamage(play, id), 0);
    hide RaceRuns.Middle, RaceRuns.Ledgers, FlushAll, FirstDown, PlayDamage, Takes;
  }

  // ---- The damage of a race ----

  /** The race runs in this tick: it is not over, and two are in it. */
  predicate Counts(s: Race) {
    s.stage == Running || (s.stage == Waiting && |s.roster| >= MIN_PLAYERS)
  }

  /** All the damage a racer's own acts and shots did while the race ran. */
  ghost function Total(rules: Rules, ms: seq<RaceRuns.Move>, id: string): nat
    requires rules.maxHp > 0
    decreases |ms|
  {
    if ms == [] then 0 else
    var front, last := ms[..|ms| - 1], ms[|ms| - 1];
    var s := RaceRuns.Run(rules, front);
    Total(rules, front, id) + (if last.Ticks? && Counts(s) && id in s.racers then PlayDamage(last.play, id) else 0)
  }

  lemma TickTakes(rules: Rules, s: Race, play: Play, id: string)
    requires RaceRuns.Joined(s) && RaceRuns.Ledgers(rules, s) && id in s.racers
    ensures TakesIn(s, RaceRuns.TickRace(rules, s, play), id, if Counts(s) then PlayDamage(play, id) else 0)
  {
    RaceRuns.StartKeeps(rules, s);
    if Counts(s) {
      RunTickTakes(rules, RaceRuns.StartIfReady(s), play, s.tick + 1, id);
    }
    hide RaceRuns.RunTick, RaceRuns.Ledgers, PlayDamage;
  }

  /** A racer who joins starts with a full bar and nothing dealt; nobody else does or leaves. */
  lemma JoinTakes(rules: Rules, s: Race, player: string, id: string)
    ensures var t := RaceRuns.Apply(rules, s, RaceRuns.Enters(player));
      && (id in s.racers ==> TakesIn(s, t, id, 0))
      && (id !in s.racers && id in t.racers ==> t.racers[id].hp == rules.maxHp && t.racers[id].dealt == 0)
    requires RaceRuns.Sound(rules, s)
  {
    hide RaceRuns.Sound, CardEffects.Insert;
  }

  /** The boss of a racer has lost what he has done in all, or everything. */
  predicate Adds(rules: Rules, r: Racer, total: nat) {
    r.dealt == Least(rules.maxHp, total) && r.hp == rules.maxHp - r.dealt
  }

  lemma AddsOn(rules: Rules, r: Racer, s: Racer, total: nat, n: nat)
    requires Adds(rules, r, total) && Takes(r, s, n)
    ensures Adds(rules, s, total + n)
  {
  }

  lemma MoveAdds(rules: Rules, s: Race, m: RaceRuns.Move, id: string, total: nat)
    requires RaceRuns.Sound(rules, s)
    requires if id in s.racers then Adds(rules, s.racers[id], total) else total == 0
    ensures var t := RaceRuns.Apply(rules, s, m);
      var more := if m.Ticks? && Counts(s) && id in s.racers then PlayDamage(m.play, id) else 0;
      if id in t.racers then Adds(rules, t.racers[id], total + more) else total + more == 0
  {
    hide RaceRuns.TickRace, PlayDamage, Takes, Join, RaceRuns.Sound;
    SoundTicks(rules, s);
    match m
    case Enters(player) =>
      JoinTakes(rules, s, player, id);
      JoinAdds(rules, s, player, id, total);
    case Ticks(play) =>
      if id in s.racers {
        TickTakes(rules, s, play, id);
        var t := RaceRuns.TickRace(rules, s, play);
        AddsOn(rules, s.racers[id], t.racers[id], total, if Counts(s) then PlayDamage(play, id) else 0);
      } else {
        NobodyComes(rules, s, play, id);
      }
  }

  lemma SoundTicks(rules: Rules, s: Race)
    requires RaceRuns.Sound(rules, s)
    ensures RaceRuns.Joined(s) && RaceRuns.Ledgers(rules, s)
  {
    hide RaceRuns.Ledgers, RaceRuns.Decided, RaceRuns.Reported;
  }

  lemma JoinAdds(rules: Rules, s: Race, player: string, id: string, total: nat)
    requires RaceRuns.Sound(rules, s)
    requires if id in s.racers then Adds(rules, s.racers[id], total) else total == 0
    ensures var t := RaceRuns.Apply(rules, s, RaceRuns.Enters(player));
      if id in t.racers then Adds(rules, t.racers[id], total) else total == 0
  {
    JoinTakes(rules, s, player, id);
    if id in s.racers {
      AddsOn(rules, s.racers[id], RaceRuns.Apply(rules, s, RaceRuns.Enters(player)).racers[id], total, 0);
    }
    hide RaceRuns.Apply, RaceRuns.Sound;
  }

  /** No tick brings a racer. */
  lemma NobodyComes(rules: Rules, s: Race, play: Play, id: string)
    requires RaceRuns.Sound(rules, s) && id !in s.racers
    ensures id !in RaceRuns.Apply(rules, s, RaceRuns.Ticks(play)).racers
  {
    SoundTicks(rules, s);
    RaceRuns.TickSound(rules, s, play);
    SameRacers(rules, s, play);
    hide RaceRuns.Sound, RaceRuns.TickRace;
  }

  lemma SameRacers(rules: Rules, s: Race, play: Play)
    requires RaceRuns.Joined(s) && RaceRuns.Ledgers(rules, s)
    ensures forall id :: id in RaceRuns.TickRace(rules, s, play).racers ==> id in s.racers
  {
    RaceRuns.StartKeeps(rules, s);
    var started := RaceRuns.StartIfReady(s);
    if started.stage == Running {
      RaceRuns.MiddleKeeps(rules, started, play, s.tick + 1);
      var middle := RaceRuns.Middle(rules, started, play, s.tick + 1);
      var m := Winner(middle, s.tick + 1);
      RaceRuns.OnlyStage(rules, middle, m);
      RaceRuns.FlushAllKeeps(rules, m, m.roster, s.tick + 1);
    }
    hide RaceRuns.Middle, RaceRuns.Ledgers, FlushAll, FirstDown;
  }

  /** After any run a racer has dealt the damage of all his own hits, up to the full bar. */
  lemma {:induction false} HitsAddUp(rules: Rules, ms: seq<RaceRuns.Move>, id: string)
    requires rules.maxHp > 0
    ensures var s := RaceRuns.Run(rules, ms);
      if id in s.racers then Adds(rules, s.racers[id], Total(rules, ms, id)) else Total(rules, ms, id) == 0
    decreases |ms|
  {
    hide RaceRuns.Apply, RaceRuns.Sound, PlayDamage, Adds;
    if ms != [] {
      var front, last := ms[..|ms| - 1], ms[|ms| - 1];
      HitsAddUp(rules, front, id);
      MoveAdds(rules, RaceRuns.Run(rules, front), last, id, Total(rules, front, id));
    }
  }

  /** So his boss is down exactly when his hits add up to the full bar, and what he has dealt is what they add up
      to, or the full bar. */
  lemma DownWhenHitsReachTheBar(rules: Rules, ms: seq<RaceRuns.Move>, id: string)
    requires rules.maxHp > 0 && id in RaceRuns.Run(rules, ms).racers
    ensures var r, total := RaceRuns.Run(rules, ms).racers[id], Total(rules, ms, id);
      && (r.hp == 0 <==> total >= rules.maxHp)
      && r.dealt == (if total >= rules.maxHp then rules.maxHp else total)
  {
    HitsAddUp(rules, ms, id);
    hide RaceRuns.Run, Total;
  }

  // ---- With bombs and cards ----

  /** What a deed does: a bomb its damage, a card that is accepted the damage of the card. */
  function DeedDamage(script: RaceWhole.Script, w: RaceWhole.Whole, deed: RaceWhole.Deed, tick: nat, id: string): nat {
    if deed.player != id then 0
    else if deed.Bombs? then deed.damage
    else if deed.Casts? && id in w.cards then
      var r := CardHand.ValidateCast(script.catalog, w.cards[id].hand, deed.slot, tick);
      if r.Cast? && r.definition.damage > 0 then r.definition.damage else 0
    else 0
  }

  lemma TwoActs(a: Act, b: Act, id: string)
    ensures ActsDamage([a, b], id) == ActDamage(a, id) + ActDamage(b, id)
  {
    assert [a, b][..1] == [a] && [a][..0] == [];
    assert ActsDamage([a], id) == ActDamage(a, id);
    hide ActDamage;
  }

  lemma {:induction false} ActsConcat(a: seq<Act>, b: seq<Act>, id: string)
    ensures ActsDamage(a + b, id) == ActsDamage(a, id) + ActsDamage(b, id)
    decreases |b|
  {
    hide ActDamage;
    if b == [] {
      assert a + b == a;
    } else {
      assert (a + b)[..|a + b| - 1] == a + b[..|b| - 1];
      ActsConcat(a, b[..|b| - 1], id);
    }
  }

  /** The acts of a deed do its damage, to the racer's own boss and no other. */
  lemma DeedDoes(rules: Rules, script: RaceWhole.Script, w: RaceWhole.Whole, deed: RaceWhole.Deed, tick: nat, id: string)
    ensures ActsDamage(RaceWhole.ActsOf(rules, script, w, deed, tick), id) == DeedDamage(script, w, deed, tick, id)
  {
    hide ActsDamage, RaceWhole.FieldBehind, CardHand.ValidateCast;
    NoActs(id);
    match deed
    case Recovers(_) =>
    case Bombs(player, damage) => TwoActs(NoticeOf(player), DamageBy(player, damage), id);
    case Draws(player) => OneNotice(player, id);
    case Casts(player, slot) =>
      OneNotice(player, id);
      match RaceWhole.CastOf(script, w, player, slot, tick) {
        case NoCard(_) =>
        case Refused(_) =>
        case Cast(d, _, _, _, _) =>
          var n := if d.damage > 0 then d.damage else 0;
          var field := RaceWhole.FieldBehind(rules, script, w, deed, tick).bullets;
          TwoActs(DamageBy(player, n), NoticeOf(player), id);
          TwoActs(Reshapes(player, field), NoticeOf(player), id);
          ActsConcat([DamageBy(player, n), NoticeOf(player)], [Reshapes(player, field), NoticeOf(player)], id);
      }
  }

  lemma NoActs(id: string)
    ensures ActsDamage([], id) == 0
  {
  }

  lemma OneNotice(player: string, id: string)
    ensures ActsDamage([NoticeOf(player)], id) == 0
  {
    assert [NoticeOf(player)][..0] == [];
  }
}
