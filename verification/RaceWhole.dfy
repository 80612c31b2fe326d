/** A boss race with its bullets and its cards: the tick of src/boss_race.cpp with the field and the hands it
    runs on, so that ledgers, bullets and hands are those of one run. */
module RaceWhole {
  import opened Bytes
  import opened RaceBullets
  import opened RaceField
  import opened RaceLedger
  import opened RaceSteps
  import RaceRuns
  import CardHand

  /** A racer's hand, the opening hand it was dealt, and the cards cast since. */
  datatype Cards = Cards(hand: CardHand.HandState, opening: seq<string>, cast: seq<string>)

  datatype Whole = Whole(race: Race, nextId: nat, cards: map<string, Cards>)

  /** The catalog, and what a card does to the field: nothing, or its deltas. */
  datatype Script = Script(catalog: CardHand.Catalog, effect: (Race, string, CardHand.Definition, nat) -> Option<seq<Delta>>)

  /** What a player does in his part of a tick, in order. */
  datatype Deed = Recovers(player: string) | Bombs(player: string, damage: nat) | Casts(player: string, slot: int) | Draws(player: string)

  datatype Contact = Hits(player: string) | Grazes(player: string) | Notes(player: string)

  /** The players' deeds, the waves the emitters fire, how bullets move, the own shots and the contacts. */
  datatype WholePlay = WholePlay(deeds: seq<Deed>, volleys: seq<Volley>, world: World, shots: seq<MyBullet>, contacts: seq<Contact>)

  const EMPTY_WHOLE: Whole := Whole(EMPTY, 0, map[])

  // ---- Deeds ----

  function CastOf(script: Script, w: Whole, player: string, slot: int, tick: nat): CardHand.CastResult {
    if player in w.cards then CardHand.ValidateCast(script.catalog, w.cards[player].hand, slot, tick) else CardHand.NoCard(0.0)
  }

  /** ExecuteCastCard up to the effect: the damage on the racer's own boss, and the announcement. */
  function Struck1(rules: Rules, s: Race, player: string, d: CardHand.Definition, tick: nat): Race {
    DoAll(rules, s, [DamageBy(player, if d.damage > 0 then d.damage else 0), NoticeOf(player)], tick)
  }

  /** ApplyCardBulletDeltas of the card's effect on the field as it then is. */
  function Reshaped(script: Script, s: Race, nextId: nat, player: string, d: CardHand.Definition, tick: nat): Field {
    match script.effect(s, player, d, tick)
    case None => Field(s.live, nextId)
    case Some(deltas) => AllChanged(Field(s.live, nextId), deltas, player)
  }

  /** What a deed does to the racers, as acts of `RaceSteps`. */
  function ActsOf(rules: Rules, script: Script, w: Whole, deed: Deed, tick: nat): seq<Act> {
    match deed
    case Recovers(_) => []
    case Bombs(player, damage) => [NoticeOf(player), DamageBy(player, damage)]
    case Draws(player) => if player in w.cards then [NoticeOf(player)] else []
    case Casts(player, slot) =>
      match CastOf(script, w, player, slot, tick)
      case NoCard(_) => []
      case Refused(_) => [NoticeOf(player)]
      case Cast(d, _, _, _, _) =>
        [DamageBy(player, if d.damage > 0 then d.damage else 0), NoticeOf(player)]
        + [Reshapes(player, FieldBehind(rules, script, w, deed, tick).bullets), NoticeOf(player)]
  }

  /** The field after a deed, with the next free id. */
  function FieldBehind(rules: Rules, script: Script, w: Whole, deed: Deed, tick: nat): Field {
    if deed.Casts? && deed.player in w.race.racers && CastOf(script, w, deed.player, deed.slot, tick).Cast? then
      var d := CastOf(script, w, deed.player, deed.slot, tick).definition;
      Reshaped(script, Struck1(rules, w.race, deed.player, d, tick), w.nextId, deed.player, d, tick)
    else Field(w.race.live, w.nextId)
  }

  function CardsBehind(script: Script, c: Cards, deed: Deed, tick: nat): Cards {
    match deed
    case Recovers(_) => c.(hand := CardHand.Recovered(c.hand))
    case Bombs(_, _) => c
    case Draws(_) => c.(hand := CardHand.Drawn(c.hand))
    case Casts(_, slot) =>
      if CardHand.ValidateCast(script.catalog, c.hand, slot, tick).Cast? then
        c.(hand := CardHand.AfterCast(script.catalog, c.hand, slot, tick), cast := c.cast + [c.hand.cards[slot]])
      else c
  }

  function Doing(rules: Rules, script: Script, w: Whole, deed: Deed, tick: nat): Whole {
    Whole(DoAll(rules, w.race, ActsOf(rules, script, w, deed, tick), tick),
          FieldBehind(rules, script, w, deed, tick).nextId,
          if deed.player in w.cards then w.cards[deed.player := CardsBehind(script, w.cards[deed.player], deed, tick)] else w.cards)
  }

  function DoingAll(rules: Rules, script: Script, w: Whole, deeds: seq<Deed>, tick: nat): Whole {
    if deeds == [] then w else
    Doing(rules, script, DoingAll(rules, script, w, deeds[..|deeds| - 1], tick), deeds[|deeds| - 1], tick)
  }

  function AllActs(rules: Rules, script: Script, w: Whole, deeds: seq<Deed>, tick: nat): seq<Act> {
    if deeds == [] then [] else
    var front := deeds[..|deeds| - 1];
    AllActs(rules, script, w, front, tick) + ActsOf(rules, script, DoingAll(rules, script, w, front, tick), deeds[|deeds| - 1], tick)
  }

  lemma {:induction false} DoAllConcat(rules: Rules, s: Race, a: seq<Act>, b: seq<Act>, tick: nat)
    ensures DoAll(rules, s, a + b, tick) == DoAll(rules, DoAll(rules, s, a, tick), b, tick)
    decreases |b|
  {
    hide Do;
    if b == [] {
      assert a + b == a;
    } else {
      assert (a + b)[..|a + b| - 1] == a + b[..|b| - 1];
      DoAllConcat(rules, s, a, b[..|b| - 1], tick);
    }
  }

  /** The deeds do to the racers what their acts do. */
  lemma {:induction false} DeedsAreActs(rules: Rules, script: Script, w: Whole, deeds: seq<Deed>, tick: nat)
    ensures DoingAll(rules, script, w, deeds, tick).race == DoAll(rules, w.race, AllActs(rules, script, w, deeds, tick), tick)
    decreases |deeds|
  {
    if deeds == [] {
      assert DoAll(rules, w.race, [], tick) == w.race;
    } else {
      var front := deeds[..|deeds| - 1];
      var before := DoingAll(rules, script, w, front, tick);
      DeedsAreActs(rules, script, w, front, tick);
      hide DoAll, ActsOf, FieldBehind, CardsBehind;
      DoAllConcat(rules, w.race, AllActs(rules, script, w, front, tick), ActsOf(rules, script, before, deeds[|deeds| - 1], tick), tick);
    }
  }

  // ---- A tick ----

  function ActOf(c: Contact): Act {
    match c
    case Hits(player) => StruckBy(player)
    case Grazes(player) => GrazedBy(player)
    case Notes(player) => NoticeOf(player)
  }

  function ContactActs(contacts: seq<Contact>): (acts: seq<Act>)
    ensures |acts| == |contacts| && forall i :: 0 <= i < |acts| ==> acts[i] == ActOf(contacts[i])
  {
    seq(|contacts|, i requires 0 <= i < |contacts| => ActOf(contacts[i]))
  }

  function FiredAll(f: Field, volleys: seq<Volley>): Field {
    if volleys == [] then f else Fired(FiredAll(f, volleys[..|volleys| - 1]), volleys[|volleys| - 1])
  }

  /** The race when the players' part begins: started, with the timer's points. */
  function Begun(s: Race): Race
    requires RaceRuns.Joined(s)
  {
    Timer(RaceRuns.StartIfReady(s), s.roster, s.tick + 1)
  }

  function Played(rules: Rules, script: Script, w: Whole, p: WholePlay): Whole
    requires RaceRuns.Joined(w.race)
  {
    DoingAll(rules, script, w.(race := Begun(w.race)), p.deeds, w.race.tick + 1)
  }

  /** The field when shots and contacts are judged: waves fired, bullets moved and split. */
  ghost function Judged(rules: Rules, script: Script, w: Whole, p: WholePlay): Field
    requires RaceRuns.Joined(w.race)
  {
    var e := Played(rules, script, w, p);
    Advanced(p.world, FiredAll(Field(e.race.live, e.nextId), p.volleys), w.race.tick + 1)
  }

  ghost function PlayOf(rules: Rules, script: Script, w: Whole, p: WholePlay): Play
    requires RaceRuns.Joined(w.race)
  {
    Play(AllActs(rules, script, w.(race := Begun(w.race)), p.deeds, w.race.tick + 1), Judged(rules, script, w, p).bullets,
         p.shots, ContactActs(p.contacts))
  }

  predicate Runs(s: Race) {
    RaceRuns.StartIfReady(s).stage == Running
  }

  ghost function WholeTick(rules: Rules, script: Script, w: Whole, p: WholePlay): Whole
    requires RaceRuns.Joined(w.race) && RaceRuns.Ledgers(rules, w.race)
  {
    var race := RaceRuns.TickRace(rules, w.race, PlayOf(rules, script, w, p));
    if Runs(w.race) then Whole(race, Judged(rules, script, w, p).nextId, Played(rules, script, w, p).cards)
    else w.(race := race)
  }

  // ---- Screen clears mark bullets and do nothing else to the field ----

  predicate MarkedFrom(b: Bullet, c: Bullet) {
    c == b.(vanishTick := c.vanishTick)
  }

  ghost predicate Swept(before: seq<Bullet>, after: seq<Bullet>) {
    |after| == |before| && forall i :: 0 <= i < |after| ==> MarkedFrom(before[i], after[i])
  }

  lemma SweptOn(a: seq<Bullet>, b: seq<Bullet>, c: seq<Bullet>)
    requires Swept(a, b) && Swept(b, c)
    ensures Swept(a, c)
  {
    forall i | 0 <= i < |c|
      ensures MarkedFrom(a[i], c[i])
    {
      assert MarkedFrom(a[i], b[i]) && MarkedFrom(b[i], c[i]);
    }
  }

  lemma Unswept(a: seq<Bullet>)
    ensures Swept(a, a)
  {
  }

  lemma SweptSound(before: seq<Bullet>, after: seq<Bullet>, nextId: nat)
    requires Swept(before, after) && Sound(before, nextId)
    ensures Sound(after, nextId)
  {
    forall i | 0 <= i < |after|
      ensures after[i].owner == before[i].owner && after[i].id == before[i].id && after[i].generation == before[i].generation
    {
      assert MarkedFrom(before[i], after[i]);
    }
    forall o
      ensures Owned(after, o) <= BULLET_CAP
    {
      SameOwners(before, after, o);
      assert Owned(before, o) <= BULLET_CAP;
    }
    hide Owned;
  }

  lemma AddScoreLive(d: Desk, delta: nat, tick: nat)
    ensures AddScore(d, delta, tick).live == d.live
  {
  }

  lemma BonusLive(rules: Rules, d: Desk, tick: nat)
    ensures Bonus(rules, d, tick).live == d.live
  {
    hide CapturePoints;
  }

  lemma EnterSweeps(d: Desk, tick: nat)
    ensures Swept(d.live, Enter(d, tick).live)
  {
  }

  lemma NextPhaseSweeps(rules: Rules, d: Desk, tick: nat)
    ensures Swept(d.live, NextPhase(rules, d, tick).live)
  {
    var ended := Push(d, tick, PhaseEnd, d.r.phase);
    var paid := Bonus(rules, ended, tick);
    BonusLive(rules, ended, tick);
    EnterSweeps(paid, tick);
    AddScoreLive(Enter(paid, tick), Standing(paid.live, paid.r.id) * CLEAR_POINTS, tick);
    hide Bonus, AddScore, Enter, Standing, Swept;
  }

  lemma {:induction false} CheckPhaseSweeps(rules: Rules, d: Desk, tick: nat)
    ensures Swept(d.live, CheckPhase(rules, d, tick).live)
    decreases SPELL_PHASES - d.r.phase
  {
    hide NextPhase, Swept;
    if Crosses(rules, d.r) {
      var next := NextPhase(rules, d, tick);
      NextPhaseSweeps(rules, d, tick);
      CheckPhaseSweeps(rules, next, tick);
      SweptOn(d.live, next.live, CheckPhase(rules, next, tick).live);
    } else {
      Unswept(d.live);
    }
  }

  lemma DefeatedLive(rules: Rules, d: Desk, tick: nat)
    ensures Defeated(rules, d, tick).live == d.live
  {
    AddScoreLive(d, DESTROY_POINTS, tick);
    BonusLive(rules, Push(AddScore(d, DESTROY_POINTS, tick), tick, SpellCapture, d.r.phase), tick);
    hide Bonus, AddScore;
  }

  lemma DamageSweeps(rules: Rules, d: Desk, damage: nat, tick: nat)
    ensures Swept(d.live, Damage(rules, d, damage, tick).live)
  {
    hide CheckPhase, Defeated, Swept;
    Unswept(d.live);
    if damage != 0 && d.r.hp != 0 {
      var hurt := d.(r := Hurt(d.r, damage));
      CheckPhaseSweeps(rules, hurt, tick);
      DefeatedLive(rules, CheckPhase(rules, hurt, tick), tick);
    }
  }

  lemma DoneSweeps(rules: Rules, d: Desk, a: Act, tick: nat)
    requires !a.Reshapes?
    ensures Swept(d.live, Done(rules, d, a, tick).live)
  {
    Unswept(d.live);
    hide Damage, Swept, AddScore;
    match a
    case DamageBy(_, damage) => DamageSweeps(rules, d, damage, tick);
    case StruckBy(_) =>
    case GrazedBy(_) => AddScoreLive(Push(MoreGraze(d), tick, PlayerGraze, 0), GRAZE_POINTS, tick);
    case NoticeOf(_) =>
  }

  lemma DoSweeps(rules: Rules, s: Race, a: Act, tick: nat)
    requires !a.Reshapes?
    ensures Swept(s.live, Do(rules, s, a, tick).live)
  {
    Unswept(s.live);
    if a.player in s.racers {
      DoneSweeps(rules, On(s, a.player), a, tick);
    }
    hide Done, Swept;
  }

  lemma {:induction false} DoAllSweeps(rules: Rules, s: Race, acts: seq<Act>, tick: nat)
    requires forall i :: 0 <= i < |acts| ==> !acts[i].Reshapes?
    ensures Swept(s.live, DoAll(rules, s, acts, tick).live)
    decreases |acts|
  {
    hide Do, Swept;
    Unswept(s.live);
    if acts != [] {
      var before := DoAll(rules, s, acts[..|acts| - 1], tick);
      DoAllSweeps(rules, s, acts[..|acts| - 1], tick);
      DoSweeps(rules, before, acts[|acts| - 1], tick);
      SweptOn(s.live, before.live, DoAll(rules, s, acts, tick).live);
    }
  }

  lemma JudgeOneSweeps(rules: Rules, s: Race, b: MyBullet, tick: nat)
    ensures Swept(s.live, JudgeOne(rules, s, b, tick).live)
  {
    Unswept(s.live);
    if Aims(s, b) && InBoss(b) {
      DamageSweeps(rules, On(s, b.owner), b.damage, tick);
      AddScoreLive(Damage(rules, On(s, b.owner), b.damage, tick), HIT_POINTS, tick);
    }
    hide Damage, AddScore, Swept, InBoss;
  }

  lemma {:induction false} JudgeAllSweeps(rules: Rules, s: Race, shots: seq<MyBullet>, tick: nat)
    ensures Swept(s.live, JudgeAll(rules, s, shots, tick).live)
    decreases |shots|
  {
    hide JudgeOne, Swept;
    Unswept(s.live);
    if shots != [] {
      var before := JudgeAll(rules, s, shots[..|shots| - 1], tick);
      JudgeAllSweeps(rules, s, shots[..|shots| - 1], tick);
      JudgeOneSweeps(rules, before, shots[|shots| - 1], tick);
      SweptOn(s.live, before.live, JudgeAll(rules, s, shots, tick).live);
    }
  }

  lemma {:induction false} TimerLive(s: Race, ids: seq<string>, tick: nat)
    requires forall id :: id in ids ==> id in s.racers
    ensures Timer(s, ids, tick).live == s.live
    decreases |ids|
  {
    hide AddScore;
    if ids != [] && tick % TIMER_INTERVAL == 0 {
      AddScoreLive(On(s, ids[0]), TIMER_POINTS, tick);
      TimerLive(Put(s, ids[0], AddScore(On(s, ids[0]), TIMER_POINTS, tick)), ids[1..], tick);
    }
  }

  lemma {:induction false} FlushLive(s: Race, ids: seq<string>, tick: nat)
    requires forall id :: id in ids ==> id in s.racers
    ensures FlushAll(s, ids, tick).live == s.live
    decreases |ids|
  {
    if ids != [] {
      assert Flush(On(s, ids[0]), tick).live == s.live;
      hide Flush;
      FlushLive(Put(s, ids[0], Flush(On(s, ids[0]), tick)), ids[1..], tick);
    }
  }

  // ---- Bullets ----

  ghost predicate BulletsSound(w: Whole) {
    Sound(w.race.live, w.nextId)
  }

  lemma ReshapedSound(script: Script, s: Race, nextId: nat, player: string, d: CardHand.Definition, tick: nat)
    requires Sound(s.live, nextId)
    ensures var f := Reshaped(script, s, nextId, player, d, tick); Sound(f.bullets, f.nextId)
  {
    hide Sound, AllChanged;
    match script.effect(s, player, d, tick)
    case None =>
    case Some(deltas) => AllChangedSound(Field(s.live, nextId), deltas, player);
  }

  lemma CastLive(rules: Rules, script: Script, w: Whole, deed: Deed, tick: nat)
    requires deed.Casts? && deed.player in w.race.racers && CastOf(script, w, deed.player, deed.slot, tick).Cast?
    ensures DoAll(rules, w.race, ActsOf(rules, script, w, deed, tick), tick).live == FieldBehind(rules, script, w, deed, tick).bullets
  {
    var d := CastOf(script, w, deed.player, deed.slot, tick).definition;
    var first := [DamageBy(deed.player, if d.damage > 0 then d.damage else 0), NoticeOf(deed.player)];
    var second := [Reshapes(deed.player, FieldBehind(rules, script, w, deed, tick).bullets), NoticeOf(deed.player)];
    hide FieldBehind, DoAll, CastOf;
    assert ActsOf(rules, script, w, deed, tick) == first + second;
    DoAllConcat(rules, w.race, first, second, tick);
    RacersStay(rules, w.race, first, tick);
    ReshapeLast(rules, DoAll(rules, w.race, first, tick), deed.player, FieldBehind(rules, script, w, deed, tick).bullets, tick);
  }

  lemma {:induction false} RacersStay(rules: Rules, s: Race, acts: seq<Act>, tick: nat)
    ensures forall id :: id in s.racers ==> id in DoAll(rules, s, acts, tick).racers
    decreases |acts|
  {
    hide Done;
    if acts != [] {
      RacersStay(rules, s, acts[..|acts| - 1], tick);
    }
  }

  lemma ReshapeLast(rules: Rules, s: Race, player: string, field: seq<Bullet>, tick: nat)
    requires player in s.racers
    ensures DoAll(rules, s, [Reshapes(player, field), NoticeOf(player)], tick).live == field
  {
    var t := Do(rules, s, Reshapes(player, field), tick);
    assert [Reshapes(player, field), NoticeOf(player)][..1] == [Reshapes(player, field)];
    assert [Reshapes(player, field)][..0] == [];
    assert DoAll(rules, s, [Reshapes(player, field)], tick) == t;
    assert t.live == field && Do(rules, t, NoticeOf(player), tick).live == field;
    hide Do;
  }

  lemma DeedSound(rules: Rules, script: Script, w: Whole, deed: Deed, tick: nat)
    requires BulletsSound(w)
    ensures BulletsSound(Doing(rules, script, w, deed, tick))
  {
    var acts := ActsOf(rules, script, w, deed, tick);
    if deed.Casts? && deed.player in w.race.racers && CastOf(script, w, deed.player, deed.slot, tick).Cast? {
      CastFieldSound(rules, script, w, deed, tick);
      CastLive(rules, script, w, deed, tick);
      hide ActsOf, DoAll, FieldBehind, CardsBehind, Sound, CastOf;
    } else {
      PlainDeed(rules, script, w, deed, tick);
      hide ActsOf, DoAll, CardsBehind, Sound, Swept, CastOf;
      SweptSound(w.race.live, DoAll(rules, w.race, acts, tick).live, w.nextId);
    }
  }

  lemma CastFieldSound(rules: Rules, script: Script, w: Whole, deed: Deed, tick: nat)
    requires BulletsSound(w)
    requires deed.Casts? && deed.player in w.race.racers && CastOf(script, w, deed.player, deed.slot, tick).Cast?
    ensures var f := FieldBehind(rules, script, w, deed, tick); Sound(f.bullets, f.nextId)
  {
    var d := CastOf(script, w, deed.player, deed.slot, tick).definition;
    var s := Struck1(rules, w.race, deed.player, d, tick);
    DoAllSweeps(rules, w.race, [DamageBy(deed.player, if d.damage > 0 then d.damage else 0), NoticeOf(deed.player)], tick);
    hide Sound, Swept, CastOf, DoAll, Reshaped;
    SweptSound(w.race.live, s.live, w.nextId);
    ReshapedSound(script, s, w.nextId, deed.player, d, tick);
  }

  lemma {:induction false} AbsentPlayer(rules: Rules, s: Race, acts: seq<Act>, player: string, tick: nat)
    requires player !in s.racers && forall i :: 0 <= i < |acts| ==> acts[i].player == player
    ensures DoAll(rules, s, acts, tick) == s
    decreases |acts|
  {
    hide Done;
    if acts != [] {
      AbsentPlayer(rules, s, acts[..|acts| - 1], player, tick);
    }
  }

  /** A deed that casts no card, or of nobody in the race. */
  lemma PlainDeed(rules: Rules, script: Script, w: Whole, deed: Deed, tick: nat)
    requires !(deed.Casts? && deed.player in w.race.racers && CastOf(script, w, deed.player, deed.slot, tick).Cast?)
    ensures Swept(w.race.live, DoAll(rules, w.race, ActsOf(rules, script, w, deed, tick), tick).live)
  {
    var acts := ActsOf(rules, script, w, deed, tick);
    hide DoAll, CastOf, Swept, FieldBehind;
    if deed.player in w.race.racers {
      DoAllSweeps(rules, w.race, acts, tick);
    } else {
      AbsentPlayer(rules, w.race, acts, deed.player, tick);
      Unswept(w.race.live);
    }
  }

  lemma {:induction false} DeedsSound(rules: Rules, script: Script, w: Whole, deeds: seq<Deed>, tick: nat)
    requires BulletsSound(w)
    ensures BulletsSound(DoingAll(rules, script, w, deeds, tick))
    decreases |deeds|
  {
    hide BulletsSound, Doing;
    if deeds != [] {
      DeedsSound(rules, script, w, deeds[..|deeds| - 1], tick);
      DeedSound(rules, script, DoingAll(rules, script, w, deeds[..|deeds| - 1], tick), deeds[|deeds| - 1], tick);
    }
  }

  lemma {:induction false} FiredAllSound(f: Field, volleys: seq<Volley>)
    requires Sound(f.bullets, f.nextId)
    ensures Sound(FiredAll(f, volleys).bullets, FiredAll(f, volleys).nextId)
    decreases |volleys|
  {
    hide Sound, Fired;
    if volleys != [] {
      FiredAllSound(f, volleys[..|volleys| - 1]);
      FiredSound(FiredAll(f, volleys[..|volleys| - 1]), volleys[|volleys| - 1]);
    }
  }

  lemma BegunLive(s: Race)
    requires RaceRuns.Joined(s)
    ensures Begun(s).live == s.live
  {
    TimerLive(RaceRuns.StartIfReady(s), s.roster, s.tick + 1);
    hide Timer;
  }

  lemma JudgedSound(rules: Rules, script: Script, w: Whole, p: WholePlay)
    requires RaceRuns.Joined(w.race) && BulletsSound(w)
    ensures Sound(Judged(rules, script, w, p).bullets, Judged(rules, script, w, p).nextId)
  {
    BegunLive(w.race);
    hide Sound, Begun, DoingAll, FiredAll, Advanced;
    var e := Played(rules, script, w, p);
    DeedsSound(rules, script, w.(race := Begun(w.race)), p.deeds, w.race.tick + 1);
    FiredAllSound(Field(e.race.live, e.nextId), p.volleys);
    AdvanceKeepsSound(p.world, FiredAll(Field(e.race.live, e.nextId), p.volleys), w.race.tick + 1);
  }

  /** The bullets after a running tick are those of the judged field, some marked to vanish. */
  lemma RunTickSweeps(rules: Rules, s: Race, play: Play, tick: nat)
    requires RaceRuns.Joined(s) && RaceRuns.Ledgers(rules, s)
    requires forall i :: 0 <= i < |play.late| ==> !play.late[i].Reshapes?
    ensures Swept(play.field, RaceRuns.RunTick(rules, s, play, tick).live)
  {
    RaceRuns.MiddleKeeps(rules, s, play, tick);
    MiddleSweeps(rules, s, play, tick);
    var middle := RaceRuns.Middle(rules, s, play, tick);
    var m := Winner(middle, tick);
    RaceRuns.OnlyStage(rules, middle, m);
    FlushLive(m, m.roster, tick);
    hide RaceRuns.Middle, RaceRuns.Ledgers, FlushAll, Swept, FirstDown;
  }

  lemma MiddleSweeps(rules: Rules, s: Race, play: Play, tick: nat)
    requires RaceRuns.Joined(s) && forall i :: 0 <= i < |play.late| ==> !play.late[i].Reshapes?
    ensures Swept(play.field, RaceRuns.Middle(rules, s, play, tick).live)
  {
    hide DoAll, JudgeAll, Timer, Swept;
    var a := DoAll(rules, Timer(s, s.roster, tick), play.early, tick).(live := play.field);
    var j := JudgeAll(rules, a, play.shots, tick);
    JudgeAllSweeps(rules, a, play.shots, tick);
    DoAllSweeps(rules, j, play.late, tick);
    SweptOn(play.field, j.live, DoAll(rules, j, play.late, tick).live);
  }

  lemma ContactsArePlain(contacts: seq<Contact>)
    ensures forall i :: 0 <= i < |ContactActs(contacts)| ==> !ContactActs(contacts)[i].Reshapes?
  {
  }

  lemma TickLive(rules: Rules, s: Race, play: Play)
    requires RaceRuns.Joined(s) && RaceRuns.Ledgers(rules, s)
    requires forall i :: 0 <= i < |play.late| ==> !play.late[i].Reshapes?
    ensures var t := RaceRuns.TickRace(rules, s, play); if Runs(s) then Swept(play.field, t.live) else t.live == s.live
  {
    RaceRuns.StartKeeps(rules, s);
    if Runs(s) {
      RunTickSweeps(rules, RaceRuns.StartIfReady(s), play, s.tick + 1);
    }
    hide RaceRuns.RunTick, RaceRuns.Ledgers, Swept;
  }

  lemma TickBulletsSound(rules: Rules, script: Script, w: Whole, p: WholePlay)
    requires RaceRuns.Joined(w.race) && RaceRuns.Ledgers(rules, w.race) && BulletsSound(w)
    ensures BulletsSound(WholeTick(rules, script, w, p))
  {
    var play := PlayOf(rules, script, w, p);
    ContactsArePlain(p.contacts);
    JudgedSound(rules, script, w, p);
    TickLive(rules, w.race, play);
    var t := RaceRuns.TickRace(rules, w.race, play);
    hide Sound, RaceRuns.TickRace, RaceRuns.Ledgers, Judged, AllActs, Played, Swept, Runs;
    if Runs(w.race) {
      SweptSound(play.field, t.live, Judged(rules, script, w, p).nextId);
    }
  }

  // ---- Hands ----

  ghost predicate CardsSound(script: Script, c: Cards) {
    CardHand.TicketDeck(script.catalog, c.opening, c.hand.deck) && CardHand.Ledger(c.opening, c.hand, c.cast)
  }

  ghost predicate AllCardsSound(script: Script, cards: map<string, Cards>) {
    forall id :: id in cards ==> CardsSound(script, cards[id])
  }

  ghost predicate Fit(script: Script) {
    CardHand.TrimmedCatalog(script.catalog) && forall i :: 0 <= i < |script.catalog| ==> script.catalog[i].cost >= 0.0
  }

  lemma CardsKept(script: Script, c: Cards, deed: Deed, tick: nat)
    requires Fit(script) && CardsSound(script, c)
    ensures CardsSound(script, CardsBehind(script, c, deed, tick))
  {
    match deed
    case Recovers(_) =>
      CardHand.RecoverKeepsLedger(c.opening, c.hand, c.cast);
      hide CardHand.Ledger, CardHand.TicketDeck, CardHand.TrimmedCatalog;
    case Bombs(_, _) =>
    case Draws(_) =>
      CardHand.DrawKeepsLedger(script.catalog, c.opening, c.hand, c.cast);
      hide CardHand.Ledger, CardHand.TicketDeck, CardHand.TrimmedCatalog, CardHand.TrimCardId;
    case Casts(_, slot) =>
      CardHand.CastKeepsLedger(script.catalog, c.opening, c.hand, c.cast, slot, tick);
      CardHand.CastKeepsDeck(script.catalog, c.hand, slot, tick);
      hide CardHand.Ledger, CardHand.TicketDeck, CardHand.TrimmedCatalog, CardHand.AfterCast, CardHand.TrimCardId, CardHand.FindFrom;
  }

  lemma {:induction false} DeedsKeepCards(rules: Rules, script: Script, w: Whole, deeds: seq<Deed>, tick: nat)
    requires Fit(script) && AllCardsSound(script, w.cards)
    ensures AllCardsSound(script, DoingAll(rules, script, w, deeds, tick).cards)
    decreases |deeds|
  {
    hide CardsSound, Fit, CardsBehind, DoAll, ActsOf, FieldBehind;
    if deeds != [] {
      var before, deed := DoingAll(rules, script, w, deeds[..|deeds| - 1], tick), deeds[|deeds| - 1];
      DeedsKeepCards(rules, script, w, deeds[..|deeds| - 1], tick);
      if deed.player in before.cards {
        CardsKept(script, before.cards[deed.player], deed, tick);
      }
    }
  }

  // ---- Whole runs ----

  datatype WholeMove =
    | Comes(player: string)
    | Deals(player: string, opening: seq<string>, energy: real, deck: seq<string>)
    | Passes(play: WholePlay)

  /** SeedHand of a player in the race, with a seed that agrees. */
  function Dealt(w: Whole, player: string, opening: seq<string>, energy: real, deck: seq<string>): Whole {
    if player !in w.race.racers then w
    else w.(cards := w.cards[player := Cards(CardHand.Opened(opening, energy, deck), opening, [])])
  }

  ghost function WholeApply(rules: Rules, script: Script, w: Whole, m: WholeMove): Whole
    requires RaceRuns.Sound(rules, w.race)
  {
    match m
    case Comes(player) => w.(race := if MayJoin(w.race, player) then Join(rules, w.race, player) else w.race)
    case Deals(player, opening, energy, deck) => Dealt(w, player, opening, energy, deck)
    case Passes(play) => WholeTick(rules, script, w, play)
  }

  /** What the move is to the race alone, its field the one the whole computes. */
  ghost function PlainMove(rules: Rules, script: Script, w: Whole, m: WholeMove): seq<RaceRuns.Move>
    requires RaceRuns.Sound(rules, w.race)
  {
    match m
    case Comes(player) => [RaceRuns.Enters(player)]
    case Deals(_, _, _, _) => []
    case Passes(play) => [RaceRuns.Ticks(PlayOf(rules, script, w, play))]
  }

  lemma MoveIsPlain(rules: Rules, script: Script, w: Whole, m: WholeMove)
    requires rules.maxHp > 0 && RaceRuns.Sound(rules, w.race)
    ensures var u, plain := WholeApply(rules, script, w, m), PlainMove(rules, script, w, m);
      && (plain == [] ==> u.race == w.race) && |plain| <= 1
      && (|plain| == 1 ==> u.race == RaceRuns.Apply(rules, w.race, plain[0]))
      && RaceRuns.Sound(rules, u.race)
  {
    var plain := PlainMove(rules, script, w, m);
    hide RaceRuns.TickRace, PlayOf, Judged, DoingAll, Begun, Join, CardHand.Opened;
    if |plain| == 1 {
      RaceRuns.ApplySound(rules, w.race, plain[0]);
    }
    hide RaceRuns.Decided, RaceRuns.Reported, RaceRuns.Listed, RaceRuns.Started;
  }

  /** The whole race after a run. */
  ghost function WholeRun(rules: Rules, script: Script, ms: seq<WholeMove>): (w: Whole)
    requires rules.maxHp > 0
    ensures RaceRuns.Sound(rules, w.race)
    decreases |ms|
  {
    if ms == [] then RaceRuns.EmptyRaceSound(rules); EMPTY_WHOLE else
    hide WholeApply, RaceRuns.Sound;
    var w := WholeRun(rules, script, ms[..|ms| - 1]);
    MoveIsPlain(rules, script, w, ms[|ms| - 1]);
    WholeApply(rules, script, w, ms[|ms| - 1])
  }

  ghost function RaceMoves(rules: Rules, script: Script, ms: seq<WholeMove>): seq<RaceRuns.Move>
    requires rules.maxHp > 0
    decreases |ms|
  {
    if ms == [] then [] else
    var front := ms[..|ms| - 1];
    RaceMoves(rules, script, front) + PlainMove(rules, script, WholeRun(rules, script, front), ms[|ms| - 1])
  }

  lemma RunOneMore(rules: Rules, ms: seq<RaceRuns.Move>, plain: seq<RaceRuns.Move>)
    requires rules.maxHp > 0 && |plain| <= 1
    ensures RaceRuns.Run(rules, ms + plain) ==
      if plain == [] then RaceRuns.Run(rules, ms) else RaceRuns.Apply(rules, RaceRuns.Run(rules, ms), plain[0])
  {
    if plain == [] {
      assert ms + plain == ms;
    } else {
      assert (ms + plain)[..|ms + plain| - 1] == ms;
    }
    hide RaceRuns.Apply, RaceRuns.Sound;
  }

  /** The racers of a whole run are those of a run of the race alone: whatever holds there of ledgers, reports
      and the winner holds of the race with its bullets and cards. */
  lemma {:induction false} RacersRunAlone(rules: Rules, script: Script, ms: seq<WholeMove>)
    requires rules.maxHp > 0
    ensures WholeRun(rules, script, ms).race == RaceRuns.Run(rules, RaceMoves(rules, script, ms))
    decreases |ms|
  {
    hide WholeApply, PlainMove, RaceRuns.Apply, RaceRuns.Sound;
    if ms == [] {
      assert RaceRuns.Run(rules, []) == EMPTY;
    } else {
      var front, last := ms[..|ms| - 1], ms[|ms| - 1];
      var w := WholeRun(rules, script, front);
      RacersRunAlone(rules, script, front);
      MoveIsPlain(rules, script, w, last);
      RunOneMore(rules, RaceMoves(rules, script, front), PlainMove(rules, script, w, last));
    }
  }

  // ---- What every run keeps ----

  /** Hands are dealt from tickets that passed the check. */
  ghost predicate Checked(script: Script, m: WholeMove) {
    m.Deals? ==> CardHand.TicketDeck(script.catalog, m.opening, m.deck) && 0.0 <= m.energy <= CardHand.MAX_ENERGY
  }

  lemma MoveKeepsBullets(rules: Rules, script: Script, w: Whole, m: WholeMove)
    requires RaceRuns.Sound(rules, w.race) && BulletsSound(w)
    ensures BulletsSound(WholeApply(rules, script, w, m))
  {
    hide Sound, WholeTick, CardHand.Opened;
    if m.Passes? {
      TickBulletsSound(rules, script, w, m.play);
    }
    hide RaceRuns.Sound;
  }

  lemma MoveKeepsCards(rules: Rules, script: Script, w: Whole, m: WholeMove)
    requires RaceRuns.Sound(rules, w.race) && Fit(script) && AllCardsSound(script, w.cards) && Checked(script, m)
    ensures AllCardsSound(script, WholeApply(rules, script, w, m).cards)
  {
    hide Fit, CardsSound, RaceRuns.TickRace, PlayOf, Judged, DoingAll, Begun, Join, CardHand.Opened;
    match m
    case Comes(_) =>
    case Deals(player, opening, energy, deck) => OpenedSound(script, opening, energy, deck);
    case Passes(play) => DeedsKeepCards(rules, script, w.(race := Begun(w.race)), play.deeds, w.race.tick + 1);
  }

  lemma OpenedSound(script: Script, opening: seq<string>, energy: real, deck: seq<string>)
    requires CardHand.TicketDeck(script.catalog, opening, deck) && 0.0 <= energy <= CardHand.MAX_ENERGY
    ensures CardsSound(script, Cards(CardHand.Opened(opening, energy, deck), opening, []))
  {
    CardHand.OpeningKeepsLedger(script.catalog, opening, energy, deck);
    hide CardHand.TicketDeck, CardHand.Ledger;
  }

  /** In every run of the whole race: the bullets keep the cap per player, distinct ids and the last generation,
      and every hand balances with its deck and the cards cast. */
  lemma {:induction false} WholeRunsSound(rules: Rules, script: Script, ms: seq<WholeMove>)
    requires rules.maxHp > 0 && Fit(script) && forall i :: 0 <= i < |ms| ==> Checked(script, ms[i])
    ensures var w := WholeRun(rules, script, ms); BulletsSound(w) && AllCardsSound(script, w.cards)
    decreases |ms|
  {
    hide WholeApply, Fit, Checked, BulletsSound, AllCardsSound, RaceRuns.Sound;
    if ms == [] {
      NothingYet(script);
    } else {
      var w := WholeRun(rules, script, ms[..|ms| - 1]);
      WholeRunsSound(rules, script, ms[..|ms| - 1]);
      MoveKeepsBullets(rules, script, w, ms[|ms| - 1]);
      MoveKeepsCards(rules, script, w, ms[|ms| - 1]);
    }
  }

  lemma NothingYet(script: Script)
    ensures BulletsSound(EMPTY_WHOLE) && AllCardsSound(script, EMPTY_WHOLE.cards)
  {
    EmptySound(0);
  }
}
