/** A boss race of src/boss_race.cpp as a state machine: players, ticks, the winner, and what every run keeps. */
module RaceSteps {
  import opened Bytes
  import opened RaceBullets
  import opened RaceField
  import opened RaceLedger
  import CardEffects

  const MAX_PLAYERS: nat := 2
  const MIN_PLAYERS: nat := 2
  const BOSS_X: int := 0
  const BOSS_Y: int := -60000
  const BOSS_RADIUS: int := 40000

  datatype Stage = Waiting | Running | Finished

  /** `roster` lists the players in the order of the map; `log` is every event of the race. */
  datatype Race = Race(
    stage: Stage, tick: nat, winner: string, winnerTick: nat, cursor: nat, roster: seq<string>,
    racers: map<string, Racer>, live: seq<Bullet>, log: seq<Event>)

  const EMPTY: Race := Race(Waiting, 0, "", 0, 0, [], map[], [], [])

  datatype MyBullet = MyBullet(owner: string, x: int, y: int, damage: nat, penetrate: int)

  /** What happens to a player in a tick beside the shots: bomb or card damage, contacts, other events, and a
      card of his that changes the field. */
  datatype Act =
    | DamageBy(player: string, damage: nat)
    | StruckBy(player: string)
    | GrazedBy(player: string)
    | NoticeOf(player: string)
    | Reshapes(player: string, field: seq<Bullet>)

  /** The inputs of one tick: what the players' part does, the field and the own shots after they moved,
      and the contacts with bullets. */
  datatype Play = Play(early: seq<Act>, field: seq<Bullet>, shots: seq<MyBullet>, late: seq<Act>)

  // ---- Steps ----

  function On(s: Race, id: string): Desk
    requires id in s.racers
  {
    Desk(s.racers[id], s.live, s.log)
  }

  function Put(s: Race, id: string, d: Desk): Race {
    s.(racers := s.racers[id := d.r], live := d.live, log := d.log)
  }

  function Join(rules: Rules, s: Race, id: string): Race {
    s.(roster := CardEffects.Insert(id, s.roster, CardEffects.Leq),
       racers := s.racers[id := Racer(id, rules.maxHp, 0, 0, 0, false, 0, 1, 0, 0)])
  }

  predicate MayJoin(s: Race, id: string) {
    id != "" && |s.roster| < MAX_PLAYERS && id !in s.racers
  }

  function Done(rules: Rules, d: Desk, a: Act, tick: nat): Desk {
    match a
    case DamageBy(_, damage) => Damage(rules, d, damage, tick)
    case StruckBy(_) => Struck(d, tick)
    case GrazedBy(_) => Grazed(d, tick)
    case NoticeOf(_) => Push(d, tick, Notice, 0)
    case Reshapes(_, field) => d.(live := field)
  }

  function Do(rules: Rules, s: Race, a: Act, tick: nat): Race {
    if a.player !in s.racers then s else Put(s, a.player, Done(rules, On(s, a.player), a, tick))
  }

  function DoAll(rules: Rules, s: Race, acts: seq<Act>, tick: nat): Race {
    if acts == [] then s else Do(rules, DoAll(rules, s, acts[..|acts| - 1], tick), acts[|acts| - 1], tick)
  }

  predicate InBoss(b: MyBullet) {
    (b.x - BOSS_X) * (b.x - BOSS_X) + (b.y - BOSS_Y) * (b.y - BOSS_Y) <= BOSS_RADIUS * BOSS_RADIUS
  }

  /** Whether the shot has a boss to hit. */
  predicate Aims(s: Race, b: MyBullet) {
    b.owner in s.racers && s.racers[b.owner].hp != 0
  }

  function HitBy(rules: Rules, d: Desk, damage: nat, tick: nat): Desk {
    AddScore(Damage(rules, d, damage, tick), HIT_POINTS, tick)
  }

  function JudgeOne(rules: Rules, s: Race, b: MyBullet, tick: nat): Race {
    if Aims(s, b) && InBoss(b) then Put(s, b.owner, HitBy(rules, On(s, b.owner), b.damage, tick)) else s
  }

  /** What is left of a shot: one that found nothing flies on, a penetrating one has one hit less. */
  function Left(s: Race, b: MyBullet): seq<MyBullet> {
    if !Aims(s, b) then [] else
    if !InBoss(b) then [b] else
    if b.penetrate > 0 then [b.(penetrate := b.penetrate - 1)] else []
  }

  function JudgeAll(rules: Rules, s: Race, shots: seq<MyBullet>, tick: nat): Race {
    if shots == [] then s else JudgeOne(rules, JudgeAll(rules, s, shots[..|shots| - 1], tick), shots[|shots| - 1], tick)
  }

  function LeftOf(rules: Rules, s: Race, shots: seq<MyBullet>, tick: nat): seq<MyBullet> {
    if shots == [] then [] else
    var n := |shots| - 1;
    LeftOf(rules, s, shots[..n], tick) + Left(JudgeAll(rules, s, shots[..n], tick), shots[n])
  }

  function Timer(s: Race, ids: seq<string>, tick: nat): Race
    requires forall id :: id in ids ==> id in s.racers
    decreases |ids|
  {
    if ids == [] || tick % TIMER_INTERVAL != 0 then s else
    Timer(Put(s, ids[0], AddScore(On(s, ids[0]), TIMER_POINTS, tick)), ids[1..], tick)
  }

  function FlushAll(s: Race, ids: seq<string>, tick: nat): Race
    requires forall id :: id in ids ==> id in s.racers
    decreases |ids|
  {
    if ids == [] then s else FlushAll(Put(s, ids[0], Flush(On(s, ids[0]), tick)), ids[1..], tick)
  }

  /** The first player, in the order of the map, whose boss is down. */
  function FirstDown(s: Race, ids: seq<string>): Option<string>
    requires forall id :: id in ids ==> id in s.racers
  {
    if ids == [] then None else if s.racers[ids[0]].hp == 0 then Some(ids[0]) else FirstDown(s, ids[1..])
  }

  function Winner(s: Race, tick: nat): Race
    requires forall id :: id in s.roster ==> id in s.racers
  {
    if s.stage == Finished then s else
    match FirstDown(s, s.roster)
    case None => s
    case Some(id) => s.(stage := Finished, winner := id, winnerTick := tick)
  }

  // ---- Frames: an operation on one racer logs only that racer's events ----

  ghost predicate Mine(before: seq<Event>, after: seq<Event>, id: string) {
    before <= after && forall i :: |before| <= i < |after| ==> after[i].player == id
  }

  ghost predicate Touches(d: Desk, e: Desk) {
    e.r.id == d.r.id && Mine(d.log, e.log, d.r.id)
  }

  lemma TouchesBoth(d: Desk, e: Desk, f: Desk)
    requires Touches(d, e) && Touches(e, f)
    ensures Touches(d, f)
  {
  }

  lemma PushTouches(d: Desk, tick: nat, kind: Kind, value: nat)
    ensures Touches(d, Push(d, tick, kind, value))
  {
  }

  lemma AddScoreTouches(d: Desk, delta: nat, tick: nat)
    ensures Touches(d, AddScore(d, delta, tick))
  {
  }

  lemma BonusTouches(rules: Rules, d: Desk, tick: nat)
    ensures Touches(d, Bonus(rules, d, tick))
  {
    hide CapturePoints;
  }

  lemma NextPhaseTouches(rules: Rules, d: Desk, tick: nat)
    ensures Touches(d, NextPhase(rules, d, tick))
  {
    hide Push, AddScore, Bonus, Standing, Mine, Cleared;
    var ended := Push(d, tick, PhaseEnd, d.r.phase);
    PushTouches(d, tick, PhaseEnd, d.r.phase);
    BonusTouches(rules, ended, tick);
    var paid := Bonus(rules, ended, tick);
    var points := Standing(paid.live, d.r.id) * CLEAR_POINTS;
    EnterTouches(paid, tick);
    AddScoreTouches(Enter(paid, tick), points, tick);
    var scored := AddScore(Enter(paid, tick), points, tick);
    PushTouches(scored, tick, PhaseStart, scored.r.phase);
    TouchesBoth(d, ended, paid);
    TouchesBoth(d, paid, Enter(paid, tick));
    TouchesBoth(d, Enter(paid, tick), scored);
    TouchesBoth(d, scored, NextPhase(rules, d, tick));
  }

  lemma EnterTouches(d: Desk, tick: nat)
    ensures Touches(d, Enter(d, tick))
  {
  }

  lemma {:induction false} CheckPhaseTouches(rules: Rules, d: Desk, tick: nat)
    ensures Touches(d, CheckPhase(rules, d, tick))
    decreases SPELL_PHASES - d.r.phase
  {
    hide NextPhase, Mine;
    if Crosses(rules, d.r) {
      var next := NextPhase(rules, d, tick);
      NextPhaseTouches(rules, d, tick);
      CheckPhaseTouches(rules, next, tick);
      TouchesBoth(d, next, CheckPhase(rules, next, tick));
    } else {
      SameTouches(d);
    }
  }

  lemma SameTouches(d: Desk)
    ensures Touches(d, d)
  {
  }

  lemma DefeatedTouches(rules: Rules, d: Desk, tick: nat)
    ensures Touches(d, Defeated(rules, d, tick))
  {
    hide Push, AddScore, Bonus, Mine;
    var scored := AddScore(d, DESTROY_POINTS, tick);
    AddScoreTouches(d, DESTROY_POINTS, tick);
    var caught := Push(scored, tick, SpellCapture, d.r.phase);
    PushTouches(scored, tick, SpellCapture, d.r.phase);
    BonusTouches(rules, caught, tick);
    TouchesBoth(d, scored, caught);
    TouchesBoth(d, caught, Bonus(rules, caught, tick));
  }

  lemma DamageTouches(rules: Rules, d: Desk, damage: nat, tick: nat)
    ensures Touches(d, Damage(rules, d, damage, tick))
  {
    hide CheckPhase, Defeated, Mine;
    SameTouches(d);
    if damage != 0 && d.r.hp != 0 {
      var hurt := d.(r := Hurt(d.r, damage));
      HurtTouches(d, damage);
      CheckPhaseTouches(rules, hurt, tick);
      var checked := CheckPhase(rules, hurt, tick);
      TouchesBoth(d, hurt, checked);
      DefeatedTouches(rules, checked, tick);
      TouchesBoth(d, checked, Defeated(rules, checked, tick));
    }
  }

  lemma HurtTouches(d: Desk, damage: nat)
    ensures Touches(d, d.(r := Hurt(d.r, damage)))
  {
  }

  lemma DoneTouches(rules: Rules, d: Desk, a: Act, tick: nat)
    ensures Touches(d, Done(rules, d, a, tick))
  {
    hide Damage, Touches, Grazed;
    match a
    case DamageBy(_, damage) => DamageTouches(rules, d, damage, tick);
    case StruckBy(_) => StruckTouches(d, tick);
    case GrazedBy(_) => GrazedTouches(d, tick);
    case NoticeOf(_) => PushTouches(d, tick, Notice, 0);
    case Reshapes(_, field) => ReshapedTouches(d, field);
  }

  lemma ReshapedTouches(d: Desk, field: seq<Bullet>)
    ensures Touches(d, d.(live := field))
  {
  }

  lemma StruckTouches(d: Desk, tick: nat)
    ensures Touches(d, Struck(d, tick))
  {
  }

  lemma GrazedTouches(d: Desk, tick: nat)
    ensures Touches(d, Grazed(d, tick))
  {
    hide Push, AddScore, Mine;
    PushTouches(MoreGraze(d), tick, PlayerGraze, 0);
    var pushed := Push(MoreGraze(d), tick, PlayerGraze, 0);
    AddScoreTouches(pushed, GRAZE_POINTS, tick);
    TouchesBoth(MoreGraze(d), pushed, Grazed(d, tick));
  }

  lemma HitByTouches(rules: Rules, d: Desk, damage: nat, tick: nat)
    ensures Touches(d, HitBy(rules, d, damage, tick))
  {
    hide Damage, AddScore, Touches;
    DamageTouches(rules, d, damage, tick);
    AddScoreTouches(Damage(rules, d, damage, tick), HIT_POINTS, tick);
    TouchesBoth(d, Damage(rules, d, damage, tick), HitBy(rules, d, damage, tick));
  }

  lemma FlushTouches(d: Desk, tick: nat)
    ensures Touches(d, Flush(d, tick))
  {
  }

  lemma {:induction false} OthersUnmoved(rules: Rules, r: Racer, before: seq<Event>, after: seq<Event>, id: string)
    requires Mine(before, after, id) && r.id != id
    ensures Ledger(rules, r, after) <==> Ledger(rules, r, before)
    decreases |after|
  {
    if |after| > |before| {
      var front := after[..|after| - 1];
      OthersUnmoved(rules, r, before, front, id);
      assert after == front + [after[|after| - 1]];
      AllPushed(front, after[|after| - 1], r.id);
    } else {
      assert after == before;
    }
    hide Sum, TallyOf, Bump;
  }
}
