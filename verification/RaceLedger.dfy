/** The ledgers of one racer in a boss race of src/boss_race.cpp, under the danmaku mechanics ruleset: score,
    damage to the racer's own copy of the boss, and spell phases. The log is every event so far, in order. */
module RaceLedger {
  import opened RaceBullets
  import opened RaceField

  const SPELL_PHASES: nat := 3
  const HIT_POINTS: nat := 30
  const GRAZE_POINTS: nat := 100
  const CLEAR_POINTS: nat := 100
  /** The same for every character (include/phk/battle/danmaku/score_table.hpp:99-102). */
  const DESTROY_POINTS: nat := 10000
  const TIMER_POINTS: nat := 110
  const TIMER_INTERVAL: nat := 10
  const DAMAGE_INTERVAL: nat := 8

  datatype Kind = ScoreGain | BossDamage | SpellCapture | PhaseEnd | PhaseStart | PlayerHit | PlayerGraze | Notice

  datatype Event = Event(tick: nat, kind: Kind, player: string, value: nat)

  datatype Racer = Racer(
    id: string, hp: nat, dealt: nat, pending: nat, phase: nat, hitTaken: bool, spellGet: nat, spellTotal: nat,
    score: nat, graze: nat)

  /** `maxHp` after the constructor has put the default for zero. */
  datatype Rules = Rules(maxHp: nat, bossNumber: nat)

  /** One racer, the bullets of the field and the log: what an operation on a racer may change. */
  datatype Desk = Desk(r: Racer, live: seq<Bullet>, log: seq<Event>)

  // ---- Operations ----

  function Push(d: Desk, tick: nat, kind: Kind, value: nat): Desk {
    d.(log := d.log + [Event(tick, kind, d.r.id, value)])
  }

  function AddScore(d: Desk, delta: nat, tick: nat): Desk {
    if delta == 0 then d else Push(d.(r := d.r.(score := d.r.score + delta)), tick, ScoreGain, delta)
  }

  function CapturePoints(rules: Rules, graze: nat): nat {
    var sum := 300000 * rules.bossNumber + 1100 * graze;
    if sum > 2000000 then sum - 2000000 else 0
  }

  /** A phase that ends unhit counts and pays. */
  function Bonus(rules: Rules, d: Desk, tick: nat): Desk {
    if d.r.hitTaken then d
    else AddScore(d.(r := d.r.(spellGet := d.r.spellGet + 1)), CapturePoints(rules, d.r.graze), tick)
  }

  predicate Crosses(rules: Rules, r: Racer) {
    r.phase + 1 < SPELL_PHASES && r.hp * SPELL_PHASES <= rules.maxHp * (SPELL_PHASES - 1 - r.phase)
  }

  /** The next phase begins unhit, with the racer's bullets marked to vanish. */
  function Enter(d: Desk, tick: nat): Desk {
    d.(r := d.r.(phase := d.r.phase + 1, spellTotal := d.r.spellTotal + 1, hitTaken := false),
       live := Cleared(d.live, d.r.id, tick))
  }

  /** With the score for each bullet cleared. */
  function Entered(d: Desk, tick: nat): Desk {
    AddScore(Enter(d, tick), Standing(d.live, d.r.id) * CLEAR_POINTS, tick)
  }

  function NextPhase(rules: Rules, d: Desk, tick: nat): (e: Desk)
    ensures e.r.phase == d.r.phase + 1 && e.r.hp == d.r.hp && e.r.id == d.r.id
  {
    var entered := Entered(Bonus(rules, Push(d, tick, PhaseEnd, d.r.phase), tick), tick);
    Push(entered, tick, PhaseStart, entered.r.phase)
  }

  /** CheckSpellPhase. */
  function CheckPhase(rules: Rules, d: Desk, tick: nat): Desk
    decreases SPELL_PHASES - d.r.phase
  {
    if Crosses(rules, d.r) then CheckPhase(rules, NextPhase(rules, d, tick), tick) else d
  }

  function Hurt(r: Racer, damage: nat): Racer {
    var applied := Least(damage, r.hp);
    r.(hp := r.hp - applied, dealt := r.dealt + applied, pending := r.pending + applied)
  }

  function Defeated(rules: Rules, d: Desk, tick: nat): Desk {
    Bonus(rules, Push(AddScore(d, DESTROY_POINTS, tick), tick, SpellCapture, d.r.phase), tick)
  }

  /** ApplyBossDamage. */
  function Damage(rules: Rules, d: Desk, damage: nat, tick: nat): Desk {
    if damage == 0 || d.r.hp == 0 then d else
    var checked := CheckPhase(rules, d.(r := Hurt(d.r, damage)), tick);
    if checked.r.hp == 0 then Defeated(rules, checked, tick) else checked
  }

  /** A contact with a bullet spoils the phase. */
  function Struck(d: Desk, tick: nat): Desk {
    Push(d.(r := d.r.(hitTaken := true)), tick, PlayerHit, 0)
  }

  function MoreGraze(d: Desk): Desk {
    d.(r := d.r.(graze := d.r.graze + 1))
  }

  function Grazed(d: Desk, tick: nat): Desk {
    AddScore(Push(MoreGraze(d), tick, PlayerGraze, 0), GRAZE_POINTS, tick)
  }

  /** The damage event: every eighth tick, or at once when the boss is down. */
  function Flush(d: Desk, tick: nat): Desk {
    if d.r.pending != 0 && (tick % DAMAGE_INTERVAL == 0 || d.r.hp == 0) then
      Push(d, tick, BossDamage, d.r.pending).(r := d.r.(pending := 0))
    else d
  }

  // ---- Sums over the log ----

  function Sum(log: seq<Event>, kind: Kind, player: string): nat {
    if log == [] then 0 else
    var last := log[|log| - 1];
    Sum(log[..|log| - 1], kind, player) + (if last.kind == kind && last.player == player then last.value else 0)
  }

  function Count(log: seq<Event>, kind: Kind, player: string): nat {
    if log == [] then 0 else
    var last := log[|log| - 1];
    Count(log[..|log| - 1], kind, player) + (if last.kind == kind && last.player == player then 1 else 0)
  }

  lemma Pushed(log: seq<Event>, e: Event, kind: Kind, player: string)
    ensures Sum(log + [e], kind, player) == Sum(log, kind, player) + (if e.kind == kind && e.player == player then e.value else 0)
    ensures Count(log + [e], kind, player) == Count(log, kind, player) + (if e.kind == kind && e.player == player then 1 else 0)
  {
    assert (log + [e])[..|log|] == log;
  }

  // ---- The ledger ----

  /** 100%, 66% and 33% of the hit points begin the three phases. */
  function PhaseOf(hp: nat, maxHp: nat): nat {
    if 3 * hp <= maxHp then 2 else if 3 * hp <= 2 * maxHp then 1 else 0
  }

  /** Nothing is lost and nothing counted twice: hit points, damage reported or pending, and score. */
  ghost predicate Accounts(rules: Rules, r: Racer, log: seq<Event>) {
    && r.hp + r.dealt == rules.maxHp
    && Sum(log, BossDamage, r.id) + r.pending == r.dealt
    && Sum(log, ScoreGain, r.id) == r.score
  }

  /** Phase starts, phase ends, captures and hits of one player. */
  datatype Tally = Tally(starts: nat, ends: nat, captures: nat, hits: nat)

  function TallyOf(log: seq<Event>, player: string): Tally {
    Tally(Count(log, PhaseStart, player), Count(log, PhaseEnd, player), Count(log, SpellCapture, player), Count(log, PlayerHit, player))
  }

  function Bump(t: Tally, kind: Kind): Tally {
    match kind
    case PhaseStart => t.(starts := t.starts + 1)
    case PhaseEnd => t.(ends := t.ends + 1)
    case SpellCapture => t.(captures := t.captures + 1)
    case PlayerHit => t.(hits := t.hits + 1)
    case _ => t
  }

  /** Phases begun and ended, bonuses won; a bonus is missed only for a hit. */
  ghost predicate PhaseBooks(r: Racer, t: Tally) {
    && t.starts == t.ends == r.phase
    && r.spellTotal == r.phase + 1
    && r.spellGet <= r.phase + t.captures
    && r.phase + (if r.hitTaken || t.captures > 0 then 1 else 0) <= r.spellGet + t.hits
  }

  ghost predicate InPhase(rules: Rules, r: Racer, t: Tally) {
    && r.phase == PhaseOf(r.hp, rules.maxHp)
    && t.captures == (if r.hp == 0 then 1 else 0)
  }

  ghost predicate Ledger(rules: Rules, r: Racer, log: seq<Event>) {
    Accounts(rules, r, log) && PhaseBooks(r, TallyOf(log, r.id)) && InPhase(rules, r, TallyOf(log, r.id))
  }

  /** Before the boss is down, with the phase not past its threshold. */
  ghost predicate Midway(rules: Rules, r: Racer, log: seq<Event>) {
    && Accounts(rules, r, log) && PhaseBooks(r, TallyOf(log, r.id))
    && r.phase <= PhaseOf(r.hp, rules.maxHp) && TallyOf(log, r.id).captures == 0
  }

  lemma SpellGetWithinTotal(rules: Rules, r: Racer, log: seq<Event>)
    requires Ledger(rules, r, log)
    ensures r.spellGet <= r.spellTotal
    ensures Count(log, PlayerHit, r.id) == 0 ==> r.spellGet == r.phase + (if r.hp == 0 then 1 else 0)
  {
  }

  // ---- The operations keep it ----

  lemma AddScoreKeeps(rules: Rules, d: Desk, delta: nat, tick: nat)
    requires Accounts(rules, d.r, d.log)
    ensures var e := AddScore(d, delta, tick);
      && Accounts(rules, e.r, e.log) && e.r == d.r.(score := e.r.score) && e.live == d.live
      && TallyOf(e.log, d.r.id) == TallyOf(d.log, d.r.id)
  {
    hide Sum, Count;
    AllPushed(d.log, Event(tick, ScoreGain, d.r.id, delta), d.r.id);
  }

  lemma AllPushed(log: seq<Event>, e: Event, player: string)
    ensures Sum(log + [e], ScoreGain, player) == Sum(log, ScoreGain, player) + (if e.kind.ScoreGain? && e.player == player then e.value else 0)
    ensures Sum(log + [e], BossDamage, player) == Sum(log, BossDamage, player) + (if e.kind.BossDamage? && e.player == player then e.value else 0)
    ensures TallyOf(log + [e], player) == if e.player == player then Bump(TallyOf(log, player), e.kind) else TallyOf(log, player)
  {
    hide Sum, Count;
    Pushed(log, e, ScoreGain, player);
    Pushed(log, e, BossDamage, player);
    Pushed(log, e, PhaseStart, player);
    Pushed(log, e, PhaseEnd, player);
    Pushed(log, e, SpellCapture, player);
    Pushed(log, e, PlayerHit, player);
  }

  /** Any event but a score gain or a damage report leaves the accounts. */
  lemma PushKeeps(rules: Rules, d: Desk, tick: nat, kind: Kind, value: nat)
    requires Accounts(rules, d.r, d.log) && kind != ScoreGain && kind != BossDamage
    ensures var e := Push(d, tick, kind, value);
      && Accounts(rules, e.r, e.log) && e.r == d.r && e.live == d.live
      && TallyOf(e.log, d.r.id) == Bump(TallyOf(d.log, d.r.id), kind)
  {
    hide Sum, Count, TallyOf, Bump;
    AllPushed(d.log, Event(tick, kind, d.r.id, value), d.r.id);
  }

  lemma BonusKeeps(rules: Rules, d: Desk, tick: nat)
    requires Accounts(rules, d.r, d.log)
    ensures var e := Bonus(rules, d, tick);
      && Accounts(rules, e.r, e.log) && e.live == d.live
      && e.r == d.r.(score := e.r.score, spellGet := d.r.spellGet + (if d.r.hitTaken then 0 else 1))
      && TallyOf(e.log, d.r.id) == TallyOf(d.log, d.r.id)
  {
    hide Sum, TallyOf, AddScore, CapturePoints;
    if !d.r.hitTaken {
      var paid := d.(r := d.r.(spellGet := d.r.spellGet + 1));
      AddScoreKeeps(rules, paid, CapturePoints(rules, d.r.graze), tick);
    }
  }

  lemma EnterKeeps(rules: Rules, d: Desk, tick: nat)
    requires Accounts(rules, d.r, d.log)
    ensures Accounts(rules, Enter(d, tick).r, Enter(d, tick).log)
  {
  }

  /** What a phase change does to the racer and the tally, apart from the score. */
  lemma NextPhaseShape(rules: Rules, d: Desk, tick: nat)
    requires Accounts(rules, d.r, d.log)
    ensures var e := NextPhase(rules, d, tick);
      && Accounts(rules, e.r, e.log)
      && e.r == d.r.(score := e.r.score, spellGet := d.r.spellGet + (if d.r.hitTaken then 0 else 1),
        phase := d.r.phase + 1, spellTotal := d.r.spellTotal + 1, hitTaken := false)
      && TallyOf(e.log, d.r.id) == Bump(Bump(TallyOf(d.log, d.r.id), PhaseEnd), PhaseStart)
  {
    hide Accounts, TallyOf, Bump, AddScore, Bonus, Standing, Push;
    var ended := Push(d, tick, PhaseEnd, d.r.phase);
    PushKeeps(rules, d, tick, PhaseEnd, d.r.phase);
    BonusKeeps(rules, ended, tick);
    var paid := Bonus(rules, ended, tick);
    var entered := Enter(paid, tick);
    EnterKeeps(rules, paid, tick);
    var points := Standing(paid.live, d.r.id) * CLEAR_POINTS;
    AddScoreKeeps(rules, entered, points, tick);
    var scored := AddScore(entered, points, tick);
    PushKeeps(rules, scored, tick, PhaseStart, scored.r.phase);
  }

  lemma CrossesIs(rules: Rules, r: Racer)
    ensures Crosses(rules, r) <==> r.phase < PhaseOf(r.hp, rules.maxHp)
  {
    if r.phase == 0 {
    } else if r.phase == 1 {
    }
  }

  lemma NextPhaseKeeps(rules: Rules, d: Desk, tick: nat)
    requires Midway(rules, d.r, d.log) && Crosses(rules, d.r)
    ensures var e := NextPhase(rules, d, tick); Midway(rules, e.r, e.log)
  {
    CrossesIs(rules, d.r);
    NextPhaseShape(rules, d, tick);
    hide Accounts, TallyOf, NextPhase, CapturePoints, AddScore, Crosses, PhaseOf;
  }

  lemma {:induction false} CheckPhaseSettles(rules: Rules, d: Desk, tick: nat)
    requires Midway(rules, d.r, d.log)
    ensures var e := CheckPhase(rules, d, tick);
      Midway(rules, e.r, e.log) && e.r.phase == PhaseOf(e.r.hp, rules.maxHp) && e.r.hp == d.r.hp && e.r.id == d.r.id
    decreases SPELL_PHASES - d.r.phase
  {
    hide Accounts, PhaseBooks, NextPhase, TallyOf, Crosses;
    CrossesIs(rules, d.r);
    if Crosses(rules, d.r) {
      NextPhaseKeeps(rules, d, tick);
      CheckPhaseSettles(rules, NextPhase(rules, d, tick), tick);
    }
  }

  lemma DefeatedKeeps(rules: Rules, d: Desk, tick: nat)
    requires Midway(rules, d.r, d.log) && d.r.hp == 0 && d.r.phase == PhaseOf(0, rules.maxHp)
    ensures var e := Defeated(rules, d, tick); Ledger(rules, e.r, e.log)
  {
    DefeatedShape(rules, d, tick);
    hide Accounts, TallyOf, Defeated;
  }

  lemma DefeatedShape(rules: Rules, d: Desk, tick: nat)
    requires Accounts(rules, d.r, d.log)
    ensures var e := Defeated(rules, d, tick);
      && Accounts(rules, e.r, e.log)
      && e.r == d.r.(score := e.r.score, spellGet := d.r.spellGet + (if d.r.hitTaken then 0 else 1))
      && TallyOf(e.log, d.r.id) == Bump(TallyOf(d.log, d.r.id), SpellCapture)
  {
    hide Accounts, TallyOf, Bump, AddScore, Bonus, Push;
    AddScoreKeeps(rules, d, DESTROY_POINTS, tick);
    var scored := AddScore(d, DESTROY_POINTS, tick);
    PushKeeps(rules, scored, tick, SpellCapture, d.r.phase);
    BonusKeeps(rules, Push(scored, tick, SpellCapture, d.r.phase), tick);
  }

  lemma HurtIsMidway(rules: Rules, r: Racer, log: seq<Event>, damage: nat)
    requires Ledger(rules, r, log) && r.hp != 0
    ensures Midway(rules, Hurt(r, damage), log)
  {
    hide Sum, TallyOf;
  }

  /** Damage keeps the books: the boss's hit points, the damage dealt and reported, the phases and the score. */
  lemma DamageKeeps(rules: Rules, d: Desk, damage: nat, tick: nat)
    requires Ledger(rules, d.r, d.log)
    ensures var e := Damage(rules, d, damage, tick); Ledger(rules, e.r, e.log)
  {
    hide Accounts, PhaseBooks, TallyOf, CheckPhase, Defeated;
    if damage != 0 && d.r.hp != 0 {
      var hurt := d.(r := Hurt(d.r, damage));
      HurtIsMidway(rules, d.r, d.log, damage);
      CheckPhaseSettles(rules, hurt, tick);
      var checked := CheckPhase(rules, hurt, tick);
      if checked.r.hp == 0 {
        DefeatedKeeps(rules, checked, tick);
      }
    }
  }

  lemma ScoreKeepsLedger(rules: Rules, d: Desk, delta: nat, tick: nat)
    requires Ledger(rules, d.r, d.log)
    ensures var e := AddScore(d, delta, tick); Ledger(rules, e.r, e.log)
  {
    AddScoreKeeps(rules, d, delta, tick);
    hide Accounts, TallyOf, AddScore;
  }

  lemma StruckKeeps(rules: Rules, d: Desk, tick: nat)
    requires Ledger(rules, d.r, d.log)
    ensures var e := Struck(d, tick); Ledger(rules, e.r, e.log)
  {
    hide Sum, TallyOf;
    PushKeeps(rules, d.(r := d.r.(hitTaken := true)), tick, PlayerHit, 0);
  }

  lemma MoreGrazeKeeps(rules: Rules, d: Desk)
    requires Ledger(rules, d.r, d.log)
    ensures Ledger(rules, MoreGraze(d).r, MoreGraze(d).log)
  {
    hide Sum, TallyOf;
  }

  lemma GrazedKeeps(rules: Rules, d: Desk, tick: nat)
    requires Ledger(rules, d.r, d.log)
    ensures var e := Grazed(d, tick); Ledger(rules, e.r, e.log)
  {
    hide Ledger, Push, AddScore, MoreGraze;
    MoreGrazeKeeps(rules, d);
    GrazeEvent(rules, MoreGraze(d), tick);
    ScoreKeepsLedger(rules, Push(MoreGraze(d), tick, PlayerGraze, 0), GRAZE_POINTS, tick);
  }

  lemma GrazeEvent(rules: Rules, d: Desk, tick: nat)
    requires Ledger(rules, d.r, d.log)
    ensures var e := Push(d, tick, PlayerGraze, 0); Ledger(rules, e.r, e.log)
  {
    hide Accounts, TallyOf, Push;
    PushKeeps(rules, d, tick, PlayerGraze, 0);
  }

  lemma NoticeKeeps(rules: Rules, d: Desk, tick: nat)
    requires Ledger(rules, d.r, d.log)
    ensures var e := Push(d, tick, Notice, 0); Ledger(rules, e.r, e.log)
  {
    hide Accounts, TallyOf, Push;
    PushKeeps(rules, d, tick, Notice, 0);
  }

  lemma FlushKeeps(rules: Rules, d: Desk, tick: nat)
    requires Ledger(rules, d.r, d.log)
    ensures var e := Flush(d, tick); Ledger(rules, e.r, e.log)
    ensures Flush(d, tick).r.pending == 0 || (tick % DAMAGE_INTERVAL != 0 && d.r.hp > 0)
  {
    hide Sum, TallyOf;
    AllPushed(d.log, Event(tick, BossDamage, d.r.id, d.r.pending), d.r.id);
  }
}
