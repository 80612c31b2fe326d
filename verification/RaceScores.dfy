/** What is paid in a race of src/boss_race.cpp under the danmaku mechanics. */
module RaceScores {
  import opened RaceBullets
  import opened RaceField
  import opened RaceLedger
  import opened RaceSteps
  import BossLedger

  /** For a phase without a hit: by the boss's number and the bullets grazed, never negative. */
  function Capture(rules: Rules, r: Racer): nat {
    if r.hitTaken then 0 else
    var sum := 300000 * rules.bossNumber + 1100 * r.graze;
    if sum > 2000000 then sum - 2000000 else 0
  }

  lemma BonusPays(rules: Rules, d: Desk, tick: nat)
    ensures var e := Bonus(rules, d, tick).r;
      && e.score == d.r.score + Capture(rules, d.r) && e.spellGet == d.r.spellGet + (if d.r.hitTaken then 0 else 1)
      && e.id == d.r.id
    ensures Bonus(rules, d, tick).live == d.live
  {
  }

  /** The end of a phase pays the capture and a hundred for every bullet of the racer it clears. */
  lemma PhasePays(rules: Rules, d: Desk, tick: nat)
    ensures NextPhase(rules, d, tick).r.score == d.r.score + Capture(rules, d.r) + 100 * Standing(d.live, d.r.id)
    ensures !NextPhase(rules, d, tick).r.hitTaken
  {
    var ended := Push(d, tick, PhaseEnd, d.r.phase);
    BonusPays(rules, ended, tick);
    hide Bonus, Standing, Cleared, Capture;
    assert Capture(rules, ended.r) == Capture(rules, d.r);
  }

  /** The fall of the boss pays ten thousand and the capture of the last phase. */
  lemma DefeatPays(rules: Rules, d: Desk, tick: nat)
    ensures Defeated(rules, d, tick).r.score == d.r.score + 10000 + Capture(rules, d.r)
  {
    var scored := Push(AddScore(d, DESTROY_POINTS, tick), tick, SpellCapture, d.r.phase);
    BonusPays(rules, scored, tick);
    hide Bonus;
  }

  /** Damage that ends no phase and leaves the boss standing pays nothing. */
  lemma MereDamagePaysNothing(rules: Rules, d: Desk, damage: nat, tick: nat)
    requires damage < d.r.hp && !Crosses(rules, Hurt(d.r, damage))
    ensures Damage(rules, d, damage, tick).r.score == d.r.score
  {
    hide Defeated, NextPhase;
  }

  /** A phase ends when a third, then two thirds of the bar are gone. */
  lemma PhaseEnds(rules: Rules, r: Racer)
    ensures Crosses(rules, r) <==> (r.phase == 0 && 3 * r.hp <= 2 * rules.maxHp) || (r.phase == 1 && 3 * r.hp <= rules.maxHp)
  {
  }

  /** A shot that hits pays thirty besides what its damage pays, a grazed bullet a hundred. */
  lemma HitsAndGrazesPay(rules: Rules, d: Desk, damage: nat, tick: nat)
    ensures HitBy(rules, d, damage, tick).r.score == Damage(rules, d, damage, tick).r.score + 30
    ensures Grazed(d, tick).r.score == d.r.score + 100 && Grazed(d, tick).r.graze == d.r.graze + 1
    ensures Struck(d, tick).r.score == d.r.score && Struck(d, tick).r.hitTaken
  {
    hide Damage;
  }

  /** Every tenth tick pays each racer a hundred and ten. */
  lemma {:induction false} TimerPays(s: Race, ids: seq<string>, tick: nat, id: string)
    requires BossLedger.Distinct(ids) && id in s.racers && forall x :: x in ids ==> x in s.racers
    ensures id in Timer(s, ids, tick).racers
    ensures Timer(s, ids, tick).racers[id].score == s.racers[id].score + (if id in ids && tick % 10 == 0 then 110 else 0)
    decreases |ids|
  {
    if ids != [] && tick % TIMER_INTERVAL == 0 {
      TimerPays(Put(s, ids[0], AddScore(On(s, ids[0]), TIMER_POINTS, tick)), ids[1..], tick, id);
    }
  }

  /** Damage is reported every eighth tick, or when the boss is down, in full. */
  lemma ReportsWhenDue(d: Desk, tick: nat)
    ensures var e := Flush(d, tick);
      if d.r.pending != 0 && (tick % 8 == 0 || d.r.hp == 0) then
        e.r.pending == 0 && e.log == d.log + [Event(tick, BossDamage, d.r.id, d.r.pending)]
      else e == d
  {
  }
}
