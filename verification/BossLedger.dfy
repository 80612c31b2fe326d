/** The damage ledger of a boss match in src/simulation.cpp. */
module BossLedger {
  datatype Defeat = Defeat(tick: nat, player: string, total: nat)

  /** Hit points, damage done in all and by player, the tick of the defeat (0 before it), whether combat
      has begun, and the boss_defeated events emitted. */
  datatype Boss = Boss(maxHp: nat, hp: nat, total: nat, shares: map<string, nat>, defeatedTick: nat, started: bool, defeats: seq<Defeat>)

  const NO_BOSS: Boss := Boss(0, 0, 0, map[], 0, false, [])

  const SHOT_DAMAGE: nat := 10

  function Min(a: nat, b: nat): nat {
    if a < b then a else b
  }

  function DamageOf(shares: map<string, nat>, player: string): nat {
    if player in shares then shares[player] else 0
  }

  /** RegisterBossDamage. */
  function Register(b: Boss, player: string, tick: nat, damage: nat): Boss {
    if b.hp == 0 then b else
    var applied := Min(damage, b.hp);
    var hurt := b.(hp := b.hp - applied, total := b.total + applied, shares := b.shares[player := DamageOf(b.shares, player) + applied]);
    if hurt.hp == 0 && b.defeatedTick == 0 then
      hurt.(defeatedTick := tick, defeats := b.defeats + [Defeat(tick, player, hurt.total)])
    else hurt
  }

  function SumOver(players: seq<string>, shares: map<string, nat>): nat {
    if players == [] then 0 else DamageOf(shares, players[0]) + SumOver(players[1..], shares)
  }

  predicate Distinct(ids: seq<string>) {
    forall i, j :: 0 <= i < j < |ids| ==> ids[i] != ids[j]
  }

  /** Nothing is lost: what the boss has lost is what was dealt, and what was dealt is what the players
      dealt; the defeat is dated and announced once, and exactly when no hit point is left. */
  ghost predicate Conserved(b: Boss, players: seq<string>) {
    && b.maxHp > 0 && b.hp + b.total == b.maxHp
    && SumOver(players, b.shares) == b.total
    && (b.defeatedTick != 0 <==> b.hp == 0)
    && |b.defeats| == (if b.hp == 0 then 1 else 0)
    && (b.hp == 0 ==> b.defeats[0].tick == b.defeatedTick && b.defeats[0].total == b.maxHp)
  }

  lemma {:induction false} SumElsewhere(players: seq<string>, shares: map<string, nat>, player: string, d: nat)
    requires player !in players
    ensures SumOver(players, shares[player := d]) == SumOver(players, shares)
  {
    if players != [] {
      SumElsewhere(players[1..], shares, player, d);
    }
  }

  lemma {:induction false} SumUpdated(players: seq<string>, shares: map<string, nat>, player: string, applied: nat)
    requires player in players && Distinct(players)
    ensures SumOver(players, shares[player := DamageOf(shares, player) + applied]) == SumOver(players, shares) + applied
  {
    if players[0] == player {
      SumElsewhere(players[1..], shares, player, DamageOf(shares, player) + applied);
    } else {
      SumUpdated(players[1..], shares, player, applied);
    }
  }

  lemma RegisterConserves(b: Boss, players: seq<string>, player: string, tick: nat, damage: nat)
    requires Conserved(b, players) && Distinct(players) && player in players && tick > 0
    ensures Conserved(Register(b, player, tick, damage), players) && Register(b, player, tick, damage).maxHp == b.maxHp
  {
    if b.hp != 0 {
      SumUpdated(players, b.shares, player, Min(damage, b.hp));
      hide SumOver, Distinct;
    }
  }

  lemma {:induction false} SumSplit(a: seq<string>, c: seq<string>, shares: map<string, nat>)
    ensures SumOver(a + c, shares) == SumOver(a, shares) + SumOver(c, shares)
  {
    if a == [] {
      assert a + c == c;
    } else {
      assert (a + c)[1..] == a[1..] + c;
      SumSplit(a[1..], c, shares);
    }
  }

  /** A newcomer starts with no damage and changes no sum. */
  lemma NewcomerConserves(b: Boss, before: seq<string>, after: seq<string>, player: string)
    requires Conserved(b, before + after) && player !in before + after
    ensures Conserved(b.(shares := b.shares[player := 0]), before + [player] + after)
  {
    SumElsewhere(before + after, b.shares, player, 0);
    var shares := b.shares[player := 0];
    SumSplit(before + [player], after, shares);
    SumSplit(before, [player], shares);
    SumSplit(before, after, shares);
    assert [player][1..] == [];
    assert SumOver([player], shares) == 0;
    hide SumOver;
  }
}
