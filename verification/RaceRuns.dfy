/** What every run of a boss race keeps. */
module RaceRuns {
  import opened RaceBullets
  import opened RaceLedger
  import opened RaceSteps
  import CardEffects

  // ---- The invariant ----

  ghost predicate Listed(s: Race) {
    && |s.roster| <= MAX_PLAYERS && (forall id :: id in s.roster <==> id in s.racers) && "" !in s.racers
    && (forall i, j :: 0 <= i < j < |s.roster| ==> s.roster[i] != s.roster[j])
    && CardEffects.Sorted(s.roster, CardEffects.Leq)
  }

  ghost predicate LedgerOf(rules: Rules, s: Race, id: string) {
    id in s.racers ==> s.racers[id].id == id && Ledger(rules, s.racers[id], s.log)
  }

  ghost predicate Ledgers(rules: Rules, s: Race) {
    forall id :: LedgerOf(rules, s, id)
  }

  /** Damage is reported by the next eighth tick, and at once when the boss is down. */
  ghost predicate ReportedBy(s: Race, id: string, tick: nat) {
    id in s.racers ==> s.racers[id].pending == 0 || (tick % DAMAGE_INTERVAL != 0 && s.racers[id].hp > 0)
  }

  ghost predicate Reported(s: Race) {
    forall id :: ReportedBy(s, id, s.tick)
  }

  ghost predicate Alive(s: Race, ids: seq<string>) {
    forall i :: 0 <= i < |ids| ==> ids[i] in s.racers && s.racers[ids[i]].hp > 0
  }

  /** The boss of `id` is down and those of all listed before it are not. */
  ghost predicate Leads(s: Race, ids: seq<string>, i: int, id: string) {
    0 <= i < |ids| && ids[i] == id && id in s.racers && s.racers[id].hp == 0 && Alive(s, ids[..i])
  }

  /** The race is over exactly when a boss is down; the winner is the first such player, at the tick it ended. */
  ghost predicate Decided(s: Race) {
    if s.stage == Finished then
      && s.winnerTick == s.tick
      && exists i :: Leads(s, s.roster, i, s.winner)
    else
      s.winner == "" && s.winnerTick == 0 && Alive(s, s.roster)
  }

  ghost predicate Started(s: Race) {
    if s.stage == Waiting then s.log == [] && forall id :: id in s.racers ==> s.racers[id].pending == 0
    else |s.roster| >= MIN_PLAYERS
  }

  ghost predicate Sound(rules: Rules, s: Race) {
    && Listed(s) && Ledgers(rules, s) && Reported(s) && Decided(s) && Started(s) && s.cursor == |s.log|
  }

  // ---- One racer's operation ----

  /** An operation on one racer that keeps its ledger keeps all of them. */
  lemma PutKeeps(rules: Rules, s: Race, id: string, d: Desk)
    requires Ledgers(rules, s) && id in s.racers
    requires Touches(On(s, id), d) && Ledger(rules, d.r, d.log)
    ensures Ledgers(rules, Put(s, id, d))
  {
    var t := Put(s, id, d);
    assert LedgerOf(rules, s, id);
    forall other
      ensures LedgerOf(rules, t, other)
    {
      assert LedgerOf(rules, s, other);
      if other in s.racers && other != id {
        OthersUnmoved(rules, s.racers[other], s.log, t.log, id);
      }
    }
    hide Ledger, Mine;
  }

  ghost predicate SameRace(s: Race, t: Race) {
    && t.stage == s.stage && t.tick == s.tick && t.winner == s.winner && t.winnerTick == s.winnerTick
    && t.cursor == s.cursor && t.roster == s.roster && t.racers.Keys == s.racers.Keys && s.log <= t.log
  }

  lemma DoneKeeps(rules: Rules, d: Desk, a: Act, tick: nat)
    requires Ledger(rules, d.r, d.log)
    ensures var e := Done(rules, d, a, tick); Ledger(rules, e.r, e.log)
  {
    hide Ledger, Damage, Struck, Grazed, Push;
    match a
    case DamageBy(_, damage) => DamageKeeps(rules, d, damage, tick);
    case StruckBy(_) => StruckKeeps(rules, d, tick);
    case GrazedBy(_) => GrazedKeeps(rules, d, tick);
    case NoticeOf(_) => NoticeKeeps(rules, d, tick);
    case Reshapes(_, field) =>
  }

  lemma DoKeeps(rules: Rules, s: Race, a: Act, tick: nat)
    requires Ledgers(rules, s)
    ensures Ledgers(rules, Do(rules, s, a, tick)) && SameRace(s, Do(rules, s, a, tick))
  {
    hide Ledger, Done, Ledgers;
    if a.player in s.racers {
      var d := On(s, a.player);
      LedgerAt(rules, s, a.player);
      DoneKeeps(rules, d, a, tick);
      DoneTouches(rules, d, a, tick);
      PutKeeps(rules, s, a.player, Done(rules, d, a, tick));
    }
  }

  lemma LedgerAt(rules: Rules, s: Race, id: string)
    requires Ledgers(rules, s) && id in s.racers
    ensures s.racers[id].id == id && Ledger(rules, s.racers[id], s.log)
  {
    assert LedgerOf(rules, s, id);
  }

  lemma {:induction false} DoAllKeeps(rules: Rules, s: Race, acts: seq<Act>, tick: nat)
    requires Ledgers(rules, s)
    ensures Ledgers(rules, DoAll(rules, s, acts, tick)) && SameRace(s, DoAll(rules, s, acts, tick))
    decreases |acts|
  {
    hide Ledgers, Do;
    if acts != [] {
      DoAllKeeps(rules, s, acts[..|acts| - 1], tick);
      DoKeeps(rules, DoAll(rules, s, acts[..|acts| - 1], tick), acts[|acts| - 1], tick);
    }
  }

  lemma HitByKeeps(rules: Rules, d: Desk, damage: nat, tick: nat)
    requires Ledger(rules, d.r, d.log)
    ensures var e := HitBy(rules, d, damage, tick); Ledger(rules, e.r, e.log)
  {
    hide Ledger, Damage, AddScore;
    DamageKeeps(rules, d, damage, tick);
    ScoreKeepsLedger(rules, Damage(rules, d, damage, tick), HIT_POINTS, tick);
  }

  lemma JudgeOneKeeps(rules: Rules, s: Race, b: MyBullet, tick: nat)
    requires Ledgers(rules, s)
    ensures Ledgers(rules, JudgeOne(rules, s, b, tick)) && SameRace(s, JudgeOne(rules, s, b, tick))
  {
    hide Ledger, HitBy, Ledgers, InBoss;
    if Aims(s, b) && InBoss(b) {
      var d := On(s, b.owner);
      LedgerAt(rules, s, b.owner);
      HitByKeeps(rules, d, b.damage, tick);
      HitByTouches(rules, d, b.damage, tick);
      PutKeeps(rules, s, b.owner, HitBy(rules, d, b.damage, tick));
    }
  }

  lemma {:induction false} JudgeAllKeeps(rules: Rules, s: Race, shots: seq<MyBullet>, tick: nat)
    requires Ledgers(rules, s)
    ensures Ledgers(rules, JudgeAll(rules, s, shots, tick)) && SameRace(s, JudgeAll(rules, s, shots, tick))
    decreases |shots|
  {
    hide Ledgers, JudgeOne;
    if shots != [] {
      JudgeAllKeeps(rules, s, shots[..|shots| - 1], tick);
      JudgeOneKeeps(rules, JudgeAll(rules, s, shots[..|shots| - 1], tick), shots[|shots| - 1], tick);
    }
  }

  lemma TimerOneKeeps(rules: Rules, s: Race, id: string, tick: nat)
    requires Ledgers(rules, s) && id in s.racers
    ensures var t := Put(s, id, AddScore(On(s, id), TIMER_POINTS, tick)); Ledgers(rules, t) && SameRace(s, t)
  {
    hide Ledger, Ledgers;
    LedgerAt(rules, s, id);
    ScoreKeepsLedger(rules, On(s, id), TIMER_POINTS, tick);
    AddScoreTouches(On(s, id), TIMER_POINTS, tick);
    PutKeeps(rules, s, id, AddScore(On(s, id), TIMER_POINTS, tick));
  }

  lemma {:induction false} TimerKeeps(rules: Rules, s: Race, ids: seq<string>, tick: nat)
    requires Ledgers(rules, s) && forall id :: id in ids ==> id in s.racers
    ensures Ledgers(rules, Timer(s, ids, tick)) && SameRace(s, Timer(s, ids, tick))
    decreases |ids|
  {
    hide Ledgers, AddScore;
    if ids != [] && tick % TIMER_INTERVAL == 0 {
      TimerOneKeeps(rules, s, ids[0], tick);
      TimerKeeps(rules, Put(s, ids[0], AddScore(On(s, ids[0]), TIMER_POINTS, tick)), ids[1..], tick);
    }
  }

  // ---- The end of a tick ----

  lemma FlushOneKeeps(rules: Rules, s: Race, id: string, tick: nat)
    requires Ledgers(rules, s) && id in s.racers
    ensures var t := Put(s, id, Flush(On(s, id), tick));
      && Ledgers(rules, t) && SameRace(s, t) && ReportedBy(t, id, tick)
      && (forall x :: x in s.racers ==> t.racers[x].hp == s.racers[x].hp)
      && forall x :: ReportedBy(s, x, tick) ==> ReportedBy(t, x, tick)
  {
    LedgerAt(rules, s, id);
    FlushKeeps(rules, On(s, id), tick);
    FlushTouches(On(s, id), tick);
    hide Ledger, Ledgers;
    PutKeeps(rules, s, id, Flush(On(s, id), tick));
  }

  lemma {:induction false} FlushAllKeeps(rules: Rules, s: Race, ids: seq<string>, tick: nat)
    requires Ledgers(rules, s) && forall id :: id in ids ==> id in s.racers
    ensures var t := FlushAll(s, ids, tick);
      && Ledgers(rules, t) && SameRace(s, t)
      && (forall x :: x in s.racers ==> t.racers[x].hp == s.racers[x].hp)
      && forall x :: x in ids || ReportedBy(s, x, tick) ==> ReportedBy(t, x, tick)
    decreases |ids|
  {
    hide Ledgers, Flush, ReportedBy;
    if ids != [] {
      var t := Put(s, ids[0], Flush(On(s, ids[0]), tick));
      FlushOneKeeps(rules, s, ids[0], tick);
      FlushAllKeeps(rules, t, ids[1..], tick);
      assert forall x :: x in ids ==> x == ids[0] || x in ids[1..];
    }
  }

  lemma {:induction false} FirstDownIsFirst(s: Race, ids: seq<string>)
    requires forall id :: id in ids ==> id in s.racers
    ensures FirstDown(s, ids).None? ==> Alive(s, ids)
    ensures FirstDown(s, ids).Some? ==> exists i :: Leads(s, ids, i, FirstDown(s, ids).value)
    decreases |ids|
  {
    if ids != [] {
      if s.racers[ids[0]].hp == 0 {
        assert Leads(s, ids, 0, ids[0]);
      } else {
        FirstDownIsFirst(s, ids[1..]);
        if FirstDown(s, ids[1..]).Some? {
          var i :| Leads(s, ids[1..], i, FirstDown(s, ids[1..]).value);
          NextLeads(s, ids, i, FirstDown(s, ids[1..]).value);
        } else {
          assert forall i :: 1 <= i < |ids| ==> ids[i] == ids[1..][i - 1];
        }
      }
    }
  }

  lemma NextLeads(s: Race, ids: seq<string>, i: nat, id: string)
    requires ids != [] && ids[0] in s.racers && s.racers[ids[0]].hp > 0 && Leads(s, ids[1..], i, id)
    ensures Leads(s, ids, i + 1, id)
  {
    var front, rest := ids[..i + 1], ids[1..][..i];
    forall k | 0 <= k < |front|
      ensures front[k] in s.racers && s.racers[front[k]].hp > 0
    {
      if k > 0 {
        assert front[k] == rest[k - 1];
      }
    }
  }

  // ---- A tick ----

  ghost predicate Joined(s: Race) {
    forall id :: id in s.roster ==> id in s.racers
  }

  function Middle(rules: Rules, s: Race, play: Play, tick: nat): Race
    requires Joined(s)
  {
    var a := DoAll(rules, Timer(s, s.roster, tick), play.early, tick);
    DoAll(rules, JudgeAll(rules, a.(live := play.field), play.shots, tick), play.late, tick)
  }

  lemma MiddleKeeps(rules: Rules, s: Race, play: Play, tick: nat)
    requires Joined(s) && Ledgers(rules, s)
    ensures Ledgers(rules, Middle(rules, s, play, tick)) && SameRace(s, Middle(rules, s, play, tick))
  {
    hide Timer, DoAll, JudgeAll, Ledger;
    TimerKeeps(rules, s, s.roster, tick);
    var t := Timer(s, s.roster, tick);
    DoAllKeeps(rules, t, play.early, tick);
    var a := DoAll(rules, t, play.early, tick);
    NewField(rules, a, play.field);
    JudgeAllKeeps(rules, a.(live := play.field), play.shots, tick);
    DoAllKeeps(rules, JudgeAll(rules, a.(live := play.field), play.shots, tick), play.late, tick);
    hide Ledgers;
  }

  lemma NewField(rules: Rules, s: Race, field: seq<Bullet>)
    requires Ledgers(rules, s)
    ensures Ledgers(rules, s.(live := field))
  {
    forall id
      ensures LedgerOf(rules, s.(live := field), id)
    {
      assert LedgerOf(rules, s, id);
    }
    hide Ledger;
  }

  /** What a tick of a running race does. */
  ghost function RunTick(rules: Rules, s: Race, play: Play, tick: nat): Race
    requires Joined(s) && Ledgers(rules, s)
  {
    MiddleKeeps(rules, s, play, tick);
    var middle := Middle(rules, s, play, tick);
    var m := Winner(middle, tick);
    OnlyStage(rules, middle, m);
    FlushAllKeeps(rules, m, m.roster, tick);
    var f := FlushAll(m, m.roster, tick);
    f.(cursor := s.cursor + |f.log| - |s.log|)
  }

  function StartIfReady(s: Race): Race {
    if s.stage == Waiting && |s.roster| >= MIN_PLAYERS then s.(stage := Running) else s
  }

  ghost function TickRace(rules: Rules, s: Race, play: Play): Race
    requires Joined(s) && Ledgers(rules, s)
  {
    if s.stage == Finished then s else
    var started := StartIfReady(s);
    StartKeeps(rules, s);
    (if started.stage == Running then RunTick(rules, started, play, s.tick + 1) else started).(tick := s.tick + 1)
  }

  lemma StartKeeps(rules: Rules, s: Race)
    requires Joined(s) && Ledgers(rules, s)
    ensures Joined(StartIfReady(s)) && Ledgers(rules, StartIfReady(s))
  {
    OnlyStage(rules, s, StartIfReady(s));
  }

  /** The ledgers depend on the racers and the log alone. */
  lemma OnlyStage(rules: Rules, s: Race, t: Race)
    requires Ledgers(rules, s) && t.racers == s.racers && t.log == s.log
    ensures Ledgers(rules, t)
  {
    forall id
      ensures LedgerOf(rules, t, id)
    {
      assert LedgerOf(rules, s, id);
    }
    hide Ledger;
  }

  lemma WinnerDecides(s: Race, m: Race, tick: nat)
    requires Joined(m) && m.stage != Finished && m.winner == "" && m.winnerTick == 0
    ensures var t := Winner(m, tick);
      && t.racers == m.racers && t.log == m.log && t.roster == m.roster && t.cursor == m.cursor
      && Decided(t.(tick := tick))
      && (t.stage == m.stage || t.stage == Finished)
  {
    FirstDownIsFirst(m, m.roster);
    var t := Winner(m, tick);
    if FirstDown(m, m.roster).Some? {
      var i :| Leads(m, m.roster, i, FirstDown(m, m.roster).value);
      assert Leads(t, t.roster, i, t.winner);
      assert Leads(t.(tick := tick), t.roster, i, t.winner);
    } else {
      assert Alive(t, t.roster);
    }
  }

  /** Whether the race is decided depends on the hit points alone. */
  lemma DecidedByHp(s: Race, t: Race)
    requires Decided(s) && t.racers.Keys == s.racers.Keys && forall x :: x in s.racers ==> t.racers[x].hp == s.racers[x].hp
    requires t.stage == s.stage && t.roster == s.roster && t.winner == s.winner && t.winnerTick == s.winnerTick && t.tick == s.tick
    ensures Decided(t)
  {
    if s.stage == Finished {
      var i :| Leads(s, s.roster, i, s.winner);
      assert forall k :: 0 <= k < i ==> t.roster[..i][k] == s.roster[..i][k];
      assert Leads(t, t.roster, i, t.winner);
    }
  }

  lemma ListedBySame(s: Race, t: Race)
    requires Listed(s) && t.roster == s.roster && t.racers.Keys == s.racers.Keys
    ensures Listed(t)
  {
  }

  lemma AllReported(s: Race, t: Race, tick: nat)
    requires Listed(t) && t.tick == tick
    requires forall x :: x in t.roster ==> ReportedBy(s, x, tick)
    requires t.racers == s.racers
    ensures Reported(t)
  {
  }

  lemma RunTickSound(rules: Rules, s: Race, play: Play)
    requires Sound(rules, s) && s.stage == Running
    ensures Joined(s) && Sound(rules, RunTick(rules, s, play, s.tick + 1).(tick := s.tick + 1))
  {
    var tick := s.tick + 1;
    MiddleKeeps(rules, s, play, tick);
    var middle := Middle(rules, s, play, tick);
    var m := Winner(middle, tick);
    WinnerDecides(s, middle, tick);
    OnlyStage(rules, middle, m);
    FlushAllKeeps(rules, m, m.roster, tick);
    var f := FlushAll(m, m.roster, tick);
    var t := RunTick(rules, s, play, tick).(tick := tick);
    hide Middle, Winner, FlushAll, Ledger;
    OnlyStage(rules, f, t);
    DecidedByHp(m.(tick := tick), t);
    ListedBySame(s, t);
    AllReported(f, t, tick);
    hide Ledgers, Decided, Reported, Listed;
  }

  lemma TickSound(rules: Rules, s: Race, play: Play)
    requires Sound(rules, s)
    ensures Joined(s) && Sound(rules, TickRace(rules, s, play))
  {
    var started := StartIfReady(s);
    if s.stage != Finished {
      StartSound(rules, s);
      hide RunTick, Ledgers, Listed, Decided;
      if started.stage == Running {
        RunningTick(rules, s, play);
      } else {
        WaitingTick(rules, s);
      }
    }
  }

  lemma StartSound(rules: Rules, s: Race)
    requires Sound(rules, s)
    ensures Joined(s) && Sound(rules, StartIfReady(s))
  {
    OnlyStage(rules, s, StartIfReady(s));
    hide Ledgers;
  }

  lemma RunningTick(rules: Rules, s: Race, play: Play)
    requires Sound(rules, s) && s.stage != Finished && StartIfReady(s).stage == Running
    ensures Joined(s) && Sound(rules, TickRace(rules, s, play))
  {
    StartSound(rules, s);
    hide Sound, Joined, RunTick, Ledgers;
    RunTickSound(rules, StartIfReady(s), play);
    TickIsRunTick(rules, s, play);
  }

  lemma TickIsRunTick(rules: Rules, s: Race, play: Play)
    requires Joined(s) && Ledgers(rules, s) && s.stage != Finished && StartIfReady(s).stage == Running
    ensures Joined(StartIfReady(s)) && Ledgers(rules, StartIfReady(s))
    ensures TickRace(rules, s, play) == RunTick(rules, StartIfReady(s), play, s.tick + 1).(tick := s.tick + 1)
  {
    StartKeeps(rules, s);
    hide RunTick, Ledgers;
  }

  lemma WaitingTick(rules: Rules, s: Race)
    requires Sound(rules, s) && s.stage == Waiting
    ensures Sound(rules, s.(tick := s.tick + 1))
  {
    var t := s.(tick := s.tick + 1);
    OnlyStage(rules, s, t);
    assert Alive(t, t.roster);
    hide Ledgers;
  }

  // ---- Runs ----

  datatype Move = Enters(player: string) | Ticks(play: Play)

  ghost function Apply(rules: Rules, s: Race, m: Move): Race
    requires Sound(rules, s)
  {
    match m
    case Enters(id) => if MayJoin(s, id) then Join(rules, s, id) else s
    case Ticks(play) => TickRace(rules, s, play)
  }

  lemma NewLedger(rules: Rules, id: string)
    requires rules.maxHp > 0
    ensures Ledger(rules, Racer(id, rules.maxHp, 0, 0, 0, false, 0, 1, 0, 0), [])
  {
  }

  lemma JoinKeepsList(rules: Rules, s: Race, id: string)
    requires Listed(s) && MayJoin(s, id)
    ensures Listed(Join(rules, s, id))
  {
    var t := Join(rules, s, id);
    CardEffects.IdOrder();
    CardEffects.InsertSorted(id, s.roster, CardEffects.Leq);
    CardEffects.InsertPermutes(id, s.roster, CardEffects.Leq);
    Permuted(s.roster, t.roster, id);
    hide CardEffects.Insert, CardEffects.Leq, CardEffects.Sorted, CardEffects.Order;
  }

  lemma Permuted(before: seq<string>, after: seq<string>, id: string)
    requires multiset(after) == multiset{id} + multiset(before) && id !in before
    requires forall i, j :: 0 <= i < j < |before| ==> before[i] != before[j]
    ensures forall x :: x in after <==> x == id || x in before
    ensures |after| == |before| + 1
    ensures forall i, j :: 0 <= i < j < |after| ==> after[i] != after[j]
  {
    forall x
      ensures x in after <==> x == id || x in before
    {
      assert x in after <==> x in multiset(after);
    }
    assert |multiset(after)| == |after| && |multiset(before)| == |before|;
    forall i, j | 0 <= i < j < |after|
      ensures after[i] != after[j]
    {
      if after[i] == after[j] {
        Twice(after, i, j);
        Once(before, after[i]);
      }
    }
  }

  lemma Twice(s: seq<string>, i: nat, j: nat)
    requires i < j < |s| && s[i] == s[j]
    ensures multiset(s)[s[i]] >= 2
  {
    assert s == s[..j] + [s[j]] + s[j + 1..];
    assert s[i] in s[..j];
  }

  lemma {:induction false} Once(s: seq<string>, x: string)
    requires forall i, j :: 0 <= i < j < |s| ==> s[i] != s[j]
    ensures multiset(s)[x] <= 1
  {
    if s != [] {
      Once(s[1..], x);
      assert s == [s[0]] + s[1..];
      if s[0] == x {
        assert forall i :: 0 <= i < |s[1..]| ==> s[1..][i] == s[i + 1];
        assert x !in s[1..];
      }
    }
  }

  lemma JoinSound(rules: Rules, s: Race, id: string)
    requires rules.maxHp > 0 && Sound(rules, s) && MayJoin(s, id)
    ensures Sound(rules, Join(rules, s, id))
  {
    var t := Join(rules, s, id);
    JoinKeepsList(rules, s, id);
    NewLedger(rules, id);
    forall x
      ensures LedgerOf(rules, t, x)
    {
      assert LedgerOf(rules, s, x);
    }
    forall x
      ensures ReportedBy(t, x, t.tick)
    {
      assert ReportedBy(s, x, s.tick);
    }
    JoinDecided(rules, s, id);
    hide Ledger, Decided, CardEffects.Insert, CardEffects.Sorted;
  }

  lemma JoinDecided(rules: Rules, s: Race, id: string)
    requires rules.maxHp > 0 && Listed(s) && Decided(s) && MayJoin(s, id) && s.stage == Waiting && Listed(Join(rules, s, id))
    ensures Decided(Join(rules, s, id))
  {
    var t := Join(rules, s, id);
    hide CardEffects.Insert, CardEffects.Sorted;
    forall i | 0 <= i < |t.roster|
      ensures t.roster[i] in t.racers && t.racers[t.roster[i]].hp > 0
    {
      assert t.roster[i] in t.racers;
      if t.roster[i] != id {
        assert t.roster[i] in s.roster;
      }
    }
  }

  lemma ApplySound(rules: Rules, s: Race, m: Move)
    requires rules.maxHp > 0 && Sound(rules, s)
    ensures Sound(rules, Apply(rules, s, m))
  {
    hide Sound, Join, TickRace;
    match m
    case Enters(id) =>
      if MayJoin(s, id) {
        JoinSound(rules, s, id);
      }
    case Ticks(play) => TickSound(rules, s, play);
  }

  /** The race after a run, which keeps every ledger, reports every damage and decides at the first fall. */
  ghost function Run(rules: Rules, ms: seq<Move>): (s: Race)
    requires rules.maxHp > 0
    ensures Sound(rules, s)
    decreases |ms|
  {
    if ms == [] then EmptyRaceSound(rules); EMPTY else
    var s := Run(rules, ms[..|ms| - 1]);
    ApplySound(rules, s, ms[|ms| - 1]);
    Apply(rules, s, ms[|ms| - 1])
  }

  lemma EmptyRaceSound(rules: Rules)
    ensures Sound(rules, EMPTY)
  {
  }

  /** For each racer after any run: no hit point is lost, the phase is that of the hit points, what was dealt is
      reported or waits at most for the next eighth tick, and the score is what the gains announced. */
  lemma RaceLedgersHold(rules: Rules, ms: seq<Move>, id: string)
    requires rules.maxHp > 0 && id in Run(rules, ms).racers
    ensures var s := Run(rules, ms);
      var r := s.racers[id];
      && r.hp + r.dealt == rules.maxHp
      && r.phase == PhaseOf(r.hp, rules.maxHp)
      && r.spellTotal == r.phase + 1 && r.spellGet <= r.spellTotal
      && (Count(s.log, PlayerHit, id) == 0 ==> r.spellGet == r.phase + (if r.hp == 0 then 1 else 0))
      && r.score == Sum(s.log, ScoreGain, id)
      && r.dealt == Sum(s.log, BossDamage, id) + r.pending
      && (s.tick % DAMAGE_INTERVAL == 0 || r.hp == 0 ==> r.pending == 0)
      && (Count(s.log, SpellCapture, id) == 1 <==> r.hp == 0)
  {
    var s := Run(rules, ms);
    hide Run;
    assert LedgerOf(rules, s, id);
    assert ReportedBy(s, id, s.tick);
    SpellGetWithinTotal(rules, s.racers[id], s.log);
    hide Sum, Count, Decided, Listed;
  }

  /** The race ends at the tick the first boss falls, and for the first such player in the order of ids. */
  lemma WinnerIsFirstDown(rules: Rules, ms: seq<Move>)
    requires rules.maxHp > 0
    ensures var s := Run(rules, ms);
      && (s.stage == Finished <==> exists id :: id in s.racers && s.racers[id].hp == 0)
      && (s.stage == Finished ==> s.winner in s.racers && s.racers[s.winner].hp == 0 && s.winnerTick == s.tick)
      && (s.stage == Finished ==> forall id :: id in s.racers && s.racers[id].hp == 0 ==> CardEffects.Leq(s.winner, id))
  {
    var s := Run(rules, ms);
    hide Run, Ledgers, Reported, Started, CardEffects.Leq;
    if s.stage == Finished {
      var i :| Leads(s, s.roster, i, s.winner);
      forall id | id in s.racers && s.racers[id].hp == 0
        ensures CardEffects.Leq(s.winner, id)
      {
        var j :| 0 <= j < |s.roster| && s.roster[j] == id;
        NotBefore(s, s.roster, i, j);
        CardEffects.LeqTotal(id, id);
      }
    }
  }

  lemma NotBefore(s: Race, ids: seq<string>, i: nat, j: nat)
    requires i <= |ids| && Alive(s, ids[..i]) && j < |ids| && ids[j] in s.racers && s.racers[ids[j]].hp == 0
    ensures i <= j
  {
    var front := ids[..i];
    assert forall k :: 0 <= k < |front| ==> front[k] == ids[k];
  }

  /** Nothing more happens to a finished race. */
  lemma {:induction false} FinishedIsFinal(rules: Rules, ms: seq<Move>, more: seq<Move>)
    requires rules.maxHp > 0 && Run(rules, ms).stage == Finished
    ensures Run(rules, ms + more) == Run(rules, ms)
    decreases |more|
  {
    if more == [] {
      assert ms + more == ms;
    } else {
      var front, last := more[..|more| - 1], more[|more| - 1];
      FinishedIsFinal(rules, ms, front);
      assert (ms + more)[..|ms + more| - 1] == ms + front;
      var s := Run(rules, ms + front);
      assert Run(rules, ms + more) == Apply(rules, s, last);
      hide Run;
      FinishedStays(rules, s, last);
    }
  }

  lemma FinishedStays(rules: Rules, s: Race, m: Move)
    requires Sound(rules, s) && s.stage == Finished
    ensures Apply(rules, s, m) == s
  {
    hide Ledgers, Decided, Reported;
  }
}