/** After whatever the server was asked to do: a result it accepts tells the damage, the hit points and the
    counts of its own simulation. */
module TrueResults {
  import opened ServerSteps
  import opened ServerInvariants
  import opened SessionNames
  import opened ServedResults
  import Bytes
  import SimTypes
  import BossLedger
  import Snapshots
  import Results = ResultAgreement
  import ResultFields
  import ResultNames
  import FlatJson
  import Agreement
  import Verdicts

  // ---- Values of a fixture ----

  /** No player's damage is printed under the name. */
  predicate NoDamageName(name: string) {
    |name| > 6 && (name[5] != 'd' || name[6] != 'a')
  }

  lemma {:induction false} NoShareUnder(roster: seq<string>, shares: map<string, nat>, name: string)
    requires NoDamageName(name)
    ensures Snapshots.ShareUnder(roster, shares, name) == Bytes.None
  {
    if roster != [] {
      NoShareUnder(roster[1..], shares, name);
      assert ResultFields.DamageName(roster[0])[5] == 'd' && ResultFields.DamageName(roster[0])[6] == 'a';
    }
  }

  lemma DamageNamesApart(p: string, q: string)
    ensures ResultFields.DamageName(p) == ResultFields.DamageName(q) <==> p == q
  {
    assert ResultFields.DamageName(p)[12..] == p && ResultFields.DamageName(q)[12..] == q;
  }

  lemma {:induction false} OwnShareUnder(roster: seq<string>, shares: map<string, nat>, p: string)
    requires p in roster
    ensures Snapshots.ShareUnder(roster, shares, ResultFields.DamageName(p)) == Bytes.Some(BossLedger.DamageOf(shares, p))
  {
    hide ResultFields.DamageName;
    DamageNamesApart(p, roster[0]);
    if p != roster[0] {
      OwnShareUnder(roster[1..], shares, p);
    }
  }

  lemma ModeField(match_: Match, a: Snapshots.Account, name: string)
    requires SimTypes.BossMode(match_.rules) && name in Snapshots.BossFields(match_.rules, match_.state)
    requires ResultNames.BossHead(name)
    ensures var f := Snapshots.FixtureOf(match_.rules, match_.state, a);
      name in f.modeState && ResultFields.FieldOf(f, name) == Bytes.Some(Snapshots.ValueOf(match_.rules, match_.state, a, name))
  {
    var f := Snapshots.FixtureOf(match_.rules, match_.state, a);
    Snapshots.NamesAre(match_.rules, match_.state, name);
    Snapshots.KeysAre(match_.rules, match_.state, a, name);
    Agreement.NotReplay(name);
    hide Snapshots.SnapshotNames, Snapshots.BossFields, Snapshots.ValueOf, ResultFields.FieldOf, ResultNames.BossHead, ResultFields.ReplayNames,
      SimTypes.IsBossMode;
    ResultNames.FieldHere(f, name);
    ResultNames.OutsideReplay(f, name);
  }

  lemma DamageField(match_: Match, a: Snapshots.Account, p: string)
    requires SimTypes.BossMode(match_.rules) && p in match_.state.roster
    ensures var f, name := Snapshots.FixtureOf(match_.rules, match_.state, a), ResultFields.DamageName(p);
      && name in f.modeState && ResultNames.PlayerName(f.playerIds, name)
      && ResultFields.FieldOf(f, name) == Bytes.Some(FlatJson.Uint(BossLedger.DamageOf(match_.state.boss.shares, p)))
  {
    var s, name := match_.state, ResultFields.DamageName(p);
    DamageOwn(s.roster, p);
    ResultNames.PlayerHeads(s.roster, name);
    Snapshots.BossFieldsAre(match_.rules, s, name);
    OwnShareUnder(s.roster, s.boss.shares, p);
    hide Snapshots.BossFields, ResultFields.DamageName, ResultNames.PlayerName, ResultNames.BossHead, ResultFields.FieldOf, Snapshots.ModeState,
      SimTypes.IsBossMode, Snapshots.ShareUnder, Snapshots.OtherValue, BossLedger.DamageOf;
    ModeField(match_, a, name);
  }

  lemma DamageOwn(roster: seq<string>, p: string)
    requires p in roster
    ensures ResultNames.PlayerName(roster, ResultFields.DamageName(p))
  {
    var j :| 0 <= j < |roster| && roster[j] == p;
    assert ResultNames.OfPlayer(roster[j], ResultFields.DamageName(p));
    hide ResultNames.OfPlayer, ResultFields.DamageName;
  }

  lemma HpTable(name: string)
    requires name == "boss_current_hp" || name == "boss_max_hp"
    ensures name in ResultFields.HpNames() && NoDamageName(name) && ResultNames.BossHead(name)
  {
  }

  lemma HpField(match_: Match, a: Snapshots.Account, name: string)
    requires SimTypes.BossMode(match_.rules) && (name == "boss_current_hp" || name == "boss_max_hp")
    ensures name in ResultFields.HpNames()
    ensures ResultFields.FieldOf(Snapshots.FixtureOf(match_.rules, match_.state, a), name)
      == Bytes.Some(FlatJson.Uint(if name == "boss_max_hp" then match_.state.boss.maxHp else match_.state.boss.hp))
  {
    HpTable(name);
    Snapshots.BossFieldsAre(match_.rules, match_.state, name);
    NoShareUnder(match_.state.roster, match_.state.boss.shares, name);
    hide Snapshots.BossFields, ResultFields.HpNames, ResultNames.BossHead, ResultFields.FieldOf, Snapshots.ModeState, NoDamageName,
      SimTypes.IsBossMode, Snapshots.ShareUnder, Snapshots.OtherValue;
    ModeField(match_, a, name);
  }

  lemma CountFields(match_: Match, a: Snapshots.Account)
    ensures var f := Snapshots.FixtureOf(match_.rules, match_.state, a);
      && ResultFields.FieldOf(f, "event_cursor") == Bytes.Some(FlatJson.Uint(match_.state.eventCount))
      && ResultFields.FieldOf(f, "final_tick") == Bytes.Some(FlatJson.Uint(match_.state.tick))
    ensures "event_cursor" in ResultFields.ReplayNames() && "final_tick" in ResultFields.ReplayNames()
  {
    assert ResultFields.ReplayNames()[1] == "event_cursor" && ResultFields.ReplayNames()[2] == "final_tick";
    hide Snapshots.ModeState, ResultFields.TextField, ResultFields.ReplayNames;
  }

  // ---- What an accepted result tells ----

  /** The text tells the counts of the simulation and, in a boss match, its hit points and each player's damage. */
  ghost predicate TellsOf(m: Match, ms: seq<FlatJson.Member>) {
    && FlatJson.Find(ms, "event_cursor") == Bytes.Some(FlatJson.Uint(m.state.eventCount))
    && FlatJson.Find(ms, "final_tick") == Bytes.Some(FlatJson.Uint(m.state.tick))
    && (SimTypes.BossMode(m.rules) ==>
         && FlatJson.Find(ms, "boss_max_hp") == Bytes.Some(FlatJson.Uint(m.state.boss.maxHp))
         && FlatJson.Find(ms, "boss_current_hp") == Bytes.Some(FlatJson.Uint(m.state.boss.hp))
         && forall p :: p in m.state.roster ==>
              FlatJson.Find(ms, ResultFields.DamageName(p)) == Bytes.Some(FlatJson.Uint(BossLedger.DamageOf(m.state.boss.shares, p))))
  }

  lemma ToldNumber(f: ResultFields.Fixture, ms: seq<FlatJson.Member>, name: string, n: nat)
    requires Verdicts.Told(f, ms, name) && ResultFields.FieldOf(f, name) == Bytes.Some(FlatJson.Uint(n))
    ensures FlatJson.Find(ms, name) == Bytes.Some(FlatJson.Uint(n))
  {
    hide ResultFields.FieldOf;
  }

  lemma ToldTells(match_: Match, a: Snapshots.Account, ms: seq<FlatJson.Member>)
    requires var f := Snapshots.FixtureOf(match_.rules, match_.state, a); forall name :: Verdicts.Checked(f, name) ==> Verdicts.Told(f, ms, name)
    ensures TellsOf(match_, ms)
  {
    var f := Snapshots.FixtureOf(match_.rules, match_.state, a);
    CountFields(match_, a);
    CheckedReplay(f, "event_cursor");
    CheckedReplay(f, "final_tick");
    ToldNumber(f, ms, "event_cursor", match_.state.eventCount);
    ToldNumber(f, ms, "final_tick", match_.state.tick);
    if SimTypes.BossMode(match_.rules) {
      BossTells(match_, a, ms);
    }
    hide Snapshots.FixtureOf, Verdicts.Checked, Verdicts.Told, ResultFields.FieldOf, ResultFields.ReplayNames, FlatJson.Find, ResultFields.DamageName;
  }

  lemma CheckedReplay(f: ResultFields.Fixture, name: string)
    requires name in ResultFields.ReplayNames()
    ensures Verdicts.Checked(f, name)
  {
    hide ResultFields.ReplayNames;
  }

  lemma CheckedBoss(f: ResultFields.Fixture, name: string)
    requires ResultFields.IsBossMode(f.modeId)
    requires name in ResultFields.HpNames() || (ResultNames.PlayerName(f.playerIds, name) && name in f.modeState)
    ensures Verdicts.Checked(f, name)
  {
    hide ResultFields.HpNames, ResultNames.PlayerName, ResultFields.IsBossMode;
  }

  lemma FixtureMode(match_: Match, a: Snapshots.Account)
    ensures ResultFields.IsBossMode(Snapshots.FixtureOf(match_.rules, match_.state, a).modeId) == SimTypes.BossMode(match_.rules)
  {
    hide Snapshots.ModeState;
  }

  lemma BossTells(match_: Match, a: Snapshots.Account, ms: seq<FlatJson.Member>)
    requires SimTypes.BossMode(match_.rules)
    requires var f := Snapshots.FixtureOf(match_.rules, match_.state, a); forall name :: Verdicts.Checked(f, name) ==> Verdicts.Told(f, ms, name)
    ensures FlatJson.Find(ms, "boss_max_hp") == Bytes.Some(FlatJson.Uint(match_.state.boss.maxHp))
    ensures FlatJson.Find(ms, "boss_current_hp") == Bytes.Some(FlatJson.Uint(match_.state.boss.hp))
    ensures forall p :: p in match_.state.roster ==>
      FlatJson.Find(ms, ResultFields.DamageName(p)) == Bytes.Some(FlatJson.Uint(BossLedger.DamageOf(match_.state.boss.shares, p)))
  {
    hide *;
    var f := Snapshots.FixtureOf(match_.rules, match_.state, a);
    FixtureMode(match_, a);
    HpField(match_, a, "boss_max_hp");
    HpField(match_, a, "boss_current_hp");
    CheckedBoss(f, "boss_max_hp");
    CheckedBoss(f, "boss_current_hp");
    ToldNumber(f, ms, "boss_max_hp", match_.state.boss.maxHp);
    ToldNumber(f, ms, "boss_current_hp", match_.state.boss.hp);
    forall p | p in match_.state.roster
      ensures FlatJson.Find(ms, ResultFields.DamageName(p)) == Bytes.Some(FlatJson.Uint(BossLedger.DamageOf(match_.state.boss.shares, p)))
    {
      DamageField(match_, a, p);
      CheckedBoss(f, ResultFields.DamageName(p));
      ToldNumber(f, ms, ResultFields.DamageName(p), BossLedger.DamageOf(match_.state.boss.shares, p));
    }
  }

  // ---- On the server ----

  /** The facts of a match in a reachable state are sound as soon as a result for it passes the identity checks. */
  lemma AcceptedFactsSound(env: Env, s: Server, signed: Results.Signed, players: seq<string>)
    requires Sound(env, s) && SessionsNamed(s) && AllProper(s) && Signing(env)
    requires signed.result.matchId in s.sims && PlayersOf(s, signed.result.matchId, players)
    requires var id := signed.result.matchId; Results.Submit(Facts(env, id, s.sims[id], players), s.results, signed, env.release).0.Accepted?
    ensures Agreement.SoundMatch(Facts(env, signed.result.matchId, s.sims[signed.result.matchId], players))
  {
    var id := signed.result.matchId;
    var match_ := s.sims[id];
    var f := Facts(env, id, match_, players);
    hide *;
    ProperAt(s, id);
    NamedFacts(env, id, match_, players);
    Verdicts.AcceptedHasNoComplaint(f, s.results, signed, env.release);
    Verdicts.NoComplaintParts(signed, Results.OptionsFor(f, id), env.release);
    Verdicts.IdentityMeans(f, signed, env.release);
    RosterTokens(env, s, id);
    PlayersNamed(s, id, players);
    SomePlayers(signed.result.playerIds, players);
    FactsSound(env, id, match_, players);
  }

  lemma SomePlayers(a: seq<string>, b: seq<string>)
    requires multiset(a) == multiset(b) && a != []
    ensures b != []
  {
    assert a[0] in multiset(a);
  }

  lemma ProperAt(s: Server, id: string)
    requires AllProper(s) && id in s.sims
    ensures Proper(s.sims[id])
  {
    hide Proper;
  }

  lemma NamedFacts(env: Env, id: string, match_: Match, players: seq<string>)
    requires Signing(env) && Proper(match_)
    ensures var f := Facts(env, id, match_, players);
      && f.fixture.modeId != "" && f.resultHash != "" && f.replayId != "" && f.sessionPlayers == players
      && f.fixture == Snapshots.FixtureOf(match_.rules, match_.state, env.account(match_)) && f.resultHash == env.hash(match_)
  {
    NamedReplay(id, match_);
    hide Snapshots.ModeState, ReplayId, Agreement.Signs, Snapshots.NoStrayTransfers;
  }

  /** After any commands: a result the server accepts for a match tells of that match as it stands and of nothing
      else, is signed for it and its players, and its hash is what goes on record. */
  lemma AcceptedResultsAreTrue(env: Env, commands: seq<Command>, signed: Results.Signed, players: seq<string>, ms: seq<FlatJson.Member>)
    requires ChecksTokens(env) && Signing(env)
    requires var s, id := ExecuteAll(env, EMPTY, commands), signed.result.matchId;
      && id in s.sims && PlayersOf(s, id, players)
      && Results.Submit(Facts(env, id, s.sims[id], players), s.results, signed, env.release).0.Accepted?
    requires ms != [] && FlatJson.PlainKeys(ms) && signed.result.modeJson == FlatJson.Flat(ms)
    ensures var s, id := ExecuteAll(env, EMPTY, commands), signed.result.matchId;
      && TellsOf(s.sims[id], ms) && Verdicts.Identified(Facts(env, id, s.sims[id], players), signed, env.release)
      && Verdicts.NothingElse(Facts(env, id, s.sims[id], players).fixture, ms)
      && Results.Submit(Facts(env, id, s.sims[id], players), s.results, signed, env.release).1 == s.results[id := env.hash(s.sims[id])]
  {
    hide *;
    var s, id := ExecuteAll(env, EMPTY, commands), signed.result.matchId;
    SigningIsSound(env);
    EmptySound(env);
    RunsSound(env, EMPTY, commands);
    SessionsAreTokens(env, commands);
    RunsProper(env, commands);
    AcceptedInState(env, s, signed, players, ms);
  }

  lemma AcceptedInState(env: Env, s: Server, signed: Results.Signed, players: seq<string>, ms: seq<FlatJson.Member>)
    requires Sound(env, s) && SessionsNamed(s) && AllProper(s) && Signing(env)
    requires signed.result.matchId in s.sims && PlayersOf(s, signed.result.matchId, players)
    requires var id := signed.result.matchId; Results.Submit(Facts(env, id, s.sims[id], players), s.results, signed, env.release).0.Accepted?
    requires ms != [] && FlatJson.PlainKeys(ms) && signed.result.modeJson == FlatJson.Flat(ms)
    ensures var id := signed.result.matchId;
      && TellsOf(s.sims[id], ms) && Verdicts.Identified(Facts(env, id, s.sims[id], players), signed, env.release)
      && Verdicts.NothingElse(Facts(env, id, s.sims[id], players).fixture, ms)
      && Results.Submit(Facts(env, id, s.sims[id], players), s.results, signed, env.release).1 == s.results[id := env.hash(s.sims[id])]
  {
    hide *;
    var id := signed.result.matchId;
    var f := Facts(env, id, s.sims[id], players);
    AcceptedFactsSound(env, s, signed, players);
    ProperAt(s, id);
    NamedFacts(env, id, s.sims[id], players);
    Verdicts.AcceptedIsTrue(f, s.results, signed, env.release, ms);
    Verdicts.AcceptedSaysNothingElse(f, s.results, signed, env.release, ms);
    ToldTells(s.sims[id], env.account(s.sims[id]), ms);
  }

  /** So a text that credits a player with other damage than he did is refused, and nothing is recorded. */
  lemma FalseDamageIsRefused(env: Env, commands: seq<Command>, signed: Results.Signed, players: seq<string>, ms: seq<FlatJson.Member>, p: string)
    requires ChecksTokens(env) && Signing(env)
    requires var s, id := ExecuteAll(env, EMPTY, commands), signed.result.matchId;
      && id in s.sims && PlayersOf(s, id, players) && SimTypes.BossMode(s.sims[id].rules) && p in s.sims[id].state.roster
      && FlatJson.Find(ms, ResultFields.DamageName(p)) != Bytes.Some(FlatJson.Uint(BossLedger.DamageOf(s.sims[id].state.boss.shares, p)))
    requires ms != [] && FlatJson.PlainKeys(ms) && signed.result.modeJson == FlatJson.Flat(ms)
    ensures var s, id := ExecuteAll(env, EMPTY, commands), signed.result.matchId;
      var answer := Results.Submit(Facts(env, id, s.sims[id], players), s.results, signed, env.release);
      answer.0.NotAccepted? && answer.1 == s.results
  {
    hide *;
    var s, id := ExecuteAll(env, EMPTY, commands), signed.result.matchId;
    var f := Facts(env, id, s.sims[id], players);
    if Results.Submit(f, s.results, signed, env.release).0.Accepted? {
      AcceptedResultsAreTrue(env, commands, signed, players, ms);
      TellsDamage(s.sims[id], ms, p);
      assert false;
    }
    Verdicts.RefusedChangesNothing(f, s.results, signed, env.release);
  }

  lemma TellsDamage(m: Match, ms: seq<FlatJson.Member>, p: string)
    requires TellsOf(m, ms) && SimTypes.BossMode(m.rules) && p in m.state.roster
    ensures FlatJson.Find(ms, ResultFields.DamageName(p)) == Bytes.Some(FlatJson.Uint(BossLedger.DamageOf(m.state.boss.shares, p)))
  {
    hide ResultFields.DamageName, FlatJson.Find, SimTypes.IsBossMode;
  }
}
