/** Whatever the server was asked to do before: the result it builds for a match is one it accepts. */
module ServedResults {
  import opened ServerSteps
  import opened ServerInvariants
  import opened SessionNames
  import SimTypes
  import SimSteps
  import SimInvariants
  import Sim = Simulation
  import TransferLedger
  import Snapshots
  import Results = ResultAgreement
  import ResultFields
  import Agreement
  import Submission
  import Wording
  import BattleServer
  import CardEffects
  import FlatJson
  import Bytes
  import ResultNames
  import WordScan

  // ---- No transfers outside the boss modes ----

  ghost predicate NoCards(t: TransferLedger.Transfers) {
    t.cards == map[] && t.count == 0
  }

  lemma ActionKeepsNoCards(rules: SimTypes.Rules, s: SimSteps.State, a: SimTypes.Action, tick: nat)
    requires NoCards(s.transfers)
    ensures NoCards(SimSteps.ApplyAction(rules, s, a, tick).transfers)
  {
    hide SimSteps.CastCard;
    var slot := if a.slot.Some? then a.slot.value else -1;
    SimInvariants.CastBooks(rules, s, a.playerId, slot, tick);
  }

  lemma {:induction false} ActionsKeepNoCards(rules: SimTypes.Rules, s: SimSteps.State, actions: seq<SimTypes.Action>, tick: nat)
    requires NoCards(s.transfers)
    ensures NoCards(SimSteps.ApplyActions(rules, s, actions, tick).transfers)
    decreases |actions|
  {
    hide SimSteps.ApplyAction, NoCards;
    if actions != [] {
      ActionsKeepNoCards(rules, s, actions[..|actions| - 1], tick);
      ActionKeepsNoCards(rules, SimSteps.ApplyActions(rules, s, actions[..|actions| - 1], tick), actions[|actions| - 1], tick);
    }
  }

  lemma FinishTransfers(rules: SimTypes.Rules, s: SimSteps.State, t: nat)
    ensures SimSteps.Finish(rules, s, t).transfers == s.transfers
  {
    hide SimSteps.ReadyToStart, SimTypes.IsBossMode;
  }

  lemma ActionsTickTransfers(rules: SimTypes.Rules, s: SimSteps.State, t: nat)
    requires NoCards(s.transfers)
    ensures NoCards(SimSteps.ActionsTick(rules, s, t).transfers)
  {
    var actions := CardEffects.Sort(SimSteps.Split(s.queue, t, true), SimSteps.ActsBefore);
    ActionsKeepNoCards(rules, s, actions, t);
    hide SimSteps.ApplyActions, SimSteps.Split, CardEffects.Sort, NoCards;
  }

  lemma InputsTickTransfers(rules: SimTypes.Rules, s: SimSteps.State, t: nat)
    ensures SimSteps.InputsTick(rules, s, t).transfers == s.transfers
  {
    var enabled := SimSteps.InputEnabled(rules, s, t);
    SimInvariants.TickPlayersBooks(rules, s, s.roster, enabled, t);
    SimInvariants.BooksParts(s, SimSteps.TickPlayers(rules, s, s.roster, enabled, t));
    hide SimSteps.TickPlayers, SimSteps.InputEnabled, SimSteps.WithoutTick, SimInvariants.SameBooks, SimInvariants.SamePlayers;
  }

  lemma TickKeepsNoCards(rules: SimTypes.Rules, s: SimSteps.State)
    requires NoCards(s.transfers) && !SimTypes.BossMode(rules)
    ensures NoCards(SimSteps.Tick(rules, s).transfers)
  {
    var t := s.tick + 1;
    SimInvariants.TickParts(rules, s);
    InputsTickTransfers(rules, s, t);
    ActionsTickTransfers(rules, SimSteps.InputsTick(rules, s, t), t);
    FinishTransfers(rules, SimSteps.ActionsTick(rules, SimSteps.InputsTick(rules, s, t), t), t);
    hide SimSteps.InputsTick, SimSteps.ActionsTick, SimSteps.Finish, NoCards, SimSteps.Tick;
  }

  lemma AcceptKeepsNoCards(rules: SimTypes.Rules, s: SimSteps.State, a: SimTypes.Action)
    requires NoCards(s.transfers) && !SimTypes.BossMode(rules)
    ensures NoCards(SimSteps.AcceptAction(rules, s, a).transfers)
  {
    if SimSteps.ActionFault(rules, s, a) == "" {
      SimSteps.AcceptedFacts(rules, s, a);
      hide SimSteps.ActionFault, SimTypes.BossMode;
    }
  }

  lemma StepKeepsNoStray(rules: SimTypes.Rules, s: SimSteps.State, step: Sim.Step)
    requires Snapshots.NoStrayTransfers(rules, s)
    ensures Snapshots.NoStrayTransfers(rules, Sim.Do(rules, s, step))
  {
    hide SimSteps.Tick, SimSteps.AcceptAction, SimSteps.InputFault, SimSteps.MayJoin, SimSteps.NewPlayer, SimTypes.AuditToken,
      CardEffects.Insert, SimTypes.IsBossMode, SimSteps.SeedAgrees;
    if !SimTypes.BossMode(rules) {
      match step
      case Join(id, x, y) =>
      case Grant(card, terms) =>
      case Seed(id, seed, opening, energy, deck) =>
      case SetConnected(id, connected) =>
      case SubmitInput(input) =>
      case SubmitAction(action) => AcceptKeepsNoCards(rules, s, action);
      case Advance => TickKeepsNoCards(rules, s);
    }
  }

  // ---- Every match the server has ----

  ghost predicate Proper(m: Match) {
    m.rules.modeId != "" && Snapshots.NoStrayTransfers(m.rules, m.state)
  }

  ghost predicate AllProper(s: Server) {
    forall m :: m in s.sims ==> Proper(s.sims[m])
  }

  lemma SeatedProper(env: Env, s: Server, t: Ticket)
    requires AllProper(s) && t.modeId != ""
    ensures Proper(Seated(Joined(env, s, t), t))
  {
    hide SimSteps.MayJoin, SimSteps.NewPlayer, SimTypes.AuditToken, CardEffects.Insert, SimTypes.IsBossMode, SimSteps.SeedAgrees;
  }

  lemma EnrolProper(env: Env, s: Server, t: Ticket)
    requires AllProper(s) && t.modeId != ""
    ensures AllProper(Enrol(env, s, t))
  {
    SeatedProper(env, s, t);
    hide Proper, EnrolFault, Seated, Joined;
  }

  lemma SimulateProper(s: Server, m: string, step: Sim.Step)
    requires AllProper(s)
    ensures AllProper(Simulate(s, m, step))
  {
    if Reaches(s, m, step) {
      StepKeepsNoStray(s.sims[m].rules, s.sims[m].state, step);
    }
    hide Reaches, Sim.Do, Locks, ReadyToLock, Snapshots.NoStrayTransfers;
  }

  lemma FewerProper(s: Server, u: Server)
    requires AllProper(s) && forall m :: m in u.sims ==> m in s.sims && u.sims[m] == s.sims[m]
    ensures AllProper(u)
  {
    hide Proper;
  }

  lemma SubmitSims(env: Env, s: Server, signed: Results.Signed, players: seq<string>)
    ensures Submit(env, s, signed, players).sims == s.sims
  {
    hide *;
    if signed.result.matchId in s.sims {
      SubmitUnfold(env, s, signed, players);
    } else {
      BattleServer.NothingSubmitted(env, s, signed, players);
    }
  }

  lemma RegisterProper(env: Env, s: Server, t: Ticket)
    requires ChecksTokens(env) && AllProper(s)
    ensures AllProper(Register(env, s, t))
  {
    if RegisterFault(env, s, t) == "" {
      PassedTicket(env, s, t);
      ModeNamed(env, t);
      hide RegisterFault, Enrol, AllProper, ChecksTokens;
      EnrolProper(env, s, t);
    }
  }

  lemma ModeNamed(env: Env, t: Ticket)
    requires ChecksTokens(env) && env.ticketFault(t) == ""
    ensures t.modeId != ""
  {
  }

  lemma CommandProper(env: Env, s: Server, c: Command)
    requires ChecksTokens(env) && AllProper(s)
    ensures AllProper(Execute(env, s, c))
  {
    hide ChecksTokens, Register, Simulate, Submit, ConfigureFault, Normal, AllProper;
    match c
    case SetUp(m, boss) => FewerProper(s, Execute(env, s, c));
    case Admit(ticket) => RegisterProper(env, s, ticket);
    case Ask(m, step) => SimulateProper(s, m, step);
    case Hand(signed, players) =>
      SubmitSims(env, s, signed, players);
      FewerProper(s, Execute(env, s, c));
    case CallOff(m) => FewerProper(s, Execute(env, s, c));
    case Close(m) => FewerProper(s, Execute(env, s, c));
  }

  lemma {:induction false} RunsProper(env: Env, commands: seq<Command>)
    requires ChecksTokens(env)
    ensures AllProper(ExecuteAll(env, EMPTY, commands))
    decreases |commands|
  {
    hide ChecksTokens, Execute, Proper;
    if commands != [] {
      var front := commands[..|commands| - 1];
      RunsProper(env, front);
      hide AllProper;
      CommandProper(env, ExecuteAll(env, EMPTY, front), commands[|commands| - 1]);
    }
  }

  // ---- The facts of a match ----

  /** The server has a name, its hashes look like hashes, its signatures like signatures. */
  ghost predicate Signing(env: Env) {
    env.serverId != "" && Agreement.Signs(env.release) && forall m: Match :: Results.LooksLikeSha256Ref(env.hash(m))
  }

  lemma SigningIsSound(env: Env)
    requires Signing(env)
    ensures EnvSound(env)
  {
    hide Agreement.Signs;
  }

  lemma RosterTokens(env: Env, s: Server, m: string)
    requires Sound(env, s) && SessionsNamed(s) && m in s.sims
    ensures Snapshots.TokenRoster(s.sims[m].state)
  {
    SoundParts(env, s);
    hide Sound, CancelledApart, PendingApart, ResultsHold, SimTypes.AuditToken, SimInvariants.BossSound, SimInvariants.TransfersSound,
      SimInvariants.InputsSound, SimInvariants.QueueSound, SimInvariants.SequencesSound, SimInvariants.AppliedSound;
    var state := s.sims[m].state;
    assert SimInvariants.Inv(s.sims[m].rules, state);
    forall i | 0 <= i < |state.roster|
      ensures SimTypes.AuditToken(state.roster[i])
    {
      assert state.roster[i] in state.players;
      var t :| t in s.sessions && s.sessions[t].matchId == m && s.sessions[t].playerId == state.roster[i];
    }
  }

  lemma PlayersNamed(s: Server, m: string, players: seq<string>)
    requires SessionsNamed(s) && PlayersOf(s, m, players)
    ensures "" !in players && (players != [] ==> m != "")
  {
    if players != [] {
      assert SessionFor(s.sessions, m, players[0]);
    }
    hide CardEffects.Sorted;
  }

  lemma NamedReplay(m: string, match_: Match)
    ensures ReplayId(m, match_) != ""
  {
  }

  lemma FactsSound(env: Env, m: string, match_: Match, players: seq<string>)
    requires Signing(env) && Proper(match_) && Snapshots.TokenRoster(match_.state) && m != "" && "" !in players
    ensures Agreement.SoundMatch(Facts(env, m, match_, players))
  {
    Snapshots.FixtureIsSound(match_.rules, match_.state, env.account(match_));
    NamedReplay(m, match_);
    hide Agreement.SoundFixture, Snapshots.ModeState, Snapshots.TokenRoster, ReplayId, Agreement.Signs, Results.LooksLikeSha256Ref;
  }

  lemma BuiltHasPlayers(env: Env, m: string, match_: Match, players: seq<string>)
    requires Results.Build(Facts(env, m, match_, players), env.release).Built?
    ensures players != []
  {
    Submission.BuiltParts(Facts(env, m, match_, players), env.release);
    hide Results.Build, FixtureOf;
  }

  /** After any commands: the result the server builds for a match is accepted by the server as it stands exactly
      when no player's id and no string the match carries holds a forbidden word; the match is then settled,
      and the same result submitted again is reported as a duplicate. */
  lemma BuiltResultsAreAccepted(env: Env, commands: seq<Command>, m: string, players: seq<string>)
    requires ChecksTokens(env) && Signing(env)
    requires var s := ExecuteAll(env, EMPTY, commands);
      m in s.sims && PlayersOf(s, m, players) && Results.Build(Facts(env, m, s.sims[m], players), env.release).Built?
    ensures var s := ExecuteAll(env, EMPTY, commands);
      var f := Facts(env, m, s.sims[m], players);
      var signed := Results.Build(f, env.release).signed;
      var first := Decision(env, s.sims[m], s.results, signed, players);
      var again := Decision(env, s.sims[m], first.1, signed, players);
      BattleServer.Answered(Wording.Carries(f.fixture), s.results, first, again, m, f.resultHash, Submission.SettlementKey(f))
  {
    hide *;
    var s := ExecuteAll(env, EMPTY, commands);
    SigningIsSound(env);
    EmptySound(env);
    RunsSound(env, EMPTY, commands);
    SessionsAreTokens(env, commands);
    RunsProper(env, commands);
    ReachedFacts(env, s, m, players);
    BattleServer.BuiltResultIsAccepted(env, s, m, players);
  }

  lemma ReachedFacts(env: Env, s: Server, m: string, players: seq<string>)
    requires Sound(env, s) && SessionsNamed(s) && AllProper(s) && Signing(env)
    requires m in s.sims && PlayersOf(s, m, players) && Results.Build(Facts(env, m, s.sims[m], players), env.release).Built?
    ensures Agreement.SoundMatch(Facts(env, m, s.sims[m], players)) && Agreement.Signs(env.release)
  {
    assert Proper(s.sims[m]);
    RosterTokens(env, s, m);
    PlayersNamed(s, m, players);
    BuiltHasPlayers(env, m, s.sims[m], players);
    FactsSound(env, m, s.sims[m], players);
    hide *;
    SignsOf(env);
  }

  lemma SignsOf(env: Env)
    requires Signing(env)
    ensures Agreement.Signs(env.release)
  {
  }

  // ---- A word in a player's id ----

  lemma {:induction false} NoShareNamed(roster: seq<string>, shares: map<string, nat>)
    ensures Snapshots.ShareUnder(roster, shares, "boss_combat_started") == Bytes.None
  {
    if roster != [] {
      NoShareNamed(roster[1..], shares);
      assert ResultFields.DamageName(roster[0])[5] == 'd' && "boss_combat_started"[5] == 'c';
    }
  }

  lemma CombatSaid(match_: Match, a: Snapshots.Account)
    requires match_.rules.modeId == "world_boss" && match_.state.boss.started
    ensures Results.BlockReason(Snapshots.FixtureOf(match_.rules, match_.state, a)) == ""
  {
    var s := match_.state;
    NoShareNamed(s.roster, s.boss.shares);
    Snapshots.KeysAre(match_.rules, s, a, "boss_combat_started");
    Snapshots.NamesAre(match_.rules, s, "boss_combat_started");
    Snapshots.BossFieldsAre(match_.rules, s, "boss_combat_started");
    assert Snapshots.ValueOf(match_.rules, s, a, "boss_combat_started") == FlatJson.Uint(1);
    hide Snapshots.SnapshotNames, Snapshots.BossFields, Snapshots.ValueOf, Snapshots.ShareUnder;
  }

  lemma WordyPlayer(match_: Match, a: Snapshots.Account, j: nat, i: nat)
    requires SimTypes.BossMode(match_.rules) && j < |match_.state.roster| && i < |WordScan.MODE_WORDS|
    requires WordScan.Occurs(match_.state.roster[j], WordScan.MODE_WORDS[i])
    ensures Wording.Carries(Snapshots.FixtureOf(match_.rules, match_.state, a))
  {
    var f, id := Snapshots.FixtureOf(match_.rules, match_.state, a), match_.state.roster[j];
    var name := ResultFields.DamageName(id);
    hide *;
    FixtureRoster(match_, a);
    DamagePrinted(match_, a, j);
    PlayerCarries(f, j, i);
  }

  lemma FixtureRoster(match_: Match, a: Snapshots.Account)
    ensures Snapshots.FixtureOf(match_.rules, match_.state, a).playerIds == match_.state.roster
  {
    hide Snapshots.ModeState;
  }

  lemma DamagePrinted(match_: Match, a: Snapshots.Account, j: nat)
    requires SimTypes.BossMode(match_.rules) && j < |match_.state.roster|
    ensures ResultFields.FieldOf(Snapshots.FixtureOf(match_.rules, match_.state, a), ResultFields.DamageName(match_.state.roster[j])).Some?
  {
    var s, name := match_.state, ResultFields.DamageName(match_.state.roster[j]);
    assert ResultNames.OfPlayer(s.roster[j], name);
    Snapshots.BossFieldsAre(match_.rules, s, name);
    Snapshots.NamesAre(match_.rules, s, name);
    Snapshots.KeysAre(match_.rules, s, a, name);
    hide ResultFields.DamageName, Snapshots.ModeState, Snapshots.SnapshotNames, Snapshots.BossFields, ResultFields.FieldOf,
      SimTypes.IsBossMode, ResultNames.OfPlayer;
    ResultNames.FieldHere(Snapshots.FixtureOf(match_.rules, s, a), name);
  }

  lemma PlayerCarries(f: ResultFields.Fixture, j: nat, i: nat)
    requires j < |f.playerIds| && i < |WordScan.MODE_WORDS| && WordScan.Occurs(f.playerIds[j], WordScan.MODE_WORDS[i])
    requires ResultFields.FieldOf(f, ResultFields.DamageName(f.playerIds[j])).Some?
    ensures Wording.Carries(f)
  {
    hide WordScan.Occurs, Wording.TextHas, ResultFields.DamageName, ResultFields.FieldOf;
    DamageIsOwn(f.playerIds[j]);
    hide ResultNames.OfPlayer;
    assert Wording.PlayerHas(f, WordScan.MODE_WORDS[i]);
  }

  lemma DamageIsOwn(id: string)
    ensures ResultNames.OfPlayer(id, ResultFields.DamageName(id))
  {
  }

  /** A world boss match that has begun with a player whose id holds a forbidden word: its result is built,
      and refused by the server that built it. */
  lemma WordyPlayerIsRefused(env: Env, m: string, match_: Match, players: seq<string>, before: map<string, string>, j: nat, i: nat)
    requires Signing(env) && Proper(match_) && Snapshots.TokenRoster(match_.state) && m != "" && players != [] && "" !in players
    requires match_.rules.modeId == "world_boss" && match_.state.boss.started
    requires j < |match_.state.roster| && i < |WordScan.MODE_WORDS|
    requires WordScan.Occurs(match_.state.roster[j], WordScan.MODE_WORDS[i])
    requires m in before ==> before[m] == env.hash(match_)
    ensures var f := Facts(env, m, match_, players);
      && Results.Build(f, env.release) == Results.Built(Results.BuiltSigned(f, env.release))
      && Results.Submit(f, before, Results.BuiltSigned(f, env.release), env.release)
           == (Results.NotAccepted("mode_result_mutation_forbidden"), before)
  {
    hide *;
    FactsSound(env, m, match_, players);
    CombatSaid(match_, env.account(match_));
    BossModeHere(match_);
    WordyPlayer(match_, env.account(match_), j, i);
    FactsFor(env, m, match_, players);
    SignsOf(env);
    var f := Facts(env, m, match_, players);
    BuiltIf(f, env.release);
    Submission.BuiltParts(f, env.release);
    Submission.BuilderAndVerifierAgree(f, before, env.release);
  }

  lemma BossModeHere(match_: Match)
    requires match_.rules.modeId == "world_boss"
    ensures SimTypes.BossMode(match_.rules)
  {
  }

  lemma FactsFor(env: Env, m: string, match_: Match, players: seq<string>)
    ensures var f := Facts(env, m, match_, players);
      f.matchId == m && f.resultHash == env.hash(match_) && f.sessionPlayers == players
      && f.fixture == Snapshots.FixtureOf(match_.rules, match_.state, env.account(match_))
  {
    hide Snapshots.FixtureOf, ReplayId;
  }

  lemma BuiltIf(f: Results.Match, release: Results.Release)
    requires Results.BlockReason(f.fixture) == "" && f.sessionPlayers != []
    ensures Results.Build(f, release) == Results.Built(Results.BuiltSigned(f, release))
  {
    hide Results.BlockReason, Results.BuiltSigned;
  }

  /** Such an id is a valid token: a player may be called wallet. */
  lemma WalletIsAWord()
    ensures SimTypes.AuditToken("wallet")
    ensures 1 < |WordScan.MODE_WORDS| && WordScan.Occurs("wallet", WordScan.MODE_WORDS[1])
  {
    assert WordScan.Lower("wallet") == "wallet";
    assert Bytes.At("wallet", 0, "wallet");
  }
}
