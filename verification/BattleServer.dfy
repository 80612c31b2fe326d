/** The server object of src/server.cpp. It holds its simulations by value, as the program's map does. */
module BattleServer {
  import opened ServerSteps
  import opened ServerInvariants
  import SimTypes
  import SimSteps
  import Sim = Simulation
  import Results = ResultAgreement
  import Wording
  import Agreement
  import Submission

  class BattleServer {
    const env: Env
    var sessions: map<string, Session>
    var sims: map<string, Match>
    var pending: map<string, BossConfig>
    var results: map<string, string>
    var cancelled: set<string>
    var locked: set<string>

    ghost function Now(): Server
      reads this
    {
      Server(sessions, sims, pending, results, cancelled, locked)
    }

    ghost predicate Valid()
      reads this
    {
      EnvSound(env) && Sound(env, Now())
    }

    constructor (env: Env)
      requires EnvSound(env)
      ensures this.env == env && Now() == EMPTY && Valid()
    {
      this.env := env;
      sessions, sims, pending, results, cancelled, locked := map[], map[], map[], map[], {}, {};
      new;
      EmptySound(env);
      hide Sound, EnvSound;
    }

    method MatchLifecycleStatus(m: string) returns (status: Status)
      ensures status == StatusOf(Now(), m)
    {
      if m in cancelled {
        return Cancelled;
      }
      var hasActiveMatch, hasResult := m in sims, m in results;
      if hasActiveMatch && hasResult {
        return Settled;
      }
      if hasActiveMatch {
        return Active;
      }
      if hasResult {
        return Retired;
      }
      if m in pending {
        return PendingBossConfig;
      }
      status := Unknown;
    }

    method ConfigureBossMatch(m: string, config: BossConfig) returns (reason: string)
      requires Valid()
      modifies this
      ensures Valid() && reason == ConfigureFault(old(Now()), m, config) && Now() == Configure(old(Now()), m, config)
    {
      ConfigureSound(env, Now(), m, config);
      hide Sound, EnvSound, OptionalIdentity;
      if m == "" { return "match_id_missing"; }
      if !SimTypes.IsBossMode(config.modeId) { return "boss_mode_required"; }
      if m in sims { return "match_already_created"; }
      if m in results { return "match_retired"; }
      if m in cancelled { return "match_cancelled"; }
      if m in pending { return "boss_config_already_pending"; }
      if !OptionalIdentity(config.instanceId) { return "boss_instance_id_invalid"; }
      if !OptionalIdentity(config.seasonId) { return "boss_season_id_invalid"; }
      if !OptionalIdentity(config.phaseId) { return "boss_phase_id_invalid"; }
      pending := pending[m := Normal(config)];
      reason := "";
    }

    method SessionExistsForPlayer(m: string, player: string) returns (found: bool)
      ensures found == SessionFor(sessions, m, player)
    {
      var rest := sessions.Keys;
      while rest != {}
        invariant rest <= sessions.Keys
        invariant forall t :: t in sessions && t !in rest ==> sessions[t].matchId != m || sessions[t].playerId != player
        decreases |rest|
      {
        var t :| t in rest;
        if sessions[t].matchId == m && sessions[t].playerId == player {
          return true;
        }
        rest := rest - {t};
      }
      found := false;
    }

    method TicketsOfMatch(m: string) returns (tickets: set<string>)
      ensures tickets == TicketsOf(sessions, m)
    {
      tickets := {};
      var rest := sessions.Keys;
      while rest != {}
        invariant rest <= sessions.Keys
        invariant tickets == set t | t in sessions && t !in rest && sessions[t].matchId == m
        decreases |rest|
      {
        var t :| t in rest;
        rest := rest - {t};
        if sessions[t].matchId == m {
          tickets := tickets + {t};
        }
      }
    }

    method RegisterTicket(t: Ticket) returns (reason: string)
      requires Valid()
      modifies this
      ensures Valid() && Now() == Register(env, old(Now()), t)
      ensures reason == if RegisterFault(env, old(Now()), t) != "" then RegisterFault(env, old(Now()), t) else EnrolFault(env, old(Now()), t)
    {
      RegisterSound(env, Now(), t);
      hide Sound, EnvSound, Enrol, EnrolFault;
      reason := CheckTicket(t);
      if reason == "" {
        hide RegisterFault;
        reason := EnrolTicket(t);
      }
    }

    method CheckTicket(t: Ticket) returns (reason: string)
      ensures reason == RegisterFault(env, Now(), t)
    {
      hide SessionFor, TicketsOf, Seats;
      if t.matchId in results { return "match_retired"; }
      if t.matchId in cancelled { return "match_cancelled"; }
      if t.ticketId in sessions { return "ticket_replay"; }
      var fault := env.ticketFault(t);
      if fault != "" { return fault; }
      var replay := SessionExistsForPlayer(t.matchId, t.playerId);
      if replay { return "player_session_replay"; }
      var tickets := TicketsOfMatch(t.matchId);
      if |tickets| >= Seats(env, t.modeId) { return "match_full"; }
      if t.matchId in locked { return "boss_roster_locked"; }
      if t.matchId in pending && pending[t.matchId].modeId != t.modeId { return "boss_config_mode_mismatch"; }
      reason := "";
    }

    /** The match is found or created, then the player is added to it. */
    method EnrolTicket(t: Ticket) returns (reason: string)
      modifies this
      ensures reason == EnrolFault(env, old(Now()), t) && Now() == Enrol(env, old(Now()), t)
    {
      hide RulesFor, SimSteps.MayJoin, Seated, SimSteps.Start;
      var found := t.matchId in sims;
      var match_: Match;
      if found {
        match_ := sims[t.matchId];
        if match_.rules.modeId != t.modeId || match_.ruleset != t.ruleset {
          return "match_mode_ruleset_mismatch";
        }
      } else {
        var rules := RulesFor(env, t, if t.matchId in pending then pending[t.matchId].maxHp else 1000);
        match_ := Match(rules, t.ruleset, SimSteps.Start(rules));
      }
      pending := pending - {t.matchId};
      if !SimSteps.MayJoin(match_.rules, match_.state, t.playerId) {
        if match_.state.roster == [] {
          sims := sims - {t.matchId};
        }
        return "player_registration_rejected";
      }
      sessions := sessions[t.ticketId := Session(t.matchId, t.playerId, t.userId, t.modeId, t.ruleset)];
      sims := sims[t.matchId := Seated(match_, t)];
      reason := "";
    }

    // ---- Asking a simulation ----

    method Ask(m: string, step: Sim.Step) returns (reason: string)
      requires Valid() && Askable(step)
      modifies this
      ensures Valid() && reason == AskFault(old(Now()), m, step) && Now() == Simulate(old(Now()), m, step)
    {
      hide Sound, EnvSound, GuardFault, SimFault, Simulate, Askable;
      SimulateSound(env, Now(), m, step);
      reason := CheckAsk(m, step);
      PassedOn(Now(), m, step);
      if reason == "" {
        reason := RunStep(m, step);
      }
    }

    method CheckAsk(m: string, step: Sim.Step) returns (reason: string)
      ensures reason == GuardFault(Now(), m, step)
    {
      hide SessionFor;
      if m !in sims {
        return if m in results then "match_retired" else if m in cancelled then "match_cancelled" else "match_unknown";
      }
      if m in results {
        return "match_settled";
      }
      if Asker(step).Some? {
        var found := SessionExistsForPlayer(m, Asker(step).value);
        if !found {
          return "player_unknown";
        }
      }
      reason := "";
    }

    method RunStep(m: string, step: Sim.Step) returns (reason: string)
      requires Reaches(Now(), m, step)
      modifies this`sims, this`locked
      ensures reason == SimFault(old(sims)[m], step) && Now() == Simulate(old(Now()), m, step)
    {
      hide ReadyToLock, Sim.Do, SimFault, SessionFor, Locks;
      var match_ := sims[m];
      reason := SimFault(match_, step);
      var locks := Locks(match_, step);
      match_ := match_.(state := Sim.Do(match_.rules, match_.state, step));
      sims := sims[m := match_];
      if locks {
        UpdateBossRosterLock(m, match_);
      }
    }

    method UpdateBossRosterLock(m: string, simulation: Match)
      modifies this`locked
      ensures locked == if ReadyToLock(simulation) then old(locked) + {m} else old(locked)
    {
      if ReadyToLock(simulation) {
        locked := locked + {m};
      }
    }

    method AcceptInput(input: SimTypes.Input) returns (reason: string)
      requires Valid()
      modifies this
      ensures Valid() && reason == AskFault(old(Now()), input.matchId, Sim.SubmitInput(input))
      ensures Now() == Simulate(old(Now()), input.matchId, Sim.SubmitInput(input))
    {
      assert Askable(Sim.SubmitInput(input));
      hide *;
      reason := Ask(input.matchId, Sim.SubmitInput(input));
    }

    method AcceptModeAction(action: SimTypes.Action) returns (reason: string)
      requires Valid()
      modifies this
      ensures Valid() && reason == AskFault(old(Now()), action.matchId, Sim.SubmitAction(action))
      ensures Now() == Simulate(old(Now()), action.matchId, Sim.SubmitAction(action))
    {
      assert Askable(Sim.SubmitAction(action));
      hide *;
      reason := Ask(action.matchId, Sim.SubmitAction(action));
    }

    method TickMatch(m: string) returns (reason: string)
      requires Valid()
      modifies this
      ensures Valid() && reason == AskFault(old(Now()), m, Sim.Advance) && Now() == Simulate(old(Now()), m, Sim.Advance)
    {
      assert Askable(Sim.Advance);
      hide *;
      reason := Ask(m, Sim.Advance);
    }

    // ---- The end of a match ----

    method SubmitBattleResult(signed: Results.Signed, players: seq<string>) returns (outcome: Results.SubmitOutcome)
      requires Valid() && PlayersOf(Now(), signed.result.matchId, players)
      modifies this
      ensures Valid() && Now() == Submit(env, old(Now()), signed, players)
      ensures signed.result.matchId in old(sims) ==>
        outcome == Decision(env, old(sims)[signed.result.matchId], old(results), signed, players).0
      ensures signed.result.matchId !in old(sims) ==>
        outcome == Results.NotAccepted(ClosedReason(old(Now()), signed.result.matchId))
    {
      hide Sound, EnvSound, PlayersOf, Decision, Submit;
      SubmitSound(env, Now(), signed, players);
      var m := signed.result.matchId;
      if m !in sims {
        NothingSubmitted(env, Now(), signed, players);
        return Results.NotAccepted(
          if m in results then "match_retired" else if m in cancelled then "match_cancelled" else "match_unknown");
      }
      SubmitUnfold(env, Now(), signed, players);
      var decided := Decision(env, sims[m], results, signed, players);
      outcome, results := decided.0, decided.1;
    }

    method BuildSignedBattleResult(m: string, players: seq<string>) returns (outcome: Results.BuildOutcome)
      requires PlayersOf(Now(), m, players)
      ensures outcome == if m in sims then Results.Build(Facts(env, m, sims[m], players), env.release)
        else Results.NotBuilt(ClosedReason(Now(), m))
    {
      hide PlayersOf, Results.Build, Facts;
      if m !in sims {
        return Results.NotBuilt(
          if m in results then "match_retired" else if m in cancelled then "match_cancelled" else "match_unknown");
      }
      outcome := Results.Build(Facts(env, m, sims[m], players), env.release);
    }

    method CancelMatch(m: string) returns (reason: string)
      requires Valid()
      modifies this
      ensures Valid() && Now() == Cancel(old(Now()), m)
      ensures reason == "" <==> m in cancelled
    {
      CancelSound(env, Now(), m);
      CancelledHasNoResult(env, Now(), m);
      hide Sound, EnvSound, TicketsOf;
      if m in results {
        return "match_settled";
      }
      var wasCancelled := m in cancelled;
      var found := m in pending || m in sims;
      pending := pending - {m};
      var tickets := TicketsOfMatch(m);
      found := found || tickets != {};
      sessions := sessions - tickets;
      sims := sims - {m};
      locked := locked - {m};
      if !found {
        return if wasCancelled then "" else "match_unknown";
      }
      cancelled := cancelled + {m};
      reason := "";
    }

    method RetireMatch(m: string) returns (reason: string)
      requires Valid()
      modifies this
      ensures Valid() && Now() == Retire(old(Now()), m)
      ensures reason == if m in old(results) then "" else "match_not_settled"
    {
      RetireSound(env, Now(), m);
      hide Sound, EnvSound, TicketsOf;
      if m !in results {
        return "match_not_settled";
      }
      pending := pending - {m};
      locked := locked - {m};
      if m !in sims {
        return "";
      }
      var tickets := TicketsOfMatch(m);
      sessions := sessions - tickets;
      sims := sims - {m};
      reason := "";
    }
  }

  lemma PassedOn(s: Server, m: string, step: Sim.Step)
    requires Askable(step)
    ensures GuardFault(s, m, step) == "" <==> Reaches(s, m, step)
    ensures GuardFault(s, m, step) != "" ==> Simulate(s, m, step) == s
    ensures Reaches(s, m, step) ==> m in s.sims
  {
    hide SessionFor, WithSim;
  }

  lemma NothingSubmitted(env: Env, s: Server, signed: Results.Signed, players: seq<string>)
    requires signed.result.matchId !in s.sims
    ensures Submit(env, s, signed, players) == s
  {
    hide Decision;
  }

  lemma CancelledHasNoResult(env: Env, s: Server, m: string)
    requires Sound(env, s)
    ensures m in s.cancelled ==> m !in s.results
  {
    SoundParts(env, s);
    hide Sound, PendingApart, SessionsMatch, SimsSound, ResultsHold;
  }

  // ---- Building and submitting on the server ----

  lemma FactsAre(env: Env, m: string, match_: Match, players: seq<string>)
    ensures var f := Facts(env, m, match_, players); f.matchId == m && f.resultHash == env.hash(match_) && f.fixture == FixtureOf(env, match_)
  {
  }

  lemma HashOnRecord(env: Env, s: Server, m: string)
    requires Sound(env, s) && m in s.sims
    ensures m in s.results ==> s.results[m] == env.hash(s.sims[m])
  {
    SoundParts(env, s);
    hide Sound, CancelledApart, PendingApart, SessionsMatch, SimsSound;
  }

  lemma BuiltFor(m: Results.Match, release: Results.Release)
    requires Results.Build(m, release).Built?
    ensures Results.Build(m, release).signed.result.matchId == m.matchId
  {
    hide Results.BlockReason, Results.RewardJson;
  }

  /** The answers to a result submitted at hashes `before` and submitted again after that: refused, and
      nothing changed, when the match carries a forbidden word; else accepted and recorded, a duplicate if it
      was settled before, and a duplicate the second time. */
  ghost predicate Answered(carries: bool, before: map<string, string>, first: (Results.SubmitOutcome, map<string, string>),
                           again: (Results.SubmitOutcome, map<string, string>), m: string, hash: string, key: string)
  {
    if carries then first == (Results.NotAccepted("mode_result_mutation_forbidden"), before)
    else first == (Results.Accepted(key, m in before), before[m := hash]) && again == (Results.Accepted(key, true), first.1)
  }

  lemma BuiltResultIsAccepted(env: Env, s: Server, m: string, players: seq<string>)
    requires Sound(env, s) && m in s.sims && Agreement.Signs(env.release)
    requires var f := Facts(env, m, s.sims[m], players); Agreement.SoundMatch(f) && Results.Build(f, env.release).Built?
    ensures var f := Facts(env, m, s.sims[m], players);
      var signed := Results.Build(f, env.release).signed;
      var first := Decision(env, s.sims[m], s.results, signed, players);
      var again := Decision(env, s.sims[m], first.1, signed, players);
      Answered(Wording.Carries(f.fixture), s.results, first, again, m, f.resultHash, Submission.SettlementKey(f))
  {
    hide *;
    var f := Facts(env, m, s.sims[m], players);
    var signed := Results.Build(f, env.release).signed;
    FactsAre(env, m, s.sims[m], players);
    HashOnRecord(env, s, m);
    BuiltFor(f, env.release);
    Submission.BuilderAndVerifierAgree(f, s.results, env.release);
    DecisionIs(env, s.sims[m], s.results, signed, players);
    DecisionIs(env, s.sims[m], s.results[m := f.resultHash], signed, players);
    AnsweredIs(Wording.Carries(f.fixture), s.results, m, f.resultHash, Submission.SettlementKey(f));
  }

  lemma AnsweredIs(carries: bool, before: map<string, string>, m: string, hash: string, key: string)
    ensures carries ==> forall again :: Answered(carries, before, (Results.NotAccepted("mode_result_mutation_forbidden"), before), again, m, hash, key)
    ensures !carries ==>
      var after := before[m := hash];
      Answered(carries, before, (Results.Accepted(key, m in before), after), (Results.Accepted(key, true), after), m, hash, key)
  {
  }
}
