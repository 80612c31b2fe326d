/** The boss configurations of src/server.cpp: a match is played with the mode and the hit points it was configured
    with, whatever comes between. */
module Configurations {
  import opened ServerSteps
  import opened ServerInvariants
  import SimTypes
  import SimSteps
  import SimInvariants
  import RosterLocks
  import Registrations
  import SessionNames
  import Sim = Simulation

  /** Cancelled, or settled and retired. */
  predicate Over(s: Server, id: string) {
    id in s.cancelled || (id in s.results && id !in s.sims)
  }

  predicate Waits(s: Server, id: string, modeId: string, maxHp: nat) {
    id in s.pending && s.pending[id].modeId == modeId && s.pending[id].maxHp == maxHp
  }

  predicate Runs(s: Server, id: string, modeId: string, maxHp: nat) {
    id in s.sims && s.sims[id].rules.modeId == modeId && s.sims[id].rules.bossMaxHp == maxHp
  }

  predicate Holds(s: Server, id: string, modeId: string, maxHp: nat) {
    Over(s, id) || Waits(s, id, modeId, maxHp) || Runs(s, id, modeId, maxHp)
  }

  // ---- Every command ----

  lemma JoinedAs(env: Env, s: Server, t: Ticket)
    ensures var m := Joined(env, s, t);
      if t.matchId in s.sims then m == s.sims[t.matchId]
      else && m.rules.modeId == t.modeId && m.ruleset == t.ruleset
           && m.rules.bossMaxHp == (if t.matchId !in s.pending then 1000 else if s.pending[t.matchId].maxHp == 0 then 1 else s.pending[t.matchId].maxHp)
  {
    hide SimSteps.Start;
  }

  lemma SeatedRules(m: Match, t: Ticket)
    ensures Seated(m, t).rules == m.rules && Seated(m, t).ruleset == m.ruleset
  {
  }

  lemma AdmitHolds(env: Env, s: Server, t: Ticket, id: string, modeId: string, maxHp: nat)
    requires Sound(env, s) && SessionNames.ChecksTokens(env) && Holds(s, id, modeId, maxHp)
    ensures Holds(Register(env, s, t), id, modeId, maxHp)
  {
    hide Sound, SessionNames.ChecksTokens, RegisterFault, EnrolFault, Register, Joined, Seated;
    if RegisterFault(env, s, t) != "" || EnrolFault(env, s, t) != "" {
      Registrations.RefusedChangesNothing(env, s, t);
    } else {
      Registrations.RegisterIs(env, s, t);
      FreeTicket(env, s, t);
      ConfiguredMode(env, s, t);
      PendingHere(env, s, t.matchId);
      JoinedAs(env, s, t);
      SeatedRules(Joined(env, s, t), t);
    }
  }

  lemma ConfiguredMode(env: Env, s: Server, t: Ticket)
    requires RegisterFault(env, s, t) == ""
    ensures t.matchId in s.pending ==> s.pending[t.matchId].modeId == t.modeId
  {
    hide SessionFor, TicketsOf, Seats;
  }

  lemma PendingHere(env: Env, s: Server, id: string)
    requires Sound(env, s)
    ensures id in s.pending ==> id !in s.sims && s.pending[id].maxHp > 0
  {
    SoundParts(env, s);
    hide Sound, CancelledApart, SessionsMatch, SimsSound, ResultsHold;
  }

  lemma AskHolds(s: Server, m: string, step: Sim.Step, id: string, modeId: string, maxHp: nat)
    requires Holds(s, id, modeId, maxHp)
    ensures Holds(Simulate(s, m, step), id, modeId, maxHp)
  {
    hide ReadyToLock, Locks, Sim.Do;
    if Reaches(s, m, step) {
      RosterLocks.AskableHere(s, m, step);
      RosterLocks.AskIs(s, m, step);
      hide Reaches, Simulate;
    } else {
      hide Reaches;
    }
  }

  lemma CommandHolds(env: Env, s: Server, c: Command, id: string, modeId: string, maxHp: nat)
    requires Sound(env, s) && EnvSound(env) && SessionNames.ChecksTokens(env) && Holds(s, id, modeId, maxHp)
    ensures Holds(Execute(env, s, c), id, modeId, maxHp)
  {
    hide Sound, EnvSound, SessionNames.ChecksTokens, Register, Simulate, Submit, Normal, TicketsOf, OptionalIdentity;
    match c
    case SetUp(m, boss) =>
    case Admit(ticket) => AdmitHolds(env, s, ticket, id, modeId, maxHp);
    case Ask(m, step) => AskHolds(s, m, step, id, modeId, maxHp);
    case Hand(signed, players) => SubmitResults(env, s, signed, players);
    case CallOff(m) =>
    case Close(m) =>
  }

  lemma {:induction false} RunHolds(env: Env, s: Server, commands: seq<Command>, id: string, modeId: string, maxHp: nat)
    requires Sound(env, s) && EnvSound(env) && SessionNames.ChecksTokens(env) && Holds(s, id, modeId, maxHp)
    ensures Holds(ExecuteAll(env, s, commands), id, modeId, maxHp)
    decreases |commands|
  {
    hide Sound, EnvSound, SessionNames.ChecksTokens, Execute, Holds;
    if commands != [] {
      var front, c := commands[..|commands| - 1], commands[|commands| - 1];
      RunHolds(env, s, front, id, modeId, maxHp);
      RunsSound(env, s, front);
      CommandHolds(env, ExecuteAll(env, s, front), c, id, modeId, maxHp);
    }
  }

  function HitPoints(c: BossConfig): nat {
    if c.maxHp == 0 then 1 else c.maxHp
  }

  ghost predicate Configurable(s: Server, id: string, c: BossConfig) {
    ConfigureFault(s, id, c) == ""
  }

  lemma SetUpWaits(env: Env, s: Server, id: string, c: BossConfig)
    requires Configurable(s, id, c)
    ensures Waits(Execute(env, s, SetUp(id, c)), id, c.modeId, HitPoints(c))
  {
    hide ConfigureFault, Register, Simulate, Submit, Cancel, Retire;
  }

  /** The state after a configuration and these commands. */
  ghost function Since(env: Env, s: Server, id: string, c: BossConfig, after: seq<Command>): Server {
    hide *;
    ExecuteAll(env, Execute(env, s, SetUp(id, c)), after)
  }

  lemma SinceIs(env: Env, s: Server, id: string, c: BossConfig, after: seq<Command>)
    ensures Since(env, s, id, c, after) == ExecuteAll(env, Execute(env, s, SetUp(id, c)), after)
  {
    hide Execute, ExecuteAll;
  }

  ghost predicate PlayedAs(u: Server, id: string, modeId: string, maxHp: nat) {
    Runs(u, id, modeId, maxHp) && u.sims[id].state.boss.maxHp == maxHp
  }

  lemma HitPointsAt(env: Env, s: Server, id: string)
    requires Sound(env, s) && id in s.sims && SimTypes.BossMode(s.sims[id].rules)
    ensures s.sims[id].state.boss.maxHp == s.sims[id].rules.bossMaxHp
  {
    RosterLocks.InvAt(env, s, id);
    SimInvariants.InvParts(s.sims[id].rules, s.sims[id].state);
    hide Sound, SimInvariants.Inv, SimInvariants.RosterSound, SimInvariants.TransfersSound, SimInvariants.InputsSound,
      SimInvariants.QueueSound, SimInvariants.SequencesSound, SimInvariants.AppliedSound;
  }

  /** Whatever came before an accepted configuration and whatever comes after it: the match waits with it, or is
      played in its mode against a boss of its hit points, or is over for good. */
  lemma ConfiguredIsPlayed(env: Env, before: seq<Command>, id: string, c: BossConfig, after: seq<Command>)
    requires EnvSound(env) && SessionNames.ChecksTokens(env)
    requires Configurable(ExecuteAll(env, EMPTY, before), id, c)
    ensures var u := Since(env, ExecuteAll(env, EMPTY, before), id, c, after);
      Over(u, id) || Waits(u, id, c.modeId, HitPoints(c)) || PlayedAs(u, id, c.modeId, HitPoints(c))
  {
    hide *;
    var s := ExecuteAll(env, EMPTY, before);
    var t := Execute(env, s, SetUp(id, c));
    EmptySound(env);
    RunsSound(env, EMPTY, before);
    CommandSound(env, s, SetUp(id, c));
    SetUpWaits(env, s, id, c);
    WaitsHolds(t, id, c.modeId, HitPoints(c));
    RunHolds(env, t, after, id, c.modeId, HitPoints(c));
    RunsSound(env, t, after);
    ConfiguredBoss(s, id, c);
    SinceIs(env, s, id, c, after);
    HoldsPlayed(env, ExecuteAll(env, t, after), id, c.modeId, HitPoints(c));
  }

  lemma ConfiguredBoss(s: Server, id: string, c: BossConfig)
    requires Configurable(s, id, c)
    ensures SimTypes.IsBossMode(c.modeId)
  {
    hide SimTypes.IsBossMode, OptionalIdentity;
  }

  lemma WaitsHolds(s: Server, id: string, modeId: string, maxHp: nat)
    requires Waits(s, id, modeId, maxHp)
    ensures Holds(s, id, modeId, maxHp)
  {
    hide Waits;
  }

  lemma HoldsPlayed(env: Env, u: Server, id: string, modeId: string, maxHp: nat)
    requires Sound(env, u) && Holds(u, id, modeId, maxHp) && SimTypes.IsBossMode(modeId)
    ensures Over(u, id) || Waits(u, id, modeId, maxHp) || PlayedAs(u, id, modeId, maxHp)
  {
    hide Sound, Over, Waits, SimTypes.IsBossMode;
    if Runs(u, id, modeId, maxHp) {
      HitPointsAt(env, u, id);
    }
  }
}
