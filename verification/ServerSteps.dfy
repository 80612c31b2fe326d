/** The match lifecycle of src/server.cpp as steps on the server's maps: configured, active, settled,
    retired, cancelled; and what every step keeps. */
module ServerSteps {
  import opened Bytes
  import SimTypes
  import SimSteps
  import SimInvariants
  import Sim = Simulation
  import CardHand
  import CardEffects
  import Results = ResultAgreement
  import ResultFields
  import Snapshots
  import Text

  datatype BossConfig = BossConfig(modeId: string, instanceId: string, seasonId: string, phaseId: string, maxHp: nat, friendlyFire: string)

  datatype Ticket = Ticket(
    ticketId: string, matchId: string, playerId: string, userId: string, modeId: string, ruleset: string,
    handCards: seq<string>, deckCards: seq<string>, initialEnergy: real, serverSeed: SimTypes.ServerSeed)

  datatype Session = Session(matchId: string, playerId: string, userId: string, modeId: string, ruleset: string)

  datatype Match = Match(rules: SimTypes.Rules, ruleset: string, state: SimSteps.State)

  /** The server's configuration: who it is, how many it seats, its ticket check (the empty text for a good
      ticket), how a match plays, and of a match's result the hash and what the simulation here does not carry. */
  datatype Env = Env(
    serverId: string, nowMs: int, maxPlayers: nat, coop: string -> bool, ticketFault: Ticket -> string,
    catalog: CardHand.Catalog,
    effect: (seq<SimTypes.Bullet>, map<string, SimTypes.Player>, string, CardHand.Definition, nat) -> seq<SimTypes.Bullet>,
    drift: (seq<SimTypes.Bullet>, map<string, SimTypes.Player>, nat) -> seq<SimTypes.Bullet>,
    account: Match -> Snapshots.Account, hash: Match -> string, release: Results.Release)

  datatype Server = Server(
    sessions: map<string, Session>, sims: map<string, Match>, pending: map<string, BossConfig>,
    results: map<string, string>, cancelled: set<string>, locked: set<string>)

  const EMPTY: Server := Server(map[], map[], map[], map[], {}, {})

  const TICK_RATE: nat := 64

  // ---- Lookups ----

  ghost predicate SessionFor(sessions: map<string, Session>, matchId: string, playerId: string) {
    exists t :: t in sessions && sessions[t].matchId == matchId && sessions[t].playerId == playerId
  }

  function TicketsOf(sessions: map<string, Session>, matchId: string): set<string> {
    set t | t in sessions && sessions[t].matchId == matchId
  }

  /** ClosedMatchReason. */
  function ClosedReason(s: Server, matchId: string): string {
    if matchId in s.results then "match_retired" else if matchId in s.cancelled then "match_cancelled" else "match_unknown"
  }

  function AtLeast(a: nat, b: nat): nat {
    if a < b then b else a
  }

  function AtMost(a: nat, b: nat): nat {
    if a < b then a else b
  }

  /** MatchMaxPlayersForMode. */
  function Seats(env: Env, modeId: string): nat {
    if env.coop(modeId) then AtMost(4, AtLeast(2, env.maxPlayers))
    else if SimTypes.IsBossMode(modeId) then AtMost(8, AtLeast(4, env.maxPlayers))
    else env.maxPlayers
  }

  datatype Status = Unknown | PendingBossConfig | Active | Settled | Retired | Cancelled

  /** MatchLifecycleStatus. */
  function StatusOf(s: Server, matchId: string): Status {
    if matchId in s.cancelled then Cancelled
    else if matchId in s.sims && matchId in s.results then Settled
    else if matchId in s.sims then Active
    else if matchId in s.results then Retired
    else if matchId in s.pending then PendingBossConfig
    else Unknown
  }

  // ---- Steps ----

  predicate IdentityChar(c: char) {
    SimTypes.AuditChar(c) || c == ':'
  }

  predicate OptionalIdentity(s: string) {
    |s| <= 128 && forall i :: 0 <= i < |s| ==> IdentityChar(s[i])
  }

  function ConfigureFault(s: Server, matchId: string, c: BossConfig): string {
    if matchId == "" then "match_id_missing"
    else if !SimTypes.IsBossMode(c.modeId) then "boss_mode_required"
    else if matchId in s.sims then "match_already_created"
    else if matchId in s.results then "match_retired"
    else if matchId in s.cancelled then "match_cancelled"
    else if matchId in s.pending then "boss_config_already_pending"
    else if !OptionalIdentity(c.instanceId) then "boss_instance_id_invalid"
    else if !OptionalIdentity(c.seasonId) then "boss_season_id_invalid"
    else if !OptionalIdentity(c.phaseId) then "boss_phase_id_invalid"
    else ""
  }

  function Normal(c: BossConfig): BossConfig {
    c.(maxHp := if c.maxHp == 0 then 1 else c.maxHp,
       friendlyFire := if c.friendlyFire == "player_bullets_only" || c.friendlyFire == "all_friendly_fire" then c.friendlyFire else "disabled")
  }

  function Configure(s: Server, matchId: string, c: BossConfig): Server {
    if ConfigureFault(s, matchId, c) != "" then s else s.(pending := s.pending[matchId := Normal(c)])
  }

  /** RegisterTicket up to the seating of the player. */
  ghost function RegisterFault(env: Env, s: Server, t: Ticket): string {
    if t.matchId in s.results then "match_retired"
    else if t.matchId in s.cancelled then "match_cancelled"
    else if t.ticketId in s.sessions then "ticket_replay"
    else if env.ticketFault(t) != "" then env.ticketFault(t)
    else if SessionFor(s.sessions, t.matchId, t.playerId) then "player_session_replay"
    else if |TicketsOf(s.sessions, t.matchId)| >= Seats(env, t.modeId) then "match_full"
    else if t.matchId in s.locked then "boss_roster_locked"
    else if t.matchId in s.pending && s.pending[t.matchId].modeId != t.modeId then "boss_config_mode_mismatch"
    else ""
  }

  function RulesFor(env: Env, t: Ticket, bossMaxHp: nat): SimTypes.Rules {
    SimTypes.Rules(t.matchId, t.modeId, 32, 8, TICK_RATE * 3, 128, 64, 4096, if bossMaxHp == 0 then 1 else bossMaxHp, 30, 256,
                   env.catalog, env.effect, env.drift)
  }

  /** The match a ticket joins: the running one, or a new one under the pending configuration. */
  function Joined(env: Env, s: Server, t: Ticket): Match {
    if t.matchId in s.sims then s.sims[t.matchId] else
    var rules := RulesFor(env, t, if t.matchId in s.pending then s.pending[t.matchId].maxHp else 1000);
    Match(rules, t.ruleset, SimSteps.Start(rules))
  }

  function SpotX(index: nat): int {
    if index == 0 then -20000 else if index == 1 then 20000 else index * 10000 - 30000
  }

  function Seated(m: Match, t: Ticket): Match {
    var joined := SimSteps.AddPlayer(m.rules, m.state, t.playerId, SpotX(|m.state.roster|), 0);
    m.(state := SimSteps.SeedHand(joined, t.playerId, t.serverSeed, t.handCards, t.initialEnergy, t.deckCards))
  }

  function EnrolFault(env: Env, s: Server, t: Ticket): string {
    var m := Joined(env, s, t);
    if t.matchId in s.sims && (m.rules.modeId != t.modeId || m.ruleset != t.ruleset) then "match_mode_ruleset_mismatch"
    else if !SimSteps.MayJoin(m.rules, m.state, t.playerId) then "player_registration_rejected"
    else ""
  }

  /** The seating: a match is created with its first player and uses up the pending configuration. A simulation
      that rejects the player would leave it used up; none does, after the checks (`Registrations`). */
  function Enrol(env: Env, s: Server, t: Ticket): Server {
    var fault := EnrolFault(env, s, t);
    if fault == "match_mode_ruleset_mismatch" then s
    else if fault != "" then
      s.(pending := s.pending - {t.matchId}, sims := if Joined(env, s, t).state.roster == [] then s.sims - {t.matchId} else s.sims)
    else
      s.(sessions := s.sessions[t.ticketId := Session(t.matchId, t.playerId, t.userId, t.modeId, t.ruleset)],
         sims := s.sims[t.matchId := Seated(Joined(env, s, t), t)], pending := s.pending - {t.matchId})
  }

  ghost function Register(env: Env, s: Server, t: Ticket): Server {
    if RegisterFault(env, s, t) != "" then s else Enrol(env, s, t)
  }

  /** BossRosterReadyToLock. */
  predicate ReadyToLock(m: Match) {
    SimTypes.BossMode(m.rules) && (m.state.boss.started || SimSteps.ReadyToStart(m.rules, m.state, m.state.tick + 1))
  }

  ghost function WithSim(s: Server, matchId: string, m: Match, locks: bool): Server {
    s.(sims := s.sims[matchId := m], locked := if locks && ReadyToLock(m) then s.locked + {matchId} else s.locked)
  }

  /** Who must have a session for a step: the player of an input or mode action. */
  function Asker(step: Sim.Step): Option<string> {
    match step
    case SubmitInput(input) => Some(input.playerId)
    case SubmitAction(action) => Some(action.playerId)
    case _ => None
  }

  /** The simulation steps a client or the host can ask for; players join only by ticket. */
  predicate Askable(step: Sim.Step) {
    step.Grant? || step.SetConnected? || step.SubmitInput? || step.SubmitAction? || step.Advance?
  }

  ghost predicate Reaches(s: Server, matchId: string, step: Sim.Step) {
    && matchId in s.sims && matchId !in s.results && Askable(step)
    && (Asker(step).Some? ==> SessionFor(s.sessions, matchId, Asker(step).value))
  }

  /** Steps after which the roster lock is looked at: a tick, and a mode action or connection that went
      through. */
  predicate Locks(m: Match, step: Sim.Step) {
    match step
    case SubmitAction(action) => SimSteps.ActionFault(m.rules, m.state, action) == ""
    case SetConnected(id, connected) => id in m.state.players
    case Advance => true
    case _ => false
  }

  /** Why the server itself refuses a step; empty when it passes it on. */
  ghost function GuardFault(s: Server, matchId: string, step: Sim.Step): string {
    if matchId !in s.sims then ClosedReason(s, matchId)
    else if matchId in s.results then "match_settled"
    else if Asker(step).Some? && !SessionFor(s.sessions, matchId, Asker(step).value) then "player_unknown"
    else ""
  }

  ghost function AskFault(s: Server, matchId: string, step: Sim.Step): string {
    if GuardFault(s, matchId, step) != "" then GuardFault(s, matchId, step)
    else if matchId in s.sims then SimFault(s.sims[matchId], step)
    else ""
  }

  function SimFault(m: Match, step: Sim.Step): string {
    match step
    case SubmitInput(input) => SimSteps.InputFault(m.rules, m.state, input)
    case SubmitAction(action) => SimSteps.ActionFault(m.rules, m.state, action)
    case SetConnected(id, connected) => if id in m.state.players then "" else "player_unknown"
    case _ => ""
  }

  /** AcceptInput, AcceptModeAction, SetPlayerConnected, TickMatch and ConfigureTransferableCard. */
  ghost function Simulate(s: Server, matchId: string, step: Sim.Step): Server {
    if !Reaches(s, matchId, step) then s else
    var m := s.sims[matchId];
    WithSim(s, matchId, m.(state := Sim.Do(m.rules, m.state, step)), Locks(m, step))
  }

  /** The players of a match's sessions, in order. */
  ghost predicate PlayersOf(s: Server, matchId: string, players: seq<string>) {
    && CardEffects.Sorted(players, CardEffects.Leq)
    && (forall p :: p in players <==> SessionFor(s.sessions, matchId, p))
    && forall i, j :: 0 <= i < j < |players| ==> players[i] != players[j]
  }

  /** DevReplayIdFromReplaySummary. */
  function ReplayId(matchId: string, m: Match): string {
    "battle-replay:" + matchId + ":" + Text.Dec(m.state.tick)
  }

  function FixtureOf(env: Env, m: Match): ResultFields.Fixture {
    Snapshots.FixtureOf(m.rules, m.state, env.account(m))
  }

  function Facts(env: Env, matchId: string, m: Match, players: seq<string>): Results.Match {
    Results.Match(matchId, m.ruleset, FixtureOf(env, m), env.hash(m), ReplayId(matchId, m), players, env.serverId, env.nowMs)
  }

  /** What a running match answers to a submitted result, and the results after it. */
  function Decision(env: Env, m: Match, results: map<string, string>, signed: Results.Signed, players: seq<string>)
    : (Results.SubmitOutcome, map<string, string>)
  {
    hide *;
    Results.Submit(Facts(env, signed.result.matchId, m, players), results, signed, env.release)
  }

  /** SubmitBattleResult; `players` are those of the match's sessions. */
  function Submit(env: Env, s: Server, signed: Results.Signed, players: seq<string>): Server {
    hide *;
    var id := signed.result.matchId;
    if id !in s.sims then s else s.(results := Decision(env, s.sims[id], s.results, signed, players).1)
  }

  function Cancel(s: Server, matchId: string): Server {
    if matchId in s.results then s else
    var tickets := TicketsOf(s.sessions, matchId);
    var found := matchId in s.pending || tickets != {} || matchId in s.sims;
    s.(pending := s.pending - {matchId}, sessions := s.sessions - tickets, sims := s.sims - {matchId}, locked := s.locked - {matchId},
       cancelled := if found then s.cancelled + {matchId} else s.cancelled)
  }

  function Retire(s: Server, matchId: string): Server {
    if matchId !in s.results then s else
    var freed := s.(pending := s.pending - {matchId}, locked := s.locked - {matchId});
    if matchId !in s.sims then freed
    else freed.(sessions := s.sessions - TicketsOf(s.sessions, matchId), sims := s.sims - {matchId})
  }

  // ---- The invariant ----

  ghost predicate CancelledApart(s: Server) {
    && (forall m :: m in s.cancelled ==> m !in s.sims && m !in s.pending && m !in s.results)
    && forall t :: t in s.sessions ==> s.sessions[t].matchId !in s.cancelled
  }

  ghost predicate PendingApart(s: Server) {
    forall m :: m in s.pending ==> m !in s.sims && m !in s.results && s.pending[m].maxHp > 0
  }

  predicate SamePlace(a: Session, b: Session) {
    a.matchId == b.matchId && a.playerId == b.playerId
  }

  /** Every session is of a running match that simulates its player. */
  ghost predicate SessionsPlay(s: Server) {
    forall t :: t in s.sessions ==>
      s.sessions[t].matchId in s.sims && s.sessions[t].playerId in s.sims[s.sessions[t].matchId].state.players
  }

  ghost predicate PlayersHaveSessions(s: Server) {
    forall m, p :: m in s.sims && p in s.sims[m].state.players ==> SessionFor(s.sessions, m, p)
  }

  ghost predicate OneSessionEach(s: Server) {
    forall t, u :: t in s.sessions && u in s.sessions && SamePlace(s.sessions[t], s.sessions[u]) ==> t == u
  }

  /** Sessions and simulated players correspond, one to one. */
  ghost predicate SessionsMatch(s: Server) {
    SessionsPlay(s) && PlayersHaveSessions(s) && OneSessionEach(s)
  }

  ghost predicate SimsSound(s: Server) {
    forall m :: m in s.sims ==> SimInvariants.Inv(s.sims[m].rules, s.sims[m].state)
  }

  /** A settled match's recorded hash is the hash of the simulation it still has. */
  ghost predicate ResultsHold(env: Env, s: Server) {
    forall m :: m in s.results && m in s.sims ==> s.results[m] == env.hash(s.sims[m])
  }

  ghost predicate Sound(env: Env, s: Server) {
    CancelledApart(s) && PendingApart(s) && SessionsMatch(s) && SimsSound(s) && ResultsHold(env, s)
  }

  lemma EmptySound(env: Env)
    ensures Sound(env, EMPTY)
  {
  }
}
