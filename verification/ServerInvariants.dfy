/** What every step of the server keeps, over whole runs. */
module ServerInvariants {
  import opened ServerSteps
  import SimTypes
  import SimSteps
  import SimInvariants
  import Sim = Simulation
  import Results = ResultAgreement
  import CardEffects

  /** The hash of a summary is never empty. */
  ghost predicate EnvSound(env: Env) {
    forall m: Match :: env.hash(m) != ""
  }

  // ---- Players of a simulation ----

  ghost predicate SameIds(s: SimSteps.State, t: SimSteps.State) {
    forall id :: id in t.players <==> id in s.players
  }

  lemma SameIdsOf(s: SimSteps.State, t: SimSteps.State)
    requires SimInvariants.SamePlayers(s, t)
    ensures SameIds(s, t)
  {
  }

  lemma SameIdsTrans(s: SimSteps.State, t: SimSteps.State, u: SimSteps.State)
    requires SameIds(s, t) && SameIds(t, u)
    ensures SameIds(s, u)
  {
  }

  lemma TickKeepsIds(rules: SimTypes.Rules, s: SimSteps.State)
    requires SimInvariants.Inv(rules, s)
    ensures SameIds(s, SimSteps.Tick(rules, s))
  {
    if !SimSteps.Defeated(rules, s) {
      hide *;
      var t := s.tick + 1;
      var m := SimSteps.InputsTick(rules, s, t);
      var u := SimSteps.ActionsTick(rules, m, t);
      SimInvariants.InvParts(rules, s);
      SimInvariants.TickParts(rules, s);
      SimInvariants.InputsTickBooks(rules, s, t);
      SimInvariants.ActionsTickBooks(rules, m, t);
      SimInvariants.FinishKeeps(rules, u, t);
      SameIdsOf(s, m);
      SameIdsOf(m, u);
      SameIdsTrans(s, m, u);
      SameIdsLast(s, u, SimSteps.Tick(rules, s));
    }
  }

  lemma SameIdsLast(s: SimSteps.State, u: SimSteps.State, v: SimSteps.State)
    requires SameIds(s, u) && v.players == u.players
    ensures SameIds(s, v)
  {
  }

  lemma InputKeepsIds(rules: SimTypes.Rules, s: SimSteps.State, input: SimTypes.Input)
    ensures SameIds(s, SimSteps.AcceptInput(rules, s, input))
  {
    if SimSteps.InputFault(rules, s, input) == "" {
      SimInvariants.ValidInput(rules, s, input);
    }
    hide SimSteps.InputFault;
  }

  lemma ActionKeepsIds(rules: SimTypes.Rules, s: SimSteps.State, a: SimTypes.Action)
    ensures SameIds(s, SimSteps.AcceptAction(rules, s, a))
  {
    if SimSteps.ActionFault(rules, s, a) == "" {
      SimSteps.AcceptedFacts(rules, s, a);
    }
    hide SimSteps.ActionFault;
  }

  lemma ConnectKeepsIds(rules: SimTypes.Rules, s: SimSteps.State, id: string, connected: bool)
    ensures SameIds(s, Sim.Do(rules, s, Sim.SetConnected(id, connected)))
  {
    if id in s.players {
      SimInvariants.ConnectBooks(rules, s, id, connected);
      hide SimSteps.Connect;
    }
  }

  /** No step but joining changes who is in a match. */
  lemma StepKeepsIds(rules: SimTypes.Rules, s: SimSteps.State, step: Sim.Step)
    requires SimInvariants.Inv(rules, s) && Askable(step)
    ensures SameIds(s, Sim.Do(rules, s, step))
  {
    hide SimInvariants.Inv, SimSteps.Tick, SimSteps.AcceptInput, SimSteps.AcceptAction, SimSteps.Connect, SimTypes.AuditToken;
    match step {
      case Advance => TickKeepsIds(rules, s);
      case SetConnected(id, connected) => ConnectKeepsIds(rules, s, id, connected);
      case SubmitInput(input) => InputKeepsIds(rules, s, input);
      case SubmitAction(action) => ActionKeepsIds(rules, s, action);
      case Grant(card, terms) =>
    }
  }

  lemma SeatedPlayers(m: Match, t: Ticket)
    requires SimInvariants.Inv(m.rules, m.state) && SimSteps.MayJoin(m.rules, m.state, t.playerId)
    ensures SimInvariants.Inv(m.rules, Seated(m, t).state) && Seated(m, t).rules == m.rules
    ensures forall id :: id in Seated(m, t).state.players <==> id in m.state.players || id == t.playerId
  {
    var x := SpotX(|m.state.roster|);
    var joined := SimSteps.AddPlayer(m.rules, m.state, t.playerId, x, 0);
    Sim.AddPlayerKeepsInv(m.rules, m.state, t.playerId, x, 0);
    SimInvariants.SeedKeepsInv(m.rules, joined, t.playerId, t.serverSeed, t.handCards, t.initialEnergy, t.deckCards);
    hide SimInvariants.Inv, SimTypes.AuditToken, SimSteps.NewPlayer, CardEffects.Insert, SimInvariants.EdgesKept;
  }

  lemma JoinedSound(env: Env, s: Server, t: Ticket)
    requires SimsSound(s) && PendingApart(s)
    ensures SimInvariants.Inv(Joined(env, s, t).rules, Joined(env, s, t).state)
    ensures t.matchId !in s.sims ==> Joined(env, s, t).state.players == map[] && Joined(env, s, t).state.roster == []
  {
    hide SimInvariants.Inv;
    if t.matchId !in s.sims {
      SimInvariants.StartsSound(Joined(env, s, t).rules);
    }
  }

  // ---- Registering ----

  lemma ConfigureSound(env: Env, s: Server, matchId: string, c: BossConfig)
    requires Sound(env, s)
    ensures Sound(env, Configure(s, matchId, c))
  {
    hide SimInvariants.Inv, OptionalIdentity, SimTypes.IsBossMode;
  }

  lemma RegisteredApart(env: Env, s: Server, t: Ticket)
    requires CancelledApart(s) && PendingApart(s) && RegisterFault(env, s, t) == ""
    ensures CancelledApart(Enrol(env, s, t)) && PendingApart(Enrol(env, s, t))
  {
    hide Seated, Joined, SimSteps.MayJoin, SessionFor, TicketsOf, Seats;
  }

  lemma MayJoinNow(env: Env, s: Server, t: Ticket)
    requires EnrolFault(env, s, t) == ""
    ensures SimSteps.MayJoin(Joined(env, s, t).rules, Joined(env, s, t).state, t.playerId)
  {
    hide SimSteps.MayJoin, Joined;
  }

  lemma EnrolSims(env: Env, s: Server, t: Ticket)
    ensures var u, m := Enrol(env, s, t), Joined(env, s, t);
      if EnrolFault(env, s, t) == "" then u.sims == s.sims[t.matchId := Seated(m, t)]
      else u.sims == s.sims || u.sims == s.sims - {t.matchId}
  {
    hide Joined, Seated, EnrolFault;
  }

  lemma SimsAdded(s: Server, u: Server, matchId: string, m: Match)
    requires SimsSound(s) && u.sims == s.sims[matchId := m] && SimInvariants.Inv(m.rules, m.state)
    ensures SimsSound(u)
  {
    hide SimInvariants.Inv;
  }

  lemma RegisteredSims(env: Env, s: Server, t: Ticket)
    requires SimsSound(s) && PendingApart(s)
    ensures SimsSound(Enrol(env, s, t))
  {
    hide SimInvariants.Inv, Seated, Joined, PendingApart, EnrolFault, SimsSound, Enrol;
    EnrolSims(env, s, t);
    if EnrolFault(env, s, t) == "" {
      JoinedSound(env, s, t);
      MayJoinNow(env, s, t);
      SeatedPlayers(Joined(env, s, t), t);
      SimsAdded(s, Enrol(env, s, t), t.matchId, Seated(Joined(env, s, t), t));
    } else if Enrol(env, s, t).sims == s.sims {
      SameSims(s, Enrol(env, s, t));
    } else {
      SimsWithout(s, Enrol(env, s, t), t.matchId);
    }
  }

  lemma SameSims(s: Server, u: Server)
    requires SimsSound(s) && u.sims == s.sims
    ensures SimsSound(u)
  {
    hide SimInvariants.Inv;
  }

  lemma RegisteredResults(env: Env, s: Server, t: Ticket)
    requires ResultsHold(env, s) && RegisterFault(env, s, t) == ""
    ensures ResultsHold(env, Enrol(env, s, t))
  {
    hide Seated, Joined, SimSteps.MayJoin, SessionFor, TicketsOf, Seats;
  }

  /** `sims` seats the ticket's player beside those already there. */
  ghost predicate Seats1(s: Server, sims: map<string, Match>, t: Ticket) {
    && (forall m :: m in sims <==> m in s.sims || m == t.matchId)
    && (forall m :: m in s.sims && m != t.matchId ==> sims[m] == s.sims[m])
    && forall id :: id in sims[t.matchId].state.players <==>
         (t.matchId in s.sims && id in s.sims[t.matchId].state.players) || id == t.playerId
  }

  function SessionOf(t: Ticket): Session {
    Session(t.matchId, t.playerId, t.userId, t.modeId, t.ruleset)
  }

  lemma NewSession(s: Server, u: Server, t: Ticket)
    requires SessionsMatch(s) && t.ticketId !in s.sessions && !SessionFor(s.sessions, t.matchId, t.playerId)
    requires Seats1(s, u.sims, t) && u.sessions == s.sessions[t.ticketId := SessionOf(t)]
    ensures SessionsMatch(u)
  {
    NewSessionPlays(s, u, t);
    NewPlayerHasSession(s, u, t);
    NewSessionUnique(s, u, t);
    hide SessionsPlay, PlayersHaveSessions, OneSessionEach;
  }

  lemma NewSessionPlays(s: Server, u: Server, t: Ticket)
    requires SessionsPlay(s) && Seats1(s, u.sims, t) && u.sessions == s.sessions[t.ticketId := SessionOf(t)]
    ensures SessionsPlay(u)
  {
  }

  lemma NewPlayerHasSession(s: Server, u: Server, t: Ticket)
    requires PlayersHaveSessions(s) && Seats1(s, u.sims, t) && u.sessions == s.sessions[t.ticketId := SessionOf(t)]
    requires t.ticketId !in s.sessions
    ensures PlayersHaveSessions(u)
  {
    forall m, p | m in u.sims && p in u.sims[m].state.players
      ensures SessionFor(u.sessions, m, p)
    {
      if m == t.matchId && p == t.playerId {
        assert u.sessions[t.ticketId].matchId == m;
      } else {
        assert SessionFor(s.sessions, m, p);
        SessionStays(s.sessions, t.ticketId, SessionOf(t), m, p);
      }
    }
  }

  lemma NewSessionUnique(s: Server, u: Server, t: Ticket)
    requires OneSessionEach(s) && u.sessions == s.sessions[t.ticketId := SessionOf(t)]
    requires !SessionFor(s.sessions, t.matchId, t.playerId)
    ensures OneSessionEach(u)
  {
  }

  lemma SessionStays(sessions: map<string, Session>, ticketId: string, added: Session, m: string, p: string)
    requires SessionFor(sessions, m, p) && ticketId !in sessions
    ensures SessionFor(sessions[ticketId := added], m, p)
  {
    var u :| u in sessions && sessions[u].matchId == m && sessions[u].playerId == p;
    assert u in sessions[ticketId := added] && sessions[ticketId := added][u].matchId == m;
  }

  lemma EmptyMatchHasNoSession(s: Server, matchId: string)
    requires SessionsPlay(s) && SimsSound(s) && matchId in s.sims && s.sims[matchId].state.roster == []
    ensures TicketsOf(s.sessions, matchId) == {}
  {
    SimInvariants.InvParts(s.sims[matchId].rules, s.sims[matchId].state);
    hide SimInvariants.Inv;
  }

  /** Removing a match with all its sessions leaves the others as they were. */
  lemma WithoutMatch(s: Server, u: Server, matchId: string)
    requires SessionsMatch(s) && u.sims == s.sims - {matchId} && u.sessions == s.sessions - TicketsOf(s.sessions, matchId)
    ensures SessionsMatch(u)
  {
    OthersHaveSessions(s, u, matchId);
    hide PlayersHaveSessions;
  }

  lemma OthersHaveSessions(s: Server, u: Server, matchId: string)
    requires PlayersHaveSessions(s) && u.sims == s.sims - {matchId} && u.sessions == s.sessions - TicketsOf(s.sessions, matchId)
    ensures PlayersHaveSessions(u)
  {
    forall m, p | m in u.sims && p in u.sims[m].state.players
      ensures SessionFor(u.sessions, m, p)
    {
      assert SessionFor(s.sessions, m, p);
      var t :| t in s.sessions && s.sessions[t].matchId == m && s.sessions[t].playerId == p;
      assert t in u.sessions && u.sessions[t].matchId == m;
    }
  }

  lemma RegisteredSessions(env: Env, s: Server, t: Ticket)
    requires SessionsMatch(s) && SimsSound(s) && PendingApart(s) && RegisterFault(env, s, t) == ""
    ensures SessionsMatch(Enrol(env, s, t))
  {
    var u := Enrol(env, s, t);
    FreeTicket(env, s, t);
    JoinedSound(env, s, t);
    if EnrolFault(env, s, t) == "" {
      MayJoinNow(env, s, t);
      SeatedPlayers(Joined(env, s, t), t);
      SeatsOne(env, s, t);
      hide SessionsMatch, Seats1, EnrolFault, SimsSound, PendingApart, SessionFor, RegisterFault, Seated, Joined;
      NewSession(s, u, t);
    } else {
      EnrolRejected(env, s, t);
    }
  }

  lemma FreeTicket(env: Env, s: Server, t: Ticket)
    requires RegisterFault(env, s, t) == ""
    ensures t.ticketId !in s.sessions && !SessionFor(s.sessions, t.matchId, t.playerId) && t.matchId !in s.results && t.matchId !in s.cancelled
  {
    hide SessionFor, TicketsOf, Seats;
  }

  lemma SeatsOne(env: Env, s: Server, t: Ticket)
    requires EnrolFault(env, s, t) == ""
    requires t.matchId !in s.sims ==> Joined(env, s, t).state.players == map[]
    requires forall id :: id in Seated(Joined(env, s, t), t).state.players <==> id in Joined(env, s, t).state.players || id == t.playerId
    ensures Seats1(s, Enrol(env, s, t).sims, t)
  {
    if t.matchId in s.sims {
      assert Joined(env, s, t) == s.sims[t.matchId];
    }
    hide Seated, SimSteps.MayJoin, RulesFor;
  }

  lemma EnrolRejected(env: Env, s: Server, t: Ticket)
    requires SessionsMatch(s) && SimsSound(s) && EnrolFault(env, s, t) != ""
    ensures SessionsMatch(Enrol(env, s, t))
  {
    var u := Enrol(env, s, t);
    hide SimSteps.MayJoin, SessionsPlay, PlayersHaveSessions, OneSessionEach, SimsSound;
    if u.sims != s.sims && t.matchId in s.sims {
      EmptyMatchHasNoSession(s, t.matchId);
      assert s.sessions - {} == s.sessions;
      WithoutMatch(s, u, t.matchId);
    } else {
      assert s.sims - {t.matchId} == s.sims || t.matchId in s.sims;
      SameSessions(s, u);
    }
  }

  lemma SameSessions(s: Server, u: Server)
    requires SessionsMatch(s) && u.sims == s.sims && u.sessions == s.sessions
    ensures SessionsMatch(u)
  {
  }

  lemma RegisterSound(env: Env, s: Server, t: Ticket)
    requires Sound(env, s)
    ensures Sound(env, Register(env, s, t))
  {
    hide CancelledApart, PendingApart, SessionsMatch, SimsSound, ResultsHold, Enrol, RegisterFault;
    if RegisterFault(env, s, t) == "" {
      RegisteredApart(env, s, t);
      RegisteredSims(env, s, t);
      RegisteredSessions(env, s, t);
      RegisteredResults(env, s, t);
    }
  }

  // ---- Simulating ----

  lemma SimulateSound(env: Env, s: Server, matchId: string, step: Sim.Step)
    requires Sound(env, s)
    ensures Sound(env, Simulate(s, matchId, step))
  {
    var u := Simulate(s, matchId, step);
    if Reaches(s, matchId, step) {
      var m := s.sims[matchId];
      Sim.StepKeepsInv(m.rules, m.state, step);
      StepKeepsIds(m.rules, m.state, step);
      SimulateMap(s, matchId, step);
      hide Reaches, Simulate, Sim.Do, SimInvariants.Inv;
      SimStepSound(env, s, u, matchId);
    }
  }

  lemma SimulateMap(s: Server, matchId: string, step: Sim.Step)
    requires Reaches(s, matchId, step)
    ensures matchId in s.sims && matchId !in s.results
    ensures var m := s.sims[matchId];
      var u := Simulate(s, matchId, step);
      && u == s.(sims := u.sims, locked := u.locked)
      && u.sims == s.sims[matchId := m.(state := Sim.Do(m.rules, m.state, step))]
  {
    hide Sim.Do, SessionFor, ReadyToLock;
  }

  lemma SimStepSound(env: Env, s: Server, u: Server, matchId: string)
    requires Sound(env, s) && matchId in s.sims && matchId !in s.results && u == s.(sims := u.sims, locked := u.locked)
    requires matchId in u.sims && u.sims == s.sims[matchId := u.sims[matchId]]
    requires SimInvariants.Inv(u.sims[matchId].rules, u.sims[matchId].state) && SameIds(s.sims[matchId].state, u.sims[matchId].state)
    ensures Sound(env, u)
  {
    hide SimInvariants.Inv;
    SameIdsSessions(s, u, matchId);
    hide SessionsMatch;
  }

  lemma SameIdsSessions(s: Server, u: Server, matchId: string)
    requires SessionsMatch(s) && matchId in s.sims && u.sessions == s.sessions
    requires matchId in u.sims && u.sims == s.sims[matchId := u.sims[matchId]] && SameIds(s.sims[matchId].state, u.sims[matchId].state)
    ensures SessionsMatch(u)
  {
    hide SessionFor;
  }

  // ---- Submitting, cancelling, retiring ----

  /** An accepted result carries the hash the server requires. */
  lemma AcceptedHash(m: Results.Match, settled: map<string, string>, signed: Results.Signed, release: Results.Release)
    requires m.resultHash != ""
    ensures var (out, after) := Results.Submit(m, settled, signed, release);
      var id := signed.result.matchId;
      || after == settled
      || (out.Accepted? && id !in settled && signed.result.resultHash == m.resultHash && after == settled[id := m.resultHash])
  {
    var id := signed.result.matchId;
    var o := Results.OptionsFor(m, id);
    hide Results.ShapeComplaint, Results.ReplayComplaint, Results.BossComplaint, Results.TransferComplaint, Results.RewardComplaint,
      Results.SignatureComplaint, Results.Having, Results.Expected, Results.BlockReason, Results.LooksLikeSha256Ref,
      Results.SamePlayers, Results.Compatible;
    if Results.Complaint(signed, o, release) == "" {
      assert Results.IdentityComplaint(signed.result, o, release) == "";
    }
  }

  /** Submitting adds at most the match's own hash to the results. */
  lemma SubmitResults(env: Env, s: Server, signed: Results.Signed, players: seq<string>)
    requires EnvSound(env)
    ensures var u, id := Submit(env, s, signed, players), signed.result.matchId;
      || u == s
      || (id in s.sims && id !in s.results && u == s.(results := s.results[id := env.hash(s.sims[id])]))
  {
    var id := signed.result.matchId;
    if id in s.sims {
      var m := Facts(env, id, s.sims[id], players);
      assert m.resultHash == env.hash(s.sims[id]);
      hide *;
      HashThere(env, s.sims[id]);
      AcceptedHash(m, s.results, signed, env.release);
      SubmitUnfold(env, s, signed, players);
      DecisionIs(env, s.sims[id], s.results, signed, players);
    } else {
      hide Decision;
    }
  }

  lemma HashThere(env: Env, m: Match)
    requires EnvSound(env)
    ensures env.hash(m) != ""
  {
  }

  lemma SubmitUnfold(env: Env, s: Server, signed: Results.Signed, players: seq<string>)
    requires signed.result.matchId in s.sims
    ensures var id := signed.result.matchId;
      Submit(env, s, signed, players) == s.(results := Decision(env, s.sims[id], s.results, signed, players).1)
  {
    hide Decision;
  }

  lemma DecisionIs(env: Env, m: Match, results: map<string, string>, signed: Results.Signed, players: seq<string>)
    ensures Decision(env, m, results, signed, players) ==
      Results.Submit(Facts(env, signed.result.matchId, m, players), results, signed, env.release)
  {
    hide Results.Submit, Facts;
  }

  lemma SubmitSound(env: Env, s: Server, signed: Results.Signed, players: seq<string>)
    requires Sound(env, s) && EnvSound(env)
    ensures Sound(env, Submit(env, s, signed, players))
  {
    hide Submit, EnvSound, Sound;
    SubmitResults(env, s, signed, players);
    var u, id := Submit(env, s, signed, players), signed.result.matchId;
    if u != s {
      ResultAdded(env, s, u, id);
    }
  }

  lemma ResultAdded(env: Env, s: Server, u: Server, id: string)
    requires Sound(env, s) && id in s.sims && u == s.(results := s.results[id := env.hash(s.sims[id])])
    ensures Sound(env, u)
  {
    hide *;
    SoundParts(env, s);
    SameSessions(s, u);
    SameSims(s, u);
    ResultApart(s, u, id);
    ResultIsHash(env, s, u, id);
    SoundMake(env, u);
  }

  lemma SoundParts(env: Env, s: Server)
    requires Sound(env, s)
    ensures CancelledApart(s) && PendingApart(s) && SessionsMatch(s) && SimsSound(s) && ResultsHold(env, s)
  {
  }

  lemma SoundMake(env: Env, s: Server)
    requires CancelledApart(s) && PendingApart(s) && SessionsMatch(s) && SimsSound(s) && ResultsHold(env, s)
    ensures Sound(env, s)
  {
  }

  lemma ResultApart(s: Server, u: Server, id: string)
    requires CancelledApart(s) && PendingApart(s) && id in s.sims && u.sims == s.sims && u.pending == s.pending
    requires u.cancelled == s.cancelled && u.sessions == s.sessions && forall m :: m in u.results <==> m in s.results || m == id
    ensures CancelledApart(u) && PendingApart(u)
  {
  }

  lemma ResultIsHash(env: Env, s: Server, u: Server, id: string)
    requires ResultsHold(env, s) && id in s.sims && u.sims == s.sims && u.results == s.results[id := env.hash(s.sims[id])]
    ensures ResultsHold(env, u)
  {
  }

  lemma CancelSound(env: Env, s: Server, matchId: string)
    requires Sound(env, s)
    ensures Sound(env, Cancel(s, matchId))
  {
    var u := Cancel(s, matchId);
    if matchId !in s.results {
      WithoutMatch(s, u, matchId);
      CancelApart(s, matchId);
      SimsWithout(s, u, matchId);
      ResultsWithout(env, s, u, matchId);
      PendingWithout(s, u, matchId);
    }
    hide CancelledApart, PendingApart, SessionsMatch, SimsSound, ResultsHold, Cancel;
  }

  lemma CancelApart(s: Server, matchId: string)
    requires CancelledApart(s) && matchId !in s.results
    ensures CancelledApart(Cancel(s, matchId))
  {
  }

  lemma SimsWithout(s: Server, u: Server, matchId: string)
    requires SimsSound(s) && u.sims == s.sims - {matchId}
    ensures SimsSound(u)
  {
    hide SimInvariants.Inv;
  }

  lemma ResultsWithout(env: Env, s: Server, u: Server, matchId: string)
    requires ResultsHold(env, s) && u.sims == s.sims - {matchId} && u.results == s.results
    ensures ResultsHold(env, u)
  {
  }

  lemma PendingWithout(s: Server, u: Server, matchId: string)
    requires PendingApart(s) && u.sims == s.sims - {matchId} && u.results == s.results && u.pending == s.pending - {matchId}
    ensures PendingApart(u)
  {
  }

  lemma RetireSound(env: Env, s: Server, matchId: string)
    requires Sound(env, s)
    ensures Sound(env, Retire(s, matchId))
  {
    var u := Retire(s, matchId);
    if matchId in s.results {
      RetireParts(s, matchId);
      SimsWithout(s, u, matchId);
      ResultsWithout(env, s, u, matchId);
      PendingWithout(s, u, matchId);
      RetireApart(s, u, matchId);
    }
    hide CancelledApart, PendingApart, SessionsMatch, SimsSound, ResultsHold, Retire;
  }

  lemma RetireParts(s: Server, matchId: string)
    requires matchId in s.results && SessionsMatch(s)
    ensures var u := Retire(s, matchId);
      && u.sims == s.sims - {matchId} && u.results == s.results && u.pending == s.pending - {matchId} && u.cancelled == s.cancelled
      && (forall t :: t in u.sessions ==> t in s.sessions && u.sessions[t] == s.sessions[t]) && SessionsMatch(u)
  {
    var u := Retire(s, matchId);
    if matchId in s.sims {
      WithoutMatch(s, u, matchId);
      hide SessionsMatch;
    } else {
      assert s.sims - {matchId} == s.sims;
      SameSessions(s, u);
      hide SessionsMatch;
    }
  }

  lemma RetireApart(s: Server, u: Server, matchId: string)
    requires CancelledApart(s) && u.sims == s.sims - {matchId} && u.results == s.results && u.pending == s.pending - {matchId}
    requires u.cancelled == s.cancelled && forall t :: t in u.sessions ==> t in s.sessions && u.sessions[t] == s.sessions[t]
    ensures CancelledApart(u)
  {
  }

  // ---- Runs ----

  datatype Command =
    | SetUp(matchId: string, boss: BossConfig)
    | Admit(ticket: Ticket)
    | Ask(matchId: string, step: Sim.Step)
    | Hand(signed: Results.Signed, players: seq<string>)
    | CallOff(matchId: string)
    | Close(matchId: string)

  ghost function Execute(env: Env, s: Server, c: Command): Server {
    match c
    case SetUp(m, boss) => Configure(s, m, boss)
    case Admit(ticket) => Register(env, s, ticket)
    case Ask(m, step) => Simulate(s, m, step)
    case Hand(signed, players) => Submit(env, s, signed, players)
    case CallOff(m) => Cancel(s, m)
    case Close(m) => Retire(s, m)
  }

  ghost function ExecuteAll(env: Env, s: Server, commands: seq<Command>): Server
    decreases |commands|
  {
    if |commands| == 0 then s else
    hide Execute;
    Execute(env, ExecuteAll(env, s, commands[..|commands| - 1]), commands[|commands| - 1])
  }

  lemma CommandSound(env: Env, s: Server, c: Command)
    requires Sound(env, s) && EnvSound(env)
    ensures Sound(env, Execute(env, s, c))
  {
    hide Sound, EnvSound, Configure, Register, Simulate, Submit, Cancel, Retire;
    match c
    case SetUp(m, boss) => ConfigureSound(env, s, m, boss);
    case Admit(ticket) => RegisterSound(env, s, ticket);
    case Ask(m, step) => SimulateSound(env, s, m, step);
    case Hand(signed, players) => SubmitSound(env, s, signed, players);
    case CallOff(m) => CancelSound(env, s, m);
    case Close(m) => RetireSound(env, s, m);
  }

  /** Every run of the server keeps the lifecycle sets apart, sessions matched with players, every running
      simulation sound, and every settled hash that of its simulation. */
  lemma {:induction false} RunsSound(env: Env, s: Server, commands: seq<Command>)
    requires Sound(env, s) && EnvSound(env)
    ensures Sound(env, ExecuteAll(env, s, commands))
    decreases |commands|
  {
    hide Sound, EnvSound, Execute;
    if commands != [] {
      RunsSound(env, s, commands[..|commands| - 1]);
      CommandSound(env, ExecuteAll(env, s, commands[..|commands| - 1]), commands[|commands| - 1]);
    }
  }

  // ---- Closed for good, and settled ----

  /** Everything kept about match `m` is the same in `u` as in `s`. */
  ghost predicate KeepsMatch(s: Server, u: Server, m: string) {
    && (m in u.sims <==> m in s.sims) && (m in s.sims && m in u.sims ==> u.sims[m] == s.sims[m])
    && (m in u.results <==> m in s.results) && (m in s.results && m in u.results ==> u.results[m] == s.results[m])
    && (m in u.cancelled <==> m in s.cancelled) && (m in u.pending <==> m in s.pending)
    && TicketsOf(u.sessions, m) == TicketsOf(s.sessions, m)
  }

  lemma ConfigureKeepsMatch(s: Server, id: string, boss: BossConfig, m: string)
    requires m in s.cancelled || m in s.results
    ensures KeepsMatch(s, Configure(s, id, boss), m)
  {
    hide OptionalIdentity, SimTypes.IsBossMode, Normal;
  }

  lemma RegisterKeepsMatch(env: Env, s: Server, t: Ticket, m: string)
    requires m in s.cancelled || m in s.results
    ensures KeepsMatch(s, Register(env, s, t), m)
  {
    if RegisterFault(env, s, t) == "" {
      FreeTicket(env, s, t);
      assert t.matchId != m;
      hide RegisterFault;
      EnrolKeepsMatch(env, s, t, m);
    } else {
      hide RegisterFault, Enrol;
    }
  }

  lemma EnrolKeepsMatch(env: Env, s: Server, t: Ticket, m: string)
    requires t.matchId != m && t.ticketId !in s.sessions
    ensures KeepsMatch(s, Enrol(env, s, t), m)
  {
    hide EnrolFault, Joined, Seated;
  }

  lemma SimulateKeepsMatch(s: Server, id: string, step: Sim.Step, m: string)
    requires CancelledApart(s) && (m in s.cancelled || m in s.results)
    ensures KeepsMatch(s, Simulate(s, id, step), m)
  {
    if Reaches(s, id, step) {
      SimulateMap(s, id, step);
      hide Simulate, Reaches, Sim.Do;
    } else {
      hide Reaches, WithSim;
    }
  }

  lemma SubmitKeepsMatch(env: Env, s: Server, signed: Results.Signed, players: seq<string>, m: string)
    requires EnvSound(env) && CancelledApart(s) && (m in s.cancelled || m in s.results)
    ensures KeepsMatch(s, Submit(env, s, signed, players), m)
  {
    hide Submit, EnvSound;
    SubmitResults(env, s, signed, players);
  }

  lemma CancelKeepsMatch(s: Server, id: string, m: string)
    requires CancelledApart(s) && SessionsPlay(s) && (m in s.cancelled || m in s.results)
    ensures KeepsMatch(s, Cancel(s, id), m)
  {
  }

  lemma RetireKeepsMatch(s: Server, id: string, m: string)
    requires CancelledApart(s) && SessionsPlay(s) && PendingApart(s) && (m in s.cancelled || m in s.results)
    requires id != m || m !in s.sims
    ensures KeepsMatch(s, Retire(s, id), m)
  {
  }

  /** A closed match is touched by nothing any more, a settled one by nothing but its own retirement. */
  lemma ExecuteKeepsMatch(env: Env, s: Server, c: Command, m: string)
    requires Sound(env, s) && EnvSound(env) && (m in s.cancelled || m in s.results)
    requires c == Close(m) ==> m !in s.sims
    ensures KeepsMatch(s, Execute(env, s, c), m)
  {
    hide KeepsMatch, Configure, Register, Simulate, Submit, Cancel, Retire, EnvSound, CancelledApart, PendingApart, SimsSound,
      ResultsHold, SessionsPlay, PlayersHaveSessions, OneSessionEach;
    match c
    case SetUp(id, boss) => ConfigureKeepsMatch(s, id, boss, m);
    case Admit(ticket) => RegisterKeepsMatch(env, s, ticket, m);
    case Ask(id, step) => SimulateKeepsMatch(s, id, step, m);
    case Hand(signed, players) => SubmitKeepsMatch(env, s, signed, players, m);
    case CallOff(id) => CancelKeepsMatch(s, id, m);
    case Close(id) => RetireKeepsMatch(s, id, m);
  }

  ghost predicate Over(s: Server, m: string) {
    StatusOf(s, m) == Cancelled || StatusOf(s, m) == Retired
  }

  lemma OverMeans(s: Server, m: string)
    requires CancelledApart(s) && Over(s, m)
    ensures (m in s.cancelled || m in s.results) && m !in s.sims
  {
  }

  lemma StatusKept(s: Server, u: Server, m: string)
    requires KeepsMatch(s, u, m)
    ensures StatusOf(u, m) == StatusOf(s, m)
  {
    hide TicketsOf;
  }

  /** Cancelled and retired are absorbing: no run of commands brings the match back. */
  lemma {:induction false} OverForGood(env: Env, s: Server, commands: seq<Command>, m: string)
    requires Sound(env, s) && EnvSound(env) && Over(s, m)
    ensures StatusOf(ExecuteAll(env, s, commands), m) == StatusOf(s, m)
    decreases |commands|
  {
    hide Sound, EnvSound, Execute, StatusOf, KeepsMatch;
    if commands != [] {
      var front, c := commands[..|commands| - 1], commands[|commands| - 1];
      var before := ExecuteAll(env, s, front);
      OverForGood(env, s, front, m);
      RunsSound(env, s, front);
      SoundParts(env, before);
      OverMeans(before, m);
      ExecuteKeepsMatch(env, before, c, m);
      StatusKept(before, Execute(env, before, c), m);
    }
  }

  lemma SettledMeans(s: Server, m: string)
    requires StatusOf(s, m) == Settled
    ensures m in s.sims && m in s.results
  {
  }

  lemma SettledStays(env: Env, s: Server, c: Command, m: string)
    requires Sound(env, s) && EnvSound(env) && StatusOf(s, m) == Settled && c != Close(m)
    ensures StatusOf(Execute(env, s, c), m) == Settled && KeepsMatch(s, Execute(env, s, c), m)
  {
    hide *;
    SettledMeans(s, m);
    ExecuteKeepsMatch(env, s, c, m);
    StatusKept(s, Execute(env, s, c), m);
  }

  lemma KeptSince(s: Server, t: Server, u: Server, m: string)
    requires KeepsMatch(s, t, m) && KeepsMatch(t, u, m)
    ensures KeepsMatch(s, u, m)
  {
  }

  lemma KeptAtFirst(s: Server, m: string)
    ensures KeepsMatch(s, s, m)
  {
  }

  /** A settled match stays settled, its simulation, hash and sessions untouched, over every run without its
      own retirement. */
  lemma {:induction false} SettledIsFrozen(env: Env, s: Server, commands: seq<Command>, m: string)
    requires Sound(env, s) && EnvSound(env) && StatusOf(s, m) == Settled && Close(m) !in commands
    ensures StatusOf(ExecuteAll(env, s, commands), m) == Settled && KeepsMatch(s, ExecuteAll(env, s, commands), m)
    decreases |commands|
  {
    hide Sound, EnvSound, Execute, StatusOf, KeepsMatch;
    if commands == [] {
      KeptAtFirst(s, m);
    } else {
      var front, c := commands[..|commands| - 1], commands[|commands| - 1];
      var before := ExecuteAll(env, s, front);
      SettledIsFrozen(env, s, front, m);
      RunsSound(env, s, front);
      SettledStays(env, before, c, m);
      KeptSince(s, before, Execute(env, before, c), m);
    }
  }

  /** So in every reachable state the hash a settled match was recorded under is the one its result is
      built with again: a resubmission is never refused as a mismatch. */
  lemma SettledHashHolds(env: Env, commands: seq<Command>, m: string, players: seq<string>)
    requires EnvSound(env)
    requires var s := ExecuteAll(env, EMPTY, commands); m in s.sims && m in s.results
    ensures var s := ExecuteAll(env, EMPTY, commands);
      s.results[m] == Facts(env, m, s.sims[m], players).resultHash
  {
    EmptySound(env);
    RunsSound(env, EMPTY, commands);
    hide ExecuteAll, CancelledApart, PendingApart, SessionsMatch, SimsSound, EnvSound;
  }
}
