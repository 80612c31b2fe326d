/** A registration that RegisterTicket of src/server.cpp refuses changes nothing: the seats of a match run out
    before its simulation does, and a checked ticket names a player the simulation can take. */
module Registrations {
  import opened ServerSteps
  import opened ServerInvariants
  import opened SessionNames
  import SimTypes
  import SimSteps
  import SimInvariants
  import BossLedger
  import RosterLocks
  import Sim = Simulation
  import Results = ResultAgreement

  ghost predicate HasTicket(sessions: map<string, Session>, tickets: set<string>, player: string) {
    exists t :: t in tickets && t in sessions && sessions[t].playerId == player
  }

  /** Every player of the list has a ticket among `tickets`. */
  ghost predicate Ticketed(sessions: map<string, Session>, tickets: set<string>, players: seq<string>) {
    forall i :: 0 <= i < |players| ==> HasTicket(sessions, tickets, players[i])
  }

  /** Distinct players with tickets have no more members than there are tickets. */
  lemma {:induction false} AsManyTickets(sessions: map<string, Session>, tickets: set<string>, players: seq<string>)
    requires BossLedger.Distinct(players) && Ticketed(sessions, tickets, players)
    ensures |players| <= |tickets|
    decreases |players|
  {
    if players != [] {
      var n := |players| - 1;
      assert HasTicket(sessions, tickets, players[n]);
      var t :| t in tickets && t in sessions && sessions[t].playerId == players[n];
      forall i | 0 <= i < n
        ensures HasTicket(sessions, tickets - {t}, players[..n][i])
      {
        assert HasTicket(sessions, tickets, players[i]);
        var u :| u in tickets && u in sessions && sessions[u].playerId == players[i];
        assert u in tickets - {t};
      }
      AsManyTickets(sessions, tickets - {t}, players[..n]);
    }
  }

  /** A match has at least as many sessions as players. */
  lemma PlayersWithinSessions(env: Env, s: Server, m: string)
    requires Sound(env, s) && m in s.sims
    ensures |s.sims[m].state.roster| <= |TicketsOf(s.sessions, m)|
  {
    var roster, tickets := s.sims[m].state.roster, TicketsOf(s.sessions, m);
    RosterOf(env, s, m);
    SoundParts(env, s);
    hide Sound, CancelledApart, PendingApart, ResultsHold, SimsSound, BossLedger.Distinct;
    forall i | 0 <= i < |roster|
      ensures HasTicket(s.sessions, tickets, roster[i])
    {
      assert SessionFor(s.sessions, m, roster[i]);
      var t :| t in s.sessions && s.sessions[t].matchId == m && s.sessions[t].playerId == roster[i];
      assert t in tickets;
    }
    AsManyTickets(s.sessions, tickets, roster);
  }

  lemma RosterOf(env: Env, s: Server, m: string)
    requires Sound(env, s) && m in s.sims
    ensures BossLedger.Distinct(s.sims[m].state.roster)
    ensures forall id :: id in s.sims[m].state.players <==> id in s.sims[m].state.roster
  {
    SoundParts(env, s);
    SimInvariants.InvParts(s.sims[m].rules, s.sims[m].state);
    hide Sound, CancelledApart, PendingApart, ResultsHold, SessionsMatch, SimInvariants.Inv;
  }

  lemma BossSeats(env: Env, modeId: string)
    requires SimTypes.IsBossMode(modeId)
    ensures Seats(env, modeId) <= SimTypes.BOSS_MAX_PLAYERS
  {
  }

  /** What the checks before the seating leave of a ticket. */
  lemma TicketPassed(env: Env, s: Server, t: Ticket)
    requires ChecksTokens(env) && RegisterFault(env, s, t) == ""
    ensures SimTypes.AuditToken(t.playerId) && !SessionFor(s.sessions, t.matchId, t.playerId)
    ensures |TicketsOf(s.sessions, t.matchId)| < Seats(env, t.modeId)
  {
    hide SimTypes.AuditToken, SessionFor, TicketsOf, Seats;
  }

  lemma NewMatchTakes(env: Env, s: Server, t: Ticket)
    requires t.matchId !in s.sims && SimTypes.AuditToken(t.playerId)
    ensures EnrolFault(env, s, t) == ""
  {
    hide SimTypes.AuditToken, SimTypes.IsBossMode;
  }

  /** A running match takes every ticket that got that far, unless mode or ruleset differ. */
  lemma RunningMatchTakes(env: Env, s: Server, t: Ticket)
    requires Sound(env, s) && ChecksTokens(env) && RegisterFault(env, s, t) == "" && t.matchId in s.sims
    requires s.sims[t.matchId].rules.modeId == t.modeId
    ensures SimSteps.MayJoin(s.sims[t.matchId].rules, s.sims[t.matchId].state, t.playerId)
  {
    var m := s.sims[t.matchId];
    TicketPassed(env, s, t);
    PlayersWithinSessions(env, s, t.matchId);
    NoSuchPlayer(env, s, t);
    hide Sound, ChecksTokens, RegisterFault, SimTypes.AuditToken, SimTypes.IsBossMode, SessionFor, TicketsOf, Seats;
    if SimTypes.BossMode(m.rules) {
      BossSeats(env, t.modeId);
    }
  }

  lemma NoSuchPlayer(env: Env, s: Server, t: Ticket)
    requires Sound(env, s) && t.matchId in s.sims && !SessionFor(s.sessions, t.matchId, t.playerId)
    ensures t.playerId !in s.sims[t.matchId].state.players
  {
    SoundParts(env, s);
    hide Sound, CancelledApart, PendingApart, ResultsHold, SimsSound, SessionFor;
  }

  /** Behind the checks only a match of another mode or ruleset refuses a ticket; the simulation never does. */
  lemma OnlyMismatchRejects(env: Env, s: Server, t: Ticket)
    requires Sound(env, s) && ChecksTokens(env) && RegisterFault(env, s, t) == ""
    ensures EnrolFault(env, s, t) == (
      if t.matchId in s.sims && (s.sims[t.matchId].rules.modeId != t.modeId || s.sims[t.matchId].ruleset != t.ruleset)
      then "match_mode_ruleset_mismatch" else "")
  {
    if t.matchId !in s.sims {
      TicketPassed(env, s, t);
      NewMatchTakes(env, s, t);
    } else if s.sims[t.matchId].rules.modeId == t.modeId && s.sims[t.matchId].ruleset == t.ruleset {
      RunningMatchTakes(env, s, t);
    }
    hide Sound, ChecksTokens, RegisterFault, SimSteps.MayJoin, RulesFor, SimSteps.Start;
  }

  lemma RefusedChangesNothing(env: Env, s: Server, t: Ticket)
    requires Sound(env, s) && ChecksTokens(env) && (RegisterFault(env, s, t) != "" || EnrolFault(env, s, t) != "")
    ensures Register(env, s, t) == s
  {
    if RegisterFault(env, s, t) == "" {
      OnlyMismatchRejects(env, s, t);
    }
    hide Sound, ChecksTokens, RegisterFault, EnrolFault, Joined, Seated;
  }

  /** After any commands, whatever ticket comes: the registration is refused and nothing changes, a pending
      configuration included, or the ticket's player has a session and a seat. */
  lemma RegistrationIsAtomic(env: Env, commands: seq<Command>, t: Ticket)
    requires ChecksTokens(env) && EnvSound(env)
    ensures var s := ExecuteAll(env, EMPTY, commands);
      if RegisterFault(env, s, t) != "" || EnrolFault(env, s, t) != "" then Register(env, s, t) == s
      else Admitted(s, Register(env, s, t), t)
  {
    hide *;
    var s := ExecuteAll(env, EMPTY, commands);
    EmptySound(env);
    RunsSound(env, EMPTY, commands);
    if RegisterFault(env, s, t) != "" || EnrolFault(env, s, t) != "" {
      RefusedChangesNothing(env, s, t);
    } else {
      RegisteredIsAdmitted(env, s, t);
    }
  }

  /** `u` is `s` with a session for the ticket and its player in the match, the configuration used up. */
  ghost predicate Admitted(s: Server, u: Server, t: Ticket) {
    && t.ticketId !in s.sessions && u.sessions == s.sessions[t.ticketId := SessionOf(t)]
    && t.matchId in u.sims && t.playerId in u.sims[t.matchId].state.players
    && u.sims == s.sims[t.matchId := u.sims[t.matchId]] && u.pending == s.pending - {t.matchId}
    && u.results == s.results && u.cancelled == s.cancelled && u.locked == s.locked
  }

  lemma RegisterIs(env: Env, s: Server, t: Ticket)
    requires RegisterFault(env, s, t) == "" && EnrolFault(env, s, t) == ""
    ensures Register(env, s, t) == s.(sessions := s.sessions[t.ticketId := SessionOf(t)],
      sims := s.sims[t.matchId := Seated(Joined(env, s, t), t)], pending := s.pending - {t.matchId})
  {
    hide RegisterFault, EnrolFault, Joined, Seated;
  }

  lemma RegisteredIsAdmitted(env: Env, s: Server, t: Ticket)
    requires Sound(env, s) && RegisterFault(env, s, t) == "" && EnrolFault(env, s, t) == ""
    ensures Admitted(s, Register(env, s, t), t)
  {
    hide Sound, RegisterFault, EnrolFault, Register, Joined, Seated, CancelledApart, PendingApart, SessionsMatch, SimsSound,
      ResultsHold, SimInvariants.Inv, SimSteps.MayJoin;
    SoundParts(env, s);
    FreeTicket(env, s, t);
    JoinedSound(env, s, t);
    MayJoinNow(env, s, t);
    SeatedPlayers(Joined(env, s, t), t);
    RegisterIs(env, s, t);
  }

  // ---- Seats ----

  ghost predicate WithinSeats(env: Env, s: Server) {
    forall m :: m in s.sims ==> |TicketsOf(s.sessions, m)| <= Seats(env, s.sims[m].rules.modeId)
  }

  lemma OneTicketMore(sessions: map<string, Session>, t: Ticket, m: string)
    requires t.ticketId !in sessions
    ensures TicketsOf(sessions[t.ticketId := SessionOf(t)], m) == (if m == t.matchId then TicketsOf(sessions, m) + {t.ticketId} else TicketsOf(sessions, m))
    ensures t.ticketId !in TicketsOf(sessions, m)
  {
  }

  lemma AdmitWithinSeats(env: Env, s: Server, t: Ticket)
    requires WithinSeats(env, s)
    ensures WithinSeats(env, Register(env, s, t))
  {
    if RegisterFault(env, s, t) == "" {
      SeatFree(env, s, t);
      if EnrolFault(env, s, t) == "" {
        RegisterIs(env, s, t);
        JoinedMode(env, s, t);
        var u := Register(env, s, t);
        hide RegisterFault, EnrolFault, Joined, Seated, Seats, Register, TicketsOf;
        forall m | m in u.sims
          ensures |TicketsOf(u.sessions, m)| <= Seats(env, u.sims[m].rules.modeId)
        {
          OneTicketMore(s.sessions, t, m);
        }
      } else {
        RejectedSims(env, s, t);
        hide RegisterFault, EnrolFault, Joined, Seated, Seats, Enrol, TicketsOf;
      }
    }
  }

  lemma SeatFree(env: Env, s: Server, t: Ticket)
    requires RegisterFault(env, s, t) == ""
    ensures t.ticketId !in s.sessions && |TicketsOf(s.sessions, t.matchId)| < Seats(env, t.modeId)
  {
    hide SessionFor, TicketsOf, Seats;
  }

  lemma RejectedSims(env: Env, s: Server, t: Ticket)
    requires EnrolFault(env, s, t) != ""
    ensures var u := Enrol(env, s, t); u.sessions == s.sessions && forall m :: m in u.sims ==> m in s.sims && u.sims[m] == s.sims[m]
  {
    hide EnrolFault, Joined, Seated;
  }

  lemma JoinedMode(env: Env, s: Server, t: Ticket)
    requires EnrolFault(env, s, t) == ""
    ensures Seated(Joined(env, s, t), t).rules.modeId == t.modeId
  {
    hide SimSteps.MayJoin, SimSteps.AddPlayer, SimSteps.SeedHand, SimSteps.Start;
  }

  lemma FewerWithinSeats(env: Env, s: Server, u: Server)
    requires WithinSeats(env, s)
    requires forall m :: m in u.sims ==> m in s.sims && u.sims[m].rules == s.sims[m].rules && TicketsOf(u.sessions, m) == TicketsOf(s.sessions, m)
    ensures WithinSeats(env, u)
  {
    hide Seats, TicketsOf;
  }

  lemma AskWithinSeats(env: Env, s: Server, id: string, step: Sim.Step)
    requires WithinSeats(env, s)
    ensures WithinSeats(env, Simulate(s, id, step))
  {
    hide Askable, Asker, SessionFor, Sim.Do, Locks, ReadyToLock, WithinSeats, TicketsOf;
    FewerWithinSeats(env, s, Simulate(s, id, step));
  }

  lemma EndedTickets(s: Server, m: string, other: string)
    requires other != m
    ensures TicketsOf(s.sessions - TicketsOf(s.sessions, m), other) == TicketsOf(s.sessions, other)
  {
  }

  lemma CancelWithinSeats(env: Env, s: Server, id: string)
    requires WithinSeats(env, s)
    ensures WithinSeats(env, Cancel(s, id)) && WithinSeats(env, Retire(s, id))
  {
    hide WithinSeats, TicketsOf;
    forall m | m != id
      ensures TicketsOf(s.sessions - TicketsOf(s.sessions, id), m) == TicketsOf(s.sessions, m)
    {
      EndedTickets(s, id, m);
    }
    FewerWithinSeats(env, s, Cancel(s, id));
    FewerWithinSeats(env, s, Retire(s, id));
  }

  lemma SubmitWithinSeats(env: Env, s: Server, signed: Results.Signed, players: seq<string>)
    requires WithinSeats(env, s)
    ensures WithinSeats(env, Submit(env, s, signed, players))
  {
    hide Submit, WithinSeats, TicketsOf;
    RosterLocks.HandSims(env, s, signed, players);
    HandSessions(env, s, signed, players);
    FewerWithinSeats(env, s, Submit(env, s, signed, players));
  }

  lemma HandSessions(env: Env, s: Server, signed: Results.Signed, players: seq<string>)
    ensures Submit(env, s, signed, players).sessions == s.sessions
  {
    if signed.result.matchId in s.sims {
      SubmitUnfold(env, s, signed, players);
    }
    hide Decision;
  }

  lemma CommandWithinSeats(env: Env, s: Server, c: Command)
    requires WithinSeats(env, s)
    ensures WithinSeats(env, Execute(env, s, c))
  {
    hide Register, Simulate, Submit, Cancel, Retire, ConfigureFault, Normal, WithinSeats, TicketsOf;
    match c
    case SetUp(m, boss) => FewerWithinSeats(env, s, Execute(env, s, c));
    case Admit(ticket) => AdmitWithinSeats(env, s, ticket);
    case Ask(m, step) => AskWithinSeats(env, s, m, step);
    case Hand(signed, players) => SubmitWithinSeats(env, s, signed, players);
    case CallOff(m) => CancelWithinSeats(env, s, m);
    case Close(m) => CancelWithinSeats(env, s, m);
  }

  lemma {:induction false} RunsWithinSeats(env: Env, commands: seq<Command>)
    ensures WithinSeats(env, ExecuteAll(env, EMPTY, commands))
    decreases |commands|
  {
    hide Execute;
    if commands != [] {
      var front := commands[..|commands| - 1];
      RunsWithinSeats(env, front);
      hide WithinSeats;
      CommandWithinSeats(env, ExecuteAll(env, EMPTY, front), commands[|commands| - 1]);
    }
  }

  /** After any commands no match has more sessions, nor more players, than its mode seats: four in a cooperative
      one, eight in a boss match, elsewhere what the server is configured for. */
  lemma NoMatchIsOverfull(env: Env, commands: seq<Command>, m: string)
    requires EnvSound(env) && m in ExecuteAll(env, EMPTY, commands).sims
    ensures var s := ExecuteAll(env, EMPTY, commands);
      var n, mode := |TicketsOf(s.sessions, m)|, s.sims[m].rules.modeId;
      && |s.sims[m].state.roster| <= n
      && (if env.coop(mode) then n <= 4 else if mode == "world_boss" || mode == "instance_boss" then n <= 8 else n <= env.maxPlayers)
  {
    hide *;
    var s := ExecuteAll(env, EMPTY, commands);
    EmptySound(env);
    RunsSound(env, EMPTY, commands);
    RunsWithinSeats(env, commands);
    PlayersWithinSessions(env, s, m);
    SeatsAt(env, s, m);
  }

  lemma SeatsAt(env: Env, s: Server, m: string)
    requires WithinSeats(env, s) && m in s.sims
    ensures var n, mode := |TicketsOf(s.sessions, m)|, s.sims[m].rules.modeId;
      if env.coop(mode) then n <= 4 else if mode == "world_boss" || mode == "instance_boss" then n <= 8 else n <= env.maxPlayers
  {
    hide TicketsOf;
  }
}
