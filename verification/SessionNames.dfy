/** The server and the transport edge together: a server registers players only under audit tokens
    (src/ticket.cpp), so that the keys the edge joins with ':' are unambiguous for whoever has a session. */
module SessionNames {
  import opened ServerSteps
  import opened ServerInvariants
  import Transport
  import TransportRuns
  import SimTypes

  /** The part of the ticket check that matters here: a good ticket's ids are audit tokens. */
  ghost predicate ChecksTokens(env: Env) {
    forall t: Ticket :: env.ticketFault(t) == "" ==>
      SimTypes.AuditToken(t.matchId) && SimTypes.AuditToken(t.playerId) && SimTypes.AuditToken(t.modeId)
  }

  ghost predicate SessionsNamed(s: Server) {
    forall t :: t in s.sessions ==> SimTypes.AuditToken(s.sessions[t].matchId) && SimTypes.AuditToken(s.sessions[t].playerId)
  }

  ghost predicate NoNewSession(s: Server, u: Server) {
    forall t :: t in u.sessions ==> t in s.sessions && u.sessions[t] == s.sessions[t]
  }

  lemma FewerSessionsNamed(s: Server, u: Server)
    requires SessionsNamed(s) && NoNewSession(s, u)
    ensures SessionsNamed(u)
  {
    hide SimTypes.AuditToken;
  }

  lemma RegisterNames(env: Env, s: Server, t: Ticket)
    requires ChecksTokens(env) && SessionsNamed(s)
    ensures SessionsNamed(Register(env, s, t))
  {
    if RegisterFault(env, s, t) == "" {
      PassedTicket(env, s, t);
      hide SimTypes.AuditToken, RegisterFault, EnrolFault, Joined, Seated;
    }
  }

  lemma PassedTicket(env: Env, s: Server, t: Ticket)
    requires RegisterFault(env, s, t) == ""
    ensures env.ticketFault(t) == ""
  {
  }

  lemma CommandNames(env: Env, s: Server, c: Command)
    requires ChecksTokens(env) && SessionsNamed(s)
    ensures SessionsNamed(Execute(env, s, c))
  {
    hide SessionsNamed, ChecksTokens, NoNewSession, Register, Configure, Simulate, Submit, Cancel, Retire;
    if c.Admit? {
      RegisterNames(env, s, c.ticket);
    } else {
      SessionsStay(env, s, c);
      FewerSessionsNamed(s, Execute(env, s, c));
    }
  }

  /** Nothing but a registration adds or changes a session. */
  lemma SessionsStay(env: Env, s: Server, c: Command)
    requires !c.Admit?
    ensures NoNewSession(s, Execute(env, s, c))
  {
    hide ConfigureFault, Normal, Reaches, ReadyToLock, Locks, Decision, Register, StatusOf;
    match c
    case SetUp(m, boss) =>
    case Admit(ticket) =>
    case Ask(m, step) =>
    case Hand(signed, players) =>
    case CallOff(m) =>
    case Close(m) =>
  }

  /** In every reachable state the ids of every session are audit tokens. */
  lemma {:induction false} SessionsAreTokens(env: Env, commands: seq<Command>)
    requires ChecksTokens(env)
    ensures SessionsNamed(ExecuteAll(env, EMPTY, commands))
    decreases |commands|
  {
    hide ChecksTokens, Execute;
    if commands != [] {
      var front := commands[..|commands| - 1];
      SessionsAreTokens(env, front);
      hide SessionsNamed;
      CommandNames(env, ExecuteAll(env, EMPTY, front), commands[|commands| - 1]);
    }
  }

  /** The player is in the running match and connected. */
  predicate Connected(s: Server, h: Transport.Header) {
    && h.matchId in s.sims && h.playerId in s.sims[h.matchId].state.players
    && s.sims[h.matchId].state.players[h.playerId].connected
  }

  /** What the edge is told when a packet arrives is what the server knows: a session only if it has one for the
      player, the match's fate, and of a running match the player's connection, the tick, events and window. */
  ghost predicate Answers(s: Server, a: Transport.Arrival) {
    var h, look := Transport.HeaderOf(a.step), a.look;
    && (look.session.Some? ==> SessionFor(s.sessions, h.matchId, h.playerId))
    && look.closed == (if h.matchId in s.sims then "" else ClosedReason(s, h.matchId))
    && look.settled == (h.matchId in s.sims && h.matchId in s.results)
    && look.connected == Connected(s, h)
    && (h.matchId in s.sims ==>
         look.tick == s.sims[h.matchId].state.tick && look.events == s.sims[h.matchId].state.eventCount
         && look.ahead == s.sims[h.matchId].rules.maxTicksAhead)
  }

  lemma AnswersAreRegistered(s: Server, a: Transport.Arrival)
    requires SessionsNamed(s) && Answers(s, a)
    ensures Transport.Registered(a)
  {
    hide SimTypes.AuditToken;
  }

  /** Some commands lead to `s`. */
  ghost predicate Reachable(env: Env, s: Server) {
    exists commands :: s == ExecuteAll(env, EMPTY, commands)
  }

  /** Every arrival is answered by the server in a reachable state, the states in any order. */
  ghost predicate Served(env: Env, arrivals: seq<Transport.Arrival>, states: seq<Server>) {
    |states| == |arrivals| && forall i :: 0 <= i < |arrivals| ==> Reachable(env, states[i]) && Answers(states[i], arrivals[i])
  }

  lemma ReachableNamed(env: Env, s: Server)
    requires ChecksTokens(env) && Reachable(env, s)
    ensures SessionsNamed(s)
  {
    hide ChecksTokens, SessionsNamed, ExecuteAll;
    var commands :| s == ExecuteAll(env, EMPTY, commands);
    SessionsAreTokens(env, commands);
  }

  lemma ServedIsRegistered(env: Env, arrivals: seq<Transport.Arrival>, states: seq<Server>)
    requires ChecksTokens(env) && Served(env, arrivals, states)
    ensures forall i :: 0 <= i < |arrivals| ==> Transport.Registered(arrivals[i])
  {
    hide Answers, SessionsNamed, ChecksTokens, Reachable, Transport.Registered;
    forall i | 0 <= i < |arrivals|
      ensures Transport.Registered(arrivals[i])
    {
      ReachableNamed(env, states[i]);
      AnswersAreRegistered(states[i], arrivals[i]);
    }
  }

  /** Packets answered from reachable states of the server, in any order: what gets through is never
      a replay, no nonce is taken twice, and the tables say exactly what got through. */
  lemma ServedEdgeIsSound(env: Env, edge: Transport.Env, arrivals: seq<Transport.Arrival>, states: seq<Server>)
    requires ChecksTokens(env) && Served(env, arrivals, states)
    ensures TransportRuns.Sound(Transport.Run(edge, arrivals))
  {
    hide Served, ChecksTokens, TransportRuns.Sound, Transport.Run, Transport.Registered;
    ServedIsRegistered(env, arrivals, states);
    TransportRuns.RunsAreSound(edge, arrivals);
  }

  /** The match of `h` is running and unsettled and `h`'s player has a session in it. */
  ghost predicate Plays(s: Server, h: Transport.Header) {
    h.matchId in s.sims && h.matchId !in s.results && SessionFor(s.sessions, h.matchId, h.playerId)
  }

  /** An accepted input or mode action comes from a connected player of a running match, for a tick behind the
      match's own and within its window, and has seen no tick that has not been; an accepted reconnect from a
      player who is not connected. */
  ghost predicate Fits(s: Server, h: Transport.Header) {
    && Plays(s, h)
    && (h.payloadType == Transport.Input || h.payloadType == Transport.ModeAction ==>
         var m := s.sims[h.matchId];
         Connected(s, h) && m.state.tick < h.tick <= m.state.tick + m.rules.maxTicksAhead)
    && (h.payloadType == Transport.Input || h.payloadType == Transport.ModeAction || h.payloadType == Transport.Ping ==>
         h.ack <= s.sims[h.matchId].state.tick)
    && (h.payloadType == Transport.Reconnect ==> !Connected(s, h) && h.ack <= s.sims[h.matchId].state.eventCount)
  }

  lemma WindowFits(look: Transport.Look, h: Transport.Header)
    requires Transport.WindowFault(look, h) == ""
    ensures h.payloadType == Transport.Input || h.payloadType == Transport.ModeAction ==>
      look.connected && look.tick < h.tick <= look.tick + look.ahead
    ensures h.payloadType == Transport.Input || h.payloadType == Transport.ModeAction || h.payloadType == Transport.Ping ==> h.ack <= look.tick
    ensures h.payloadType == Transport.Reconnect ==> !look.connected && h.ack <= look.events
  {
  }

  lemma ClosedHasReason(s: Server, m: string)
    ensures ClosedReason(s, m) != ""
  {
  }

  /** What gets through at a served arrival fits the server's state. */
  lemma AcceptedFits(s: Server, edge: Transport.Env, e: Transport.Edge, a: Transport.Arrival)
    requires Answers(s, a) && a.step.Arrives?
    requires Transport.DatagramFault(edge, e, a.look, a.step.packet, a.step.datagram) == ""
    ensures Fits(s, a.step.packet.header)
  {
    TransportRuns.DatagramPassed(edge, e, a.look, a.step.packet, a.step.datagram);
    TransportRuns.GatePassed(a.look, a.step.packet);
    TransportRuns.GateOpen(a.look, a.step.packet);
    WindowFits(a.look, a.step.packet.header);
    ClosedHasReason(s, a.step.packet.header.matchId);
    hide Transport.DatagramFault, Transport.GateFault, Transport.WindowFault, ClosedReason, SessionFor, Connected, Transport.FromClient;
  }

  /** The `k`-th arrival is a reconnect of the session of `g` that got through, and the server answering it had
      `g`'s player in a running match, not connected. */
  ghost predicate Returns(env: Env, edge: Transport.Env, arrivals: seq<Transport.Arrival>, states: seq<Server>,
                          g: Transport.Header, k: nat)
    requires k < |arrivals| == |states|
  {
    && TransportRuns.ReconnectsAt(edge, arrivals, g, k)
    && Plays(states[k], g) && !Connected(states[k], g)
  }

  ghost predicate ReturnsBetween(env: Env, edge: Transport.Env, arrivals: seq<Transport.Arrival>, states: seq<Server>,
                                 g: Transport.Header, i: nat, j: nat)
    requires j <= |arrivals| == |states|
  {
    exists k: nat :: i <= k < j && Returns(env, edge, arrivals, states, g, k)
  }

  /** The session of `g` is bound after `i` arrivals, and to something else after `j`. */
  ghost predicate Rebound(edge: Transport.Env, arrivals: seq<Transport.Arrival>, g: Transport.Header, i: nat, j: nat) {
    && TransportRuns.Named(g) && g.keyId != "" && i <= j <= |arrivals| && TransportRuns.Binding(edge, arrivals, g, i).Some?
    && TransportRuns.Binding(edge, arrivals, g, j) != TransportRuns.Binding(edge, arrivals, g, i)
  }

  /** On the served edge: where a session is bound to changes only by an accepted reconnect of that very session
      while its player, in the server's own simulation, is not connected. */
  lemma ServedBindingsChangeByReconnect(env: Env, edge: Transport.Env, arrivals: seq<Transport.Arrival>, states: seq<Server>,
                                        g: Transport.Header, i: nat, j: nat)
    requires ChecksTokens(env) && Served(env, arrivals, states)
    requires |states| == |arrivals| && j <= |arrivals| && Rebound(edge, arrivals, g, i, j)
    ensures ReturnsBetween(env, edge, arrivals, states, g, i, j)
  {
    hide ChecksTokens, Transport.Registered, TransportRuns.Named, TransportRuns.Binding, TransportRuns.ReconnectsAt, Answers,
      Answers, Reachable, Returns;
    ServedIsRegistered(env, arrivals, states);
    TransportRuns.BindingsChangeByReconnect(edge, arrivals, g, i, j);
    var k: nat :| i <= k < j && TransportRuns.ReconnectsAt(edge, arrivals, g, k);
    ReturnsAt(env, edge, arrivals, states, g, k);
  }

  lemma ReturnsAt(env: Env, edge: Transport.Env, arrivals: seq<Transport.Arrival>, states: seq<Server>,
                  g: Transport.Header, k: nat)
    requires k < |arrivals| == |states| && Answers(states[k], arrivals[k])
    requires TransportRuns.ReconnectsAt(edge, arrivals, g, k)
    ensures Returns(env, edge, arrivals, states, g, k)
  {
    hide Answers, Transport.Run, Transport.DatagramFault, Transport.RemoteKey;
    var s := states[k];
    AcceptedFits(s, edge, Transport.Run(edge, arrivals[..k]), arrivals[k]);
    SamePlays(s, arrivals[k].step.packet.header, g);
    hide Plays, Connected;
  }

  lemma SamePlays(s: Server, h: Transport.Header, g: Transport.Header)
    requires TransportRuns.SamePlayer(h, g)
    ensures Plays(s, h) == Plays(s, g) && Connected(s, h) == Connected(s, g)
  {
  }

  /** Every datagram that gets through a served edge fits the state of the server it reached. */
  lemma ServedPacketsFit(env: Env, edge: Transport.Env, arrivals: seq<Transport.Arrival>, states: seq<Server>, k: nat)
    requires k < |arrivals| == |states| && Answers(states[k], arrivals[k]) && arrivals[k].step.Arrives?
    requires var e := Transport.Run(edge, arrivals[..k]);
      Transport.DatagramFault(edge, e, arrivals[k].look, arrivals[k].step.packet, arrivals[k].step.datagram) == ""
    ensures Fits(states[k], arrivals[k].step.packet.header)
  {
    hide Answers, Transport.Run, Transport.DatagramFault, Fits;
    AcceptedFits(states[k], edge, Transport.Run(edge, arrivals[..k]), arrivals[k]);
  }
}
