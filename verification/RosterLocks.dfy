/** The roster lock of src/server.cpp: once a boss match has begun, or stood ready to begin, nobody joins it. */
module RosterLocks {
  import opened ServerSteps
  import opened ServerInvariants
  import SimTypes
  import SimSteps
  import SimInvariants
  import Positions
  import Sim = Simulation

  /** A boss match whose combat has begun. */
  predicate Begun(m: Match) {
    Positions.BossRules(m.rules) && m.state.boss.started
  }

  /** A boss match of four to eight players, all connected and ready for the next tick. */
  predicate AllSet(m: Match) {
    Positions.AllSet(m.rules, m.state)
  }

  /** A tick, an accepted mode action, a change of a known player's connection. */
  predicate Watched(m: Match, step: Sim.Step) {
    || step.Advance?
    || (step.SubmitAction? && SimSteps.ActionFault(m.rules, m.state, step.action) == "")
    || (step.SetConnected? && step.id in m.state.players)
  }

  ghost predicate BegunAreLocked(s: Server) {
    forall m :: m in s.sims && Begun(s.sims[m]) ==> m in s.locked
  }

  // ---- What starts and what locks ----

  lemma BegunLocks(m: Match)
    requires Begun(m) || AllSet(m)
    ensures ReadyToLock(m)
  {
    hide SimTypes.AuditToken;
  }

  lemma WatchedLocks(m: Match, step: Sim.Step)
    requires Watched(m, step)
    ensures Locks(m, step)
  {
    hide SimSteps.ActionFault;
  }

  /** Only a tick starts combat. */
  lemma OnlyTicksStart(rules: SimTypes.Rules, s: SimSteps.State, step: Sim.Step)
    requires Askable(step) && !step.Advance?
    ensures Sim.Do(rules, s, step).boss.started == s.boss.started
  {
    hide SimSteps.InputFault, SimSteps.ActionFault, SimTypes.AuditToken, SimTypes.IsBossMode;
    match step
    case Grant(card, terms) =>
    case SetConnected(id, connected) =>
    case SubmitInput(input) => InputStartsNothing(rules, s, input);
    case SubmitAction(action) => ActionStartsNothing(rules, s, action);
  }

  lemma InputStartsNothing(rules: SimTypes.Rules, s: SimSteps.State, input: SimTypes.Input)
    ensures SimSteps.AcceptInput(rules, s, input).boss == s.boss && SimSteps.AcceptInput(rules, s, input).roster == s.roster
  {
    if SimSteps.InputFault(rules, s, input) == "" {
      SimInvariants.ValidInput(rules, s, input);
    }
    hide SimSteps.InputFault;
  }

  lemma ActionStartsNothing(rules: SimTypes.Rules, s: SimSteps.State, a: SimTypes.Action)
    ensures SimSteps.AcceptAction(rules, s, a).boss == s.boss && SimSteps.AcceptAction(rules, s, a).roster == s.roster
  {
    if SimSteps.ActionFault(rules, s, a) == "" {
      SimSteps.AcceptedFacts(rules, s, a);
    }
    hide SimSteps.ActionFault;
  }

  // ---- Every command ----

  lemma AskIs(s: Server, m: string, step: Sim.Step)
    requires Reaches(s, m, step)
    ensures var was := s.sims[m];
      Simulate(s, m, step) == WithSim(s, m, was.(state := Sim.Do(was.rules, was.state, step)), Locks(was, step))
  {
    hide Reaches, Sim.Do, Locks, WithSim;
  }

  lemma WithSimLocks(s: Server, id: string, m: Match, locks: bool)
    requires BegunAreLocked(s) && (Begun(m) ==> id in s.locked || (locks && ReadyToLock(m)))
    ensures BegunAreLocked(WithSim(s, id, m, locks))
  {
    hide Begun, ReadyToLock;
  }

  lemma AskLocks(s: Server, id: string, step: Sim.Step)
    requires BegunAreLocked(s)
    ensures BegunAreLocked(Simulate(s, id, step))
  {
    if Reaches(s, id, step) {
      AskIs(s, id, step);
      var was := s.sims[id];
      var m := was.(state := Sim.Do(was.rules, was.state, step));
      hide Reaches, Sim.Do, WithSim, Simulate, BegunAreLocked, ReadyToLock, Locks;
      if step.Advance? {
        WatchedLocks(was, step);
        if Begun(m) {
          BegunLocks(m);
        }
      } else {
        OnlyTicksStart(was.rules, was.state, step);
        BegunAt(s, id);
      }
      WithSimLocks(s, id, m, Locks(was, step));
    }
  }

  lemma BegunAt(s: Server, id: string)
    requires BegunAreLocked(s) && id in s.sims
    ensures Begun(s.sims[id]) ==> id in s.locked
  {
    hide Begun;
  }

  lemma SeatedBegun(m: Match, t: Ticket)
    ensures Begun(Seated(m, t)) == Begun(m)
  {
    hide SimSteps.MayJoin, SimSteps.NewPlayer, SimSteps.SeedAgrees, SimSteps.Opened, SimTypes.IsBossMode;
  }

  lemma FreshNotBegun(env: Env, s: Server, t: Ticket)
    requires t.matchId !in s.sims
    ensures !Begun(Joined(env, s, t))
  {
    hide SimTypes.IsBossMode;
  }

  lemma JoinedBegun(env: Env, s: Server, t: Ticket)
    requires BegunAreLocked(s)
    ensures Begun(Joined(env, s, t)) ==> t.matchId in s.locked
  {
    if t.matchId !in s.sims {
      FreshNotBegun(env, s, t);
    }
    hide Begun, RulesFor, SimSteps.Start;
  }

  lemma AdmitLocks(env: Env, s: Server, t: Ticket)
    requires BegunAreLocked(s)
    ensures BegunAreLocked(Register(env, s, t))
  {
    JoinedBegun(env, s, t);
    SeatedBegun(Joined(env, s, t), t);
    hide RegisterFault, EnrolFault, Joined, Seated, Begun;
  }

  /** Matches may go and locks may go with them, but no match changes and none is unlocked alone. */
  lemma FewerLocked(s: Server, u: Server)
    requires BegunAreLocked(s) && forall m :: m in u.sims ==> m in s.sims && u.sims[m] == s.sims[m] && (m in s.locked ==> m in u.locked)
    ensures BegunAreLocked(u)
  {
    hide Begun;
  }

  lemma HandSims(env: Env, s: Server, signed: Results.Signed, players: seq<string>)
    ensures Submit(env, s, signed, players).sims == s.sims && Submit(env, s, signed, players).locked == s.locked
  {
    if signed.result.matchId in s.sims {
      SubmitUnfold(env, s, signed, players);
    }
    hide Decision;
  }

  lemma CommandLocks(env: Env, s: Server, c: Command)
    requires BegunAreLocked(s)
    ensures BegunAreLocked(Execute(env, s, c))
  {
    hide Register, Simulate, Submit, ConfigureFault, Normal, BegunAreLocked, TicketsOf;
    match c
    case SetUp(m, boss) => FewerLocked(s, Execute(env, s, c));
    case Admit(ticket) => AdmitLocks(env, s, ticket);
    case Ask(m, step) => AskLocks(s, m, step);
    case Hand(signed, players) =>
      HandSims(env, s, signed, players);
      FewerLocked(s, Execute(env, s, c));
    case CallOff(m) => FewerLocked(s, Execute(env, s, c));
    case Close(m) => FewerLocked(s, Execute(env, s, c));
  }

  /** After any commands every boss match whose combat has begun is locked. */
  lemma {:induction false} BegunIsLocked(env: Env, commands: seq<Command>)
    ensures BegunAreLocked(ExecuteAll(env, EMPTY, commands))
    decreases |commands|
  {
    hide Execute, Begun;
    if commands != [] {
      var front := commands[..|commands| - 1];
      BegunIsLocked(env, front);
      hide BegunAreLocked;
      CommandLocks(env, ExecuteAll(env, EMPTY, front), commands[|commands| - 1]);
    }
  }

  /** And a tick, an accepted mode action or a change of connection that leaves a match all set locks it, begun
      or not. */
  lemma AllSetIsLocked(env: Env, s: Server, id: string, step: Sim.Step)
    requires Reaches(s, id, step) && Watched(s.sims[id], step)
    ensures var u := Execute(env, s, Ask(id, step)); id in u.sims && (AllSet(u.sims[id]) || Begun(u.sims[id]) ==> id in u.locked)
  {
    hide Reaches, Watched, Sim.Do, AllSet, Begun, ReadyToLock, Locks, Simulate, Execute;
    ReachedRuns(s, id, step);
    var was := s.sims[id];
    AskIs(s, id, step);
    AskSimulates(env, s, id, step);
    WatchedLocks(was, step);
    var m := was.(state := Sim.Do(was.rules, was.state, step));
    if AllSet(m) || Begun(m) {
      BegunLocks(m);
    }
  }

  lemma ReachedRuns(s: Server, id: string, step: Sim.Step)
    requires Reaches(s, id, step)
    ensures id in s.sims
  {
  }

  lemma AskSimulates(env: Env, s: Server, id: string, step: Sim.Step)
    ensures Execute(env, s, Ask(id, step)) == Simulate(s, id, step)
  {
    hide Simulate;
  }

  // ---- What a lock means ----

  /** The match runs, locked, with these players. */
  ghost predicate Closed(s: Server, id: string, roster: seq<string>) {
    id in s.sims && id in s.locked && s.sims[id].state.roster == roster
  }

  /** Nothing else is wrong with the ticket. */
  ghost predicate Welcome(env: Env, s: Server, t: Ticket) {
    && t.matchId !in s.results && t.matchId !in s.cancelled && t.ticketId !in s.sessions && env.ticketFault(t) == ""
    && !SessionFor(s.sessions, t.matchId, t.playerId) && |TicketsOf(s.sessions, t.matchId)| < Seats(env, t.modeId)
  }

  /** Whatever the ticket, a locked match refuses it, and nothing changes. */
  lemma LockedRefuses(env: Env, s: Server, t: Ticket)
    requires t.matchId in s.locked
    ensures RegisterFault(env, s, t) != "" && Register(env, s, t) == s
    ensures Welcome(env, s, t) ==> RegisterFault(env, s, t) == "boss_roster_locked"
  {
    hide SessionFor, TicketsOf, Seats;
    if env.ticketFault(t) == "" {
      assert RegisterFault(env, s, t) != "";
    }
  }

  lemma StepKeepsRoster(rules: SimTypes.Rules, s: SimSteps.State, step: Sim.Step)
    requires SimInvariants.Inv(rules, s) && Askable(step)
    ensures Sim.Do(rules, s, step).roster == s.roster
  {
    hide SimInvariants.Inv, SimSteps.Tick, SimSteps.AcceptInput, SimSteps.AcceptAction, SimTypes.AuditToken, SimTypes.IsBossMode;
    match step
    case Grant(card, terms) =>
    case SetConnected(id, connected) =>
    case SubmitInput(input) => InputStartsNothing(rules, s, input);
    case SubmitAction(action) => ActionStartsNothing(rules, s, action);
    case Advance => TickKeepsRoster(rules, s);
  }

  lemma TickKeepsRoster(rules: SimTypes.Rules, s: SimSteps.State)
    requires SimInvariants.Inv(rules, s)
    ensures SimSteps.Tick(rules, s).roster == s.roster
  {
    if SimSteps.Defeated(rules, s) {
      SimInvariants.DefeatedTick(rules, s);
      hide SimSteps.Tick, SimInvariants.Inv;
    } else {
      hide *;
      var t := s.tick + 1;
      var m := SimSteps.InputsTick(rules, s, t);
      var u := SimSteps.ActionsTick(rules, m, t);
      SimInvariants.InvParts(rules, s);
      SimInvariants.TickParts(rules, s);
      SimInvariants.InputsTickBooks(rules, s, t);
      SimInvariants.ActionsTickBooks(rules, m, t);
      SimInvariants.FinishKeeps(rules, u, t);
    }
  }

  lemma WithSimKeepsClosed(s: Server, m: string, next: Match, locks: bool, id: string, roster: seq<string>)
    requires Closed(s, id, roster) && (m == id ==> next.state.roster == roster)
    ensures Closed(WithSim(s, m, next, locks), id, roster)
  {
    hide ReadyToLock;
  }

  lemma InvAt(env: Env, s: Server, m: string)
    requires Sound(env, s) && m in s.sims
    ensures SimInvariants.Inv(s.sims[m].rules, s.sims[m].state)
  {
    SoundParts(env, s);
    hide Sound, SimInvariants.Inv, CancelledApart, PendingApart, SessionsMatch, ResultsHold;
  }

  lemma AskableHere(s: Server, m: string, step: Sim.Step)
    requires Reaches(s, m, step)
    ensures m in s.sims && Askable(step)
  {
    hide Askable;
  }

  lemma AskKeepsClosed(env: Env, s: Server, m: string, step: Sim.Step, id: string, roster: seq<string>)
    requires Sound(env, s) && Closed(s, id, roster)
    ensures Closed(Simulate(s, m, step), id, roster)
  {
    if Reaches(s, m, step) {
      hide Sound, Reaches, Sim.Do, Locks, Simulate, Closed, SimInvariants.Inv, WithSim, Askable;
      AskableHere(s, m, step);
      var was := s.sims[m];
      AskIs(s, m, step);
      InvAt(env, s, m);
      StepKeepsRoster(was.rules, was.state, step);
      RosterIs(s, id, roster);
      WithSimKeepsClosed(s, m, was.(state := Sim.Do(was.rules, was.state, step)), Locks(was, step), id, roster);
    } else {
      hide Sound, Reaches;
    }
  }

  lemma RosterIs(s: Server, id: string, roster: seq<string>)
    requires Closed(s, id, roster)
    ensures id in s.sims && s.sims[id].state.roster == roster
  {
  }

  lemma CommandKeepsClosed(env: Env, s: Server, c: Command, id: string, roster: seq<string>)
    requires Sound(env, s) && Closed(s, id, roster) && c != CallOff(id) && c != Close(id)
    ensures Closed(Execute(env, s, c), id, roster)
  {
    hide Sound, Register, Simulate, Submit, ConfigureFault, Normal, TicketsOf;
    match c
    case SetUp(m, boss) =>
    case Admit(ticket) => AdmitKeepsClosed(env, s, ticket, id, roster);
    case Ask(m, step) => AskKeepsClosed(env, s, m, step, id, roster);
    case Hand(signed, players) => HandSims(env, s, signed, players);
    case CallOff(m) =>
    case Close(m) =>
  }

  lemma AdmitKeepsClosed(env: Env, s: Server, t: Ticket, id: string, roster: seq<string>)
    requires Closed(s, id, roster)
    ensures Closed(Register(env, s, t), id, roster)
  {
    if t.matchId == id {
      LockedRefuses(env, s, t);
    }
    hide RegisterFault, EnrolFault, Joined, Seated;
  }

  lemma {:induction false} RunKeepsClosed(env: Env, s: Server, commands: seq<Command>, id: string, roster: seq<string>)
    requires Sound(env, s) && EnvSound(env) && Closed(s, id, roster) && CallOff(id) !in commands && Close(id) !in commands
    ensures Closed(ExecuteAll(env, s, commands), id, roster)
    decreases |commands|
  {
    hide Sound, EnvSound, Execute, Closed;
    if commands != [] {
      var front, c := commands[..|commands| - 1], commands[|commands| - 1];
      RunKeepsClosed(env, s, front, id, roster);
      RunsSound(env, s, front);
      CommandKeepsClosed(env, ExecuteAll(env, s, front), c, id, roster);
    }
  }

  /** From the moment a boss match has begun, whatever is asked of the server, until the match is cancelled or
      retired: every ticket for it is refused and changes nothing, and its players are those it began with. */
  lemma BegunMatchIsClosed(env: Env, before: seq<Command>, after: seq<Command>, id: string, t: Ticket)
    requires EnvSound(env) && CallOff(id) !in after && Close(id) !in after && t.matchId == id
    requires var s := ExecuteAll(env, EMPTY, before); id in s.sims && Begun(s.sims[id])
    ensures var s := ExecuteAll(env, EMPTY, before);
      var u := ExecuteAll(env, s, after);
      && Closed(u, id, s.sims[id].state.roster)
      && RegisterFault(env, u, t) != "" && Register(env, u, t) == u
  {
    hide *;
    var s := ExecuteAll(env, EMPTY, before);
    EmptySound(env);
    RunsSound(env, EMPTY, before);
    BegunIsLocked(env, before);
    BegunAt(s, id);
    LockedMatchIsClosed(env, s, after, id, t);
  }

  /** The same from the moment it is locked. */
  lemma LockedMatchIsClosed(env: Env, s: Server, after: seq<Command>, id: string, t: Ticket)
    requires Sound(env, s) && EnvSound(env) && CallOff(id) !in after && Close(id) !in after && t.matchId == id
    requires id in s.sims && id in s.locked
    ensures var u := ExecuteAll(env, s, after);
      && Closed(u, id, s.sims[id].state.roster)
      && RegisterFault(env, u, t) != "" && Register(env, u, t) == u
  {
    hide Sound, EnvSound, RegisterFault, Register, Execute, ExecuteAll;
    RunKeepsClosed(env, s, after, id, s.sims[id].state.roster);
    LockedRefuses(env, ExecuteAll(env, s, after), t);
  }
}
