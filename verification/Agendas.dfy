/** In which order a tick of src/simulation.cpp takes its mode actions: by sequence number, then player, then id,
    however they came in. */
module Agendas {
  import opened SimTypes
  import opened SimSteps
  import CardEffects
  import SimInvariants
  import Sim = Simulation

  /** No action id is queued twice. */
  ghost predicate OncePerId(queue: seq<Action>) {
    forall i, j :: 0 <= i < j < |queue| ==> queue[i].actionId != queue[j].actionId
  }

  // ---- The order ----

  lemma ActsOrder()
    ensures CardEffects.Order(ActsBefore)
  {
    forall a: Action, b: Action
      ensures ActsBefore(a, b) || ActsBefore(b, a)
    {
      CardEffects.LeqTotal(a.playerId, b.playerId);
      CardEffects.LeqTotal(a.actionId, b.actionId);
    }
    forall a: Action, b: Action, c: Action | ActsBefore(a, b) && ActsBefore(b, c)
      ensures ActsBefore(a, c)
    {
      ActsTransitive(a, b, c);
    }
  }

  lemma ActsTransitive(a: Action, b: Action, c: Action)
    requires ActsBefore(a, b) && ActsBefore(b, c)
    ensures ActsBefore(a, c)
  {
    hide CardEffects.Leq;
    if a.sequence == b.sequence == c.sequence {
      if CardEffects.Leq(a.playerId, b.playerId) && CardEffects.Leq(b.playerId, c.playerId) {
        CardEffects.LeqTransitive(a.playerId, b.playerId, c.playerId);
        CardEffects.LeqTotal(a.playerId, b.playerId);
      }
      if CardEffects.Leq(a.actionId, b.actionId) && CardEffects.Leq(b.actionId, c.actionId) {
        CardEffects.LeqTransitive(a.actionId, b.actionId, c.actionId);
      }
    }
  }

  // ---- Sorted lists of the same actions ----

  lemma SameFirst(s: seq<Action>, t: seq<Action>)
    requires CardEffects.Sorted(s, ActsBefore) && CardEffects.Sorted(t, ActsBefore) && multiset(s) == multiset(t) && s != [] && t != []
    requires OncePerId(s)
    ensures s[0] == t[0]
  {
    ActsOrder();
    hide ActsBefore;
    assert s[0] in multiset(t) && t[0] in multiset(s);
    if s[0] != t[0] {
      var i :| 0 <= i < |s| && s[i] == t[0];
      var j :| 0 <= j < |t| && t[j] == s[0];
      assert ActsBefore(s[0], t[0]) && ActsBefore(t[0], s[0]);
      BothWays(s[0], t[0]);
      assert false;
    }
  }

  lemma BothWays(a: Action, b: Action)
    requires ActsBefore(a, b) && ActsBefore(b, a)
    ensures a.sequence == b.sequence && a.playerId == b.playerId && a.actionId == b.actionId
  {
    CardEffects.LeqTotal(a.playerId, b.playerId);
    CardEffects.LeqTotal(a.actionId, b.actionId);
    hide CardEffects.Leq;
  }

  lemma {:induction false} SortedUnique(s: seq<Action>, t: seq<Action>)
    requires CardEffects.Sorted(s, ActsBefore) && CardEffects.Sorted(t, ActsBefore) && multiset(s) == multiset(t) && OncePerId(s)
    ensures s == t
    decreases |s|
  {
    hide ActsBefore;
    CardEffects.SameSize(s, t);
    if s != [] {
      SameFirst(s, t);
      CardEffects.TailMultiset(s);
      CardEffects.TailMultiset(t);
      SortedUnique(s[1..], t[1..]);
    }
  }

  // ---- The agenda of a tick ----

  lemma {:induction false} SplitParts(queue: seq<Action>, t: nat, mine: bool)
    ensures forall a :: multiset(Split(queue, t, mine))[a] == (if (a.tick == t) == mine then multiset(queue)[a] else 0)
    decreases |queue|
  {
    if queue != [] {
      SplitParts(queue[1..], t, mine);
      assert queue == [queue[0]] + queue[1..];
    }
  }

  lemma {:induction false} OnceCounts(queue: seq<Action>)
    requires OncePerId(queue)
    ensures forall a :: multiset(queue)[a] <= 1
    decreases |queue|
  {
    if queue != [] {
      OnceCounts(queue[1..]);
      assert queue == [queue[0]] + queue[1..];
    }
  }

  lemma OneOfAnId(queue: seq<Action>)
    requires OncePerId(queue)
    ensures forall a, b :: a in multiset(queue) && b in multiset(queue) && a.actionId == b.actionId ==> a == b
  {
    forall a, b | a in multiset(queue) && b in multiset(queue) && a.actionId == b.actionId
      ensures a == b
    {
      var i :| 0 <= i < |queue| && queue[i] == a;
      var j :| 0 <= j < |queue| && queue[j] == b;
    }
  }

  lemma CountsOnce(queue: seq<Action>)
    requires forall a :: multiset(queue)[a] <= 1
    requires forall a, b :: a in multiset(queue) && b in multiset(queue) && a.actionId == b.actionId ==> a == b
    ensures OncePerId(queue)
  {
    forall i, j | 0 <= i < j < |queue|
      ensures queue[i].actionId != queue[j].actionId
    {
      if queue[i] == queue[j] {
        TwiceCounts(queue, i, j);
      }
    }
  }

  lemma TwiceCounts(queue: seq<Action>, i: nat, j: nat)
    requires i < j < |queue| && queue[i] == queue[j]
    ensures multiset(queue)[queue[i]] >= 2
  {
    assert queue == queue[..i] + [queue[i]] + queue[i + 1..j] + [queue[j]] + queue[j + 1..];
  }

  /** The agenda holds exactly the tick's actions, by sequence number, then player, then id; and it is the same
      however the queue came about. */
  lemma AgendaOrderFree(s: State, u: State, t: nat)
    requires OncePerId(s.queue) && multiset(u.queue) == multiset(s.queue)
    ensures SimInvariants.Agenda(u, t) == SimInvariants.Agenda(s, t)
    ensures multiset(SimInvariants.Agenda(s, t)) == multiset(Split(s.queue, t, true))
    ensures CardEffects.Sorted(SimInvariants.Agenda(s, t), ActsBefore)
  {
    hide *;
    AgendaIs(s, t);
    AgendaIs(u, t);
    SplitParts(s.queue, t, true);
    SplitParts(u.queue, t, true);
    OnceCounts(s.queue);
    OneOfAnId(s.queue);
    assert multiset(Split(s.queue, t, true)) == multiset(Split(u.queue, t, true));
    CountsOnce(SimInvariants.Agenda(s, t));
    SortedUnique(SimInvariants.Agenda(s, t), SimInvariants.Agenda(u, t));
  }

  lemma AgendaIs(s: State, t: nat)
    ensures multiset(SimInvariants.Agenda(s, t)) == multiset(Split(s.queue, t, true))
    ensures CardEffects.Sorted(SimInvariants.Agenda(s, t), ActsBefore)
  {
    ActsOrder();
    CardEffects.SortPermutes(Split(s.queue, t, true), ActsBefore);
    CardEffects.SortSorted(Split(s.queue, t, true), ActsBefore);
    hide Split, CardEffects.Sort, CardEffects.Sorted, ActsBefore;
  }

  // ---- Ids over a run ----

  lemma AcceptedOnce(rules: Rules, s: State, a: Action)
    requires SimInvariants.QueueSound(rules, s) && OncePerId(s.queue)
    ensures OncePerId(AcceptAction(rules, s, a).queue)
  {
    if ActionFault(rules, s, a) == "" {
      AcceptedFacts(rules, s, a);
    }
    hide ActionFault;
  }

  lemma {:induction false} SplitOnce(queue: seq<Action>, t: nat, mine: bool)
    requires OncePerId(queue)
    ensures OncePerId(Split(queue, t, mine))
  {
    SplitParts(queue, t, mine);
    OnceCounts(queue);
    OneOfAnId(queue);
    hide Split, OncePerId;
    CountsOnce(Split(queue, t, mine));
  }

  lemma InputQueues(rules: Rules, s: State, input: Input)
    ensures AcceptInput(rules, s, input).queue == s.queue
  {
    if InputFault(rules, s, input) == "" {
      SimInvariants.ValidInput(rules, s, input);
    }
    hide InputFault;
  }

  lemma TickQueue(rules: Rules, s: State)
    requires SimInvariants.Inv(rules, s)
    ensures Tick(rules, s).queue == if Defeated(rules, s) then [] else Split(s.queue, s.tick + 1, false)
  {
    if Defeated(rules, s) {
      SimInvariants.DefeatedTick(rules, s);
      hide Tick, SimInvariants.Inv;
    } else {
      hide *;
      var t := s.tick + 1;
      var m := InputsTick(rules, s, t);
      var u := ActionsTick(rules, m, t);
      SimInvariants.InvParts(rules, s);
      SimInvariants.TickParts(rules, s);
      SimInvariants.InputsTickBooks(rules, s, t);
      SimInvariants.ActionsTickBooks(rules, m, t);
      SimInvariants.FinishKeeps(rules, u, t);
    }
  }

  lemma OthersQueueNothing(rules: Rules, s: State, step: Sim.Step)
    requires step.Join? || step.Grant? || step.Seed? || step.SetConnected?
    ensures Sim.Do(rules, s, step).queue == s.queue
  {
    hide MayJoin, NewPlayer, Opened, SeedAgrees, AuditToken, IsBossMode;
  }

  lemma StepOnce(rules: Rules, s: State, step: Sim.Step)
    requires SimInvariants.Inv(rules, s) && OncePerId(s.queue)
    ensures OncePerId(Sim.Do(rules, s, step).queue)
  {
    SimInvariants.InvParts(rules, s);
    hide SimInvariants.Inv, OncePerId, Tick, AcceptInput, AcceptAction, Split, AddPlayer, Configure, SeedHand, Connect,
      SimInvariants.RosterSound, SimInvariants.BossSound, SimInvariants.TransfersSound, SimInvariants.InputsSound,
      SimInvariants.SequencesSound, SimInvariants.AppliedSound, SimInvariants.QueueSound;
    match step
    case Join(id, x, y) => OthersQueueNothing(rules, s, step);
    case Grant(card, terms) => OthersQueueNothing(rules, s, step);
    case Seed(id, seed, opening, energy, deck) => OthersQueueNothing(rules, s, step);
    case SetConnected(id, connected) => OthersQueueNothing(rules, s, step);
    case SubmitInput(input) => InputQueues(rules, s, input);
    case SubmitAction(action) => AcceptedOnce(rules, s, action);
    case Advance =>
      TickQueue(rules, s);
      SplitOnce(s.queue, s.tick + 1, false);
      NoneQueued();
  }

  lemma NoneQueued()
    ensures OncePerId([])
  {
  }

  lemma {:induction false} IdsOnce(rules: Rules, steps: seq<Sim.Step>)
    requires BossMode(rules) ==> rules.bossMaxHp > 0
    ensures OncePerId(Sim.Run(rules, Start(rules), steps).queue)
    decreases |steps|
  {
    hide OncePerId, Sim.Do, BossMode;
    if steps == [] {
      NoneQueued();
    } else {
      var front := steps[..|steps| - 1];
      IdsOnce(rules, front);
      SimInvariants.StartsSound(rules);
      Sim.RunsAreSound(rules, Start(rules), front);
      hide SimInvariants.Inv;
      StepOnce(rules, Sim.Run(rules, Start(rules), front), steps[|steps| - 1]);
    }
  }

  /** By sequence number, then by player, then by id. */
  ghost predicate BySequence(actions: seq<Action>) {
    forall i, j :: 0 <= i < j < |actions| ==> InTurn(actions[i], actions[j])
  }

  predicate InTurn(a: Action, b: Action) {
    && a.sequence <= b.sequence
    && (a.sequence == b.sequence ==> CardEffects.Leq(a.playerId, b.playerId))
    && (a.sequence == b.sequence && a.playerId == b.playerId ==> CardEffects.Leq(a.actionId, b.actionId))
  }

  lemma SortedBySequence(actions: seq<Action>)
    requires CardEffects.Sorted(actions, ActsBefore)
    ensures BySequence(actions)
  {
    forall i, j | 0 <= i < j < |actions|
      ensures InTurn(actions[i], actions[j])
    {
      CardEffects.LeqTotal(actions[i].playerId, actions[i].playerId);
      hide CardEffects.Leq;
    }
  }

  /** After any run the next tick takes its actions by sequence number, then player, then id, and would take them
      in the same order had they been queued in any other. */
  lemma RunsActInOrder(rules: Rules, steps: seq<Sim.Step>, u: State)
    requires BossMode(rules) ==> rules.bossMaxHp > 0
    requires multiset(u.queue) == multiset(Sim.Run(rules, Start(rules), steps).queue)
    ensures var s := Sim.Run(rules, Start(rules), steps);
      && BySequence(SimInvariants.Agenda(s, s.tick + 1))
      && SimInvariants.Agenda(u, s.tick + 1) == SimInvariants.Agenda(s, s.tick + 1)
  {
    hide *;
    var s := Sim.Run(rules, Start(rules), steps);
    IdsOnce(rules, steps);
    AgendaOrderFree(s, u, s.tick + 1);
    SortedBySequence(SimInvariants.Agenda(s, s.tick + 1));
  }
}
