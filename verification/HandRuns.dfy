/** Hands in the simulation: whatever is sent and whoever comes and goes, a player's hand changes only as
    src/card_hand.cpp lets it, so that in every run of src/simulation.cpp it balances with the cards cast. */
module HandRuns {
  import opened SimTypes
  import opened SimSteps
  import Bytes
  import CardHand
  import CardEffects
  import BossLedger
  import Sim = Simulation

  /** The hand balances with its book: it came from a checked ticket, and with the cards cast since it makes up
      what was dealt. */
  ghost predicate HandSound(catalog: CardHand.Catalog, hand: CardHand.HandState, book: CardBook) {
    CardHand.TicketDeck(catalog, book.opening, hand.deck) && CardHand.Ledger(book.opening, hand, book.cast)
  }

  ghost predicate HandsSound(rules: Rules, s: State) {
    forall id :: id in s.players ==> id in s.books && HandSound(rules.catalog, s.players[id].hand, s.books[id])
  }

  /** What every catalog of the program meets. */
  ghost predicate Fit(rules: Rules) {
    CardHand.TrimmedCatalog(rules.catalog) && forall i :: 0 <= i < |rules.catalog| ==> rules.catalog[i].cost >= 0.0
  }

  /** The book goes on where it was: same ticket, same deck, the casts at most more. */
  ghost predicate GoesOn(s: State, t: State, id: string) {
    && id in t.players && id in t.books && id in s.players && id in s.books
    && t.players[id].hand.deck == s.players[id].hand.deck && t.books[id].opening == s.books[id].opening
    && s.books[id].cast <= t.books[id].cast
  }

  ghost predicate AllGoOn(s: State, t: State) {
    forall id :: id in s.players && id in s.books ==> GoesOn(s, t, id)
  }

  /** Hands and books of `t` balance if those of `s` do, and go on from them. */
  ghost predicate Balances(rules: Rules, s: State, t: State) {
    (HandsSound(rules, s) ==> HandsSound(rules, t)) && AllGoOn(s, t)
  }

  lemma Then(rules: Rules, s: State, t: State, u: State)
    requires Balances(rules, s, t) && Balances(rules, t, u)
    ensures Balances(rules, s, u)
  {
    hide HandsSound;
    forall id | id in s.players && id in s.books
      ensures GoesOn(s, u, id)
    {
      assert GoesOn(s, t, id) && GoesOn(t, u, id);
    }
  }

  // ---- Steps ----

  /** The same players with the same hands and books. */
  ghost predicate SameHands(s: State, t: State) {
    && t.books == s.books && (forall id :: id in t.players <==> id in s.players)
    && forall id :: id in t.players && id in s.players ==> t.players[id].hand == s.players[id].hand
  }

  lemma SameBalances(rules: Rules, s: State, t: State)
    requires SameHands(s, t)
    ensures Balances(rules, s, t)
  {
    hide HandSound;
  }

  /** One player's hand is moved, with or without a card cast; the others' stay. */
  ghost predicate OneMoves(s: State, t: State, id: string) {
    && id in s.players && (forall x :: x in t.players <==> x in s.players)
    && (forall x :: x in t.players && x in s.players && x != id ==> t.players[x].hand == s.players[x].hand)
    && (forall x :: x != id ==> (x in t.books <==> x in s.books))
    && forall x :: x in t.books && x in s.books && x != id ==> t.books[x] == s.books[x]
  }

  lemma OneBalances(rules: Rules, s: State, t: State, id: string)
    requires OneMoves(s, t, id) && (id in s.books ==> GoesOn(s, t, id))
    requires id in s.books && HandSound(rules.catalog, s.players[id].hand, s.books[id])
      ==> id in t.books && HandSound(rules.catalog, t.players[id].hand, t.books[id])
    ensures Balances(rules, s, t)
  {
    hide HandSound;
  }

  lemma CastSound(rules: Rules, hand: CardHand.HandState, book: CardBook, slot: int, tick: int)
    requires Fit(rules) && CardHand.ValidateCast(rules.catalog, hand, slot, tick).Cast?
    ensures 0 <= slot < |hand.cards|
    ensures var after := CardHand.AfterCast(rules.catalog, hand, slot, tick);
      && after.deck == hand.deck
      && (HandSound(rules.catalog, hand, book) ==> HandSound(rules.catalog, after, book.(cast := book.cast + [hand.cards[slot]])))
  {
    Sim.CastHeld(rules, hand, slot, tick);
    CardHand.CastKeepsDeck(rules.catalog, hand, slot, tick);
    hide CardHand.ValidateCast, CardHand.AfterCast, CardHand.TicketDeck, CardHand.Ledger, CardHand.TrimmedCatalog;
    if HandSound(rules.catalog, hand, book) {
      CardHand.CastKeepsLedger(rules.catalog, book.opening, hand, book.cast, slot, tick);
    }
  }

  lemma CastIs(rules: Rules, s: State, id: string, slot: int, tick: nat)
    requires id in s.players && CardHand.ValidateCast(rules.catalog, s.players[id].hand, slot, tick).Cast?
    requires 0 <= slot < |s.players[id].hand.cards|
    ensures var t := CastCard(rules, s, id, slot, tick);
      && OneMoves(s, t, id) && id in t.players
      && t.players[id].hand == CardHand.AfterCast(rules.catalog, s.players[id].hand, slot, tick)
      && t.books == Entered(s.books, id, s.players[id].hand.cards[slot])
  {
    Sim.CastHeld(rules, s.players[id].hand, slot, tick);
    hide CardHand.ValidateCast, CardHand.AfterCast, BossLedger.Register, IsBossMode;
  }

  lemma CastBalances(rules: Rules, s: State, id: string, slot: int, tick: nat)
    requires Fit(rules)
    ensures Balances(rules, s, CastCard(rules, s, id, slot, tick))
  {
    hide Balances, CardHand.ValidateCast, CardHand.AfterCast, HandSound, CardHand.TrimmedCatalog;
    var t := CastCard(rules, s, id, slot, tick);
    if id in s.players && CardHand.ValidateCast(rules.catalog, s.players[id].hand, slot, tick).Cast? {
      CastSound(rules, s.players[id].hand, BookOf(s.books, id), slot, tick);
      CastIs(rules, s, id, slot, tick);
      hide CastCard;
      OneBalances(rules, s, t, id);
    } else {
      CastRefused(rules, s, id, slot, tick);
      SameBalances(rules, s, t);
    }
  }

  lemma CastRefused(rules: Rules, s: State, id: string, slot: int, tick: nat)
    requires id !in s.players || !CardHand.ValidateCast(rules.catalog, s.players[id].hand, slot, tick).Cast?
    ensures CastCard(rules, s, id, slot, tick) == s
  {
    hide CardHand.ValidateCast, CardHand.AfterCast;
  }

  lemma ConnectHands(rules: Rules, s: State, id: string, connected: bool)
    requires id in s.players
    ensures SameHands(s, Connect(rules, s, id, connected))
  {
  }

  lemma ShootHands(rules: Rules, s: State, id: string, input: Input, tick: nat)
    ensures SameHands(s, Shoot(rules, s, id, input, tick))
  {
    hide BossLedger.Register, ReadyToStart;
  }

  lemma QuietHands(rules: Rules, s: State, id: string, tick: nat)
    requires id in s.players
    ensures SameHands(s, s.(players := s.players[id := Heard(rules, s, id, tick)]))
  {
    hide SilentTicks;
  }

  lemma MovedBalances(rules: Rules, s: State, id: string, tick: nat)
    requires id in s.players
    ensures Balances(rules, s, Moved(rules, s, id, tick))
  {
    RecoveredBy(rules, s, id, tick);
    if id in s.books {
      RecoveredSound(rules.catalog, s.players[id].hand, s.books[id]);
    }
    hide Balances, Moved, HandSound, CardHand.Recovered;
    OneBalances(rules, s, Moved(rules, s, id, tick), id);
  }

  lemma RecoveredSound(catalog: CardHand.Catalog, hand: CardHand.HandState, book: CardBook)
    ensures CardHand.Recovered(hand).deck == hand.deck
    ensures HandSound(catalog, hand, book) ==> HandSound(catalog, CardHand.Recovered(hand), book)
  {
    if HandSound(catalog, hand, book) {
      CardHand.RecoverKeepsLedger(book.opening, hand, book.cast);
    }
    hide CardHand.Ledger, CardHand.TicketDeck;
  }

  lemma RecoveredBy(rules: Rules, s: State, id: string, tick: nat)
    requires id in s.players
    ensures var t := Moved(rules, s, id, tick);
      OneMoves(s, t, id) && t.books == s.books && t.players[id].hand == CardHand.Recovered(s.players[id].hand)
  {
    hide SilentTicks, Axis, Clamp, CardHand.Recovered;
  }

  lemma PlayTickBalances(rules: Rules, s: State, id: string, tick: nat)
    requires Fit(rules) && id in s.players
    ensures Balances(rules, s, PlayTick(rules, s, id, tick))
  {
    hide Silenced, Heard, Moved, Shoot, CastCard, Connect, TickInput, Balances, SameHands, Fit;
    if Silenced(rules, s, id, tick) {
      var quiet := s.(players := s.players[id := Heard(rules, s, id, tick)]);
      QuietHands(rules, s, id, tick);
      SameBalances(rules, s, quiet);
      ConnectHands(rules, quiet, id, false);
      SameBalances(rules, quiet, Connect(rules, quiet, id, false));
      Then(rules, s, quiet, Connect(rules, quiet, id, false));
    } else {
      var input, moved := TickInput(s, id, tick), Moved(rules, s, id, tick);
      var shot := Shoot(rules, moved, id, input, tick);
      MovedBalances(rules, s, id, tick);
      ShootHands(rules, moved, id, input, tick);
      SameBalances(rules, moved, shot);
      Then(rules, s, moved, shot);
      CastBalances(rules, shot, id, input.cardSlot, tick);
      Then(rules, s, shot, CastCard(rules, shot, id, input.cardSlot, tick));
    }
  }

  lemma Unchanged(rules: Rules, s: State)
    ensures Balances(rules, s, s)
  {
    SameBalances(rules, s, s);
    hide Balances;
  }

  lemma {:induction false} TickPlayersBalance(rules: Rules, s: State, ids: seq<string>, enabled: bool, tick: nat)
    requires Fit(rules)
    ensures Balances(rules, s, TickPlayers(rules, s, ids, enabled, tick))
    decreases |ids|
  {
    hide Balances, PlayTick, Fit;
    if ids == [] {
      Unchanged(rules, s);
    } else {
      var before, id := TickPlayers(rules, s, ids[..|ids| - 1], enabled, tick), ids[|ids| - 1];
      TickPlayersBalance(rules, s, ids[..|ids| - 1], enabled, tick);
      if id in before.players && before.players[id].connected && enabled {
        PlayTickBalances(rules, before, id, tick);
        Then(rules, s, before, PlayTick(rules, before, id, tick));
      }
    }
  }

  lemma ActionBalances(rules: Rules, s: State, a: Action, tick: nat)
    requires Fit(rules)
    ensures Balances(rules, s, ApplyAction(rules, s, a, tick))
  {
    var slot := if a.slot.Some? then a.slot.value else -1;
    var cast := CastCard(rules, s, a.playerId, slot, tick);
    CastBalances(rules, s, a.playerId, slot, tick);
    SameBalances(rules, cast, Counted(cast));
    hide CastCard, Balances, Fit;
    if a.actionType == "cast_card" {
      Then(rules, s, cast, Counted(cast));
    } else {
      OtherActionHands(rules, s, a, tick);
      SameBalances(rules, s, ApplyAction(rules, s, a, tick));
    }
  }

  lemma OtherActionHands(rules: Rules, s: State, a: Action, tick: nat)
    requires a.actionType != "cast_card"
    ensures SameHands(s, ApplyAction(rules, s, a, tick))
  {
    hide CastCard;
  }

  lemma {:induction false} ActionsBalance(rules: Rules, s: State, actions: seq<Action>, tick: nat)
    requires Fit(rules)
    ensures Balances(rules, s, ApplyActions(rules, s, actions, tick))
    decreases |actions|
  {
    hide Balances, ApplyAction, Fit;
    if actions == [] {
      Unchanged(rules, s);
    } else {
      var before := ApplyActions(rules, s, actions[..|actions| - 1], tick);
      ActionsBalance(rules, s, actions[..|actions| - 1], tick);
      ActionBalances(rules, before, actions[|actions| - 1], tick);
      Then(rules, s, before, ApplyAction(rules, before, actions[|actions| - 1], tick));
    }
  }

  lemma InputsTickBalances(rules: Rules, s: State, t: nat)
    requires Fit(rules)
    ensures Balances(rules, s, InputsTick(rules, s, t))
  {
    var enabled := InputEnabled(rules, s, t);
    var played := TickPlayers(rules, s, s.roster, enabled, t);
    TickPlayersBalance(rules, s, s.roster, enabled, t);
    hide TickPlayers, Balances, WithoutTick, InputEnabled, Fit;
    SameBalances(rules, played, InputsTick(rules, s, t));
    Then(rules, s, played, InputsTick(rules, s, t));
  }

  lemma ActionsTickBalances(rules: Rules, s: State, t: nat)
    requires Fit(rules)
    ensures Balances(rules, s, ActionsTick(rules, s, t))
  {
    var actions := CardEffects.Sort(Split(s.queue, t, true), ActsBefore);
    var acted := ApplyActions(rules, s, actions, t);
    ActionsBalance(rules, s, actions, t);
    hide ApplyActions, Split, CardEffects.Sort, Balances, Fit;
    SameBalances(rules, acted, ActionsTick(rules, s, t));
    Then(rules, s, acted, ActionsTick(rules, s, t));
  }

  lemma FinishHands(rules: Rules, s: State, t: nat)
    ensures SameHands(s, Finish(rules, s, t))
  {
    hide ReadyToStart, IsBossMode;
  }

  lemma DroppedHands(s: State)
    ensures SameHands(s, s.(inputs := map[], queue := [], cleared := true))
  {
  }

  lemma TickBalances(rules: Rules, s: State)
    requires Fit(rules)
    ensures Balances(rules, s, Tick(rules, s))
  {
    hide Balances, SameHands, InputsTick, ActionsTick, Finish, Defeated, Fit;
    if Defeated(rules, s) {
      DroppedHands(s);
      SameBalances(rules, s, Tick(rules, s));
    } else {
      var t := s.tick + 1;
      var m := InputsTick(rules, s, t);
      var u := ActionsTick(rules, m, t);
      InputsTickBalances(rules, s, t);
      ActionsTickBalances(rules, m, t);
      Then(rules, s, m, u);
      FinishHands(rules, u, t);
      SameBalances(rules, u, Finish(rules, u, t));
      Then(rules, s, u, Finish(rules, u, t));
    }
  }

  // ---- Opening hands ----

  /** Hands are seeded from tickets that passed the check. */
  ghost predicate Checked(rules: Rules, step: Sim.Step) {
    step.Seed? ==> CardHand.TicketDeck(rules.catalog, step.opening, step.deck) && 0.0 <= step.energy <= CardHand.MAX_ENERGY
  }

  /** The step deals this player a new hand. */
  predicate Reseeds(step: Sim.Step, id: string) {
    step.Seed? && step.id == id
  }

  lemma EmptyHand(catalog: CardHand.Catalog)
    ensures HandSound(catalog, CardHand.HandState([], 0.0, map[], 0, []), CardBook([], []))
  {
    CardHand.OpeningKeepsLedger(catalog, [], 0.0, []);
    assert CardHand.Opened([], 0.0, []) == CardHand.HandState([], 0.0, map[], 0, []);
    hide CardHand.Ledger;
  }

  lemma SeededHand(catalog: CardHand.Catalog, hand: CardHand.HandState, opening: seq<string>, energy: real, deck: seq<string>)
    requires CardHand.TicketDeck(catalog, opening, deck) && 0.0 <= energy <= CardHand.MAX_ENERGY
    ensures HandSound(catalog, Opened(hand, opening, energy, deck), CardBook(opening, []))
  {
    CardHand.OpeningKeepsLedger(catalog, opening, energy, deck);
    CooldownsAside(opening, CardHand.Opened(opening, energy, deck), hand.cooldowns);
    hide CardHand.TicketDeck, CardHand.Ledger;
  }

  lemma CooldownsAside(opening: seq<string>, hand: CardHand.HandState, cooldowns: map<string, int>)
    requires CardHand.Ledger(opening, hand, [])
    ensures CardHand.Ledger(opening, hand.(cooldowns := cooldowns), [])
  {
    hide CardHand.Subsequence, CardHand.Dealt;
  }

  lemma JoinBalances(rules: Rules, s: State, id: string, x: int, y: int)
    ensures Balances(rules, s, AddPlayer(rules, s, id, x, y))
  {
    EmptyHand(rules.catalog);
    hide HandSound, CardEffects.Insert, SpawnPoint, Clamp, NeutralInput, AuditToken, IsBossMode;
  }

  lemma SeedSound(rules: Rules, s: State, step: Sim.Step)
    requires step.Seed? && Checked(rules, step) && HandsSound(rules, s)
    ensures HandsSound(rules, Sim.Do(rules, s, step))
  {
    if step.id in s.players {
      SeededHand(rules.catalog, s.players[step.id].hand, step.opening, step.energy, step.deck);
    }
    hide HandSound, SeedAgrees, Opened;
  }

  lemma SeedGoesOn(rules: Rules, s: State, step: Sim.Step, id: string)
    requires step.Seed? && step.id != id && id in s.players && id in s.books
    ensures GoesOn(s, Sim.Do(rules, s, step), id)
  {
    hide SeedAgrees, Opened;
  }

  lemma OtherStepBalances(rules: Rules, s: State, step: Sim.Step)
    requires Fit(rules) && !step.Seed?
    ensures Balances(rules, s, Sim.Do(rules, s, step))
  {
    hide Balances, SameHands, AddPlayer, Tick, Fit, AcceptInput, AcceptAction, Configure, Connect;
    match step
    case Join(id, x, y) => JoinBalances(rules, s, id, x, y);
    case Advance => TickBalances(rules, s);
    case _ =>
      OtherStepHands(rules, s, step);
      SameBalances(rules, s, Sim.Do(rules, s, step));
  }

  lemma OtherStepHands(rules: Rules, s: State, step: Sim.Step)
    requires !step.Join? && !step.Seed? && !step.Advance?
    ensures SameHands(s, Sim.Do(rules, s, step))
  {
    hide InputFault, ActionFault, AuditToken, IsBossMode;
    match step
    case Grant(card, terms) =>
    case SetConnected(id, connected) =>
    case SubmitInput(input) => InputHands(rules, s, input);
    case SubmitAction(action) => ActionHands(rules, s, action);
  }

  lemma InputHands(rules: Rules, s: State, input: Input)
    ensures SameHands(s, AcceptInput(rules, s, input))
  {
    hide AuditToken;
  }

  lemma ActionHands(rules: Rules, s: State, a: Action)
    ensures SameHands(s, AcceptAction(rules, s, a))
  {
    if ActionFault(rules, s, a) == "" {
      AcceptedFacts(rules, s, a);
    }
    hide ActionFault;
  }

  lemma {:induction false} RunsSound(rules: Rules, s: State, steps: seq<Sim.Step>)
    requires Fit(rules) && HandsSound(rules, s) && forall i :: 0 <= i < |steps| ==> Checked(rules, steps[i])
    ensures HandsSound(rules, Sim.Run(rules, s, steps))
    decreases |steps|
  {
    hide Checked, HandsSound, Sim.Do, Fit;
    if steps != [] {
      var front, last := steps[..|steps| - 1], steps[|steps| - 1];
      RunsSound(rules, s, front);
      StepSound(rules, Sim.Run(rules, s, front), last);
    }
  }

  lemma StepSound(rules: Rules, s: State, step: Sim.Step)
    requires Fit(rules) && HandsSound(rules, s) && Checked(rules, step)
    ensures HandsSound(rules, Sim.Do(rules, s, step))
  {
    hide Checked, HandsSound, Sim.Do, Fit;
    if step.Seed? {
      SeedSound(rules, s, step);
    } else {
      OtherStepBalances(rules, s, step);
    }
  }

  /** Until the player is dealt a new hand his book goes on: the ticket stays, the casts at most grow. */
  lemma {:induction false} RunsGoOn(rules: Rules, s: State, steps: seq<Sim.Step>, id: string)
    requires Fit(rules) && id in s.players && id in s.books
    requires forall i :: 0 <= i < |steps| ==> !Reseeds(steps[i], id)
    ensures GoesOn(s, Sim.Run(rules, s, steps), id)
    decreases |steps|
  {
    hide Sim.Do, Fit;
    if steps != [] {
      var front, last := steps[..|steps| - 1], steps[|steps| - 1];
      var t := Sim.Run(rules, s, front);
      RunsGoOn(rules, s, front, id);
      if last.Seed? {
        SeedGoesOn(rules, t, last, id);
      } else {
        OtherStepBalances(rules, t, last);
        assert GoesOn(t, Sim.Do(rules, t, last), id);
      }
    }
  }

  /** After any run of the simulation whose hands came from checked tickets: what a player holds, with the cards
      he has cast since he was dealt his hand, is as a multiset what his deck has dealt, or his opening hand when
      he has no deck; the hand keeps the deal's order and its limit, and the energy its bounds. */
  lemma HandsKeepLedger(rules: Rules, steps: seq<Sim.Step>, id: string)
    requires Fit(rules) && forall i :: 0 <= i < |steps| ==> Checked(rules, steps[i])
    requires id in Sim.Run(rules, Start(rules), steps).players
    ensures var s := Sim.Run(rules, Start(rules), steps);
      && id in s.books
      && CardHand.TicketDeck(rules.catalog, s.books[id].opening, s.players[id].hand.deck)
      && CardHand.Ledger(s.books[id].opening, s.players[id].hand, s.books[id].cast)
  {
    RunsSound(rules, Start(rules), steps);
    hide Checked, Sim.Run, CardHand.TicketDeck, CardHand.Ledger;
  }

  /** The hand a ticket dealt, any time later: the opening hand of that very ticket and its deck, played out by
      the casts since. */
  lemma HandSinceTicket(rules: Rules, s: State, seed: Sim.Step, steps: seq<Sim.Step>, id: string)
    requires Fit(rules) && HandsSound(rules, s) && Reseeds(seed, id) && id in s.players && SeedAgrees(s, seed.seed)
    requires Checked(rules, seed) && forall i :: 0 <= i < |steps| ==> Checked(rules, steps[i]) && !Reseeds(steps[i], id)
    ensures var t := Sim.Run(rules, Sim.Do(rules, s, seed), steps);
      && id in t.players && id in t.books && t.books[id].opening == seed.opening && t.players[id].hand.deck == seed.deck
      && CardHand.Ledger(seed.opening, t.players[id].hand, t.books[id].cast)
  {
    var dealt := Sim.Do(rules, s, seed);
    Dealt(rules, s, seed);
    hide Checked, HandsSound, Sim.Do, Sim.Run, SeedAgrees, Fit, CardHand.Ledger;
    StepSound(rules, s, seed);
    RunsSound(rules, dealt, steps);
    RunsGoOn(rules, dealt, steps, id);
    SoundAt(rules, Sim.Run(rules, dealt, steps), id);
  }

  lemma Dealt(rules: Rules, s: State, seed: Sim.Step)
    requires seed.Seed? && seed.id in s.players && SeedAgrees(s, seed.seed)
    ensures var t := Sim.Do(rules, s, seed);
      seed.id in t.players && seed.id in t.books && t.books[seed.id] == CardBook(seed.opening, []) && t.players[seed.id].hand.deck == seed.deck
  {
    hide SeedAgrees;
  }

  lemma SoundAt(rules: Rules, s: State, id: string)
    requires HandsSound(rules, s) && id in s.players
    ensures id in s.books && CardHand.Ledger(s.books[id].opening, s.players[id].hand, s.books[id].cast)
  {
    hide CardHand.Ledger, CardHand.TicketDeck;
  }

  /** A newcomer whose ticket's seed does not agree with the match's is in the match without a hand; otherwise he
      holds his opening hand. */
  lemma HandFollowsSeed(rules: Rules, s: State, id: string, x: int, y: int, seed: ServerSeed, opening: seq<string>, energy: real, deck: seq<string>)
    requires MayJoin(rules, s, id)
    ensures var t := SeedHand(AddPlayer(rules, s, id, x, y), id, seed, opening, energy, deck);
      && id in t.players
      && t.players[id].hand == (if SeedAgrees(s, seed) then CardHand.Opened(opening, energy, deck) else CardHand.HandState([], 0.0, map[], 0, []))
      && t.purgeSeed == (if SeedAgrees(s, seed) && seed.SeedIs? then Bytes.Some(seed.value) else s.purgeSeed)
  {
    hide MayJoin, CardEffects.Insert, SpawnPoint, Clamp, NeutralInput;
  }
}
