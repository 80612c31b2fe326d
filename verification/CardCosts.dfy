/** What a cast of src/card_hand.cpp costs: its energy at once, and the card itself until its cooldown is over. */
module CardCosts {
  import opened Bytes
  import opened CardHand

  /** The catalog's card of this id, the first if there are several. */
  ghost predicate IsCard(catalog: Catalog, id: string, d: Definition) {
    exists i :: 0 <= i < |catalog| && catalog[i] == d && d.cardId == id && forall j :: 0 <= j < i ==> catalog[j].cardId != id
  }

  lemma {:induction false} FoundIsCard(catalog: Catalog, id: string, from: nat)
    requires forall j :: 0 <= j < from && j < |catalog| ==> catalog[j].cardId != id
    ensures FindFrom(catalog, id, from).Some? ==> IsCard(catalog, id, FindFrom(catalog, id, from).value)
    decreases |catalog| - from
  {
    if from < |catalog| && catalog[from].cardId != id {
      FoundIsCard(catalog, id, from + 1);
    }
  }

  /** A cast is let through only with energy for its card, but for a ten-thousandth; it takes the cost off, down to
      nothing, and books the cooldown of that card and of no other. */
  lemma CastCosts(catalog: Catalog, hand: HandState, slot: int, tick: int)
    requires ValidateCast(catalog, hand, slot, tick).Cast?
    ensures 0 <= slot < |hand.cards|
    ensures var id, after := TrimCardId(hand.cards[slot]), AfterCast(catalog, hand, slot, tick);
      exists d :: IsCard(catalog, id, d)
        && hand.energy + 0.0001 >= d.cost
        && after.energy == (if hand.energy - d.cost < 0.0 then 0.0 else hand.energy - d.cost)
        && after.cooldowns == hand.cooldowns[id := tick + d.cooldownTicks]
        && !(id in hand.cooldowns && tick < hand.cooldowns[id])
  {
    var id := TrimCardId(hand.cards[slot]);
    FoundIsCard(catalog, id, 0);
    hide TrimCardId, FindFrom;
    var d := FindFrom(catalog, id, 0).value;
    DrawCosts(hand.(energy := ValidateCast(catalog, hand, slot, tick).energyAfter,
                    cooldowns := hand.cooldowns[id := tick + d.cooldownTicks], cards := Without(hand.cards, slot)));
    hide IsCard, Drawn;
    assert IsCard(catalog, id, d) && hand.energy + 0.0001 >= d.cost;
  }

  lemma DrawCosts(hand: HandState)
    ensures Drawn(hand).energy == hand.energy && Drawn(hand).cooldowns == hand.cooldowns
  {
    hide TrimCardId;
  }

  // ---- Cooldowns ----

  predicate Cools(hand: HandState, id: string, until: int) {
    id in hand.cooldowns && hand.cooldowns[id] >= until
  }

  ghost predicate NoNegativeCooldowns(catalog: Catalog) {
    forall i :: 0 <= i < |catalog| ==> catalog[i].cooldownTicks >= 0
  }

  lemma CastCools(catalog: Catalog, hand: HandState, slot: int, tick: int, id: string, until: int)
    requires NoNegativeCooldowns(catalog) && Cools(hand, id, until)
    ensures Cools(AfterCast(catalog, hand, slot, tick), id, until)
  {
    if ValidateCast(catalog, hand, slot, tick).Cast? {
      CastCosts(catalog, hand, slot, tick);
      hide TrimCardId, AfterCast, ValidateCast;
    } else {
      hide ValidateCast;
    }
  }

  lemma MoveCools(catalog: Catalog, hand: HandState, m: Move, id: string, until: int)
    requires NoNegativeCooldowns(catalog) && Cools(hand, id, until)
    ensures Cools(Moved(catalog, hand, m), id, until)
  {
    hide AfterCast, Drawn, NoNegativeCooldowns;
    match m
    case CastAt(slot, tick) => CastCools(catalog, hand, slot, tick, id, until);
    case Draw => DrawCosts(hand);
    case Recover =>
  }

  lemma {:induction false} RunCools(catalog: Catalog, hand: HandState, played: seq<string>, moves: seq<Move>, id: string, until: int)
    requires NoNegativeCooldowns(catalog) && Cools(hand, id, until)
    ensures Cools(RunMoves(catalog, hand, played, moves).0, id, until)
    decreases |moves|
  {
    if moves != [] {
      MoveCools(catalog, hand, moves[0], id, until);
      var more := if moves[0].CastAt? && ValidateCast(catalog, hand, moves[0].slot, moves[0].tick).Cast?
                  then played + [hand.cards[moves[0].slot]] else played;
      hide Cools, Moved, NoNegativeCooldowns, FindFrom, TrimCardId;
      RunCools(catalog, Moved(catalog, hand, moves[0]), more, moves[1..], id, until);
    }
  }

  lemma CastStartsCooling(catalog: Catalog, hand: HandState, slot: int, tick: int)
    requires ValidateCast(catalog, hand, slot, tick).Cast?
    ensures var r := ValidateCast(catalog, hand, slot, tick);
      Cools(AfterCast(catalog, hand, slot, tick), r.cardId, tick + r.definition.cooldownTicks)
  {
    hide TrimCardId, FindFrom;
    DrawCosts(hand.(energy := ValidateCast(catalog, hand, slot, tick).energyAfter,
                    cooldowns := hand.cooldowns[ValidateCast(catalog, hand, slot, tick).cardId := ValidateCast(catalog, hand, slot, tick).cooldownUntil],
                    cards := Without(hand.cards, slot)));
    hide Drawn;
  }

  /** Whatever is cast, drawn and recovered in between: until its cooldown is over, a card that was cast is refused
      in whatever slot it comes back. */
  lemma NoCastWhileCooling(catalog: Catalog, hand: HandState, slot: int, tick: int, played: seq<string>, moves: seq<Move>, again: int, later: int)
    requires NoNegativeCooldowns(catalog) && ValidateCast(catalog, hand, slot, tick).Cast?
    requires var r, after := ValidateCast(catalog, hand, slot, tick), RunMoves(catalog, AfterCast(catalog, hand, slot, tick), played, moves).0;
      0 <= again < |after.cards| && TrimCardId(after.cards[again]) == r.cardId && later < tick + r.definition.cooldownTicks
    ensures var after := RunMoves(catalog, AfterCast(catalog, hand, slot, tick), played, moves).0;
      !ValidateCast(catalog, after, again, later).Cast? && AfterCast(catalog, after, again, later) == after
  {
    var r := ValidateCast(catalog, hand, slot, tick);
    CastStartsCooling(catalog, hand, slot, tick);
    RunCools(catalog, AfterCast(catalog, hand, slot, tick), played, moves, r.cardId, tick + r.definition.cooldownTicks);
    hide RunMoves, NoNegativeCooldowns;
    StillCooling(catalog, RunMoves(catalog, AfterCast(catalog, hand, slot, tick), played, moves).0, again, later, tick + r.definition.cooldownTicks);
  }

  lemma StillCooling(catalog: Catalog, hand: HandState, slot: int, tick: int, until: int)
    requires 0 <= slot < |hand.cards| && Cools(hand, TrimCardId(hand.cards[slot]), until) && tick < until
    ensures !ValidateCast(catalog, hand, slot, tick).Cast? && AfterCast(catalog, hand, slot, tick) == hand
  {
    hide TrimCardId;
  }

  // ---- Recovery ----

  function RecoveredFor(hand: HandState, ticks: nat): HandState {
    if ticks == 0 then hand else Recovered(RecoveredFor(hand, ticks - 1))
  }

  /** Energy comes back at a four-hundredth a tick, up to ten, and nothing else changes. */
  lemma {:induction false} Recovers(hand: HandState, ticks: nat)
    requires hand.energy <= 10.0
    ensures RecoveredFor(hand, ticks) ==
      hand.(energy := if hand.energy + ticks as real * 0.0025 < 10.0 then hand.energy + ticks as real * 0.0025 else 10.0)
  {
    if ticks > 0 {
      Recovers(hand, ticks - 1);
      assert ticks as real == (ticks - 1) as real + 1.0;
    }
  }
}
