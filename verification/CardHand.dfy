/** Hands, decks and casting of src/card_hand.cpp, and the ledger they keep: every card ever dealt from the
    cyclic deck is in the hand or has been played. */
module CardHand {
  import opened Bytes

  const HAND_LIMIT: nat := 4
  const DECK_LIMIT: nat := 20
  const MAX_ENERGY: real := 10.0
  const ENERGY_PER_TICK: real := 0.0025

  datatype Definition = Definition(
    cardId: string, effectKind: string, cost: real, cooldownTicks: int, durationTicks: int, damage: int,
    patternId: string, purgeRadius: real, purgeCount: int)

  type Catalog = seq<Definition>

  datatype HandState = HandState(cards: seq<string>, energy: real, cooldowns: map<string, int>, drawCursor: nat, deck: seq<string>)

  datatype CastResult =
    | NoCard(energyAfter: real)
    | Refused(reason: string)
    | Cast(definition: Definition, cardId: string, slot: nat, energyAfter: real, cooldownUntil: int)

  // ---- Card ids ----

  predicate Blank(c: char) {
    c == ' ' || c == '\t' || c == '\n' || c == '\r' || c == '\U{b}' || c == '\U{c}'
  }

  function TrimLeft(s: string): string {
    if s != "" && Blank(s[0]) then TrimLeft(s[1..]) else s
  }

  function TrimRight(s: string): string {
    if s != "" && Blank(s[|s| - 1]) then TrimRight(s[..|s| - 1]) else s
  }

  function TrimCardId(s: string): string {
    TrimRight(TrimLeft(s))
  }

  function FindFrom(catalog: Catalog, id: string, i: nat): Option<Definition>
    decreases |catalog| - i
  {
    if i >= |catalog| then None
    else if catalog[i].cardId == id then Some(catalog[i])
    else FindFrom(catalog, id, i + 1)
  }

  method FindCardDefinition(catalog: Catalog, id: string) returns (found: Option<Definition>)
    ensures found == FindFrom(catalog, id, 0)
    ensures found.Some? <==> exists i :: 0 <= i < |catalog| && catalog[i].cardId == id
    ensures found.Some? ==> found.value in catalog && found.value.cardId == id
  {
    for i := 0 to |catalog|
      invariant FindFrom(catalog, id, 0) == FindFrom(catalog, id, i)
      invariant forall j :: 0 <= j < i ==> catalog[j].cardId != id
    {
      if catalog[i].cardId == id {
        return Some(catalog[i]);
      }
    }
    found := None;
  }

  // ---- Casting and drawing ----

  /** ValidateCast: -1 plays no card; otherwise slot, catalog, cooldown and energy are checked in turn. */
  function ValidateCast(catalog: Catalog, hand: HandState, slot: int, tick: int): CastResult {
    if slot == -1 then NoCard(hand.energy)
    else if slot < 0 || slot >= |hand.cards| then Refused("cast_card_slot_out_of_range")
    else
      var id := TrimCardId(hand.cards[slot]);
      var found := FindFrom(catalog, id, 0);
      if found.None? then Refused("cast_card_unknown_card")
      else if id in hand.cooldowns && tick < hand.cooldowns[id] then Refused("cast_card_on_cooldown")
      else if hand.energy + 0.0001 < found.value.cost then Refused("cast_card_insufficient_energy")
      else
        var left := hand.energy - found.value.cost;
        Cast(found.value, id, slot, if left < 0.0 then 0.0 else left, tick + found.value.cooldownTicks)
  }

  /** DrawServerCard: the cursor moves on even past a blank card, which is not taken. */
  function Drawn(hand: HandState): HandState {
    if |hand.cards| >= HAND_LIMIT || hand.deck == [] then hand else
    var id := TrimCardId(hand.deck[hand.drawCursor % |hand.deck|]);
    hand.(drawCursor := hand.drawCursor + 1, cards := if id == "" then hand.cards else hand.cards + [id])
  }

  function Without(cards: seq<string>, i: nat): seq<string>
    requires i < |cards|
  {
    cards[..i] + cards[i + 1..]
  }

  /** What an accepted cast leaves behind: energy and cooldown booked, the card gone, a card drawn. */
  function Played(hand: HandState, r: CastResult): HandState
    requires r.Cast? && r.slot < |hand.cards|
  {
    Drawn(hand.(energy := r.energyAfter, cooldowns := hand.cooldowns[r.cardId := r.cooldownUntil],
                cards := Without(hand.cards, r.slot)))
  }

  function AfterCast(catalog: Catalog, hand: HandState, slot: int, tick: int): HandState {
    var r := ValidateCast(catalog, hand, slot, tick);
    if r.Cast? then Played(hand, r) else hand
  }

  class Hand {
    var cards: seq<string>
    var energy: real
    var cooldowns: map<string, int>
    var drawCursor: nat
    var deck: seq<string>

    function State(): HandState
      reads this
    {
      HandState(cards, energy, cooldowns, drawCursor, deck)
    }

    /** SeedPlayerHand: with a deck the dealing goes on behind the opening hand. */
    constructor (opening: seq<string>, energy: real, deck: seq<string>)
      ensures State() == Opened(opening, energy, deck)
    {
      cards := opening;
      this.energy := energy;
      cooldowns := map[];
      drawCursor := if deck == [] then 0 else |opening|;
      this.deck := deck;
    }

    method DrawServerCard() returns (taken: bool)
      modifies this
      ensures State() == Drawn(old(State()))
      ensures taken <==> |cards| == |old(cards)| + 1
    {
      if |cards| >= HAND_LIMIT || deck == [] {
        return false;
      }
      var id := TrimCardId(deck[drawCursor % |deck|]);
      drawCursor := drawCursor + 1;
      if id == "" {
        return false;
      }
      cards := cards + [id];
      taken := true;
    }

    /** ApplyCast: a refused cast and the no-card sentinel change nothing. */
    method ApplyCast(catalog: Catalog, slot: int, tick: int) returns (r: CastResult)
      modifies this
      ensures r == ValidateCast(catalog, old(State()), slot, tick)
      ensures State() == AfterCast(catalog, old(State()), slot, tick)
      ensures !r.Cast? ==> State() == old(State())
    {
      r := ValidateCast(catalog, State(), slot, tick);
      if !r.Cast? {
        return;
      }
      energy := r.energyAfter;
      cooldowns := cooldowns[r.cardId := r.cooldownUntil];
      cards := cards[..r.slot] + cards[r.slot + 1..];
      var taken := DrawServerCard();
    }

    method Recover()
      modifies this
      ensures State() == Recovered(old(State()))
    {
      energy := if energy + ENERGY_PER_TICK < MAX_ENERGY then energy + ENERGY_PER_TICK else MAX_ENERGY;
    }
  }

  function Opened(opening: seq<string>, energy: real, deck: seq<string>): HandState {
    HandState(opening, energy, map[], if deck == [] then 0 else |opening|, deck)
  }

  function Recovered(hand: HandState): HandState {
    hand.(energy := if hand.energy + ENERGY_PER_TICK < MAX_ENERGY then hand.energy + ENERGY_PER_TICK else MAX_ENERGY)
  }

  // ---- Tickets ----

  /** Catalog ids carry no blanks at their ends and are not empty. */
  ghost predicate TrimmedCatalog(catalog: Catalog) {
    forall i :: 0 <= i < |catalog| ==> catalog[i].cardId != "" && TrimCardId(catalog[i].cardId) == catalog[i].cardId
  }

  predicate Known(catalog: Catalog, id: string) {
    exists i :: 0 <= i < |catalog| && catalog[i].cardId == id
  }

  /** The ticket's hand and deck checks. */
  predicate TicketDeck(catalog: Catalog, opening: seq<string>, deck: seq<string>) {
    && |opening| <= HAND_LIMIT && (forall i :: 0 <= i < |opening| ==> Known(catalog, opening[i]))
    && |deck| <= DECK_LIMIT && (forall i :: 0 <= i < |deck| ==> Known(catalog, deck[i]))
    && (deck == [] || opening <= deck)
  }

  // ---- The ledger ----

  /** The first `n` cards dealt from a deck that starts over at its end. */
  function Dealt(deck: seq<string>, n: nat): (s: seq<string>)
    requires deck != []
    ensures |s| == n
  {
    seq(n, i requires 0 <= i < n => deck[i % |deck|])
  }

  /** Every card the player ever had: the dealt ones, or the opening hand when there is no deck. */
  function EverHeld(opening: seq<string>, hand: HandState): seq<string> {
    if hand.deck == [] then opening else Dealt(hand.deck, hand.drawCursor)
  }

  /** `a` is what is left of `b` when some of its elements are dropped. */
  predicate Subsequence(a: seq<string>, b: seq<string>)
    decreases |b|
  {
    a == [] || (b != [] &&
      ((a[|a| - 1] == b[|b| - 1] && Subsequence(a[..|a| - 1], b[..|b| - 1])) || Subsequence(a, b[..|b| - 1])))
  }

  ghost predicate Ledger(opening: seq<string>, hand: HandState, played: seq<string>) {
    && |hand.cards| <= HAND_LIMIT && 0.0 <= hand.energy <= MAX_ENERGY
    && multiset(hand.cards) + multiset(played) == multiset(EverHeld(opening, hand))
    && Subsequence(hand.cards, EverHeld(opening, hand))
  }

  lemma {:induction false} SubsequenceSelf(a: seq<string>)
    ensures Subsequence(a, a)
  {
    if a != [] {
      SubsequenceSelf(a[..|a| - 1]);
    }
  }

  lemma SubsequenceSnoc(a: seq<string>, b: seq<string>, x: string)
    requires Subsequence(a, b)
    ensures Subsequence(a + [x], b + [x])
  {
    assert (a + [x])[..|a|] == a && (b + [x])[..|b|] == b;
  }

  lemma SubsequenceWider(a: seq<string>, b: seq<string>, x: string)
    requires Subsequence(a, b)
    ensures Subsequence(a, b + [x])
  {
    assert (b + [x])[..|b|] == b;
  }

  lemma {:induction false} SubsequenceWithout(a: seq<string>, b: seq<string>, i: nat)
    requires Subsequence(a, b) && i < |a|
    ensures Subsequence(Without(a, i), b)
    decreases |b|
  {
    var n, bb := |a| - 1, b[..|b| - 1];
    assert b == bb + [b[|b| - 1]];
    if a[n] == b[|b| - 1] && Subsequence(a[..n], bb) {
      if i == n {
        assert Without(a, i) == a[..n];
        SubsequenceWider(a[..n], bb, b[|b| - 1]);
      } else {
        SubsequenceWithout(a[..n], bb, i);
        assert Without(a, i) == Without(a[..n], i) + [a[n]];
        SubsequenceSnoc(Without(a[..n], i), bb, a[n]);
      }
    } else {
      SubsequenceWithout(a, bb, i);
      SubsequenceWider(Without(a, i), bb, b[|b| - 1]);
    }
  }

  lemma DealtNext(deck: seq<string>, n: nat)
    requires deck != []
    ensures Dealt(deck, n + 1) == Dealt(deck, n) + [deck[n % |deck|]]
  {
  }

  /** The opening hand of a checked ticket is the first deal of its deck. */
  lemma OpeningKeepsLedger(catalog: Catalog, opening: seq<string>, energy: real, deck: seq<string>)
    requires TicketDeck(catalog, opening, deck) && 0.0 <= energy <= MAX_ENERGY
    ensures Ledger(opening, Opened(opening, energy, deck), [])
  {
    SubsequenceSelf(opening);
    if deck != [] {
      PrefixIsDealt(deck, opening);
    }
    hide Dealt, Subsequence, Known;
  }

  lemma PrefixIsDealt(deck: seq<string>, opening: seq<string>)
    requires deck != [] && opening <= deck
    ensures Dealt(deck, |opening|) == opening
  {
    forall i | 0 <= i < |opening|
      ensures Dealt(deck, |opening|)[i] == opening[i]
    {
      SmallMod(i, |deck|);
      assert Dealt(deck, |opening|)[i] == deck[i % |deck|];
    }
  }

  lemma SmallMod(i: nat, n: nat)
    requires i < n
    ensures i % n == i
  {
  }

  lemma DeckIdsTrimmed(catalog: Catalog, deck: seq<string>, i: nat)
    requires TrimmedCatalog(catalog) && i < |deck| && forall k :: 0 <= k < |deck| ==> Known(catalog, deck[k])
    ensures TrimCardId(deck[i]) == deck[i] && deck[i] != ""
  {
  }

  lemma DrawnIs(catalog: Catalog, opening: seq<string>, hand: HandState)
    requires TrimmedCatalog(catalog) && TicketDeck(catalog, opening, hand.deck)
    requires |hand.cards| < HAND_LIMIT && hand.deck != []
    ensures var next := hand.deck[hand.drawCursor % |hand.deck|];
      && Drawn(hand) == hand.(drawCursor := hand.drawCursor + 1, cards := hand.cards + [next])
      && Dealt(hand.deck, hand.drawCursor + 1) == Dealt(hand.deck, hand.drawCursor) + [next]
  {
    DeckIdsTrimmed(catalog, hand.deck, hand.drawCursor % |hand.deck|);
    DealtNext(hand.deck, hand.drawCursor);
    hide TrimCardId, Dealt;
  }

  lemma OneMoreHeld(dealt: seq<string>, cards: seq<string>, played: seq<string>, next: string)
    requires multiset(cards) + multiset(played) == multiset(dealt)
    ensures multiset(cards + [next]) + multiset(played) == multiset(dealt + [next])
  {
  }

  lemma DrawKeepsLedger(catalog: Catalog, opening: seq<string>, hand: HandState, played: seq<string>)
    requires TrimmedCatalog(catalog) && TicketDeck(catalog, opening, hand.deck) && Ledger(opening, hand, played)
    ensures Ledger(opening, Drawn(hand), played)
  {
    hide TrimCardId, Dealt, Subsequence, TicketDeck, TrimmedCatalog, Drawn;
    if |hand.cards| < HAND_LIMIT && hand.deck != [] {
      var next := hand.deck[hand.drawCursor % |hand.deck|];
      DrawnIs(catalog, opening, hand);
      HeldGrows(opening, hand, played, next);
    } else {
      NotDrawn(hand);
    }
  }

  lemma NotDrawn(hand: HandState)
    requires |hand.cards| >= HAND_LIMIT || hand.deck == []
    ensures Drawn(hand) == hand
  {
  }

  lemma HeldGrows(opening: seq<string>, hand: HandState, played: seq<string>, next: string)
    requires Ledger(opening, hand, played) && |hand.cards| < HAND_LIMIT && hand.deck != []
    requires Dealt(hand.deck, hand.drawCursor + 1) == Dealt(hand.deck, hand.drawCursor) + [next]
    ensures Ledger(opening, hand.(drawCursor := hand.drawCursor + 1, cards := hand.cards + [next]), played)
  {
    hide Dealt, Subsequence;
    var dealt := Dealt(hand.deck, hand.drawCursor);
    SubsequenceSnoc(hand.cards, dealt, next);
    OneMoreHeld(dealt, hand.cards, played, next);
  }

  /** A cast moves one card from the hand to the played ones and deals the next. */
  lemma CastKeepsLedger(catalog: Catalog, opening: seq<string>, hand: HandState, played: seq<string>, slot: int, tick: int)
    requires TrimmedCatalog(catalog) && TicketDeck(catalog, opening, hand.deck) && Ledger(opening, hand, played)
    requires forall i :: 0 <= i < |catalog| ==> catalog[i].cost >= 0.0
    ensures var r := ValidateCast(catalog, hand, slot, tick);
      if r.Cast? then
        && r.slot == slot && 0 <= slot < |hand.cards|
        && Ledger(opening, AfterCast(catalog, hand, slot, tick), played + [hand.cards[slot]])
      else AfterCast(catalog, hand, slot, tick) == hand
  {
    var r := ValidateCast(catalog, hand, slot, tick);
    if r.Cast? {
      FoundInCatalog(catalog, r.cardId, 0);
      PlayKeepsLedger(opening, hand, played, r);
      hide Ledger, TrimCardId;
      DrawKeepsLedger(catalog, opening, hand.(energy := r.energyAfter,
        cooldowns := hand.cooldowns[r.cardId := r.cooldownUntil], cards := Without(hand.cards, r.slot)),
        played + [hand.cards[slot]]);
    }
  }

  lemma {:induction false} FoundInCatalog(catalog: Catalog, id: string, i: nat)
    requires FindFrom(catalog, id, i).Some?
    ensures FindFrom(catalog, id, i).value in catalog && FindFrom(catalog, id, i).value.cardId == id
    decreases |catalog| - i
  {
    if catalog[i].cardId != id {
      FoundInCatalog(catalog, id, i + 1);
    }
  }

  lemma PlayKeepsLedger(opening: seq<string>, hand: HandState, played: seq<string>, r: CastResult)
    requires Ledger(opening, hand, played) && r.Cast? && r.slot < |hand.cards| && 0.0 <= r.energyAfter <= MAX_ENERGY
    ensures Ledger(opening, hand.(energy := r.energyAfter, cooldowns := hand.cooldowns[r.cardId := r.cooldownUntil],
                                  cards := Without(hand.cards, r.slot)), played + [hand.cards[r.slot]])
  {
    var c := hand.cards[r.slot];
    SubsequenceWithout(hand.cards, EverHeld(opening, hand), r.slot);
    WithoutMultiset(hand.cards, r.slot);
    hide EverHeld, Subsequence;
    assert multiset(played + [c]) == multiset(played) + multiset{c};
  }

  lemma WithoutMultiset(cards: seq<string>, i: nat)
    requires i < |cards|
    ensures multiset(Without(cards, i)) + multiset{cards[i]} == multiset(cards)
  {
    assert cards == cards[..i] + [cards[i]] + cards[i + 1..];
  }

  // ---- Whole runs ----

  datatype Move = CastAt(slot: int, tick: int) | Draw | Recover

  function Moved(catalog: Catalog, hand: HandState, m: Move): HandState {
    match m
    case CastAt(slot, tick) => AfterCast(catalog, hand, slot, tick)
    case Draw => Drawn(hand)
    case Recover => Recovered(hand)
  }

  /** The hand and the cards played after a run of moves. */
  function RunMoves(catalog: Catalog, hand: HandState, played: seq<string>, moves: seq<Move>): (HandState, seq<string>)
    decreases |moves|
  {
    if moves == [] then (hand, played) else
    var more := if moves[0].CastAt? && ValidateCast(catalog, hand, moves[0].slot, moves[0].tick).Cast?
                then played + [hand.cards[moves[0].slot]] else played;
    RunMoves(catalog, Moved(catalog, hand, moves[0]), more, moves[1..])
  }

  /** Over any run of casts, draws and recoveries from a checked ticket: hand plus played cards are, as a
      multiset, the cards dealt from the cyclic deck so far; the hand keeps their order and its limit. */
  lemma {:induction false} RunKeepsLedger(catalog: Catalog, opening: seq<string>, hand: HandState, played: seq<string>, moves: seq<Move>)
    requires TrimmedCatalog(catalog) && TicketDeck(catalog, opening, hand.deck) && Ledger(opening, hand, played)
    requires forall i :: 0 <= i < |catalog| ==> catalog[i].cost >= 0.0
    ensures var (h, p) := RunMoves(catalog, hand, played, moves); Ledger(opening, h, p) && h.deck == hand.deck
    decreases |moves|
  {
    if moves != [] {
      var more := RunMoves(catalog, hand, played, moves);
      match moves[0] {
        case CastAt(slot, tick) =>
          CastKeepsLedger(catalog, opening, hand, played, slot, tick);
          CastKeepsDeck(catalog, hand, slot, tick);
        case Draw => DrawKeepsLedger(catalog, opening, hand, played);
        case Recover => RecoverKeepsLedger(opening, hand, played);
      }
      var next := Moved(catalog, hand, moves[0]);
      var then2 := if moves[0].CastAt? && ValidateCast(catalog, hand, moves[0].slot, moves[0].tick).Cast?
                   then played + [hand.cards[moves[0].slot]] else played;
      assert next.deck == hand.deck;
      hide Ledger, ValidateCast, AfterCast, TicketDeck, TrimmedCatalog, Drawn;
      RunKeepsLedger(catalog, opening, next, then2, moves[1..]);
    }
  }

  lemma CastKeepsDeck(catalog: Catalog, hand: HandState, slot: int, tick: int)
    ensures AfterCast(catalog, hand, slot, tick).deck == hand.deck
  {
    hide TrimCardId;
  }

  lemma RecoverKeepsLedger(opening: seq<string>, hand: HandState, played: seq<string>)
    requires Ledger(opening, hand, played)
    ensures Ledger(opening, Recovered(hand), played)
  {
    hide Subsequence, Dealt;
  }

  // ---- Decks that no ticket check has seen ----

  /** The next card of the deck is dealt as it is written. */
  predicate DealsAsWritten(hand: HandState)
    requires hand.deck != []
  {
    var next := hand.deck[hand.drawCursor % |hand.deck|];
    next != "" && TrimCardId(next) == next
  }

  lemma BookedOtherwise(dealt: seq<string>, cards: seq<string>, played: seq<string>, next: string, drawn: seq<string>)
    requires multiset(cards) + multiset(played) == multiset(dealt)
    requires |drawn| <= 1 && drawn != [next]
    ensures multiset(cards + drawn) + multiset(played) != multiset(dealt + [next])
  {
    assert multiset(cards + drawn) == multiset(cards) + multiset(drawn);
    assert multiset(dealt + [next]) == multiset(dealt) + multiset{next};
    if drawn == [] {
      assert |multiset(cards + drawn) + multiset(played)| == |multiset(dealt)|;
    } else {
      assert drawn == [drawn[0]] && multiset(drawn)[next] == 0;
      assert (multiset(cards + drawn) + multiset(played))[next] == multiset(dealt)[next];
    }
  }

  /** What a draw takes: nothing when the trimmed id is empty. */
  lemma DrawnBy(hand: HandState)
    requires |hand.cards| < HAND_LIMIT && hand.deck != []
    ensures var id := TrimCardId(hand.deck[hand.drawCursor % |hand.deck|]);
      Drawn(hand) == hand.(drawCursor := hand.drawCursor + 1, cards := hand.cards + (if id == "" then [] else [id]))
  {
    hide TrimCardId;
  }

  /** Whatever the deck, a draw keeps the ledger exactly when it takes no card, or the card at the cursor is
      not empty and carries no blanks at its ends: a blank card is dealt past and appears nowhere, a padded
      one appears under another name. */
  lemma DrawKeepsLedgerIff(opening: seq<string>, hand: HandState, played: seq<string>)
    requires Ledger(opening, hand, played)
    ensures Ledger(opening, Drawn(hand), played) <==> |hand.cards| >= HAND_LIMIT || hand.deck == [] || DealsAsWritten(hand)
  {
    hide TrimCardId, Drawn, Subsequence, Dealt;
    if |hand.cards| < HAND_LIMIT && hand.deck != [] {
      var next := hand.deck[hand.drawCursor % |hand.deck|];
      DrawnBy(hand);
      DealtNext(hand.deck, hand.drawCursor);
      if DealsAsWritten(hand) {
        HeldGrows(opening, hand, played, next);
      } else {
        var id := TrimCardId(next);
        EmptyTrims();
        BookedOtherwise(Dealt(hand.deck, hand.drawCursor), hand.cards, played, next, if id == "" then [] else [id]);
      }
    } else {
      NotDrawn(hand);
    }
  }

  lemma EmptyTrims()
    ensures TrimCardId("") == ""
  {
  }
}
