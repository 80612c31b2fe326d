/** The card transfers of a boss match in src/simulation.cpp: reserved when a transfer is queued, recorded
    or freed when its tick comes. */
module TransferLedger {
  import opened SimTypes

  datatype Card = Card(owner: string, modeAllowed: bool, costPaid: bool, cooldownReady: bool)

  datatype Edge = Edge(source: string, target: string)

  /** The configured cards, the authority behind each queued transfer, the cards no further transfer may
      name, the transfers made, and their count. */
  datatype Transfers = Transfers(
    cards: map<string, Card>, authority: map<string, Card>, reserved: set<string>, edges: map<string, Edge>, count: nat)

  const NO_TRANSFERS: Transfers := Transfers(map[], map[], {}, map[], 0)

  predicate Allows(c: Card, player: string) {
    c.owner == player && c.modeAllowed && c.costPaid && c.cooldownReady
  }

  /** AcceptModeAction's part: the card is reserved under the authority it has now. */
  function Queue(t: Transfers, a: Action): Transfers
    requires a.card in t.cards
  {
    t.(reserved := t.reserved + {a.card}, authority := t.authority[a.actionId := t.cards[a.card]])
  }

  function Reject(t: Transfers, a: Action): Transfers {
    t.(reserved := t.reserved - {a.card}, authority := t.authority - {a.actionId})
  }

  /** ApplyTransferCardModeAction; `present` says both players are known and connected. */
  function Apply(t: Transfers, a: Action, present: bool): Transfers {
    if a.target == "" || a.card == "" then t
    else if !present || a.actionId !in t.authority || a.card !in t.cards || !Allows(t.cards[a.card], a.playerId) then
      Reject(t, a)
    else
      t.(edges := t.edges[a.card := Edge(a.playerId, a.target)], authority := t.authority - {a.actionId}, count := t.count + 1)
  }

  predicate Made(t: Transfers, a: Action, present: bool) {
    a.target != "" && a.card != "" && present && a.actionId in t.authority && a.card in t.cards && Allows(t.cards[a.card], a.playerId)
  }

  // ---- The ledger ----

  /** How many queued transfers name the card. */
  function Copies(queue: seq<Action>, card: string): nat {
    if queue == [] then 0 else (if IsTransfer(queue[0]) && queue[0].card == card then 1 else 0) + Copies(queue[1..], card)
  }

  /** The reserved cards are exactly the transferred ones and those of queued transfers; no card is both,
      none is queued twice, and there are as many transfers as cards transferred. */
  ghost predicate Balanced(t: Transfers, queue: seq<Action>) {
    && t.count == |t.edges|
    && forall card :: Settled(t, queue, card)
  }

  ghost predicate Settled(t: Transfers, queue: seq<Action>, card: string) {
    && Copies(queue, card) <= 1 && !(card in t.edges && Copies(queue, card) == 1)
    && (card in t.reserved <==> card in t.edges || Copies(queue, card) == 1)
  }

  /** Before its queue is dropped no queued transfer lacks its two names. */
  ghost predicate Named(queue: seq<Action>) {
    forall i :: 0 <= i < |queue| && IsTransfer(queue[i]) ==> queue[i].card != "" && queue[i].target != ""
  }

  lemma {:induction false} CopiesConcat(a: seq<Action>, b: seq<Action>, card: string)
    ensures Copies(a + b, card) == Copies(a, card) + Copies(b, card)
  {
    if a == [] {
      assert a + b == b;
    } else {
      assert (a + b)[1..] == a[1..] + b;
      CopiesConcat(a[1..], b, card);
    }
  }

  lemma CopiesOne(a: Action, card: string)
    ensures Copies([a], card) == if IsTransfer(a) && a.card == card then 1 else 0
  {
    assert [a][1..] == [];
  }

  lemma QueueBalances(t: Transfers, queue: seq<Action>, a: Action)
    requires Balanced(t, queue) && IsTransfer(a) && a.card in t.cards && a.card !in t.reserved
    ensures Balanced(Queue(t, a), queue + [a])
  {
    forall card
      ensures Settled(Queue(t, a), queue + [a], card)
    {
      assert Settled(t, queue, card) && Settled(t, queue, a.card);
      CopiesConcat(queue, [a], card);
      CopiesOne(a, card);
    }
  }

  lemma OtherQueueBalances(t: Transfers, queue: seq<Action>, a: Action)
    requires Balanced(t, queue) && !IsTransfer(a)
    ensures Balanced(t, queue + [a])
  {
    forall card
      ensures Settled(t, queue + [a], card)
    {
      assert Settled(t, queue, card);
      CopiesConcat(queue, [a], card);
      CopiesOne(a, card);
    }
  }

  lemma CopiesCons(a: Action, rest: seq<Action>, card: string)
    ensures Copies([a] + rest, card) == (if IsTransfer(a) && a.card == card then 1 else 0) + Copies(rest, card)
  {
    assert ([a] + rest)[1..] == rest;
  }

  lemma HeadCard(t: Transfers, a: Action, rest: seq<Action>)
    requires Balanced(t, [a] + rest) && IsTransfer(a)
    ensures Copies(rest, a.card) == 0 && a.card !in t.edges && a.card in t.reserved
  {
    assert Settled(t, [a] + rest, a.card);
    CopiesCons(a, rest, a.card);
  }

  /** Applying a queued transfer keeps the balance: it is recorded once, or its card is free again. */
  lemma ApplyBalances(t: Transfers, a: Action, rest: seq<Action>, present: bool)
    requires Balanced(t, [a] + rest) && IsTransfer(a) && a.card != "" && a.target != ""
    ensures Balanced(Apply(t, a, present), rest)
    ensures forall card :: card in t.edges ==> card in Apply(t, a, present).edges && Apply(t, a, present).edges[card] == t.edges[card]
    ensures forall card :: card in t.edges ==> card in Apply(t, a, present).reserved
    ensures Made(t, a, present) ==> a.card !in t.edges && Apply(t, a, present).edges == t.edges[a.card := Edge(a.playerId, a.target)]
    ensures !Made(t, a, present) ==> Apply(t, a, present).edges == t.edges && a.card !in Apply(t, a, present).reserved
  {
    HeadCard(t, a, rest);
    var u := Apply(t, a, present);
    forall card
      ensures Settled(u, rest, card)
    {
      ApplySettles(t, a, rest, present, card);
    }
    forall card | card in t.edges
      ensures card in u.reserved
    {
      assert Settled(t, [a] + rest, card);
      ApplySettles(t, a, rest, present, card);
    }
    hide Copies, Allows, Settled;
  }

  lemma ApplySettles(t: Transfers, a: Action, rest: seq<Action>, present: bool, card: string)
    requires Settled(t, [a] + rest, card) && Settled(t, [a] + rest, a.card)
    requires IsTransfer(a) && a.card != "" && a.target != ""
    ensures Settled(Apply(t, a, present), rest, card)
  {
    CopiesCons(a, rest, card);
    CopiesCons(a, rest, a.card);
    hide Copies, Allows;
  }

  lemma SkipBalances(t: Transfers, a: Action, rest: seq<Action>)
    requires Balanced(t, [a] + rest) && !IsTransfer(a)
    ensures Balanced(t, rest)
  {
    forall card
      ensures Settled(t, rest, card)
    {
      assert Settled(t, [a] + rest, card);
      CopiesCons(a, rest, card);
    }
  }

  lemma SameCopiesBalance(t: Transfers, p: seq<Action>, q: seq<Action>)
    requires Balanced(t, p) && forall card :: Copies(p, card) == Copies(q, card)
    ensures Balanced(t, q)
  {
    forall card
      ensures Settled(t, q, card)
    {
      assert Settled(t, p, card);
    }
  }

  /** A transfer that is recorded was authorized: its card is configured for the player who sends it, allowed by
      the mode, paid for and cooled down, and both players are there; nothing else is recorded with it. */
  lemma OnlyAuthorizedTransfers(t: Transfers, a: Action, present: bool)
    ensures var u := Apply(t, a, present);
      u.edges != t.edges || u.count != t.count ==>
        && present && a.card in t.cards && t.cards[a.card].owner == a.playerId
        && t.cards[a.card].modeAllowed && t.cards[a.card].costPaid && t.cards[a.card].cooldownReady
        && u.edges == t.edges[a.card := Edge(a.playerId, a.target)] && u.count == t.count + 1
    ensures present && a.target != "" && a.card in t.cards && a.card != "" && a.actionId in t.authority && t.cards[a.card].owner == a.playerId
        && t.cards[a.card].modeAllowed && t.cards[a.card].costPaid && t.cards[a.card].cooldownReady
      ==> Apply(t, a, present).count == t.count + 1
  {
  }
}
