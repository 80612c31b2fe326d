/** When src/simulation.cpp takes an input or a mode action: the conditions, all of them and no other, whatever
    the order they are checked in. */
module Guards {
  import opened Bytes
  import opened SimTypes
  import opened SimSteps
  import opened Positions

  predicate TokenUpTo(s: string, n: nat) {
    AuditToken(s) && |s| <= n
  }

  /** The input is for this match, of a connected player, new, ahead of the match by no more than allowed, and
      well formed. */
  predicate InputMay(rules: Rules, s: State, i: Input) {
    && i.compatible && i.matchId == rules.matchId && (BossRules(rules) ==> s.boss.hp > 0 && |s.roster| >= 4)
    && i.playerId in s.players && s.players[i.playerId].connected
    && s.players[i.playerId].lastSequence < i.sequence <= s.players[i.playerId].lastSequence + rules.maxSequenceAhead
    && s.tick < i.tick <= s.tick + rules.maxTicksAhead && (i.tick, i.playerId) !in s.inputs
    && i.directionBits < 16 && -1 <= i.cardSlot <= 4
    && |i.modeActionId| <= rules.maxActionIdBytes && (i.modeActionId == "" || AuditToken(i.modeActionId))
  }

  lemma InputAcceptedIff(rules: Rules, s: State, i: Input)
    ensures InputFault(rules, s, i) == "" <==> InputMay(rules, s, i)
    ensures !InputMay(rules, s, i) ==> AcceptInput(rules, s, i) == s
  {
    hide AuditToken;
  }

  /** The player may act: a reconnect needs him gone, everything else needs him there. */
  predicate ActorMay(rules: Rules, s: State, a: Action) {
    && a.compatible && a.matchId == rules.matchId && (BossRules(rules) ==> s.boss.hp > 0)
    && a.playerId in s.players && (s.players[a.playerId].connected <==> a.actionType != "reconnect")
    && s.players[a.playerId].lastSequence < a.sequence <= s.players[a.playerId].lastSequence + rules.maxSequenceAhead
    && s.tick < a.tick <= s.tick + rules.maxTicksAhead
  }

  /** The action is well formed, new, and claims nothing only the server may say. */
  predicate ShapeMay(rules: Rules, s: State, a: Action) {
    && TokenUpTo(a.actionId, rules.maxActionIdBytes) && a.actionId !in s.actionIds
    && 0 < |a.actionType| <= rules.maxActionTypeBytes && 0 < a.payloadBytes <= rules.maxPayloadBytes
    && !a.authoritative && !a.claims
  }

  predicate TransferMay(rules: Rules, s: State, a: Action) {
    && BossRules(rules) && TokenUpTo(a.card, 128) && AuditToken(a.target) && a.target != a.playerId
    && a.target in s.players && s.players[a.target].connected
    && a.card !in s.transfers.reserved && a.card in s.transfers.cards
    && s.transfers.cards[a.card].owner == a.playerId && s.transfers.cards[a.card].modeAllowed
    && s.transfers.cards[a.card].costPaid && s.transfers.cards[a.card].cooldownReady
  }

  /** What the type of the action asks for. */
  predicate TypeMay(rules: Rules, s: State, a: Action) {
    if a.actionType == "reconnect" then
      a.playerId !in s.pendingReconnect && a.cursor.Some? && 0 <= a.cursor.value <= s.eventCount
    else if a.actionType == "cast_card" then a.slot.Some? && 0 <= a.slot.value <= 4
    else if a.actionType == "select_round_card" then
      rules.modeId == "battle_royale" && a.candidate.Some? && 0 <= a.candidate.value <= 2
    else if a.actionType == "ready" then
      BossRules(rules) && a.ready == Some(true) && a.playerId !in s.ready && a.playerId !in s.pendingReady
    else a.actionType == "transfer_card" && TransferMay(rules, s, a)
  }

  lemma TransferIff(rules: Rules, s: State, a: Action)
    ensures TransferFault(rules, s, a) == "" <==> TransferMay(rules, s, a) && a.actionId !in s.actionIds
  {
    assert !AuditToken("");
    hide AuditToken;
  }

  lemma TypesIff(rules: Rules, s: State, a: Action)
    ensures ReconnectFault(s, a) == "" <==>
      a.playerId !in s.pendingReconnect && a.cursor.Some? && 0 <= a.cursor.value <= s.eventCount && a.actionId !in s.actionIds
    ensures CastFault(s, a) == "" <==> a.slot.Some? && 0 <= a.slot.value <= 4 && a.actionId !in s.actionIds
    ensures SelectFault(rules, s, a) == "" <==>
      rules.modeId == "battle_royale" && a.candidate.Some? && 0 <= a.candidate.value <= 2 && a.actionId !in s.actionIds
    ensures ReadyFault(rules, s, a) == "" <==>
      BossRules(rules) && a.ready == Some(true) && a.playerId !in s.ready && a.playerId !in s.pendingReady && a.actionId !in s.actionIds
  {
  }

  lemma ShapeIff(rules: Rules, s: State, a: Action)
    ensures ActionShapeFault(rules, s, a) == "" <==> ShapeMay(rules, s, a) && TypeMay(rules, s, a)
  {
    TypesIff(rules, s, a);
    TransferIff(rules, s, a);
    TokenNonEmpty(a.actionId);
    hide AuditToken, TransferMay, TransferFault, ReconnectFault, CastFault, SelectFault, ReadyFault, BossRules;
  }

  lemma TokenNonEmpty(s: string)
    ensures AuditToken(s) ==> s != ""
  {
  }

  lemma ActorIff(rules: Rules, s: State, a: Action)
    ensures ActionFault(rules, s, a) == "" <==> ActorMay(rules, s, a) && ActionShapeFault(rules, s, a) == ""
  {
    hide ActionShapeFault;
  }

  /** A mode action is taken exactly when its player may act, its shape is right and its type's conditions hold;
      one that is not taken changes nothing. */
  lemma ActionAcceptedIff(rules: Rules, s: State, a: Action)
    ensures ActionFault(rules, s, a) == "" <==> ActorMay(rules, s, a) && ShapeMay(rules, s, a) && TypeMay(rules, s, a)
    ensures ActionFault(rules, s, a) != "" ==> AcceptAction(rules, s, a) == s
  {
    ActorIff(rules, s, a);
    ShapeIff(rules, s, a);
    hide ActionFault, ActionShapeFault, ActorMay, ShapeMay, TypeMay;
  }
}
