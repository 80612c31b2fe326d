/** Inputs, mode actions and rules of src/simulation.cpp. Of an action's JSON payload the fields the
    simulation extracts are carried instead of the text. */
module SimTypes {
  import opened Bytes
  import CardHand

  const BOSS_MIN_PLAYERS: nat := 4
  const BOSS_MAX_PLAYERS: nat := 8
  const HALF_WIDTH: int := 120000
  const HALF_HEIGHT: int := 90000
  const MAX_CARD_ID_BYTES: nat := 128

  datatype Input = Input(
    compatible: bool, matchId: string, playerId: string, tick: nat, sequence: nat, directionBits: nat,
    slow: bool, shoot: bool, bomb: bool, cardSlot: int, modeActionId: string)

  /** `cursor`, `slot`, `candidate` and `ready` are the extracted integers and flag, `target` and `card` the
      extracted strings, empty when missing; `claims` says the payload names a field only the server may write. */
  datatype Action = Action(
    compatible: bool, matchId: string, playerId: string, tick: nat, sequence: nat, actionId: string,
    actionType: string, payloadBytes: nat, authoritative: bool, claims: bool, cursor: Option<int>, slot: Option<int>,
    candidate: Option<int>, ready: Option<bool>, target: string, card: string)

  datatype Player = Player(
    x: int, y: int, lastSequence: nat, connected: bool, silentTicks: nat, lastInput: Input, hand: CardHand.HandState)

  datatype Bullet = Bullet(id: string, x: int, y: int, vx: int, vy: int, radius: nat, pattern: string, color: string)

  /** A ticket's seed text: missing, no decimal number, or the number. */
  datatype ServerSeed = NoSeed | Unreadable | SeedIs(value: int)

  /** The configuration, after the constructor has put defaults for zeros, the card catalog, and what bullets
      do: `effect` what a cast does to them, `drift` their spawning and moving in a tick. */
  datatype Rules = Rules(
    matchId: string, modeId: string, maxSequenceAhead: nat, maxTicksAhead: nat, timeoutTicks: nat,
    maxActionIdBytes: nat, maxActionTypeBytes: nat, maxPayloadBytes: nat, bossMaxHp: nat, spawnPeriod: nat,
    maxBullets: nat, catalog: CardHand.Catalog,
    effect: (seq<Bullet>, map<string, Player>, string, CardHand.Definition, nat) -> seq<Bullet>,
    drift: (seq<Bullet>, map<string, Player>, nat) -> seq<Bullet>)

  predicate IsBossMode(modeId: string) {
    modeId == "world_boss" || modeId == "instance_boss"
  }

  predicate BossMode(rules: Rules) {
    IsBossMode(rules.modeId)
  }

  predicate AuditChar(c: char) {
    'a' <= c <= 'z' || 'A' <= c <= 'Z' || '0' <= c <= '9' || c == '_' || c == '-' || c == '.'
  }

  predicate AuditToken(s: string) {
    s != "" && forall i :: 0 <= i < |s| ==> AuditChar(s[i])
  }

  predicate IsTransfer(a: Action) {
    a.actionType == "transfer_card"
  }

  predicate AllowedType(t: string) {
    t == "cast_card" || t == "select_round_card" || t == "transfer_card" || t == "ready" || t == "reconnect"
  }
}
