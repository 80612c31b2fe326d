/** The result verifier of src/result.cpp and the builder and submission of src/server.cpp: the verifier
    accepts what the builder prints exactly when the match carries no forbidden word. */
module ResultAgreement {
  import opened JsonScan
  import opened FlatJson
  import opened FieldNames
  import opened WordScan
  import opened ResultFields

  datatype Version = Version(protocol: int, business: string, battle: string, ruleset: string)

  datatype Result = Result(
    version: Version, matchId: string, modeId: string, resultHash: string, replayId: string,
    playerIds: seq<string>, rewardJson: string, modeJson: string, settledAtMs: int)

  datatype Signed = Signed(
    result: Result, alg: string, keyId: string, signatureHex: string, publicKeyHex: string, serverAuthoritative: bool)

  /** The release's own version stamp, its key material and its signature. */
  datatype Release = Release(
    current: Version, publicKey: string -> string, signature: (Result, string) -> string)

  /** What the verifier is told to require; `required` gives the expected value of a field by its name. */
  datatype Options = Options(
    matchId: string, modeId: string, ruleset: string, keyId: string, resultHash: string, replayId: string,
    playerIds: seq<string>, required: string -> Value, damagePlayers: seq<string>, spawnPlayers: seq<string>,
    firePlayers: seq<string>, nowMs: int, bindSignature: bool, projectionOnly: bool, replayFields: bool,
    bossFields: bool, transferFields: bool)

  // ---- Complaints ----

  /** The empty complaint is none; of several, the first counts. */
  function If(bad: bool, reason: string): string {
    if bad then reason else ""
  }

  function Or(a: string, b: string): string {
    if a != "" then a else b
  }

  predicate Compatible(v: Version, release: Release) {
    v.protocol == release.current.protocol && v.battle == release.current.battle
  }

  predicate LooksLikeSha256Ref(s: string) {
    |s| >= 10 && s[..7] == "sha256:"
  }

  predicate SamePlayers(a: seq<string>, b: seq<string>) {
    multiset(a) == multiset(b) && "" !in a
  }

  function IdentityComplaint(r: Result, o: Options, release: Release): string {
    Or(If(!Compatible(r.version, release), "version_incompatible"),
    Or(If(r.matchId == "" || r.modeId == "", "result_identity_missing"),
    Or(If(r.version.ruleset != "" && r.version.ruleset != (if o.ruleset == "" then release.current.ruleset else o.ruleset),
          "ruleset_version_mismatch"),
    Or(If(o.matchId != "" && r.matchId != o.matchId, "match_mismatch"),
    Or(If(o.modeId != "" && r.modeId != o.modeId, "mode_mismatch"),
    Or(If(!LooksLikeSha256Ref(r.resultHash), "result_hash_invalid"),
    Or(If(o.resultHash != "" && r.resultHash != o.resultHash, "result_hash_mismatch"),
    Or(If(r.replayId == "", "replay_id_missing"),
    Or(If(o.replayId != "" && r.replayId != o.replayId, "replay_id_mismatch"),
       If(r.playerIds == [] || !SamePlayers(r.playerIds, o.playerIds), "player_ids_mismatch"))))))))))
  }

  // ---- Which fields may appear ----

  predicate KnownBoss(name: string, o: Options) {
    || name in BossNames() || name in HpNames() || name in OutcomeNames() || name in WorldNames() || name in InstanceNames()
    || (exists i :: 0 <= i < |o.damagePlayers| && name == DamageName(o.damagePlayers[i]))
    || (exists i :: 0 <= i < |o.spawnPlayers| && name == SpawnName(o.spawnPlayers[i]))
    || (exists i :: 0 <= i < |o.firePlayers| && name == FireName(o.firePlayers[i]))
  }

  predicate IsTransfer(name: string) {
    name == "transfer_card_count" || name == "transfer_card_edges_material" || "last_transfer_" <= name
  }

  predicate KnownMode(name: string, o: Options) {
    || name in ReplayNames()
    || (o.bossFields && name in ConnectionNames())
    || (o.bossFields && KnownBoss(name, o))
    || (o.transferFields && name in TransferNames())
  }

  predicate BossOnlyField(json: string) {
    PrefixFrom(json, 0, "boss_") || HasField(json, "transfer_card_count")
    || HasField(json, "transfer_card_edges_material") || PrefixFrom(json, 0, "last_transfer_")
  }

  predicate SomeName(json: string, bad: string -> bool) {
    exists i :: 0 <= i < |FieldNamesOf(json)| && bad(FieldNamesOf(json)[i])
  }

  function ShapeComplaint(r: Result, o: Options): string {
    Or(If(r.modeJson != "" && !SingleObject(r.modeJson), "mode_result_json_invalid"),
    Or(If(r.rewardJson != "" && !SingleObject(r.rewardJson), "reward_projection_json_invalid"),
    Or(If(!IsBossMode(r.modeId) && BossOnlyField(r.modeJson), "boss_result_field_forbidden_for_mode"),
    Or(If(o.bossFields && SomeName(r.modeJson, name => "boss_" <= name && !KnownBoss(name, o)), "boss_result_field_unknown"),
    Or(If(!o.transferFields && SomeName(r.modeJson, name => IsTransfer(name)), "transfer_result_field_forbidden"),
    Or(If(o.transferFields && SomeName(r.modeJson, name => IsTransfer(name) && name !in TransferNames()),
          "transfer_result_field_unknown"),
    Or(If(AnyOccurs(r.modeJson, MODE_WORDS), "mode_result_mutation_forbidden"),
       If(o.replayFields && SomeName(r.modeJson, name => !KnownMode(name, o)), "mode_result_field_unknown"))))))))
  }

  // ---- Field values ----

  predicate Holds(json: string, name: string, expected: Value) {
    match expected
    case Uint(n) => HasUint(json, name, n)
    case Str(s) => HasString(json, name, s)
    case True => false
  }

  function ReasonFor(name: string): string {
    if name == "transfer_card_edges_material" then "transfer_card_edges_mismatch"
    else if name == "last_transfer_card_instance_id" then "transfer_card_instance_mismatch"
    else if name == "last_transfer_from_player_id" then "transfer_card_from_player_mismatch"
    else if name == "last_transfer_to_player_id" then "transfer_card_to_player_mismatch"
    else if name == "last_transfer_authority_owner_player_id" then "transfer_card_authority_owner_mismatch"
    else if name == "last_transfer_authority_mode_allowed" then "transfer_card_authority_mode_allowed_mismatch"
    else if name == "last_transfer_authority_cost_paid" then "transfer_card_authority_cost_paid_mismatch"
    else if name == "last_transfer_authority_cooldown_ready" then "transfer_card_authority_cooldown_mismatch"
    else name + "_mismatch"
  }

  /** The complaint about the first of these fields that does not hold its required value. */
  function FieldsComplaint(json: string, required: string -> Value, names: seq<string>): string {
    if names == [] then ""
    else if !Holds(json, names[0], required(names[0])) then ReasonFor(names[0])
    else FieldsComplaint(json, required, names[1..])
  }

  function PlayersComplaint(json: string, required: string -> Value, names: seq<string>, reason: string): string {
    if FieldsComplaint(json, required, names) == "" then "" else reason
  }

  /** The replay fields in the order they are checked. */
  function ReplayOrder(): seq<string> {
    ["event_cursor", "battle_result_owner"] + ReplayNames()[2..]
  }

  function BossOrder(): seq<string> {
    BossNames()[..15] + ["boss_roster_locked", "boss_lifecycle_state"] + ConnectionNames() + HpNames()
  }

  function TransferOrder(): seq<string> {
    TransferNames()[..3] + TransferNames()[7..] + TransferNames()[3..7]
  }

  function Each(players: seq<string>, name: string -> string): seq<string> {
    seq(|players|, i requires 0 <= i < |players| => name(players[i]))
  }

  function ReplayComplaint(json: string, o: Options): string {
    if o.replayFields then FieldsComplaint(json, o.required, ReplayOrder())
    else if o.required("event_cursor") != Uint(0) then FieldsComplaint(json, o.required, ["event_cursor"])
    else ""
  }

  function WrongModeComplaint(json: string, modeId: string): string {
    Or(If(modeId == "world_boss" && exists i :: 0 <= i < 3 && HasField(json, InstanceNames()[i]),
          "boss_instance_result_field_forbidden"),
       If(modeId == "instance_boss" && exists i :: 0 <= i < 4 && HasField(json, WorldNames()[i]),
          "boss_world_persistent_result_field_forbidden"))
  }

  function BossComplaint(json: string, modeId: string, o: Options): string {
    if !o.bossFields then "" else
    Or(FieldsComplaint(json, o.required, BossOrder()),
    Or(PlayersComplaint(json, o.required, Each(o.damagePlayers, DamageName), "boss_player_damage_mismatch"),
    Or(PlayersComplaint(json, o.required, Each(o.spawnPlayers, SpawnName), "boss_player_spawn_slot_mismatch"),
    Or(PlayersComplaint(json, o.required, Each(o.firePlayers, FireName), "boss_player_fire_target_mismatch"),
    Or(FieldsComplaint(json, o.required, OutcomeNames()),
    Or(WrongModeComplaint(json, modeId),
    Or(if modeId == "world_boss" then FieldsComplaint(json, o.required, WorldNames()) else "",
       if o.required("boss_instance_result_state") != Str("") then FieldsComplaint(json, o.required, InstanceNames())
       else "")))))))
  }

  function TransferComplaint(json: string, o: Options): string {
    if o.transferFields then FieldsComplaint(json, o.required, TransferOrder()) else ""
  }

  // ---- Reward and signature ----

  function RewardNames(): seq<string> {
    ["source", "projection_only", "settlement_authority"]
  }

  function RewardComplaint(r: Result, o: Options): string {
    Or(If(r.rewardJson == "", "reward_projection_missing"),
    Or(If(o.projectionOnly && AnyOccurs(r.rewardJson, REWARD_WORDS), "reward_projection_mutation_forbidden"),
    Or(If(o.projectionOnly && SomeName(r.rewardJson, name => name !in RewardNames()), "reward_projection_field_unknown"),
    Or(If(r.settledAtMs <= 0, "settled_at_missing"),
       If(o.nowMs > 0 && r.settledAtMs > o.nowMs + 5 * 60 * 1000, "settled_at_future")))))
  }

  predicate IsHex(s: string) {
    forall i :: 0 <= i < |s| ==> '0' <= s[i] <= '9' || 'a' <= s[i] <= 'f' || 'A' <= s[i] <= 'F'
  }

  function SignatureComplaint(s: Signed, o: Options, release: Release): string {
    Or(If(s.alg != "ED25519", "signature_alg_unsupported"),
    Or(If(o.keyId != "" && s.keyId != o.keyId, "signature_key_mismatch"),
    Or(If(s.keyId == "" || s.signatureHex == "", "signature_fields_missing"),
    Or(If(|s.signatureHex| != 128 || !IsHex(s.signatureHex), "ed25519_signature_shape_invalid"),
    Or(If(s.publicKeyHex != "" && (|s.publicKeyHex| != 64 || !IsHex(s.publicKeyHex)), "ed25519_public_key_shape_invalid"),
    Or(If(o.bindSignature && s.signatureHex != release.signature(s.result, s.keyId), "dev_result_signature_mismatch"),
       If(!s.serverAuthoritative, "result_not_server_authoritative")))))))
  }

  /** BattleResultVerifier::Verify: the first complaint, or none. */
  function Complaint(s: Signed, o: Options, release: Release): string {
    Or(IdentityComplaint(s.result, o, release),
    Or(ShapeComplaint(s.result, o),
    Or(ReplayComplaint(s.result.modeJson, o),
    Or(BossComplaint(s.result.modeJson, s.result.modeId, o),
    Or(TransferComplaint(s.result.modeJson, o),
    Or(RewardComplaint(s.result, o),
       SignatureComplaint(s, o, release)))))))
  }

  // ---- Building and submitting ----

  /** What the server knows of a match with a simulation: its configuration, fixture and sessions. */
  datatype Match = Match(
    matchId: string, ruleset: string, fixture: Fixture, resultHash: string, replayId: string,
    sessionPlayers: seq<string>, serverId: string, nowMs: int)

  /** The reward projection, the one fixed text of a result. */
  function RewardJson(): string {
    "{" + ((Needle("source") + (":" + Needle("phk-battle-server")))
      + ("," + ((Needle("projection_only") + (":" + "true"))
      + ("," + ((Needle("settlement_authority") + (":" + Needle("nakama-go"))) + "}")))))
  }

  /** BossMatchResultBlockReason. */
  function BlockReason(f: Fixture): string {
    if !IsBossMode(f.modeId) then ""
    else if !Says(f.modeState, "boss_combat_started", 1) then "boss_match_not_startable"
    else if f.modeId != "instance_boss" || Says(f.modeState, "boss_defeated", 1)
            || Says(f.modeState, "connected_player_count", 0) then ""
    else "instance_boss_not_terminal"
  }

  predicate Says(m: map<string, Value>, name: string, n: nat) {
    name in m && m[name] == Uint(n)
  }

  function BuiltResult(m: Match, release: Release): Result {
    Result(release.current.(ruleset := m.ruleset), m.matchId, m.fixture.modeId, m.resultHash, m.replayId,
           m.sessionPlayers, RewardJson(), Flat(ResultMembers(m.fixture)), if m.nowMs > 0 then m.nowMs else 1)
  }

  function BuiltSigned(m: Match, release: Release): Signed {
    var r := BuiltResult(m, release);
    Signed(r, "ED25519", m.serverId, release.signature(r, m.serverId), release.publicKey(m.serverId), true)
  }

  datatype BuildOutcome = Built(signed: Signed) | NotBuilt(reason: string)

  /** BuildSignedBattleResult, for a match that has a simulation. */
  function Build(m: Match, release: Release): BuildOutcome {
    if BlockReason(m.fixture) != "" then NotBuilt(BlockReason(m.fixture))
    else if m.sessionPlayers == [] then NotBuilt("player_ids_missing")
    else Built(BuiltSigned(m, release))
  }

  /** The expected value of a field: what the fixture says of it, or the empty default. */
  function Expected(f: Fixture): string -> Value {
    name => match FieldOf(f, name) case Some(v) => v case None => Str("")
  }

  function Having(f: Fixture, name: string -> string): seq<string> {
    HavingFrom(f, f.playerIds, name)
  }

  function HavingFrom(f: Fixture, players: seq<string>, name: string -> string): seq<string> {
    if players == [] then [] else
    (if name(players[0]) in f.modeState then [players[0]] else []) + HavingFrom(f, players[1..], name)
  }

  /** The options SubmitBattleResult fills in from the match as it stands. */
  function OptionsFor(m: Match, matchId: string): Options {
    var boss := "boss_scope" in m.fixture.modeState;
    Options(matchId, m.fixture.modeId, m.ruleset, m.serverId, m.resultHash, m.replayId, m.sessionPlayers,
            Expected(m.fixture),
            if boss then Having(m.fixture, DamageName) else [],
            if boss then Having(m.fixture, SpawnName) else [],
            if boss then Having(m.fixture, FireName) else [],
            m.nowMs, true, true, true, boss, "transfer_card_count" in m.fixture.modeState)
  }

  datatype SubmitOutcome = Accepted(settlementKey: string, duplicate: bool) | NotAccepted(reason: string)

  /** SubmitBattleResult, for a match that has a simulation: the outcome and the settled hashes after it. */
  function Submit(m: Match, settled: map<string, string>, s: Signed, release: Release): (SubmitOutcome, map<string, string>) {
    var id := s.result.matchId;
    if BlockReason(m.fixture) != "" then (NotAccepted(BlockReason(m.fixture)), settled)
    else Settle(settled, id, s.result.resultHash, Complaint(s, OptionsFor(m, id), release))
  }

  /** The outcome once the verifier has spoken. */
  function Settle(settled: map<string, string>, id: string, hash: string, complaint: string): (SubmitOutcome, map<string, string>) {
    if complaint != "" then (NotAccepted(complaint), settled)
    else if id !in settled then (Accepted("battle-result:" + id, false), settled[id := hash])
    else if settled[id] == hash then (Accepted("battle-result:" + id, true), settled)
    else (NotAccepted("result_replay_mismatch"), settled)
  }
}
