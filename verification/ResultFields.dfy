/** The fields of a battle result: what DevModeResultJsonFromReplayFixture of src/simulation.cpp prints,
    from the replay summary and the final snapshot's mode state. */
module ResultFields {
  import opened Bytes
  import opened FlatJson

  datatype Summary = Summary(
    eventCount: nat, finalTick: nat, tickRateHz: nat, matchSeed: nat, inputCount: nat, fallbackInputCount: nat,
    neutralFallbackCount: nat, heldInputFallbackCount: nat, modeActionCount: nat, inputTraceCount: nat,
    eventTraceCount: nat, inputStreamHash: string, eventStreamHash: string, finalStateHash: string,
    summaryHash: string, fixtureHash: string, snapshotTick: nat, snapshotKind: string,
    snapshotStateHash: string, snapshotEventCursor: nat)

  datatype Fixture = Fixture(modeId: string, playerIds: seq<string>, summary: Summary, modeState: map<string, Value>)

  // ---- Field names, in the order they are printed ----

  function ReplayNames(): seq<string> {
    ["battle_result_owner", "event_cursor", "final_tick", "tick_rate_hz", "match_seed", "input_count",
     "fallback_input_count", "neutral_fallback_count", "held_input_fallback_count", "mode_action_count"]
    + BufferNames()
    + ["input_trace_count", "event_trace_count", "input_stream_hash", "event_stream_hash", "final_state_hash",
       "replay_summary_hash", "replay_fixture_hash", "final_snapshot_tick", "final_snapshot_kind",
       "final_snapshot_state_hash", "final_snapshot_event_cursor"]
  }

  /** The replay fields that come from the mode state. */
  function BufferNames(): seq<string> {
    ["pending_input_tick_count", "pending_input_record_count", "input_buffer_peak_tick_count",
     "input_buffer_peak_record_count", "pending_mode_action_tick_count", "pending_mode_action_record_count",
     "mode_action_buffer_peak_tick_count", "mode_action_buffer_peak_record_count"]
  }

  function BossNames(): seq<string> {
    ["boss_scope", "boss_completion_policy", "boss_instance_id", "boss_season_id", "boss_phase_id",
     "boss_friendly_fire_policy", "boss_min_players", "boss_max_players", "boss_registered_player_count",
     "boss_layout_player_count", "boss_start_ready", "boss_ready_player_count", "boss_all_registered_connected",
     "boss_all_registered_ready", "boss_ready_to_start", "boss_lifecycle_state", "boss_roster_locked"]
  }

  function ConnectionNames(): seq<string> {
    ["connected_player_count", "disconnected_player_count"]
  }

  function HpNames(): seq<string> {
    ["boss_max_hp", "boss_current_hp", "boss_damage_total"]
  }

  function OutcomeNames(): seq<string> {
    ["boss_defeated", "boss_defeated_tick", "boss_clear_status", "boss_result_disposition"]
  }

  function WorldNames(): seq<string> {
    ["boss_world_persistent_damage_delta", "boss_world_persistent_hp_after_delta",
     "boss_world_defeat_announcement_required", "boss_world_defeat_announcement_key"]
  }

  function InstanceNames(): seq<string> {
    ["boss_instance_surviving_player_count", "boss_instance_clear_credit", "boss_instance_result_state"]
  }

  function TransferNames(): seq<string> {
    ["transfer_card_count", "transfer_card_edges_material", "last_transfer_card_instance_id",
     "last_transfer_authority_owner_player_id", "last_transfer_authority_mode_allowed",
     "last_transfer_authority_cost_paid", "last_transfer_authority_cooldown_ready",
     "last_transfer_from_player_id", "last_transfer_to_player_id"]
  }

  function DamageName(player: string): string {
    "boss_damage_" + player
  }

  function SpawnName(player: string): string {
    "boss_player_" + player + "_spawn_slot"
  }

  function FireName(player: string): string {
    "boss_player_" + player + "_fire_target"
  }

  function PlayerNames(players: seq<string>): seq<string> {
    if players == [] then [] else
    [DamageName(players[0]), SpawnName(players[0]), FireName(players[0])] + PlayerNames(players[1..])
  }

  // ---- The value behind a name ----

  function SummaryField(s: Summary, name: string): Option<Value> {
    if name == "battle_result_owner" then Some(Str("cpp"))
    else if name == "event_cursor" then Some(Uint(s.eventCount))
    else if name == "final_tick" then Some(Uint(s.finalTick))
    else if name == "tick_rate_hz" then Some(Uint(s.tickRateHz))
    else if name == "match_seed" then Some(Uint(s.matchSeed))
    else if name == "input_count" then Some(Uint(s.inputCount))
    else if name == "fallback_input_count" then Some(Uint(s.fallbackInputCount))
    else if name == "neutral_fallback_count" then Some(Uint(s.neutralFallbackCount))
    else if name == "held_input_fallback_count" then Some(Uint(s.heldInputFallbackCount))
    else if name == "mode_action_count" then Some(Uint(s.modeActionCount))
    else if name == "input_trace_count" then Some(Uint(s.inputTraceCount))
    else if name == "event_trace_count" then Some(Uint(s.eventTraceCount))
    else TextField(s, name)
  }

  function TextField(s: Summary, name: string): Option<Value> {
    if name == "input_stream_hash" then Some(Str(s.inputStreamHash))
    else if name == "event_stream_hash" then Some(Str(s.eventStreamHash))
    else if name == "final_state_hash" then Some(Str(s.finalStateHash))
    else if name == "replay_summary_hash" then Some(Str(s.summaryHash))
    else if name == "replay_fixture_hash" then Some(Str(s.fixtureHash))
    else if name == "final_snapshot_tick" then Some(Uint(s.snapshotTick))
    else if name == "final_snapshot_kind" then Some(Str(s.snapshotKind))
    else if name == "final_snapshot_state_hash" then Some(Str(s.snapshotStateHash))
    else if name == "final_snapshot_event_cursor" then Some(Uint(s.snapshotEventCursor))
    else None
  }

  function FieldOf(f: Fixture, name: string): Option<Value> {
    if SummaryField(f.summary, name).Some? then SummaryField(f.summary, name)
    else if name in f.modeState then Some(f.modeState[name])
    else None
  }

  // ---- The printed object ----

  /** The names the builder tries, in order; it prints those that have a value. */
  function Tried(f: Fixture): seq<string> {
    ReplayNames() + BossNames() + (if "boss_scope" in f.modeState then ConnectionNames() else []) + HpNames()
    + PlayerNames(f.playerIds) + OutcomeNames() + WorldNames() + InstanceNames() + TransferNames()
  }

  function Emit(f: Fixture, names: seq<string>): seq<Member> {
    if names == [] then [] else
    (match FieldOf(f, names[0]) case None => [] case Some(v) => [Member(names[0], v)]) + Emit(f, names[1..])
  }

  function ResultMembers(f: Fixture): seq<Member> {
    Emit(f, Tried(f))
  }

  /** The first member of a name is the value behind the name: a repeated name prints one value twice. */
  lemma {:induction false} FindEmitted(f: Fixture, names: seq<string>, name: string)
    ensures Find(Emit(f, names), name) == if name in names then FieldOf(f, name) else None
  {
    hide FieldOf;
    if names != [] {
      FindEmitted(f, names[1..], name);
      var rest := Emit(f, names[1..]);
      match FieldOf(f, names[0]) {
        case None => assert [] + rest == rest;
        case Some(v) => assert ([Member(names[0], v)] + rest)[1..] == rest;
      }
    }
  }

  lemma {:induction false} EmittedHasField(f: Fixture, names: seq<string>, i: nat)
    requires i < |Emit(f, names)|
    ensures Emit(f, names)[i].key in names && FieldOf(f, Emit(f, names)[i].key) == Some(Emit(f, names)[i].value)
  {
    hide FieldOf;
    if names != [] {
      match FieldOf(f, names[0]) {
        case None => EmittedHasField(f, names[1..], i);
        case Some(v) =>
          if i > 0 {
            EmittedHasField(f, names[1..], i - 1);
          }
      }
    }
  }

  lemma {:induction false} EmitConcat(f: Fixture, a: seq<string>, b: seq<string>)
    ensures Emit(f, a + b) == Emit(f, a) + Emit(f, b)
  {
    hide FieldOf;
    if a == [] {
      assert a + b == b;
    } else {
      assert (a + b)[1..] == a[1..] + b;
      EmitConcat(f, a[1..], b);
    }
  }

  // ---- The builder ----

  /** One pass over a list of names, appending `,"name":value` for those that have a value. */
  method AppendFields(json: string, f: Fixture, names: seq<string>, bare: bool) returns (out: string, first: bool)
    ensures out == json + Joined(Emit(f, names), bare)
    ensures first == (bare && Emit(f, names) == [])
  {
    hide FieldOf, MemberText, Emit, Joined;
    out, first := json, bare;
    EmitNothing(f, names, bare);
    for i := 0 to |names|
      invariant out == json + Joined(Emit(f, names[..i]), bare)
      invariant first == (bare && Emit(f, names[..i]) == [])
    {
      EmitStep(f, names, i, bare);
      if FieldOf(f, names[i]).Some? {
        out := out + (if first then "" else ",") + MemberText(Member(names[i], FieldOf(f, names[i]).value));
        first := false;
      }
    }
    assert names[..|names|] == names;
  }

  lemma EmitNothing(f: Fixture, names: seq<string>, bare: bool)
    ensures Emit(f, names[..0]) == [] && Joined([], bare) == ""
  {
  }

  lemma EmitStep(f: Fixture, names: seq<string>, i: nat, bare: bool)
    requires i < |names|
    ensures var before, after, v := Emit(f, names[..i]), Emit(f, names[..i + 1]), FieldOf(f, names[i]);
      if v.None? then after == before
      else
        && after == before + [Member(names[i], v.value)]
        && Joined(after, bare) ==
             Joined(before, bare) + ((if bare && before == [] then "" else ",") + MemberText(Member(names[i], v.value)))
  {
    hide FieldOf, MemberText, Joined, Emit;
    assert names[..i + 1] == names[..i] + [names[i]];
    EmitConcat(f, names[..i], [names[i]]);
    EmitOne(f, names[i]);
    if FieldOf(f, names[i]).Some? {
      JoinedSnoc(Emit(f, names[..i]), Member(names[i], FieldOf(f, names[i]).value), bare);
    }
  }

  lemma EmitOne(f: Fixture, name: string)
    ensures Emit(f, [name]) == match FieldOf(f, name) case None => [] case Some(v) => [Member(name, v)]
  {
    hide FieldOf;
    assert Emit(f, [name][1..]) == [];
  }

  /** Members with a comma before each, but for the first when `bare`. */
  function Joined(ms: seq<Member>, bare: bool): string {
    if ms == [] then "" else (if bare then "" else ",") + MemberText(ms[0]) + Joined(ms[1..], false)
  }

  lemma {:induction false} JoinedSnoc(ms: seq<Member>, m: Member, bare: bool)
    ensures Joined(ms + [m], bare) == Joined(ms, bare) + ((if bare && ms == [] then "" else ",") + MemberText(m))
  {
    hide MemberText;
    if ms == [] {
      assert ms + [m] == [m] && [m][1..] == [];
    } else {
      assert (ms + [m])[1..] == ms[1..] + [m];
      JoinedSnoc(ms[1..], m, false);
    }
  }

  lemma {:induction false} JoinedConcat(a: seq<Member>, b: seq<Member>, bare: bool)
    ensures Joined(a + b, bare) == Joined(a, bare) + Joined(b, bare && a == [])
  {
    hide MemberText;
    if a == [] {
      assert a + b == b;
    } else {
      assert (a + b)[1..] == a[1..] + b;
      JoinedConcat(a[1..], b, false);
    }
  }

  lemma {:induction false} JoinedIsRest(ms: seq<Member>)
    requires ms != []
    ensures Joined(ms, true) + "}" == Rest(ms)
    decreases |ms|
  {
    hide MemberText;
    if |ms| > 1 {
      JoinedIsRest(ms[1..]);
      JoinedComma(ms[1..]);
    }
  }

  lemma JoinedComma(ms: seq<Member>)
    requires ms != []
    ensures Joined(ms, false) == "," + Joined(ms, true)
  {
    hide MemberText;
  }

  /** DevModeResultJsonFromReplayFixture: block after block of fields, then the closing brace. */
  method BuildModeResultJson(f: Fixture) returns (json: string)
    requires ResultMembers(f) != []
    ensures json == Flat(ResultMembers(f))
  {
    hide FieldOf, MemberText, Emit, Joined, Rest;
    var first;
    json, first := AppendFields("{", f, Tried(f), true);
    JoinedIsRest(ResultMembers(f));
    json := json + "}";
    JoinAll(Joined(ResultMembers(f), true));
  }

  lemma JoinAll(s: string)
    ensures "{" + s + "}" == "{" + (s + "}")
  {
  }

  // ---- What Snapshot guarantees of the mode state ----

  predicate IsBossMode(modeId: string) {
    modeId == "world_boss" || modeId == "instance_boss"
  }

  predicate AllIn(names: seq<string>, m: map<string, Value>) {
    forall i :: 0 <= i < |names| ==> names[i] in m
  }

  predicate NoneIn(names: seq<string>, m: map<string, Value>) {
    forall i :: 0 <= i < |names| ==> names[i] !in m
  }

  /** The keys Snapshot always sets, sets in a boss mode, sets in one boss mode only, and sets together
      once a card was transferred, which only a boss mode allows. */
  ghost predicate SnapshotShape(f: Fixture) {
    var m := f.modeState;
    && AllIn(BufferNames(), m)
    && (IsBossMode(f.modeId) ==>
         AllIn(BossNames(), m) && AllIn(ConnectionNames(), m) && AllIn(HpNames(), m) && AllIn(OutcomeNames(), m))
    && (!IsBossMode(f.modeId) ==>
         && NoneIn(BossNames(), m) && NoneIn(HpNames(), m) && NoneIn(OutcomeNames(), m)
         && NoneIn(PlayerNames(f.playerIds), m) && NoneIn(TransferNames(), m))
    && (if f.modeId == "world_boss" then AllIn(WorldNames(), m) else NoneIn(WorldNames(), m))
    && (if f.modeId == "instance_boss" then AllIn(InstanceNames(), m) else NoneIn(InstanceNames(), m))
    && (AllIn(TransferNames(), m) || NoneIn(TransferNames(), m))
  }

  ghost predicate PlainPlayers(players: seq<string>) {
    forall i :: 0 <= i < |players| ==> PlainKey(players[i]) && players[i] != ""
  }
}
