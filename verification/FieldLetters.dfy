/** What the fixed field names of a battle result are spelled with: plain letters, and nowhere the letters in
    a row that every forbidden word has (src/simulation.cpp:1855-2109, src/result.cpp:529-586). */
module FieldLetters {
  import opened ResultFields

  predicate Letter(c: char) {
    'a' <= c <= 'z' || c == '_'
  }

  /** Two or three letters in a row that no fixed name has and each forbidden word has somewhere. */
  predicate Mark(a: char, b: char, c: char) {
    || (a == 'n' && b == 'v') || (a == 'w' && b == 'a') || (a == 'g' && b == 'r') || (a == 'a' && b == 'b')
    || (a == 'n' && b == 'c' && c == 'y') || (a == 't' && b == 'e' && c == 'm') || (a == 'b' && b == 'a' && c == 'l')
    || (a == 'c' && b == 'l' && c == 'i')
  }

  predicate MarkAt(s: string, k: nat) {
    k + 2 < |s| && Mark(s[k], s[k + 1], s[k + 2])
  }

  predicate Spelled(s: string) {
    forall i :: 0 <= i < |s| ==> Letter(s[i])
  }

  /** Plain letters and no mark. */
  ghost predicate Clean(s: string) {
    Spelled(s) && forall k: nat :: !MarkAt(s, k)
  }

  ghost predicate AllClean(names: seq<string>) {
    forall i :: 0 <= i < |names| ==> Clean(names[i])
  }

  // ---- Reading a text letter by letter ----

  predicate CleanFrom(s: string, i: nat)
    decreases |s| - i
  {
    i >= |s| || (Letter(s[i]) && (i + 2 >= |s| || !Mark(s[i], s[i + 1], s[i + 2])) && CleanFrom(s, i + 1))
  }

  lemma {:induction false} CleanFromMeans(s: string, i: nat, k: nat)
    requires CleanFrom(s, i) && i <= k < |s|
    ensures Letter(s[k]) && !MarkAt(s, k)
    decreases |s| - i
  {
    if i < k {
      CleanFromMeans(s, i + 1, k);
    }
  }

  /** A part of a name that an underscore ends, and a last part. */
  predicate Head(s: string) {
    CleanFrom(s, 0) && s != "" && s[|s| - 1] == '_'
  }

  predicate Tail(s: string) {
    CleanFrom(s, 0)
  }

  lemma OnePart(s: string)
    requires Tail(s)
    ensures Clean(s)
  {
    forall k: nat
      ensures !MarkAt(s, k) && (k < |s| ==> Letter(s[k]))
    {
      if k < |s| {
        CleanFromMeans(s, 0, k);
      }
    }
  }

  lemma HeadIsClean(s: string)
    requires Head(s)
    ensures Clean(s)
  {
    hide Clean;
    OnePart(s);
  }

  /** No mark lies across an underscore. */
  lemma Joined(a: string, b: string)
    requires Clean(a) && a != "" && a[|a| - 1] == '_' && Clean(b)
    ensures Clean(a + b)
  {
    var s := a + b;
    forall k: nat
      ensures !MarkAt(s, k)
    {
      assert !MarkAt(a, k);
      if k >= |a| {
        assert !MarkAt(b, k - |a|);
      }
    }
  }

  lemma TwoParts(a: string, b: string)
    requires Head(a) && Tail(b)
    ensures Clean(a + b)
  {
    hide Clean;
    HeadIsClean(a);
    OnePart(b);
    Joined(a, b);
  }

  lemma ThreeParts(a: string, b: string, c: string)
    requires Head(a) && Head(b) && Tail(c)
    ensures Clean(a + (b + c))
  {
    hide Clean;
    HeadIsClean(a);
    TwoParts(b, c);
    Joined(a, b + c);
  }

  lemma FourParts(a: string, b: string, c: string, d: string)
    requires Head(a) && Head(b) && Head(c) && Tail(d)
    ensures Clean(a + (b + (c + d)))
  {
    hide Clean;
    HeadIsClean(a);
    ThreeParts(b, c, d);
    Joined(a, b + (c + d));
  }

  // ---- The fixed names ----

  lemma Parts1()
    ensures Head("battle_") && Head("result_") && Head("final_") && Head("tick_") && Head("fallback_") && Head("neutral_")
  {
  }

  lemma Parts2()
    ensures Head("held_") && Head("input_") && Head("mode_action_") && Head("event_") && Head("replay_")
    ensures Head("snapshot_")
  {
  }

  lemma Parts3()
    ensures Head("pending_") && Head("record_") && Head("buffer_peak_") && Head("boss_") && Head("completion_")
  {
  }

  lemma Parts4()
    ensures Head("friendly_fire_") && Head("registered_") && Head("layout_") && Head("start_") && Head("ready_")
  {
  }

  lemma Parts5()
    ensures Head("all_registered_") && Head("lifecycle_") && Head("connected_")
  {
  }

  lemma Parts6()
    ensures Head("disconnected_") && Head("defeated_") && Head("world_") && Head("persistent_")
  {
  }

  lemma Parts7()
    ensures Head("world_defeat_") && Head("announcement_") && Head("instance_") && Head("surviving_")
  {
  }

  lemma Parts8()
    ensures Head("transfer_") && Head("card_") && Head("last_") && Head("authority_") && Head("boss_damage_")
  {
  }

  lemma Parts9()
    ensures Head("boss_player_")
  {
  }

  lemma Parts10()
    ensures Tail("owner") && Tail("event_cursor") && Tail("tick") && Tail("rate_hz") && Tail("match_seed")
  {
  }

  lemma Parts11()
    ensures Tail("input_count") && Tail("count") && Tail("trace_count") && Tail("stream_hash")
  {
  }

  lemma Parts12()
    ensures Tail("state_hash") && Tail("summary_hash") && Tail("fixture_hash") && Tail("kind") && Tail("scope")
  {
  }

  lemma Parts13()
    ensures Tail("policy") && Tail("instance_id") && Tail("season_id") && Tail("phase_id") && Tail("min_players")
  {
  }

  lemma Parts14()
    ensures Tail("max_players") && Tail("player_count") && Tail("ready") && Tail("connected") && Tail("to_start")
  {
  }

  lemma Parts15()
    ensures Tail("state") && Tail("roster_locked") && Tail("max_hp") && Tail("current_hp") && Tail("damage_total")
  {
  }

  lemma Parts16()
    ensures Tail("defeated") && Tail("clear_status") && Tail("disposition") && Tail("damage_delta")
  {
  }

  lemma Parts17()
    ensures Tail("hp_after_delta") && Tail("required") && Tail("key") && Tail("clear_credit")
  {
  }

  lemma Parts18()
    ensures Tail("edges_material") && Tail("owner_player_id") && Tail("mode_allowed")
  {
  }

  lemma Parts19()
    ensures Tail("cost_paid") && Tail("cooldown_ready") && Tail("from_player_id")
  {
  }

  lemma Parts20()
    ensures Tail("to_player_id") && Tail("_spawn_slot") && Tail("_fire_target")
  {
  }

  lemma Spelled1()
    ensures "battle_result_owner" == "battle_" + ("result_" + "owner")
    ensures "final_tick" == "final_" + "tick"
    ensures "tick_rate_hz" == "tick_" + "rate_hz"
    ensures "fallback_input_count" == "fallback_" + "input_count"
    ensures "neutral_fallback_count" == "neutral_" + ("fallback_" + "count")
  {
  }

  lemma Spelled2()
    ensures "held_input_fallback_count" == "held_" + ("input_" + ("fallback_" + "count"))
    ensures "mode_action_count" == "mode_action_" + "count"
    ensures "input_trace_count" == "input_" + "trace_count"
    ensures "event_trace_count" == "event_" + "trace_count"
  {
  }

  lemma Spelled3()
    ensures "input_stream_hash" == "input_" + "stream_hash"
    ensures "event_stream_hash" == "event_" + "stream_hash"
    ensures "final_state_hash" == "final_" + "state_hash"
    ensures "replay_summary_hash" == "replay_" + "summary_hash"
    ensures "replay_fixture_hash" == "replay_" + "fixture_hash"
  {
  }

  lemma Spelled4()
    ensures "final_snapshot_tick" == "final_" + ("snapshot_" + "tick")
    ensures "final_snapshot_kind" == "final_" + ("snapshot_" + "kind")
    ensures "final_snapshot_state_hash" == "final_" + ("snapshot_" + "state_hash")
  {
  }

  lemma Spelled5()
    ensures "final_snapshot_event_cursor" == "final_" + ("snapshot_" + "event_cursor")
    ensures "pending_input_tick_count" == "pending_" + ("input_" + ("tick_" + "count"))
  {
  }

  lemma Spelled6()
    ensures "pending_input_record_count" == "pending_" + ("input_" + ("record_" + "count"))
    ensures "input_buffer_peak_tick_count" == "input_" + ("buffer_peak_" + ("tick_" + "count"))
  {
  }

  lemma Spelled7()
    ensures "input_buffer_peak_record_count" == "input_" + ("buffer_peak_" + ("record_" + "count"))
  {
  }

  lemma Spelled8()
    ensures "pending_mode_action_tick_count" == "pending_" + ("mode_action_" + ("tick_" + "count"))
  {
  }

  lemma Spelled9()
    ensures "pending_mode_action_record_count" == "pending_" + ("mode_action_" + ("record_" + "count"))
  {
  }

  lemma Spelled10()
    ensures "mode_action_buffer_peak_tick_count" == "mode_action_" + ("buffer_peak_" + ("tick_" + "count"))
  {
  }

  lemma Spelled11()
    ensures "mode_action_buffer_peak_record_count" == "mode_action_" + ("buffer_peak_" + ("record_" + "count"))
    ensures "boss_scope" == "boss_" + "scope"
  {
  }

  lemma Spelled12()
    ensures "boss_completion_policy" == "boss_" + ("completion_" + "policy")
    ensures "boss_instance_id" == "boss_" + "instance_id"
    ensures "boss_season_id" == "boss_" + "season_id"
    ensures "boss_phase_id" == "boss_" + "phase_id"
  {
  }

  lemma Spelled13()
    ensures "boss_friendly_fire_policy" == "boss_" + ("friendly_fire_" + "policy")
    ensures "boss_min_players" == "boss_" + "min_players"
    ensures "boss_max_players" == "boss_" + "max_players"
  {
  }

  lemma Spelled14()
    ensures "boss_registered_player_count" == "boss_" + ("registered_" + "player_count")
    ensures "boss_layout_player_count" == "boss_" + ("layout_" + "player_count")
    ensures "boss_start_ready" == "boss_" + ("start_" + "ready")
  {
  }

  lemma Spelled15()
    ensures "boss_ready_player_count" == "boss_" + ("ready_" + "player_count")
    ensures "boss_all_registered_connected" == "boss_" + ("all_registered_" + "connected")
  {
  }

  lemma Spelled16()
    ensures "boss_all_registered_ready" == "boss_" + ("all_registered_" + "ready")
    ensures "boss_ready_to_start" == "boss_" + ("ready_" + "to_start")
    ensures "boss_lifecycle_state" == "boss_" + ("lifecycle_" + "state")
  {
  }

  lemma Spelled17()
    ensures "boss_roster_locked" == "boss_" + "roster_locked"
    ensures "connected_player_count" == "connected_" + "player_count"
    ensures "disconnected_player_count" == "disconnected_" + "player_count"
    ensures "boss_max_hp" == "boss_" + "max_hp"
  {
  }

  lemma Spelled18()
    ensures "boss_current_hp" == "boss_" + "current_hp"
    ensures "boss_damage_total" == "boss_" + "damage_total"
    ensures "boss_defeated" == "boss_" + "defeated"
    ensures "boss_defeated_tick" == "boss_" + ("defeated_" + "tick")
    ensures "boss_clear_status" == "boss_" + "clear_status"
  {
  }

  lemma Spelled19()
    ensures "boss_result_disposition" == "boss_" + ("result_" + "disposition")
    ensures "boss_world_persistent_damage_delta" == "boss_" + ("world_" + ("persistent_" + "damage_delta"))
  {
  }

  lemma Spelled20()
    ensures "boss_world_persistent_hp_after_delta" == "boss_" + ("world_" + ("persistent_" + "hp_after_delta"))
  {
  }

  lemma Spelled21()
    ensures "boss_world_defeat_announcement_required" == "boss_" + ("world_defeat_" + ("announcement_" + "required"))
  {
  }

  lemma Spelled22()
    ensures "boss_world_defeat_announcement_key" == "boss_" + ("world_defeat_" + ("announcement_" + "key"))
  {
  }

  lemma Spelled23()
    ensures "boss_instance_surviving_player_count" == "boss_" + ("instance_" + ("surviving_" + "player_count"))
  {
  }

  lemma Spelled24()
    ensures "boss_instance_clear_credit" == "boss_" + ("instance_" + "clear_credit")
    ensures "boss_instance_result_state" == "boss_" + ("instance_" + ("result_" + "state"))
  {
  }

  lemma Spelled25()
    ensures "transfer_card_count" == "transfer_" + ("card_" + "count")
    ensures "transfer_card_edges_material" == "transfer_" + ("card_" + "edges_material")
  {
  }

  lemma Spelled26()
    ensures "last_transfer_card_instance_id" == "last_" + ("transfer_" + ("card_" + "instance_id"))
  {
  }

  lemma Spelled27()
    ensures "last_transfer_authority_owner_player_id" == "last_" + ("transfer_" + ("authority_" + "owner_player_id"))
  {
  }

  lemma Spelled28()
    ensures "last_transfer_authority_mode_allowed" == "last_" + ("transfer_" + ("authority_" + "mode_allowed"))
  {
  }

  lemma Spelled29()
    ensures "last_transfer_authority_cost_paid" == "last_" + ("transfer_" + ("authority_" + "cost_paid"))
  {
  }

  lemma Spelled30()
    ensures "last_transfer_authority_cooldown_ready" == "last_" + ("transfer_" + ("authority_" + "cooldown_ready"))
  {
  }

  lemma Spelled31()
    ensures "last_transfer_from_player_id" == "last_" + ("transfer_" + "from_player_id")
    ensures "last_transfer_to_player_id" == "last_" + ("transfer_" + "to_player_id")
  {
  }

  lemma ReplayNamesClean()
    ensures AllClean(ReplayNames())
  {
    hide Clean, Head, Tail, BufferNames;
    Parts1();
    Parts10();
    Spelled1();
    Parts11();
    Parts2();
    Spelled2();
    Spelled3();
    Parts12();
    Spelled4();
    Spelled5();
    ThreeParts("battle_", "result_", "owner");
    OnePart("event_cursor");
    TwoParts("final_", "tick");
    TwoParts("tick_", "rate_hz");
    OnePart("match_seed");
    OnePart("input_count");
    TwoParts("fallback_", "input_count");
    ThreeParts("neutral_", "fallback_", "count");
    FourParts("held_", "input_", "fallback_", "count");
    TwoParts("mode_action_", "count");
    TwoParts("input_", "trace_count");
    TwoParts("event_", "trace_count");
    TwoParts("input_", "stream_hash");
    TwoParts("event_", "stream_hash");
    TwoParts("final_", "state_hash");
    TwoParts("replay_", "summary_hash");
    TwoParts("replay_", "fixture_hash");
    ThreeParts("final_", "snapshot_", "tick");
    ThreeParts("final_", "snapshot_", "kind");
    ThreeParts("final_", "snapshot_", "state_hash");
    ThreeParts("final_", "snapshot_", "event_cursor");
    BufferNamesClean();
  }

  lemma BufferNamesClean()
    ensures AllClean(BufferNames())
  {
    hide Clean, Head, Tail;
    Parts3();
    Parts2();
    Parts1();
    Parts11();
    Spelled5();
    Spelled6();
    Spelled7();
    Spelled8();
    Spelled9();
    Spelled10();
    Spelled11();
    FourParts("pending_", "input_", "tick_", "count");
    FourParts("pending_", "input_", "record_", "count");
    FourParts("input_", "buffer_peak_", "tick_", "count");
    FourParts("input_", "buffer_peak_", "record_", "count");
    FourParts("pending_", "mode_action_", "tick_", "count");
    FourParts("pending_", "mode_action_", "record_", "count");
    FourParts("mode_action_", "buffer_peak_", "tick_", "count");
    FourParts("mode_action_", "buffer_peak_", "record_", "count");
  }

  lemma BossNamesClean()
    ensures AllClean(BossNames())
  {
    hide Clean, Head, Tail;
    Parts3();
    Parts12();
    Spelled11();
    Parts13();
    Spelled12();
    Parts4();
    Spelled13();
    Parts14();
    Spelled14();
    Spelled15();
    Parts5();
    Spelled16();
    Parts15();
    Spelled17();
    TwoParts("boss_", "scope");
    ThreeParts("boss_", "completion_", "policy");
    TwoParts("boss_", "instance_id");
    TwoParts("boss_", "season_id");
    TwoParts("boss_", "phase_id");
    ThreeParts("boss_", "friendly_fire_", "policy");
    TwoParts("boss_", "min_players");
    TwoParts("boss_", "max_players");
    ThreeParts("boss_", "registered_", "player_count");
    ThreeParts("boss_", "layout_", "player_count");
    ThreeParts("boss_", "start_", "ready");
    ThreeParts("boss_", "ready_", "player_count");
    ThreeParts("boss_", "all_registered_", "connected");
    ThreeParts("boss_", "all_registered_", "ready");
    ThreeParts("boss_", "ready_", "to_start");
    ThreeParts("boss_", "lifecycle_", "state");
    TwoParts("boss_", "roster_locked");
  }

  lemma ConnectionNamesClean()
    ensures AllClean(ConnectionNames())
  {
    hide Clean, Head, Tail;
    Parts5();
    Parts14();
    Spelled17();
    Parts6();
    TwoParts("connected_", "player_count");
    TwoParts("disconnected_", "player_count");
  }

  lemma HpNamesClean()
    ensures AllClean(HpNames())
  {
    hide Clean, Head, Tail;
    Parts3();
    Parts15();
    Spelled17();
    Spelled18();
    TwoParts("boss_", "max_hp");
    TwoParts("boss_", "current_hp");
    TwoParts("boss_", "damage_total");
  }

  lemma OutcomeNamesClean()
    ensures AllClean(OutcomeNames())
  {
    hide Clean, Head, Tail;
    Parts3();
    Parts16();
    Spelled18();
    Parts6();
    Parts10();
    Parts1();
    Spelled19();
    TwoParts("boss_", "defeated");
    ThreeParts("boss_", "defeated_", "tick");
    TwoParts("boss_", "clear_status");
    ThreeParts("boss_", "result_", "disposition");
  }

  lemma WorldNamesClean()
    ensures AllClean(WorldNames())
  {
    hide Clean, Head, Tail;
    Parts3();
    Parts6();
    Parts16();
    Spelled19();
    Parts17();
    Spelled20();
    Parts7();
    Spelled21();
    Spelled22();
    FourParts("boss_", "world_", "persistent_", "damage_delta");
    FourParts("boss_", "world_", "persistent_", "hp_after_delta");
    FourParts("boss_", "world_defeat_", "announcement_", "required");
    FourParts("boss_", "world_defeat_", "announcement_", "key");
  }

  lemma InstanceNamesClean()
    ensures AllClean(InstanceNames())
  {
    hide Clean, Head, Tail;
    Parts3();
    Parts7();
    Parts14();
    Spelled23();
    Parts17();
    Spelled24();
    Parts1();
    Parts15();
    FourParts("boss_", "instance_", "surviving_", "player_count");
    ThreeParts("boss_", "instance_", "clear_credit");
    FourParts("boss_", "instance_", "result_", "state");
  }

  lemma TransferNamesClean()
    ensures AllClean(TransferNames())
  {
    hide Clean, Head, Tail;
    Parts8();
    Parts11();
    Spelled25();
    Parts18();
    Parts13();
    Spelled26();
    Spelled27();
    Spelled28();
    Parts19();
    Spelled29();
    Spelled30();
    Spelled31();
    Parts20();
    ThreeParts("transfer_", "card_", "count");
    ThreeParts("transfer_", "card_", "edges_material");
    FourParts("last_", "transfer_", "card_", "instance_id");
    FourParts("last_", "transfer_", "authority_", "owner_player_id");
    FourParts("last_", "transfer_", "authority_", "mode_allowed");
    FourParts("last_", "transfer_", "authority_", "cost_paid");
    FourParts("last_", "transfer_", "authority_", "cooldown_ready");
    ThreeParts("last_", "transfer_", "from_player_id");
    ThreeParts("last_", "transfer_", "to_player_id");
  }

  lemma PlayerPartsClean()
    ensures Clean("boss_damage_") && Clean("boss_player_") && Clean("_spawn_slot") && Clean("_fire_target")
  {
    hide Clean, Head, Tail;
    Parts8();
    Parts9();
    Parts20();
    HeadIsClean("boss_damage_");
    HeadIsClean("boss_player_");
    OnePart("_spawn_slot");
    OnePart("_fire_target");
  }
}
