/** The final snapshot of a match as BuildReplayFixture of src/simulation.cpp takes it: which fields the mode
    state has, read off the simulation's state, and the values the model knows. */
module Snapshots {
  import opened Bytes
  import opened FlatJson
  import opened ResultFields
  import opened ResultNames
  import Agreement
  import SimTypes
  import SimSteps

  /** What a snapshot says that the state here does not carry: the rest of the summary (hashes, traces, seeds)
      and the other values by the name of their field, as texts or as numbers. */
  datatype Account = Account(summary: Summary, texts: string -> Option<string>, numbers: string -> nat)

  // ---- Fields ----

  function ScopeFields(rules: SimTypes.Rules): seq<string> {
    if rules.modeId == "world_boss" then WorldNames() else InstanceNames()
  }

  function CombatFields(): seq<string> {
    ["boss_combat_started"]
  }

  function BossFields(rules: SimTypes.Rules, s: SimSteps.State): seq<string> {
    BossNames() + HpNames() + CombatFields() + OutcomeNames() + ScopeFields(rules) + PlayerNames(s.roster)
  }

  /** The fields Snapshot writes, as far as a result can print or a block reason can read them. */
  function SnapshotNames(rules: SimTypes.Rules, s: SimSteps.State): seq<string> {
    BufferNames() + ConnectionNames() + (if SimTypes.BossMode(rules) then BossFields(rules, s) else [])
    + (if s.transfers.count > 0 then TransferNames() else [])
  }

  // ---- Values ----

  function Connected(s: SimSteps.State): nat {
    |set id | id in s.players && s.players[id].connected|
  }

  function Flag(b: bool): nat {
    if b then 1 else 0
  }

  /** The share printed under the name, if it is some player's. */
  function ShareUnder(roster: seq<string>, shares: map<string, nat>, name: string): Option<nat> {
    if roster == [] then None
    else if name == DamageName(roster[0]) then Some(if roster[0] in shares then shares[roster[0]] else 0)
    else ShareUnder(roster[1..], shares, name)
  }

  function ReadyConnected(s: SimSteps.State): nat {
    |set id | id in s.players && id in s.ready && s.players[id].connected|
  }

  predicate Credit(rules: SimTypes.Rules, s: SimSteps.State) {
    rules.modeId == "instance_boss" && s.boss.hp == 0 && Connected(s) > 0
  }

  predicate EnoughThere(s: SimSteps.State) {
    s.boss.started || SimTypes.BOSS_MIN_PLAYERS <= Connected(s) <= SimTypes.BOSS_MAX_PLAYERS
  }

  predicate EveryoneThere(s: SimSteps.State) {
    s.roster != [] && Connected(s) == |s.roster|
  }

  predicate EveryoneReady(s: SimSteps.State) {
    EveryoneThere(s) && ReadyConnected(s) == |s.roster|
  }

  /** The texts of a final snapshot that say how a boss match stands. */
  function StatusText(rules: SimTypes.Rules, s: SimSteps.State, name: string): Option<string> {
    var world := rules.modeId == "world_boss";
    if name == "boss_scope" then Some(if world then "world_persistent" else "instance_match")
    else if name == "boss_completion_policy" then Some(if world then "damage_report_to_business" else "defeat_required")
    else if name == "boss_lifecycle_state" then
      Some(if s.boss.started then "combat_started" else if !EnoughThere(s) then "waiting_for_players"
           else if !EveryoneReady(s) then "waiting_for_ready" else "start_ready")
    else if name == "boss_clear_status" then
      Some(if s.boss.hp == 0 && (world || Credit(rules, s)) then "cleared" else if world then "running" else "failed")
    else if name == "boss_result_disposition" then
      Some(if world then "world_damage_report" else if Credit(rules, s) then "instance_cleared" else "instance_failed")
    else if name == "boss_instance_result_state" then Some(if Credit(rules, s) then "cleared" else "failed")
    else None
  }

  /** And the numbers. */
  function StatusNumber(rules: SimTypes.Rules, s: SimSteps.State, name: string): Option<nat> {
    if name == "boss_min_players" then Some(SimTypes.BOSS_MIN_PLAYERS)
    else if name == "boss_max_players" then Some(SimTypes.BOSS_MAX_PLAYERS)
    else if name == "boss_registered_player_count" || name == "boss_layout_player_count" then Some(|s.roster|)
    else if name == "boss_start_ready" then Some(Flag(EnoughThere(s)))
    else if name == "boss_ready_player_count" then Some(ReadyConnected(s))
    else if name == "boss_all_registered_connected" then Some(Flag(EveryoneThere(s)))
    else if name == "boss_all_registered_ready" then Some(Flag(EveryoneReady(s)))
    else if name == "boss_ready_to_start" then Some(Flag(s.boss.started || (EnoughThere(s) && EveryoneReady(s))))
    else if name == "boss_instance_clear_credit" then Some(Flag(Credit(rules, s)))
    else if name == "disconnected_player_count" && |s.roster| >= Connected(s) then Some(|s.roster| - Connected(s))
    else None
  }

  /** The players' damage is written last, so that it wins over a field of the same name. */
  function ValueOf(rules: SimTypes.Rules, s: SimSteps.State, a: Account, name: string): Value {
    if ShareUnder(s.roster, s.boss.shares, name).Some? then Uint(ShareUnder(s.roster, s.boss.shares, name).value)
    else if name == "boss_max_hp" then Uint(s.boss.maxHp)
    else if name == "boss_current_hp" || name == "boss_world_persistent_hp_after_delta" then Uint(s.boss.hp)
    else if name == "boss_damage_total" || name == "boss_world_persistent_damage_delta" then Uint(s.boss.total)
    else if name == "boss_defeated_tick" then Uint(s.boss.defeatedTick)
    else OtherValue(rules, s, a, name)
  }

  function OtherValue(rules: SimTypes.Rules, s: SimSteps.State, a: Account, name: string): Value {
    if name == "boss_defeated" || name == "boss_world_defeat_announcement_required" then Uint(Flag(s.boss.hp == 0))
    else if name == "boss_combat_started" || name == "boss_roster_locked" then Uint(Flag(s.boss.started))
    else if name == "connected_player_count" || name == "boss_instance_surviving_player_count" then Uint(Connected(s))
    else if name == "transfer_card_count" then Uint(s.transfers.count)
    else if StatusText(rules, s, name).Some? then Str(StatusText(rules, s, name).value)
    else if StatusNumber(rules, s, name).Some? then Uint(StatusNumber(rules, s, name).value)
    else if a.texts(name).Some? then Str(a.texts(name).value)
    else Uint(a.numbers(name))
  }

  function ModeState(rules: SimTypes.Rules, s: SimSteps.State, a: Account): map<string, Value> {
    map name | name in SnapshotNames(rules, s) :: ValueOf(rules, s, a, name)
  }

  /** BuildReplayFixture. */
  function FixtureOf(rules: SimTypes.Rules, s: SimSteps.State, a: Account): Fixture {
    Fixture(rules.modeId, s.roster,
            a.summary.(eventCount := s.eventCount, finalTick := s.tick, snapshotTick := s.tick, snapshotEventCursor := s.eventCount),
            ModeState(rules, s, a))
  }

  lemma KeysAre(rules: SimTypes.Rules, s: SimSteps.State, a: Account, name: string)
    ensures name in ModeState(rules, s, a) <==> name in SnapshotNames(rules, s)
  {
    hide SnapshotNames, ValueOf;
  }

  lemma NamesAre(rules: SimTypes.Rules, s: SimSteps.State, name: string)
    ensures name in SnapshotNames(rules, s) <==>
      || name in BufferNames() || name in ConnectionNames()
      || (SimTypes.BossMode(rules) && name in BossFields(rules, s))
      || (s.transfers.count > 0 && name in TransferNames())
  {
    hide BufferNames, ConnectionNames, BossFields, TransferNames, SimTypes.BossMode;
    var boss := if SimTypes.BossMode(rules) then BossFields(rules, s) else [];
    InConcat(BufferNames(), ConnectionNames(), name);
    InConcat(BufferNames() + ConnectionNames(), boss, name);
    InConcat(BufferNames() + ConnectionNames() + boss, if s.transfers.count > 0 then TransferNames() else [], name);
  }

  lemma BossFieldsAre(rules: SimTypes.Rules, s: SimSteps.State, name: string)
    ensures name in BossFields(rules, s) <==>
      || name in BossNames() || name in HpNames() || name in CombatFields() || name in OutcomeNames()
      || name in ScopeFields(rules) || PlayerName(s.roster, name)
  {
    PlayerNamesAre(s.roster, name);
    hide BossNames, HpNames, CombatFields, OutcomeNames, ScopeFields, PlayerNames, PlayerName;
    InConcat(BossNames(), HpNames(), name);
    InConcat(BossNames() + HpNames(), CombatFields(), name);
    InConcat(BossNames() + HpNames() + CombatFields(), OutcomeNames(), name);
    InConcat(BossNames() + HpNames() + CombatFields() + OutcomeNames(), ScopeFields(rules), name);
    InConcat(BossNames() + HpNames() + CombatFields() + OutcomeNames() + ScopeFields(rules), PlayerNames(s.roster), name);
  }

  // ---- Which tables a name is not in ----

  /** Fields of the other boss mode: a world field, or an instance field but for the instance's id. */
  predicate WorldLike(name: string) {
    |name| > 14 && name[5] == 'w'
  }

  predicate InstanceLike(name: string) {
    |name| > 14 && name[5] == 'i' && name[14] != 'i'
  }

  lemma BossNamesNotWorld(name: string)
    requires name in BossNames()
    ensures !WorldLike(name)
  {
  }

  lemma BossNamesNotInstance(name: string)
    requires name in BossNames()
    ensures !InstanceLike(name)
  {
  }

  lemma SmallTablesScope(name: string)
    requires name in HpNames() || name in CombatFields() || name in OutcomeNames()
    ensures !WorldLike(name) && !InstanceLike(name)
  {
  }

  lemma CombatHead(name: string)
    requires name in CombatFields()
    ensures BossHead(name)
  {
  }

  lemma TablesScope(name: string)
    requires name in BossNames() || name in HpNames() || name in CombatFields() || name in OutcomeNames()
    ensures BossHead(name) && !WorldLike(name) && !InstanceLike(name)
  {
    hide *;
    if name in CombatFields() {
      CombatHead(name);
    } else {
      BossHeads(name);
    }
    if name in BossNames() {
      BossNamesNotWorld(name);
      BossNamesNotInstance(name);
    } else {
      SmallTablesScope(name);
    }
  }

  lemma ScopesApart(name: string)
    ensures name in WorldNames() ==> WorldLike(name) && !InstanceLike(name)
    ensures name in InstanceNames() ==> InstanceLike(name) && !WorldLike(name)
  {
  }

  lemma PlayerScope(players: seq<string>, name: string)
    requires PlayerName(players, name)
    ensures BossHead(name) && !WorldLike(name) && !InstanceLike(name)
  {
    PlayerHeads(players, name);
    var j :| 0 <= j < |players| && OfPlayer(players[j], name);
  }

  lemma ScopeFieldHeads(rules: SimTypes.Rules, name: string)
    requires name in ScopeFields(rules)
    ensures BossHead(name)
  {
    ScopeHeads(name);
    hide BossHead, WorldNames, InstanceNames;
  }

  lemma BossFieldsHeads(rules: SimTypes.Rules, s: SimSteps.State, name: string)
    requires name in BossFields(rules, s)
    ensures BossHead(name)
    ensures (rules.modeId == "world_boss" ==> !InstanceLike(name)) && (rules.modeId != "world_boss" ==> !WorldLike(name))
  {
    BossFieldsAre(rules, s, name);
    ScopesApart(name);
    hide BossFields, BossNames, HpNames, CombatFields, OutcomeNames, WorldNames, InstanceNames, PlayerName, BossHead, WorldLike, InstanceLike;
    if name in ScopeFields(rules) {
      ScopeFieldHeads(rules, name);
    } else if PlayerName(s.roster, name) {
      PlayerScope(s.roster, name);
    } else {
      TablesScope(name);
    }
  }

  lemma HeadsApart(name: string)
    ensures !(NeutralHead(name) && BossHead(name)) && !(NeutralHead(name) && TransferHead(name)) && !(BossHead(name) && TransferHead(name))
  {
  }

  lemma BufferScope(name: string)
    requires name in BufferNames()
    ensures !WorldLike(name) && !InstanceLike(name)
  {
  }

  lemma ConnectionScope(name: string)
    requires name in ConnectionNames()
    ensures !WorldLike(name) && !InstanceLike(name)
  {
  }

  lemma NeutralScope(name: string)
    requires name in BufferNames() || name in ConnectionNames()
    ensures NeutralHead(name) && !WorldLike(name) && !InstanceLike(name)
  {
    hide *;
    if name in BufferNames() {
      BufferHeads(name);
      BufferScope(name);
    } else {
      ConnectionHeads(name);
      ConnectionScope(name);
    }
  }

  lemma TransferScope(name: string)
    requires name in TransferNames()
    ensures TransferHead(name) && !WorldLike(name) && !InstanceLike(name)
  {
    TransferHeads(name);
    hide TransferHead;
  }

  /** The head of a snapshot's field tells what it is there for. */
  lemma FieldHeads(rules: SimTypes.Rules, s: SimSteps.State, name: string)
    requires name in SnapshotNames(rules, s)
    ensures BossHead(name) ==> SimTypes.BossMode(rules) && name in BossFields(rules, s)
    ensures TransferHead(name) ==> s.transfers.count > 0
    ensures WorldLike(name) ==> rules.modeId == "world_boss"
    ensures InstanceLike(name) ==> SimTypes.BossMode(rules) && rules.modeId != "world_boss"
  {
    NamesAre(rules, s, name);
    HeadsApart(name);
    hide BufferNames, ConnectionNames, BossFields, TransferNames, SnapshotNames, NeutralHead, BossHead, TransferHead, WorldLike,
      InstanceLike;
    if name in BufferNames() || name in ConnectionNames() {
      NeutralScope(name);
    } else if s.transfers.count > 0 && name in TransferNames() {
      TransferScope(name);
    } else {
      BossFieldsHeads(rules, s, name);
      BossModeIs(rules);
    }
  }

  lemma BossModeIs(rules: SimTypes.Rules)
    ensures SimTypes.BossMode(rules) <==> rules.modeId == "world_boss" || rules.modeId == "instance_boss"
    ensures SimTypes.BossMode(rules) <==> IsBossMode(rules.modeId)
  {
  }

  // ---- The shape ----

  lemma AllThere(rules: SimTypes.Rules, s: SimSteps.State, a: Account, names: seq<string>)
    requires forall i :: 0 <= i < |names| ==> names[i] in SnapshotNames(rules, s)
    ensures AllIn(names, ModeState(rules, s, a))
  {
    hide SnapshotNames, ModeState;
    forall i | 0 <= i < |names|
      ensures names[i] in ModeState(rules, s, a)
    {
      KeysAre(rules, s, a, names[i]);
    }
  }

  lemma NeutralsThere(rules: SimTypes.Rules, s: SimSteps.State, a: Account)
    ensures AllIn(BufferNames(), ModeState(rules, s, a)) && AllIn(ConnectionNames(), ModeState(rules, s, a))
  {
    hide BufferNames, ConnectionNames, SnapshotNames, ModeState, AllIn;
    forall i: nat | i < |BufferNames()|
      ensures BufferNames()[i] in SnapshotNames(rules, s)
    {
      NamesAre(rules, s, BufferNames()[i]);
    }
    forall i: nat | i < |ConnectionNames()|
      ensures ConnectionNames()[i] in SnapshotNames(rules, s)
    {
      NamesAre(rules, s, ConnectionNames()[i]);
    }
    AllThere(rules, s, a, BufferNames());
    AllThere(rules, s, a, ConnectionNames());
  }

  lemma BossTableThere(rules: SimTypes.Rules, s: SimSteps.State, a: Account, names: seq<string>)
    requires SimTypes.BossMode(rules)
    requires names == BossNames() || names == HpNames() || names == OutcomeNames() || names == ScopeFields(rules)
    ensures AllIn(names, ModeState(rules, s, a))
  {
    hide *;
    forall i: nat | i < |names|
      ensures names[i] in SnapshotNames(rules, s)
    {
      BossFieldsAre(rules, s, names[i]);
      NamesAre(rules, s, names[i]);
    }
    AllThere(rules, s, a, names);
  }

  lemma TransfersThere(rules: SimTypes.Rules, s: SimSteps.State, a: Account)
    requires s.transfers.count > 0
    ensures AllIn(TransferNames(), ModeState(rules, s, a))
  {
    hide TransferNames, SnapshotNames, ModeState, AllIn;
    forall i: nat | i < |TransferNames()|
      ensures TransferNames()[i] in SnapshotNames(rules, s)
    {
      NamesAre(rules, s, TransferNames()[i]);
    }
    AllThere(rules, s, a, TransferNames());
  }

  /** Fields whose head says otherwise are not there. */
  lemma NoneThere(rules: SimTypes.Rules, s: SimSteps.State, a: Account, names: seq<string>)
    requires forall i :: 0 <= i < |names| ==> Foreign(rules, s, names[i])
    ensures NoneIn(names, ModeState(rules, s, a))
  {
    hide SnapshotNames, ModeState, Foreign, BossHead, TransferHead, WorldLike, InstanceLike, BossFields;
    forall i | 0 <= i < |names|
      ensures names[i] !in ModeState(rules, s, a)
    {
      KeysAre(rules, s, a, names[i]);
      ForeignIsNot(rules, s, names[i]);
    }
  }

  predicate Foreign(rules: SimTypes.Rules, s: SimSteps.State, name: string) {
    || (BossHead(name) && !SimTypes.BossMode(rules)) || (TransferHead(name) && s.transfers.count == 0)
    || (WorldLike(name) && rules.modeId != "world_boss")
    || (InstanceLike(name) && !(SimTypes.BossMode(rules) && rules.modeId != "world_boss"))
  }

  lemma ForeignIsNot(rules: SimTypes.Rules, s: SimSteps.State, name: string)
    requires Foreign(rules, s, name)
    ensures name !in SnapshotNames(rules, s)
  {
    hide SnapshotNames, BossHead, TransferHead, WorldLike, InstanceLike, BossFields, SimTypes.BossMode;
    if name in SnapshotNames(rules, s) {
      FieldHeads(rules, s, name);
    }
  }

  lemma BossTableForeign(rules: SimTypes.Rules, s: SimSteps.State, name: string)
    requires !SimTypes.BossMode(rules)
    requires name in BossNames() || name in HpNames() || name in OutcomeNames() || PlayerName(s.roster, name)
    ensures Foreign(rules, s, name)
  {
    hide BossNames, HpNames, OutcomeNames, PlayerName, BossHead, WorldLike, InstanceLike, TransferHead, SimTypes.BossMode;
    if PlayerName(s.roster, name) {
      PlayerHeads(s.roster, name);
    } else {
      BossHeads(name);
    }
  }

  lemma NoBossTables(rules: SimTypes.Rules, s: SimSteps.State, a: Account, names: seq<string>)
    requires !SimTypes.BossMode(rules)
    requires names == BossNames() || names == HpNames() || names == OutcomeNames() || names == PlayerNames(s.roster)
    ensures NoneIn(names, ModeState(rules, s, a))
  {
    hide *;
    forall i: nat | i < |names|
      ensures Foreign(rules, s, names[i])
    {
      PlayerNamesAre(s.roster, names[i]);
      BossTableForeign(rules, s, names[i]);
    }
    NoneThere(rules, s, a, names);
  }

  lemma TransfersForeign(rules: SimTypes.Rules, s: SimSteps.State, a: Account)
    requires s.transfers.count == 0
    ensures NoneIn(TransferNames(), ModeState(rules, s, a))
  {
    hide TransferNames, ModeState, NoneIn, TransferHead, BossHead, WorldLike, InstanceLike;
    forall i: nat | i < |TransferNames()|
      ensures Foreign(rules, s, TransferNames()[i])
    {
      TransferScope(TransferNames()[i]);
    }
    NoneThere(rules, s, a, TransferNames());
  }

  lemma ScopeShape(rules: SimTypes.Rules, s: SimSteps.State, a: Account)
    ensures if rules.modeId == "world_boss" then AllIn(WorldNames(), ModeState(rules, s, a)) else NoneIn(WorldNames(), ModeState(rules, s, a))
    ensures if rules.modeId == "instance_boss" then AllIn(InstanceNames(), ModeState(rules, s, a)) else NoneIn(InstanceNames(), ModeState(rules, s, a))
  {
    BossModeIs(rules);
    hide WorldNames, InstanceNames, ModeState, NoneIn, AllIn, TransferHead, BossHead, WorldLike, InstanceLike, SimTypes.BossMode;
    if SimTypes.BossMode(rules) {
      BossTableThere(rules, s, a, ScopeFields(rules));
    }
    forall i: nat | i < |WorldNames()| && rules.modeId != "world_boss"
      ensures Foreign(rules, s, WorldNames()[i])
    {
      ScopesApart(WorldNames()[i]);
    }
    forall i: nat | i < |InstanceNames()| && rules.modeId != "instance_boss"
      ensures Foreign(rules, s, InstanceNames()[i])
    {
      ScopesApart(InstanceNames()[i]);
    }
    if rules.modeId != "world_boss" {
      NoneThere(rules, s, a, WorldNames());
    }
    if rules.modeId != "instance_boss" {
      NoneThere(rules, s, a, InstanceNames());
    }
  }

  lemma NeverTrue(rules: SimTypes.Rules, s: SimSteps.State, a: Account)
    ensures Agreement.Typed(ModeState(rules, s, a))
  {
    hide SnapshotNames;
    forall name | name in ModeState(rules, s, a)
      ensures !ModeState(rules, s, a)[name].True?
    {
      ValueNotTrue(rules, s, a, name);
      hide ValueOf;
    }
  }

  lemma ValueNotTrue(rules: SimTypes.Rules, s: SimSteps.State, a: Account, name: string)
    ensures !ValueOf(rules, s, a, name).True?
  {
    OtherNotTrue(rules, s, a, name);
    hide OtherValue, ShareUnder;
  }

  lemma OtherNotTrue(rules: SimTypes.Rules, s: SimSteps.State, a: Account, name: string)
    ensures !OtherValue(rules, s, a, name).True?
  {
    hide StatusText, StatusNumber;
  }

  // ---- Sound fixtures ----

  /** Outside the boss modes no card can be transferred. */
  ghost predicate NoStrayTransfers(rules: SimTypes.Rules, s: SimSteps.State) {
    !SimTypes.BossMode(rules) ==> s.transfers.cards == map[] && s.transfers.count == 0
  }

  ghost predicate TokenRoster(s: SimSteps.State) {
    forall i :: 0 <= i < |s.roster| ==> SimTypes.AuditToken(s.roster[i])
  }

  lemma TokenIsPlain(id: string)
    requires SimTypes.AuditToken(id)
    ensures PlainKey(id) && id != ""
  {
  }

  /** The fixture of a match whose players are under audit tokens is one the result builder and the verifier
      agree on. */
  lemma FixtureIsSound(rules: SimTypes.Rules, s: SimSteps.State, a: Account)
    requires NoStrayTransfers(rules, s) && TokenRoster(s)
    ensures Agreement.SoundFixture(FixtureOf(rules, s, a))
  {
    ShapeHolds(rules, s, a);
    NeverTrue(rules, s, a);
    RosterPlain(s);
    hide ModeState, SnapshotShape, PlainPlayers, NoStrayTransfers, TokenRoster, Agreement.Typed;
  }

  lemma RosterPlain(s: SimSteps.State)
    requires TokenRoster(s)
    ensures PlainPlayers(s.roster)
  {
    hide PlainKey, SimTypes.AuditToken;
    forall i | 0 <= i < |s.roster|
      ensures PlainKey(s.roster[i]) && s.roster[i] != ""
    {
      TokenIsPlain(s.roster[i]);
    }
  }

  lemma ShapeHolds(rules: SimTypes.Rules, s: SimSteps.State, a: Account)
    requires NoStrayTransfers(rules, s)
    ensures SnapshotShape(FixtureOf(rules, s, a))
  {
    BossModeIs(rules);
    NeutralsThere(rules, s, a);
    ScopeShape(rules, s, a);
    hide ModeState, AllIn, NoneIn, BufferNames, ConnectionNames, BossNames, HpNames, OutcomeNames, WorldNames, InstanceNames,
      TransferNames, PlayerNames, SimTypes.BossMode, IsBossMode;
    if SimTypes.BossMode(rules) {
      BossTableThere(rules, s, a, BossNames());
      BossTableThere(rules, s, a, HpNames());
      BossTableThere(rules, s, a, OutcomeNames());
    } else {
      NoBossTables(rules, s, a, BossNames());
      NoBossTables(rules, s, a, HpNames());
      NoBossTables(rules, s, a, OutcomeNames());
      NoBossTables(rules, s, a, PlayerNames(s.roster));
    }
    if s.transfers.count > 0 {
      TransfersThere(rules, s, a);
    } else {
      TransfersForeign(rules, s, a);
    }
  }
}
