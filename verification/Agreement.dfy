/** Builder and verifier agree: what BuildSignedBattleResult prints, SubmitBattleResult accepts in the same
    state, exactly when the match carries no forbidden word; here, that every other guard passes. */
module Agreement {
  import opened Bytes
  import opened JsonScan
  import opened FieldLetters
  import opened FlatJson
  import opened FieldNames
  import opened ResultFields
  import opened ResultNames
  import opened ResultAgreement

  ghost predicate Typed(m: map<string, Value>) {
    forall name :: name in m ==> !m[name].True?
  }

  /** The shapes of the development key material. */
  ghost predicate Signs(release: Release) {
    && (forall r: Result, k: string :: |release.signature(r, k)| == 128 && IsHex(release.signature(r, k)))
    && (forall k: string :: |release.publicKey(k)| == 64 && IsHex(release.publicKey(k)))
  }

  ghost predicate SoundFixture(f: Fixture) {
    SnapshotShape(f) && PlainPlayers(f.playerIds) && Typed(f.modeState)
  }

  /** A match as the server keeps it: named, with named players and a signing server. */
  ghost predicate SoundMatch(m: Match) {
    && SoundFixture(m.fixture)
    && m.matchId != "" && m.fixture.modeId != "" && LooksLikeSha256Ref(m.resultHash) && m.replayId != ""
    && m.serverId != "" && "" !in m.sessionPlayers
  }

  // ---- The printed members ----

  lemma MembersPlain(f: Fixture)
    requires PlainPlayers(f.playerIds)
    ensures PlainKeys(ResultMembers(f))
  {
    hide Tried, PlainKey, FieldOf, PlainPlayers, Emit;
    forall i | 0 <= i < |ResultMembers(f)|
      ensures PlainKey(ResultMembers(f)[i].key)
    {
      EmittedHasField(f, Tried(f), i);
      TriedIsPlain(f, ResultMembers(f)[i].key);
    }
  }

  lemma OwnerTried(f: Fixture)
    ensures "battle_result_owner" in Tried(f) && FieldOf(f, "battle_result_owner") == Some(Str("cpp"))
  {
    TriedIs(f, "battle_result_owner");
    assert ReplayNames()[0] == "battle_result_owner";
    hide Tried, BossNames, ConnectionNames, HpNames, OutcomeNames, WorldNames, InstanceNames, TransferNames;
  }

  lemma MembersExist(f: Fixture)
    ensures ResultMembers(f) != []
  {
    OwnerTried(f);
    FindEmitted(f, Tried(f), "battle_result_owner");
    hide Tried, FieldOf, Emit;
  }

  lemma FindMember(f: Fixture, name: string)
    ensures Find(ResultMembers(f), name) == if name in Tried(f) then FieldOf(f, name) else None
  {
    hide Tried, FieldOf;
    FindEmitted(f, Tried(f), name);
  }

  // ---- Every required field holds ----

  ghost predicate Printed(f: Fixture, name: string) {
    name in Tried(f) && FieldOf(f, name).Some?
  }

  lemma NeverTrue(f: Fixture, name: string)
    requires Typed(f.modeState) && FieldOf(f, name).Some?
    ensures !FieldOf(f, name).value.True?
  {
  }

  lemma ExpectedIs(f: Fixture, name: string)
    ensures Expected(f)(name) == if FieldOf(f, name).Some? then FieldOf(f, name).value else Str("")
  {
    hide FieldOf;
  }

  lemma FieldHolds(f: Fixture, name: string)
    requires PlainPlayers(f.playerIds) && Typed(f.modeState) && Printed(f, name)
    ensures Holds(Flat(ResultMembers(f)), name, Expected(f)(name))
  {
    ExpectedIs(f, name);
    NeverTrue(f, name);
    FindMember(f, name);
    MembersPlain(f);
    MembersExist(f);
    TriedIsPlain(f, name);
    var ms := ResultMembers(f);
    hide Tried, FieldOf, ResultMembers, Flat, PlainKeys, PlainKey, Find, HasUint, HasString, Expected, Typed, PlainPlayers;
    match FieldOf(f, name).value
    case Uint(n) => UintLookupIsExact(ms, name, n);
    case Str(s) =>
      if s == "" {
        EmptyExpectationAlwaysMet(Flat(ms), name);
      } else {
        StringLookupIsExact(ms, name, s);
      }
  }

  ghost predicate AllPrinted(f: Fixture, names: seq<string>) {
    forall i :: 0 <= i < |names| ==> Printed(f, names[i])
  }

  lemma {:induction false} NoFieldComplaint(f: Fixture, names: seq<string>)
    requires PlainPlayers(f.playerIds) && Typed(f.modeState) && AllPrinted(f, names)
    ensures FieldsComplaint(Flat(ResultMembers(f)), Expected(f), names) == ""
  {
    hide Printed, PlainPlayers, Typed, Holds, Expected, ResultMembers, Flat;
    if names != [] {
      FieldHolds(f, names[0]);
      NoFieldComplaint(f, names[1..]);
    }
  }

  lemma PrintedFrom(f: Fixture, table: seq<string>, names: seq<string>)
    requires AllPrinted(f, table) && forall i :: 0 <= i < |names| ==> names[i] in table
    ensures AllPrinted(f, names)
  {
    hide Printed;
  }

  lemma TablePrinted(f: Fixture, names: seq<string>)
    requires AllIn(names, f.modeState) && forall i :: 0 <= i < |names| ==> names[i] in Tried(f)
    ensures AllPrinted(f, names)
  {
    hide Tried, FieldOf;
    forall i | 0 <= i < |names|
      ensures Printed(f, names[i])
    {
      FieldHere(f, names[i]);
    }
  }

  lemma ReplayPrinted(f: Fixture)
    requires SnapshotShape(f)
    ensures AllPrinted(f, ReplayNames())
  {
    BuffersIn(f);
    hide Tried, FieldOf, ReplayNames, SnapshotShape, BufferNames;
    forall i: nat | i < |ReplayNames()|
      ensures Printed(f, ReplayNames()[i])
    {
      TriedIs(f, ReplayNames()[i]);
      ReplayHasFields(f, i);
    }
  }

  lemma BuffersIn(f: Fixture)
    requires SnapshotShape(f)
    ensures AllIn(BufferNames(), f.modeState)
  {
  }

  lemma ReplayOrderIn()
    ensures forall i :: 0 <= i < |ReplayOrder()| ==> ReplayOrder()[i] in ReplayNames()
  {
    var t := ReplayNames();
    assert t[0] == "battle_result_owner" && t[1] == "event_cursor";
    hide ReplayNames;
  }

  lemma NoReplayComplaint(f: Fixture, o: Options)
    requires SoundFixture(f) && o.required == Expected(f) && o.replayFields
    ensures ReplayComplaint(Flat(ResultMembers(f)), o) == ""
  {
    hide SnapshotShape, PlainPlayers, Typed, Expected, ResultMembers, Flat, FieldsComplaint, AllPrinted, ReplayNames, ReplayOrder;
    ReplayPrinted(f);
    ReplayOrderIn();
    PrintedFrom(f, ReplayNames(), ReplayOrder());
    NoFieldComplaint(f, ReplayOrder());
  }

  // ---- Boss fields ----

  lemma BossTablesIn(f: Fixture)
    requires SnapshotShape(f) && IsBossMode(f.modeId)
    ensures AllIn(BossNames(), f.modeState) && AllIn(ConnectionNames(), f.modeState)
    ensures AllIn(HpNames(), f.modeState) && AllIn(OutcomeNames(), f.modeState)
    ensures f.modeId == "world_boss" ==> AllIn(WorldNames(), f.modeState) && NoneIn(InstanceNames(), f.modeState)
    ensures f.modeId == "instance_boss" ==> AllIn(InstanceNames(), f.modeState) && NoneIn(WorldNames(), f.modeState)
  {
  }

  lemma BossPrinted(f: Fixture)
    requires SnapshotShape(f) && IsBossMode(f.modeId)
    ensures AllPrinted(f, BossNames()) && AllPrinted(f, ConnectionNames())
    ensures AllPrinted(f, HpNames()) && AllPrinted(f, OutcomeNames())
    ensures f.modeId == "world_boss" ==> AllPrinted(f, WorldNames())
    ensures f.modeId == "instance_boss" ==> AllPrinted(f, InstanceNames())
  {
    BossTablesIn(f);
    ShapeFacts(f);
    forall name
      ensures name in Tried(f) <==>
        || name in ReplayNames() || name in BossNames() || ("boss_scope" in f.modeState && name in ConnectionNames())
        || name in HpNames() || PlayerName(f.playerIds, name) || name in OutcomeNames() || name in WorldNames()
        || name in InstanceNames() || name in TransferNames()
    {
      TriedIs(f, name);
    }
    hide *;
    TablePrinted(f, BossNames());
    TablePrinted(f, ConnectionNames());
    TablePrinted(f, HpNames());
    TablePrinted(f, OutcomeNames());
    if f.modeId == "world_boss" {
      TablePrinted(f, WorldNames());
    }
    if f.modeId == "instance_boss" {
      TablePrinted(f, InstanceNames());
    }
  }

  lemma BossOrderIn()
    ensures forall i :: 0 <= i < |BossOrder()| ==>
      BossOrder()[i] in BossNames() || BossOrder()[i] in ConnectionNames() || BossOrder()[i] in HpNames()
  {
    var t := BossNames();
    assert t[15] == "boss_lifecycle_state" && t[16] == "boss_roster_locked";
    hide BossNames, ConnectionNames, HpNames;
  }

  lemma BossOrderPrinted(f: Fixture)
    requires SnapshotShape(f) && IsBossMode(f.modeId)
    ensures AllPrinted(f, BossOrder())
  {
    BossPrinted(f);
    BossOrderIn();
    hide BossNames, ConnectionNames, HpNames, BossOrder, Printed, SnapshotShape;
  }

  lemma {:induction false} HavingIn(f: Fixture, players: seq<string>, name: string -> string)
    requires forall j :: 0 <= j < |players| ==> players[j] in f.playerIds
    ensures forall i :: 0 <= i < |HavingFrom(f, players, name)| ==>
      HavingFrom(f, players, name)[i] in f.playerIds && name(HavingFrom(f, players, name)[i]) in f.modeState
  {
    if players != [] {
      HavingIn(f, players[1..], name);
    }
  }

  lemma {:induction false} HavingAll(f: Fixture, players: seq<string>, name: string -> string, player: string)
    requires player in players && name(player) in f.modeState
    ensures player in HavingFrom(f, players, name)
  {
    if players[0] != player {
      HavingAll(f, players[1..], name, player);
    }
  }

  lemma EachPrinted(f: Fixture, name: string -> string)
    requires forall p: string :: OfPlayer(p, name(p))
    ensures AllPrinted(f, Each(Having(f, name), name))
  {
    var have := Having(f, name);
    HavingIn(f, f.playerIds, name);
    hide Tried, FieldOf, HavingFrom, OfPlayer;
    forall i | 0 <= i < |have|
      ensures Printed(f, name(have[i]))
    {
      var j :| 0 <= j < |f.playerIds| && f.playerIds[j] == have[i];
      assert OfPlayer(f.playerIds[j], name(have[i]));
      TriedIs(f, name(have[i]));
      FieldHere(f, name(have[i]));
    }
  }

  lemma NoPlayersComplaint(f: Fixture, name: string -> string, reason: string)
    requires PlainPlayers(f.playerIds) && Typed(f.modeState) && forall p: string :: OfPlayer(p, name(p))
    ensures PlayersComplaint(Flat(ResultMembers(f)), Expected(f), Each(Having(f, name), name), reason) == ""
  {
    EachPrinted(f, name);
    NoFieldComplaint(f, Each(Having(f, name), name));
    hide *;
    PlayersQuiet(Flat(ResultMembers(f)), Expected(f), Each(Having(f, name), name), reason);
  }

  lemma PlayersQuiet(json: string, required: string -> Value, names: seq<string>, reason: string)
    requires FieldsComplaint(json, required, names) == ""
    ensures PlayersComplaint(json, required, names, reason) == ""
  {
  }

  lemma AbsentField(f: Fixture, name: string)
    requires PlainPlayers(f.playerIds) && PlainKey(name) && BossHead(name) && name !in f.modeState
    ensures !HasField(Flat(ResultMembers(f)), name)
  {
    FindMember(f, name);
    MembersPlain(f);
    MembersExist(f);
    FieldLookupIsExact(ResultMembers(f), name);
    hide *;
    if FieldOf(f, name).Some? {
      NotReplay(name);
      OutsideReplay(f, name);
    }
  }

  lemma NotReplay(name: string)
    requires BossHead(name) || TransferHead(name)
    ensures name !in ReplayNames()
  {
    hide ReplayNames;
    if name in ReplayNames() {
      ReplayHeads(name);
    }
  }

  lemma NoWrongMode(f: Fixture)
    requires SoundFixture(f) && IsBossMode(f.modeId)
    ensures WrongModeComplaint(Flat(ResultMembers(f)), f.modeId) == ""
  {
    BossTablesIn(f);
    InstanceNamesClean();
    WorldNamesClean();
    hide SnapshotShape, PlainPlayers, Typed, ResultMembers, Flat, HasField, PlainKey, BossNames, ConnectionNames, HpNames, OutcomeNames, BossHead, Clean;
    forall i: nat | i < 3 && f.modeId == "world_boss"
      ensures !HasField(Flat(ResultMembers(f)), InstanceNames()[i])
    {
      PlainIn(InstanceNames(), InstanceNames()[i]);
      ScopeHeads(InstanceNames()[i]);
      AbsentField(f, InstanceNames()[i]);
    }
    forall i: nat | i < 4 && f.modeId == "instance_boss"
      ensures !HasField(Flat(ResultMembers(f)), WorldNames()[i])
    {
      PlainIn(WorldNames(), WorldNames()[i]);
      ScopeHeads(WorldNames()[i]);
      AbsentField(f, WorldNames()[i]);
    }
  }

  /** The boss part of the verification finds nothing to complain about. */
  lemma NoBossComplaint(f: Fixture, o: Options)
    requires SoundFixture(f) && o.required == Expected(f) && o.bossFields == ("boss_scope" in f.modeState)
    requires o.bossFields ==>
      o.damagePlayers == Having(f, DamageName) && o.spawnPlayers == Having(f, SpawnName) && o.firePlayers == Having(f, FireName)
    ensures BossComplaint(Flat(ResultMembers(f)), f.modeId, o) == ""
  {
    ShapeFacts(f);
    if o.bossFields {
      OwnNames();
      hide *;
      SoundParts(f);
      BossOrderPrinted(f);
      NoFieldComplaint(f, BossOrder());
      NoPlayersComplaint(f, DamageName, "boss_player_damage_mismatch");
      NoPlayersComplaint(f, SpawnName, "boss_player_spawn_slot_mismatch");
      NoPlayersComplaint(f, FireName, "boss_player_fire_target_mismatch");
      BossPrinted(f);
      NoFieldComplaint(f, OutcomeNames());
      NoWrongMode(f);
      ScopeComplaints(f, o);
      BossParts(Flat(ResultMembers(f)), f.modeId, o);
    }
  }

  lemma SoundParts(f: Fixture)
    requires SoundFixture(f)
    ensures SnapshotShape(f) && PlainPlayers(f.playerIds) && Typed(f.modeState)
  {
  }

  lemma OwnNames()
    ensures forall p: string :: OfPlayer(p, DamageName(p)) && OfPlayer(p, SpawnName(p)) && OfPlayer(p, FireName(p))
  {
  }

  function ScopeComplaint(json: string, modeId: string, o: Options): string {
    Or(if modeId == "world_boss" then FieldsComplaint(json, o.required, WorldNames()) else "",
       if o.required("boss_instance_result_state") != Str("") then FieldsComplaint(json, o.required, InstanceNames())
       else "")
  }

  lemma ScopeComplaints(f: Fixture, o: Options)
    requires SoundFixture(f) && IsBossMode(f.modeId) && o.required == Expected(f)
    ensures ScopeComplaint(Flat(ResultMembers(f)), f.modeId, o) == ""
  {
    SoundParts(f);
    BossPrinted(f);
    hide SnapshotShape, PlainPlayers, Typed, ResultMembers, Flat, FieldsComplaint, AllPrinted, WorldNames, Expected;
    if f.modeId == "world_boss" {
      NoFieldComplaint(f, WorldNames());
      NoInstanceState(f);
    } else {
      NoFieldComplaint(f, InstanceNames());
    }
  }

  lemma NoInstanceState(f: Fixture)
    requires SoundFixture(f) && f.modeId == "world_boss"
    ensures Expected(f)("boss_instance_result_state") == Str("")
  {
    BossTablesIn(f);
    assert InstanceNames()[2] == "boss_instance_result_state";
    Absent2(InstanceNames(), f.modeState, 2);
    NotReplay("boss_instance_result_state");
    ExpectedIs(f, "boss_instance_result_state");
    if FieldOf(f, "boss_instance_result_state").Some? {
      OutsideReplay(f, "boss_instance_result_state");
    }
  }

  lemma Absent2(names: seq<string>, m: map<string, Value>, i: nat)
    requires NoneIn(names, m) && i < |names|
    ensures names[i] !in m
  {
  }

  lemma BossParts(json: string, modeId: string, o: Options)
    requires FieldsComplaint(json, o.required, BossOrder()) == ""
    requires PlayersComplaint(json, o.required, Each(o.damagePlayers, DamageName), "boss_player_damage_mismatch") == ""
    requires PlayersComplaint(json, o.required, Each(o.spawnPlayers, SpawnName), "boss_player_spawn_slot_mismatch") == ""
    requires PlayersComplaint(json, o.required, Each(o.firePlayers, FireName), "boss_player_fire_target_mismatch") == ""
    requires FieldsComplaint(json, o.required, OutcomeNames()) == ""
    requires WrongModeComplaint(json, modeId) == "" && ScopeComplaint(json, modeId, o) == ""
    ensures BossComplaint(json, modeId, o) == ""
  {
    hide FieldsComplaint, PlayersComplaint, WrongModeComplaint, Each, BossOrder, OutcomeNames, WorldNames, InstanceNames;
  }

  // ---- Transfer fields ----

  lemma TransferOrderIn()
    ensures forall i :: 0 <= i < |TransferOrder()| ==> TransferOrder()[i] in TransferNames()
  {
    assert |TransferNames()| == 9;
    hide TransferNames;
  }

  lemma TransferPrinted(f: Fixture)
    requires AllIn(TransferNames(), f.modeState)
    ensures AllPrinted(f, TransferNames())
  {
    hide Tried, FieldOf, TransferNames, AllIn;
    forall i | 0 <= i < |TransferNames()|
      ensures TransferNames()[i] in Tried(f)
    {
      TriedIs(f, TransferNames()[i]);
    }
    TablePrinted(f, TransferNames());
  }

  lemma NoTransferComplaint(f: Fixture, o: Options)
    requires SoundFixture(f) && o.required == Expected(f) && o.transferFields == ("transfer_card_count" in f.modeState)
    ensures TransferComplaint(Flat(ResultMembers(f)), o) == ""
  {
    ShapeFacts(f);
    if o.transferFields {
      hide SnapshotShape, PlainPlayers, Typed, Expected, ResultMembers, Flat, FieldsComplaint, AllPrinted, TransferNames, TransferOrder;
      TransferPrinted(f);
      TransferOrderIn();
      PrintedFrom(f, TransferNames(), TransferOrder());
      NoFieldComplaint(f, TransferOrder());
    }
  }

  // ---- No unknown or misplaced field ----

  lemma {:induction false} KeysAt(ms: seq<Member>, i: nat)
    requires i < |ms|
    ensures |Keys(ms)| == |ms| && Keys(ms)[i] == ms[i].key
  {
    if i > 0 {
      KeysAt(ms[1..], i - 1);
    } else if |ms| > 1 {
      KeysAt(ms[1..], 0);
    }
  }

  lemma NoSuchName(f: Fixture, bad: string -> bool)
    requires PlainPlayers(f.playerIds)
    requires forall name :: Printed(f, name) ==> !bad(name)
    ensures !SomeName(Flat(ResultMembers(f)), bad)
  {
    MembersPlain(f);
    MembersExist(f);
    var ms := ResultMembers(f);
    FieldNamesAreKeys(ms);
    hide Tried, FieldOf, Emit, Flat, PlainKeys, PlainPlayers, FieldNamesOf, Keys;
    KeysAt(ms, 0);
    forall i: nat | i < |ms|
      ensures !bad(Keys(ms)[i])
    {
      KeysAt(ms, i);
      EmittedHasField(f, Tried(f), i);
      assert Printed(f, ms[i].key);
    }
  }

  lemma HeadsApart(name: string)
    ensures "boss_" <= name ==> BossHead(name)
    ensures IsTransfer(name) ==> TransferHead(name)
    ensures !(BossHead(name) && TransferHead(name)) && !(NeutralHead(name) && (BossHead(name) || TransferHead(name)))
  {
    if IsTransfer(name) && "last_transfer_" <= name {
      assert name[0] == "last_transfer_"[0];
    }
    if "boss_" <= name {
      assert name[0] == "boss_"[0] && name[1] == "boss_"[1];
    }
  }

  lemma BossKeyHead(f: Fixture, name: string)
    requires BossKey(f, name)
    ensures BossHead(name)
  {
    hide BossNames, HpNames, OutcomeNames, WorldNames, InstanceNames, PlayerName, BossHead;
    if name in BossNames() || name in HpNames() || name in OutcomeNames() {
      BossHeads(name);
    } else if name in WorldNames() || name in InstanceNames() {
      ScopeHeads(name);
    } else {
      PlayerHeads(f.playerIds, name);
    }
  }

  /** What a printed name can be, and what it then cannot be. */
  lemma PrintedNameIs(f: Fixture, name: string)
    requires SnapshotShape(f) && Printed(f, name)
    ensures || (name in ReplayNames() && NeutralHead(name))
            || (IsBossMode(f.modeId) && name in ConnectionNames() && NeutralHead(name))
            || (IsBossMode(f.modeId) && name in f.modeState && BossKey(f, name) && BossHead(name))
            || (name in TransferNames() && TransferHead(name) && "transfer_card_count" in f.modeState)
  {
    PrintedKey(f, name);
    hide SnapshotShape, Tried, FieldOf, BossKey, BossHead, NeutralHead, TransferHead, ReplayNames, ConnectionNames, TransferNames, IsBossMode;
    if name in ReplayNames() {
      ReplayHeads(name);
    } else if name in TransferNames() && "transfer_card_count" in f.modeState {
      TransferHeads(name);
    } else if name in ConnectionNames() {
      ConnectionHeads(name);
    } else {
      BossKeyHead(f, name);
    }
  }

  lemma KnownBossKey(f: Fixture, name: string, o: Options)
    requires BossKey(f, name) && name in f.modeState
    requires o.damagePlayers == Having(f, DamageName) && o.spawnPlayers == Having(f, SpawnName) && o.firePlayers == Having(f, FireName)
    ensures KnownBoss(name, o)
  {
    hide BossNames, HpNames, OutcomeNames, WorldNames, InstanceNames, DamageName, SpawnName, FireName, HavingFrom;
    if PlayerName(f.playerIds, name) {
      var j :| 0 <= j < |f.playerIds| && OfPlayer(f.playerIds[j], name);
      var p := f.playerIds[j];
      if name == DamageName(p) {
        HavingAll(f, f.playerIds, DamageName, p);
      } else if name == SpawnName(p) {
        HavingAll(f, f.playerIds, SpawnName, p);
      } else {
        HavingAll(f, f.playerIds, FireName, p);
      }
    }
  }

  ghost predicate OptionsMatch(f: Fixture, o: Options) {
    && o.required == Expected(f) && o.replayFields
    && o.bossFields == ("boss_scope" in f.modeState) && o.transferFields == ("transfer_card_count" in f.modeState)
    && (o.bossFields ==>
         o.damagePlayers == Having(f, DamageName) && o.spawnPlayers == Having(f, SpawnName) && o.firePlayers == Having(f, FireName))
  }

  lemma KnownNames(f: Fixture, o: Options, name: string)
    requires SnapshotShape(f) && OptionsMatch(f, o) && Printed(f, name)
    ensures KnownMode(name, o)
    ensures o.bossFields && "boss_" <= name ==> KnownBoss(name, o)
    ensures IsTransfer(name) ==> o.transferFields && name in TransferNames()
    ensures !IsBossMode(f.modeId) ==> !("boss_" <= name) && !IsTransfer(name)
  {
    ShapeFacts(f);
    PrintedNameIs(f, name);
    HeadsApart(name);
    if !IsBossMode(f.modeId) {
      NoTransferOutsideBoss(f);
    }
    hide SnapshotShape, Tried, FieldOf, BossHead, NeutralHead, TransferHead, ReplayNames, ConnectionNames, TransferNames,
      IsBossMode, BossKey, IsTransfer, KnownBoss, Having;
    if BossKey(f, name) && name in f.modeState && o.bossFields {
      KnownBossKey(f, name, o);
    }
  }

  lemma NoTransferOutsideBoss(f: Fixture)
    requires SnapshotShape(f) && !IsBossMode(f.modeId)
    ensures "transfer_card_count" !in f.modeState
  {
    assert TransferNames()[0] == "transfer_card_count";
    hide BossNames, ConnectionNames, HpNames, OutcomeNames, WorldNames, InstanceNames, BufferNames, PlayerNames;
  }

  lemma NoBossOnlyField(f: Fixture, o: Options)
    requires SoundFixture(f) && OptionsMatch(f, o) && !IsBossMode(f.modeId)
    ensures !BossOnlyField(Flat(ResultMembers(f)))
  {
    SoundParts(f);
    NoPrefix(f, o, "boss_");
    NoPrefix(f, o, "last_transfer_");
    NoTransferField(f, o, "transfer_card_count");
    NoTransferField(f, o, "transfer_card_edges_material");
    hide SnapshotShape, PlainPlayers, Typed, ResultMembers, Flat, HasField, PrefixFrom;
  }

  lemma NoTransferField(f: Fixture, o: Options, name: string)
    requires SoundFixture(f) && OptionsMatch(f, o) && !IsBossMode(f.modeId)
    requires name == "transfer_card_count" || name == "transfer_card_edges_material"
    ensures !HasField(Flat(ResultMembers(f)), name)
  {
    SoundParts(f);
    TransferPlainTwo();
    FindMember(f, name);
    MembersPlain(f);
    MembersExist(f);
    FieldLookupIsExact(ResultMembers(f), name);
    hide SnapshotShape, PlainPlayers, Typed, ResultMembers, Flat, HasField, OptionsMatch, Tried, FieldOf, PlainKey, PlainKeys, IsBossMode;
    if Printed(f, name) {
      KnownNames(f, o, name);
    }
  }

  lemma TransferPlainTwo()
    ensures PlainKey("transfer_card_count") && PlainKey("transfer_card_edges_material")
  {
  }

  lemma NoPrefix(f: Fixture, o: Options, prefix: string)
    requires SoundFixture(f) && OptionsMatch(f, o) && !IsBossMode(f.modeId)
    requires prefix == "boss_" || prefix == "last_transfer_"
    ensures !PrefixFrom(Flat(ResultMembers(f)), 0, prefix)
  {
    SoundParts(f);
    MembersPlain(f);
    MembersExist(f);
    var ms := ResultMembers(f);
    PrefixSearchIsExact(ms, prefix);
    hide SnapshotShape, PlainPlayers, Typed, Flat, PrefixFrom, OptionsMatch, Tried, FieldOf, Emit, PlainKeys, IsBossMode;
    forall i: nat | i < |ms|
      ensures !(prefix <= ms[i].key)
    {
      EmittedHasField(f, Tried(f), i);
      KnownNames(f, o, ms[i].key);
    }
  }
}
