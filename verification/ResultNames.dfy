/** What the printed field names look like: none needs an escape, and their first letters tell replay,
    boss and transfer fields apart. */
module ResultNames {
  import opened Bytes
  import opened FieldLetters
  import opened FlatJson
  import opened ResultFields

  // ---- First letters ----

  /** Neither a boss field nor a transfer field, by its first two letters. */
  predicate NeutralHead(name: string) {
    |name| >= 2 && !(name[0] == 'b' && name[1] == 'o') && !(name[0] == 't' && name[1] == 'r') && name[0] != 'l'
  }

  predicate BossHead(name: string) {
    |name| >= 2 && name[0] == 'b' && name[1] == 'o'
  }

  predicate TransferHead(name: string) {
    |name| >= 2 && (name[0] == 'l' || (name[0] == 't' && name[1] == 'r'))
  }

  lemma BufferHeads(name: string)
    requires name in BufferNames()
    ensures NeutralHead(name)
  {
  }

  lemma ReplayHeads(name: string)
    requires name in ReplayNames()
    ensures NeutralHead(name)
  {
    hide BufferNames;
    if name in BufferNames() {
      BufferHeads(name);
    }
  }

  lemma ConnectionHeads(name: string)
    requires name in ConnectionNames()
    ensures NeutralHead(name)
  {
  }

  lemma BossHeads(name: string)
    requires name in BossNames() || name in HpNames() || name in OutcomeNames()
    ensures BossHead(name)
  {
  }

  lemma ScopeHeads(name: string)
    requires name in WorldNames() || name in InstanceNames()
    ensures BossHead(name)
  {
  }

  lemma TransferHeads(name: string)
    requires name in TransferNames()
    ensures TransferHead(name)
  {
  }

  /** `name` belongs to one of the players. */
  ghost predicate PlayerName(players: seq<string>, name: string) {
    exists j :: 0 <= j < |players| && OfPlayer(players[j], name)
  }

  predicate OfPlayer(player: string, name: string) {
    name == DamageName(player) || name == SpawnName(player) || name == FireName(player)
  }

  lemma PlayerHeads(players: seq<string>, name: string)
    requires PlayerName(players, name)
    ensures BossHead(name)
  {
    var j :| 0 <= j < |players| && OfPlayer(players[j], name);
    DamageHead(players[j]);
    SpawnHead(players[j]);
  }

  lemma DamageHead(player: string)
    ensures BossHead(DamageName(player))
  {
  }

  lemma SpawnHead(player: string)
    ensures BossHead(SpawnName(player)) && BossHead(FireName(player))
  {
  }

  lemma {:induction false} PlayerNamesAre(players: seq<string>, name: string)
    ensures name in PlayerNames(players) <==> PlayerName(players, name)
  {
    hide DamageName, SpawnName, FireName;
    if players != [] {
      PlayerNamesAre(players[1..], name);
      PlayerNameCons(players, name);
    }
  }

  lemma PlayerNameCons(players: seq<string>, name: string)
    requires players != []
    ensures PlayerName(players, name) <==> OfPlayer(players[0], name) || PlayerName(players[1..], name)
  {
    hide OfPlayer;
    if PlayerName(players[1..], name) {
      var j :| 0 <= j < |players[1..]| && OfPlayer(players[1..][j], name);
      assert OfPlayer(players[j + 1], name);
    }
    if PlayerName(players, name) && !OfPlayer(players[0], name) {
      var j :| 0 <= j < |players| && OfPlayer(players[j], name);
      assert OfPlayer(players[1..][j - 1], name);
    }
  }

  // ---- What is tried ----

  /** A tried name is in one of the tables or belongs to a player. */
  lemma TriedIs(f: Fixture, name: string)
    ensures name in Tried(f) <==>
      || name in ReplayNames() || name in BossNames() || ("boss_scope" in f.modeState && name in ConnectionNames())
      || name in HpNames() || PlayerName(f.playerIds, name) || name in OutcomeNames() || name in WorldNames()
      || name in InstanceNames() || name in TransferNames()
  {
    PlayerNamesAre(f.playerIds, name);
    hide *;
    TriedUnfold(f);
    var connections := if "boss_scope" in f.modeState then ConnectionNames() else [];
    InConcat(ReplayNames(), BossNames(), name);
    InConcat(ReplayNames() + BossNames(), connections, name);
    InConcat(ReplayNames() + BossNames() + connections, HpNames(), name);
    TriedTail(f, ReplayNames() + BossNames() + connections + HpNames(), name);
  }

  lemma TriedTail(f: Fixture, head: seq<string>, name: string)
    ensures name in head + PlayerNames(f.playerIds) + OutcomeNames() + WorldNames() + InstanceNames() + TransferNames() <==>
      || name in head || name in PlayerNames(f.playerIds) || name in OutcomeNames() || name in WorldNames()
      || name in InstanceNames() || name in TransferNames()
  {
    hide *;
    var a := head + PlayerNames(f.playerIds);
    InConcat(head, PlayerNames(f.playerIds), name);
    InConcat(a, OutcomeNames(), name);
    InConcat(a + OutcomeNames(), WorldNames(), name);
    InConcat(a + OutcomeNames() + WorldNames(), InstanceNames(), name);
    InConcat(a + OutcomeNames() + WorldNames() + InstanceNames(), TransferNames(), name);
  }

  lemma InConcat(a: seq<string>, b: seq<string>, name: string)
    ensures name in a + b <==> name in a || name in b
  {
  }

  lemma TriedUnfold(f: Fixture)
    ensures Tried(f) == ReplayNames() + BossNames() + (if "boss_scope" in f.modeState then ConnectionNames() else [])
      + HpNames() + PlayerNames(f.playerIds) + OutcomeNames() + WorldNames() + InstanceNames() + TransferNames()
  {
    hide ReplayNames, BossNames, ConnectionNames, HpNames, OutcomeNames, WorldNames, InstanceNames, TransferNames, PlayerNames;
  }

  lemma CleanIsPlain(s: string)
    requires Clean(s)
    ensures PlainKey(s)
  {
  }

  lemma PlainIn(names: seq<string>, name: string)
    requires AllClean(names) && name in names
    ensures Clean(name) && PlainKey(name)
  {
    CleanIsPlain(name);
    hide Clean, PlainKey;
  }

  lemma PlainConcat(a: string, b: string)
    requires PlainKey(a) && PlainKey(b)
    ensures PlainKey(a + b)
  {
  }

  lemma PlayerPlain(players: seq<string>, name: string)
    requires PlainPlayers(players) && PlayerName(players, name)
    ensures PlainKey(name)
  {
    var j :| 0 <= j < |players| && OfPlayer(players[j], name);
    PlayerPartsClean();
    hide PlainKey, Clean;
    CleanIsPlain("boss_damage_");
    CleanIsPlain("boss_player_");
    CleanIsPlain("_spawn_slot");
    CleanIsPlain("_fire_target");
    PlainConcat("boss_damage_", players[j]);
    PlainConcat("boss_player_", players[j]);
    PlainConcat("boss_player_" + players[j], "_spawn_slot");
    PlainConcat("boss_player_" + players[j], "_fire_target");
  }

  /** Every name the builder can print is plain. */
  lemma TriedIsPlain(f: Fixture, name: string)
    requires PlainPlayers(f.playerIds) && name in Tried(f)
    ensures PlainKey(name)
  {
    hide *;
    TriedIs(f, name);
    if name in ReplayNames() {
      ReplayNamesClean();
      PlainIn(ReplayNames(), name);
    } else if name in BossNames() {
      BossNamesClean();
      PlainIn(BossNames(), name);
    } else if name in ConnectionNames() {
      ConnectionNamesClean();
      PlainIn(ConnectionNames(), name);
    } else if name in HpNames() {
      HpNamesClean();
      PlainIn(HpNames(), name);
    } else if PlayerName(f.playerIds, name) {
      PlayerPlain(f.playerIds, name);
    } else if name in OutcomeNames() {
      OutcomeNamesClean();
      PlainIn(OutcomeNames(), name);
    } else if name in WorldNames() {
      WorldNamesClean();
      PlainIn(WorldNames(), name);
    } else if name in InstanceNames() {
      InstanceNamesClean();
      PlainIn(InstanceNames(), name);
    } else {
      TransferNamesClean();
      PlainIn(TransferNames(), name);
    }
  }

  // ---- What is printed ----

  lemma SummaryNamesAreReplay(s: Summary, name: string)
    requires SummaryField(s, name).Some?
    ensures name in ReplayNames()
  {
  }

  /** A field outside the replay table that has a value has it from the mode state. */
  lemma OutsideReplay(f: Fixture, name: string)
    requires FieldOf(f, name).Some? && name !in ReplayNames()
    ensures name in f.modeState && FieldOf(f, name) == Some(f.modeState[name])
  {
    hide SummaryField, ReplayNames;
    if SummaryField(f.summary, name).Some? {
      SummaryNamesAreReplay(f.summary, name);
    }
  }

  lemma FieldHere(f: Fixture, name: string)
    requires name in f.modeState
    ensures FieldOf(f, name).Some?
  {
    hide SummaryField;
  }

  lemma ReplayHasFields(f: Fixture, i: nat)
    requires AllIn(BufferNames(), f.modeState) && i < |ReplayNames()|
    ensures FieldOf(f, ReplayNames()[i]).Some?
  {
    if 10 <= i < 18 {
      assert ReplayNames()[i] == BufferNames()[i - 10];
      hide ReplayNames, BufferNames, SummaryField;
      FieldHere(f, BufferNames()[i - 10]);
    }
  }

  // ---- What a well-shaped snapshot prints ----

  ghost predicate BossKey(f: Fixture, name: string) {
    || name in BossNames() || name in HpNames() || name in OutcomeNames() || name in WorldNames()
    || name in InstanceNames() || PlayerName(f.playerIds, name)
  }

  lemma Absent(names: seq<string>, m: map<string, Value>, name: string)
    requires NoneIn(names, m) && name in m
    ensures name !in names
  {
  }

  lemma Present(names: seq<string>, m: map<string, Value>, name: string)
    requires AllIn(names, m) && name in names
    ensures name in m
  {
  }

  lemma ShapeFacts(f: Fixture)
    requires SnapshotShape(f)
    ensures "boss_scope" in f.modeState <==> IsBossMode(f.modeId)
    ensures "transfer_card_count" in f.modeState ==> AllIn(TransferNames(), f.modeState)
    ensures "transfer_card_count" !in f.modeState ==> NoneIn(TransferNames(), f.modeState)
  {
    hide ConnectionNames, HpNames, OutcomeNames, WorldNames, InstanceNames, BufferNames, PlayerNames;
    assert BossNames()[0] == "boss_scope" && TransferNames()[0] == "transfer_card_count";
  }

  lemma NonBossAbsent(f: Fixture, name: string)
    requires SnapshotShape(f) && !IsBossMode(f.modeId) && name in f.modeState
    ensures !BossKey(f, name) && name !in TransferNames()
  {
    PlayerNamesAre(f.playerIds, name);
    hide BossNames, ConnectionNames, HpNames, OutcomeNames, WorldNames, InstanceNames, BufferNames, PlayerNames, TransferNames, NoneIn, AllIn;
    Absent(BossNames(), f.modeState, name);
    Absent(HpNames(), f.modeState, name);
    Absent(OutcomeNames(), f.modeState, name);
    Absent(WorldNames(), f.modeState, name);
    Absent(InstanceNames(), f.modeState, name);
    Absent(PlayerNames(f.playerIds), f.modeState, name);
    Absent(TransferNames(), f.modeState, name);
  }

  /** What can be printed: a replay field; in a boss mode a connection count or a boss field; a transfer
      field once there was a transfer. */
  lemma PrintedKey(f: Fixture, name: string)
    requires SnapshotShape(f) && name in Tried(f) && FieldOf(f, name).Some?
    ensures || name in ReplayNames()
            || (IsBossMode(f.modeId) && name in f.modeState && (name in ConnectionNames() || BossKey(f, name)))
            || (name in TransferNames() && "transfer_card_count" in f.modeState)
  {
    TriedIs(f, name);
    ShapeFacts(f);
    hide ReplayNames, BossNames, ConnectionNames, HpNames, OutcomeNames, WorldNames, InstanceNames, TransferNames,
      PlayerNames, Tried, FieldOf, SnapshotShape, PlayerName, NoneIn, AllIn, IsBossMode;
    if name !in ReplayNames() {
      OutsideReplay(f, name);
      if !IsBossMode(f.modeId) {
        NonBossAbsent(f, name);
      }
      if "transfer_card_count" !in f.modeState {
        Absent(TransferNames(), f.modeState, name);
      }
    }
  }
}
