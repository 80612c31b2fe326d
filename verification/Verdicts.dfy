/** What an accepted result says: the verifier of src/result.cpp lets nothing through whose fields, players,
    reward or signature are not those of the match as it stands. */
module Verdicts {
  import opened Bytes
  import opened JsonScan
  import opened FlatJson
  import opened FieldNames
  import opened WordScan
  import opened ResultFields
  import opened ResultNames
  import opened ResultAgreement
  import Agreement

  // ---- What must be told ----

  /** The fields a result of the match has to tell. */
  ghost predicate Checked(f: Fixture, name: string) {
    || name in ReplayNames()
    || (IsBossMode(f.modeId) &&
         (name in BossNames() || name in ConnectionNames() || name in HpNames() || name in OutcomeNames()))
    || (IsBossMode(f.modeId) && PlayerName(f.playerIds, name) && name in f.modeState)
    || (f.modeId == "world_boss" && name in WorldNames())
    || (f.modeId == "instance_boss" && HasInstanceState(f) && name in InstanceNames())
    || ("transfer_card_count" in f.modeState && name in TransferNames())
  }

  predicate HasInstanceState(f: Fixture) {
    "boss_instance_result_state" in f.modeState && f.modeState["boss_instance_result_state"] != Str("")
  }

  /** The first member of the name has the value of the match; an empty text is not looked for. */
  ghost predicate Told(f: Fixture, ms: seq<Member>, name: string) {
    FieldOf(f, name).Some? && (FieldOf(f, name).value != Str("") ==> Find(ms, name) == FieldOf(f, name))
  }

  ghost predicate AllTold(f: Fixture, ms: seq<Member>, names: seq<string>) {
    forall i :: 0 <= i < |names| ==> Told(f, ms, names[i])
  }

  // ---- From checks to members ----

  lemma HeldIsTold(f: Fixture, ms: seq<Member>, name: string)
    requires ms != [] && PlainKeys(ms) && PlainKey(name) && Agreement.Typed(f.modeState) && FieldOf(f, name).Some?
    requires Holds(Flat(ms), name, Expected(f)(name))
    ensures Told(f, ms, name)
  {
    Agreement.ExpectedIs(f, name);
    Agreement.NeverTrue(f, name);
    hide FieldOf, Flat, PlainKeys, PlainKey, Find, HasUint, HasString, Expected, Agreement.Typed;
    match FieldOf(f, name).value
    case Uint(n) => UintLookupIsExact(ms, name, n);
    case Str(s) =>
      if s != "" {
        StringLookupIsExact(ms, name, s);
      }
  }

  lemma ReasonNamed(name: string)
    ensures ReasonFor(name) != ""
  {
  }

  /** A list of fields without complaint is told, field by field. */
  lemma {:induction false} ListTold(f: Fixture, ms: seq<Member>, names: seq<string>)
    requires ms != [] && PlainKeys(ms) && Agreement.Typed(f.modeState)
    requires forall i :: 0 <= i < |names| ==> PlainKey(names[i]) && FieldOf(f, names[i]).Some?
    requires FieldsComplaint(Flat(ms), Expected(f), names) == ""
    ensures AllTold(f, ms, names)
    decreases |names|
  {
    hide FieldOf, Flat, PlainKeys, PlainKey, Holds, Expected, Told, Agreement.Typed, ReasonFor;
    if names != [] {
      ReasonNamed(names[0]);
      HeldIsTold(f, ms, names[0]);
      ListTold(f, ms, names[1..]);
      assert forall i :: 0 < i < |names| ==> names[i] == names[1..][i - 1];
    }
  }

  /** The names of the list are fields the builder prints for this match. */
  lemma PrintedList(f: Fixture, names: seq<string>)
    requires PlainPlayers(f.playerIds) && Agreement.AllPrinted(f, names)
    ensures forall i :: 0 <= i < |names| ==> PlainKey(names[i]) && FieldOf(f, names[i]).Some?
  {
    hide Tried, FieldOf, PlainKey, PlainPlayers;
    forall i | 0 <= i < |names|
      ensures PlainKey(names[i]) && FieldOf(f, names[i]).Some?
    {
      assert Agreement.Printed(f, names[i]);
      TriedIsPlain(f, names[i]);
    }
  }

  lemma PrintedTold(f: Fixture, ms: seq<Member>, names: seq<string>)
    requires Agreement.SoundFixture(f) && ms != [] && PlainKeys(ms) && Agreement.AllPrinted(f, names)
    requires FieldsComplaint(Flat(ms), Expected(f), names) == ""
    ensures AllTold(f, ms, names)
  {
    hide *;
    Agreement.SoundParts(f);
    PrintedList(f, names);
    ListTold(f, ms, names);
  }

  lemma InTold(f: Fixture, ms: seq<Member>, names: seq<string>, name: string)
    requires AllTold(f, ms, names) && name in names
    ensures Told(f, ms, name)
  {
    hide Told;
  }

  // ---- The lists name every field ----

  lemma ReplayOrderNamesAll(name: string)
    requires name in ReplayNames()
    ensures name in ReplayOrder()
  {
    var t, o := ReplayNames(), ReplayOrder();
    assert t[0] == "battle_result_owner" && t[1] == "event_cursor" && o[0] == "event_cursor" && o[1] == "battle_result_owner";
    assert o[2..] == t[2..];
    hide ReplayNames, ReplayOrder;
    var i :| 0 <= i < |t| && t[i] == name;
    if i >= 2 {
      assert o[i] == t[i];
    }
  }

  lemma BossOrderHas(name: string)
    ensures name in BossNames() || name in ConnectionNames() || name in HpNames() ==> name in BossOrder()
  {
    BossTail();
    var b, o := BossNames(), BossOrder();
    var head := BossNames()[..15] + ["boss_roster_locked", "boss_lifecycle_state"];
    assert o == head + ConnectionNames() + HpNames();
    hide BossNames, BossOrder, ConnectionNames, HpNames;
    InConcat(head, ConnectionNames(), name);
    InConcat(head + ConnectionNames(), HpNames(), name);
    InConcat(b[..15], ["boss_roster_locked", "boss_lifecycle_state"], name);
    if name in b {
      var i :| 0 <= i < |b| && b[i] == name;
      if i < 15 {
        assert b[..15][i] == name;
      }
    }
  }

  lemma BossTail()
    ensures |BossNames()| == 17 && BossNames()[15] == "boss_lifecycle_state" && BossNames()[16] == "boss_roster_locked"
  {
  }

  lemma TransferOrderHas(name: string)
    requires name in TransferNames()
    ensures name in TransferOrder()
  {
    var t := TransferNames();
    assert |t| == 9;
    hide TransferNames;
    var i :| 0 <= i < |t| && t[i] == name;
    InConcat(t[..3] + t[7..], t[3..7], name);
    InConcat(t[..3], t[7..], name);
    if i < 3 {
      assert t[..3][i] == name;
    } else if i < 7 {
      assert t[3..7][i - 3] == name;
    } else {
      assert t[7..][i - 7] == name;
    }
  }

  // ---- The parts of a verdict ----

  lemma NoComplaintParts(s: Signed, o: Options, release: Release)
    requires Complaint(s, o, release) == ""
    ensures IdentityComplaint(s.result, o, release) == "" && ShapeComplaint(s.result, o) == ""
    ensures ReplayComplaint(s.result.modeJson, o) == "" && BossComplaint(s.result.modeJson, s.result.modeId, o) == ""
    ensures TransferComplaint(s.result.modeJson, o) == "" && RewardComplaint(s.result, o) == "" && SignatureComplaint(s, o, release) == ""
  {
    hide IdentityComplaint, ShapeComplaint, ReplayComplaint, BossComplaint, TransferComplaint, RewardComplaint, SignatureComplaint;
  }

  /** What acceptance takes; the hash is on record afterwards, under the match's id. */
  lemma AcceptedHasNoComplaint(m: Match, settled: map<string, string>, s: Signed, release: Release)
    requires Submit(m, settled, s, release).0.Accepted?
    ensures BlockReason(m.fixture) == "" && Complaint(s, OptionsFor(m, s.result.matchId), release) == ""
    ensures Submit(m, settled, s, release).1 == settled[s.result.matchId := s.result.resultHash]
    ensures s.result.matchId in settled ==> settled[s.result.matchId] == s.result.resultHash
  {
    hide BlockReason, Complaint, OptionsFor;
    var id := s.result.matchId;
    assert id in settled && settled[id] == s.result.resultHash ==> settled[id := s.result.resultHash] == settled;
  }

  /** A refusal changes nothing. */
  lemma RefusedChangesNothing(m: Match, settled: map<string, string>, s: Signed, release: Release)
    requires Submit(m, settled, s, release).0.NotAccepted?
    ensures Submit(m, settled, s, release).1 == settled
  {
    hide BlockReason, Complaint, OptionsFor;
  }

  // ---- Who, what, when, signed ----

  /** The result is of this match, by this server, for these players, under this release. */
  ghost predicate Identified(m: Match, s: Signed, release: Release) {
    var r := s.result;
    && r.version.protocol == release.current.protocol && r.version.battle == release.current.battle
    && (r.version.ruleset == "" || r.version.ruleset == m.ruleset || (m.ruleset == "" && r.version.ruleset == release.current.ruleset))
    && r.matchId != "" && r.modeId == m.fixture.modeId
    && r.resultHash == m.resultHash && r.replayId == m.replayId
    && multiset(r.playerIds) == multiset(m.sessionPlayers) && r.playerIds != []
    && r.settledAtMs > 0 && (m.nowMs > 0 ==> r.settledAtMs <= m.nowMs + 300000)
    && s.alg == "ED25519" && s.keyId == m.serverId && s.signatureHex == release.signature(r, s.keyId) && s.serverAuthoritative
  }

  lemma IdentityMeans(m: Match, s: Signed, release: Release)
    requires m.fixture.modeId != "" && m.resultHash != "" && m.replayId != ""
    requires IdentityComplaint(s.result, OptionsFor(m, s.result.matchId), release) == ""
    ensures var r := s.result;
      && r.version.protocol == release.current.protocol && r.version.battle == release.current.battle
      && (r.version.ruleset == "" || r.version.ruleset == m.ruleset || (m.ruleset == "" && r.version.ruleset == release.current.ruleset))
      && r.matchId != "" && r.modeId == m.fixture.modeId && r.resultHash == m.resultHash && r.replayId == m.replayId
      && multiset(r.playerIds) == multiset(m.sessionPlayers) && r.playerIds != []
  {
    hide LooksLikeSha256Ref, Having, Expected;
  }

  lemma SignatureMeans(m: Match, s: Signed, release: Release)
    requires m.serverId != "" && SignatureComplaint(s, OptionsFor(m, s.result.matchId), release) == ""
    ensures s.alg == "ED25519" && s.keyId == m.serverId && s.signatureHex == release.signature(s.result, s.keyId) && s.serverAuthoritative
  {
    hide IsHex, Having, Expected;
  }

  lemma RewardMeans(m: Match, s: Signed)
    requires RewardComplaint(s.result, OptionsFor(m, s.result.matchId)) == ""
    ensures s.result.rewardJson != "" && !AnyOccurs(s.result.rewardJson, REWARD_WORDS)
    ensures !SomeName(s.result.rewardJson, name => name !in RewardNames())
    ensures s.result.settledAtMs > 0 && (m.nowMs > 0 ==> s.result.settledAtMs <= m.nowMs + 300000)
  {
    hide AnyOccurs, SomeName, RewardNames, Having, Expected;
  }

  /** The reward projection, when it is a flat object: the three known fields and no reward word anywhere. */
  ghost predicate OnlyProjects(rs: seq<Member>) {
    && (forall i :: 0 <= i < |rs| ==> rs[i].key in RewardNames())
    && forall i :: 0 <= i < |REWARD_WORDS| ==> !MembersHave(rs, REWARD_WORDS[i])
  }

  lemma {:induction false} KeysOf(ms: seq<Member>, i: nat)
    requires i < |ms|
    ensures |Keys(ms)| == |ms| && Keys(ms)[i] == ms[i].key
    decreases |ms|
  {
    if |ms| > 1 {
      KeysOf(ms[1..], if i > 0 then i - 1 else 0);
    } else {
      assert Keys(ms[1..]) == [];
    }
  }

  lemma NamesKnown(ms: seq<Member>, bad: string -> bool, i: nat)
    requires ms != [] && PlainKeys(ms) && !SomeName(Flat(ms), bad) && i < |ms|
    ensures !bad(ms[i].key)
  {
    FieldNamesAreKeys(ms);
    KeysOf(ms, i);
    hide Flat, FieldNamesOf, Keys, PlainKeys;
  }

  lemma RewardProjects(rs: seq<Member>)
    requires rs != [] && PlainKeys(rs) && !AnyOccurs(Flat(rs), REWARD_WORDS)
    requires !SomeName(Flat(rs), name => name !in RewardNames())
    ensures OnlyProjects(rs)
  {
    hide Flat, PlainKeys, RewardNames, SomeName, MembersHave, Occurs, Word;
    forall i: nat | i < |rs|
      ensures rs[i].key in RewardNames()
    {
      NamesKnown(rs, name => name !in RewardNames(), i);
    }
    forall i: nat | i < |REWARD_WORDS|
      ensures !MembersHave(rs, REWARD_WORDS[i])
    {
      assert MODE_WORDS[i] == REWARD_WORDS[i];
      ModeWordsAreWords(i);
      WordSearchIsExact(rs, REWARD_WORDS[i]);
      assert !Occurs(Flat(rs), REWARD_WORDS[i]);
    }
  }

  // ---- The fields of a match ----

  lemma ReplayTold(f: Fixture, o: Options, ms: seq<Member>, name: string)
    requires Agreement.SoundFixture(f) && ms != [] && PlainKeys(ms) && o.required == Expected(f) && o.replayFields
    requires ReplayComplaint(Flat(ms), o) == "" && name in ReplayNames()
    ensures Told(f, ms, name)
  {
    ReplayPart(Flat(ms), o);
    hide *;
    Agreement.SoundParts(f);
    Agreement.ReplayPrinted(f);
    Agreement.ReplayOrderIn();
    Agreement.PrintedFrom(f, ReplayNames(), ReplayOrder());
    PrintedTold(f, ms, ReplayOrder());
    ReplayOrderNamesAll(name);
    InTold(f, ms, ReplayOrder(), name);
  }

  lemma ReplayPart(json: string, o: Options)
    requires o.replayFields && ReplayComplaint(json, o) == ""
    ensures FieldsComplaint(json, o.required, ReplayOrder()) == ""
  {
    hide FieldsComplaint, ReplayOrder;
  }

  lemma TransferTold(f: Fixture, o: Options, ms: seq<Member>, name: string)
    requires Agreement.SoundFixture(f) && ms != [] && PlainKeys(ms) && o.required == Expected(f)
    requires o.transferFields == ("transfer_card_count" in f.modeState) && "transfer_card_count" in f.modeState
    requires TransferComplaint(Flat(ms), o) == "" && name in TransferNames()
    ensures Told(f, ms, name)
  {
    TransferPart(Flat(ms), o);
    hide *;
    Agreement.SoundParts(f);
    ShapeFacts(f);
    Agreement.TransferPrinted(f);
    Agreement.TransferOrderIn();
    Agreement.PrintedFrom(f, TransferNames(), TransferOrder());
    PrintedTold(f, ms, TransferOrder());
    TransferOrderHas(name);
    InTold(f, ms, TransferOrder(), name);
  }

  lemma TransferPart(json: string, o: Options)
    requires o.transferFields && TransferComplaint(json, o) == ""
    ensures FieldsComplaint(json, o.required, TransferOrder()) == ""
  {
    hide FieldsComplaint, TransferOrder;
  }

  /** The boss complaint, list by list. */
  lemma BossParts(json: string, modeId: string, o: Options)
    requires o.bossFields && BossComplaint(json, modeId, o) == ""
    ensures FieldsComplaint(json, o.required, BossOrder()) == "" && FieldsComplaint(json, o.required, OutcomeNames()) == ""
    ensures FieldsComplaint(json, o.required, Each(o.damagePlayers, DamageName)) == ""
    ensures FieldsComplaint(json, o.required, Each(o.spawnPlayers, SpawnName)) == ""
    ensures FieldsComplaint(json, o.required, Each(o.firePlayers, FireName)) == ""
    ensures WrongModeComplaint(json, modeId) == ""
    ensures modeId == "world_boss" ==> FieldsComplaint(json, o.required, WorldNames()) == ""
    ensures o.required("boss_instance_result_state") != Str("") ==> FieldsComplaint(json, o.required, InstanceNames()) == ""
  {
    hide FieldsComplaint, BossOrder, OutcomeNames, WorldNames, InstanceNames, Each, WrongModeComplaint;
  }

  lemma BossListsTold(f: Fixture, o: Options, ms: seq<Member>, name: string)
    requires Agreement.SoundFixture(f) && IsBossMode(f.modeId) && ms != [] && PlainKeys(ms) && o.required == Expected(f) && o.bossFields
    requires BossComplaint(Flat(ms), f.modeId, o) == ""
    requires name in BossNames() || name in ConnectionNames() || name in HpNames() || name in OutcomeNames()
    ensures Told(f, ms, name)
  {
    hide *;
    BossParts(Flat(ms), f.modeId, o);
    Agreement.SoundParts(f);
    Agreement.BossPrinted(f);
    Agreement.BossOrderPrinted(f);
    if name in OutcomeNames() {
      PrintedTold(f, ms, OutcomeNames());
      InTold(f, ms, OutcomeNames(), name);
    } else {
      PrintedTold(f, ms, BossOrder());
      BossOrderHas(name);
      InTold(f, ms, BossOrder(), name);
    }
  }

  lemma ScopeTold(f: Fixture, o: Options, ms: seq<Member>, name: string)
    requires Agreement.SoundFixture(f) && IsBossMode(f.modeId) && ms != [] && PlainKeys(ms) && o.required == Expected(f) && o.bossFields
    requires BossComplaint(Flat(ms), f.modeId, o) == ""
    requires (f.modeId == "world_boss" && name in WorldNames())
      || (f.modeId == "instance_boss" && HasInstanceState(f) && name in InstanceNames())
    ensures Told(f, ms, name)
  {
    hide *;
    BossParts(Flat(ms), f.modeId, o);
    Agreement.SoundParts(f);
    Agreement.BossPrinted(f);
    if f.modeId == "world_boss" {
      PrintedTold(f, ms, WorldNames());
      InTold(f, ms, WorldNames(), name);
    } else {
      InstanceStateRequired(f);
      PrintedTold(f, ms, InstanceNames());
      InTold(f, ms, InstanceNames(), name);
    }
  }

  lemma InstanceStateRequired(f: Fixture)
    requires HasInstanceState(f)
    ensures Expected(f)("boss_instance_result_state") != Str("")
  {
    Agreement.ExpectedIs(f, "boss_instance_result_state");
    Agreement.NotReplay("boss_instance_result_state");
    FieldHere(f, "boss_instance_result_state");
    assert InstanceNames()[2] == "boss_instance_result_state";
    hide FieldOf, Expected, ReplayNames, InstanceNames;
    OutsideReplay(f, "boss_instance_result_state");
  }

  lemma EachHas(f: Fixture, name: string -> string, player: string)
    requires player in f.playerIds && name(player) in f.modeState
    ensures name(player) in Each(Having(f, name), name)
  {
    Agreement.HavingAll(f, f.playerIds, name, player);
    var have := Having(f, name);
    hide HavingFrom;
    var i :| 0 <= i < |have| && have[i] == player;
    assert Each(have, name)[i] == name(player);
  }

  lemma OwnFieldsTold(f: Fixture, ms: seq<Member>, own: string -> string, player: string)
    requires Agreement.SoundFixture(f) && ms != [] && PlainKeys(ms) && (forall p: string :: OfPlayer(p, own(p)))
    requires FieldsComplaint(Flat(ms), Expected(f), Each(Having(f, own), own)) == ""
    requires player in f.playerIds && own(player) in f.modeState
    ensures Told(f, ms, own(player))
  {
    hide *;
    Agreement.EachPrinted(f, own);
    PrintedTold(f, ms, Each(Having(f, own), own));
    EachHas(f, own, player);
    InTold(f, ms, Each(Having(f, own), own), own(player));
  }

  lemma PlayersTold(f: Fixture, o: Options, ms: seq<Member>, name: string)
    requires Agreement.SoundFixture(f) && IsBossMode(f.modeId) && ms != [] && PlainKeys(ms) && o.required == Expected(f) && o.bossFields
    requires o.damagePlayers == Having(f, DamageName) && o.spawnPlayers == Having(f, SpawnName) && o.firePlayers == Having(f, FireName)
    requires BossComplaint(Flat(ms), f.modeId, o) == "" && PlayerName(f.playerIds, name) && name in f.modeState
    ensures Told(f, ms, name)
  {
    var j :| 0 <= j < |f.playerIds| && OfPlayer(f.playerIds[j], name);
    Agreement.OwnNames();
    BossParts(Flat(ms), f.modeId, o);
    hide BossComplaint, FieldsComplaint, Each, Having, Expected, Told, Agreement.SoundFixture, DamageName, SpawnName, FireName, Flat;
    if name == DamageName(f.playerIds[j]) {
      OwnFieldsTold(f, ms, DamageName, f.playerIds[j]);
    } else if name == SpawnName(f.playerIds[j]) {
      OwnFieldsTold(f, ms, SpawnName, f.playerIds[j]);
    } else {
      OwnFieldsTold(f, ms, FireName, f.playerIds[j]);
    }
  }

  /** Every field the match has to tell is told. */
  lemma FieldsTold(m: Match, s: Signed, ms: seq<Member>, release: Release, name: string)
    requires Agreement.SoundFixture(m.fixture) && ms != [] && PlainKeys(ms) && s.result.modeJson == Flat(ms)
    requires s.result.modeId == m.fixture.modeId && Complaint(s, OptionsFor(m, s.result.matchId), release) == ""
    requires Checked(m.fixture, name)
    ensures Told(m.fixture, ms, name)
  {
    hide *;
    var f, o := m.fixture, OptionsFor(m, s.result.matchId);
    Agreement.SoundParts(f);
    ShapeFacts(f);
    NoComplaintParts(s, o, release);
    OptionsAre(m, s.result.matchId);
    BossModes(f.modeId);
    CheckedParts(f, name);
    if name in ReplayNames() {
      ReplayTold(f, o, ms, name);
    } else if IsBossMode(f.modeId) && (name in BossNames() || name in ConnectionNames() || name in HpNames() || name in OutcomeNames()) {
      BossListsTold(f, o, ms, name);
    } else if IsBossMode(f.modeId) && PlayerName(f.playerIds, name) && name in f.modeState {
      PlayersTold(f, o, ms, name);
    } else if "transfer_card_count" in f.modeState && name in TransferNames() {
      TransferTold(f, o, ms, name);
    } else {
      ScopeTold(f, o, ms, name);
    }
  }

  lemma BossModes(modeId: string)
    ensures IsBossMode(modeId) <==> modeId == "world_boss" || modeId == "instance_boss"
  {
  }

  lemma CheckedParts(f: Fixture, name: string)
    requires Checked(f, name)
    ensures || name in ReplayNames()
            || (IsBossMode(f.modeId) && (name in BossNames() || name in ConnectionNames() || name in HpNames() || name in OutcomeNames()))
            || (IsBossMode(f.modeId) && PlayerName(f.playerIds, name) && name in f.modeState)
            || (f.modeId == "world_boss" && name in WorldNames())
            || (f.modeId == "instance_boss" && HasInstanceState(f) && name in InstanceNames())
            || ("transfer_card_count" in f.modeState && name in TransferNames())
  {
    hide ReplayNames, BossNames, ConnectionNames, HpNames, OutcomeNames, WorldNames, InstanceNames, TransferNames, PlayerName, HasInstanceState, IsBossMode;
  }

  lemma OptionsAre(m: Match, id: string)
    ensures var f, o := m.fixture, OptionsFor(m, id);
      && o.required == Expected(f) && o.replayFields && o.bossFields == ("boss_scope" in f.modeState)
      && o.transferFields == ("transfer_card_count" in f.modeState)
      && (o.bossFields ==> o.damagePlayers == Having(f, DamageName) && o.spawnPlayers == Having(f, SpawnName) && o.firePlayers == Having(f, FireName))
  {
    hide Expected, Having;
  }

  // ---- Accepted results tell the truth ----

  /** A result that is accepted is of this match, server, release and players, signed as such; every field its
      text has to tell has the value of the match as it stands; and its hash is on record. */
  lemma AcceptedIsTrue(m: Match, settled: map<string, string>, s: Signed, release: Release, ms: seq<Member>)
    requires Agreement.SoundMatch(m) && Submit(m, settled, s, release).0.Accepted?
    requires ms != [] && PlainKeys(ms) && s.result.modeJson == Flat(ms)
    ensures Identified(m, s, release) && forall name :: Checked(m.fixture, name) ==> Told(m.fixture, ms, name)
    ensures Submit(m, settled, s, release).1 == settled[s.result.matchId := m.resultHash]
  {
    hide *;
    SoundMatchParts(m);
    AcceptedHasNoComplaint(m, settled, s, release);
    NoComplaintParts(s, OptionsFor(m, s.result.matchId), release);
    IdentityMeans(m, s, release);
    SignatureMeans(m, s, release);
    RewardMeans(m, s);
    IdentifiedBy(m, s, release);
    forall name | Checked(m.fixture, name)
      ensures Told(m.fixture, ms, name)
    {
      FieldsTold(m, s, ms, release, name);
    }
  }

  lemma IdentifiedBy(m: Match, s: Signed, release: Release)
    requires var r := s.result;
      && r.version.protocol == release.current.protocol && r.version.battle == release.current.battle
      && (r.version.ruleset == "" || r.version.ruleset == m.ruleset || (m.ruleset == "" && r.version.ruleset == release.current.ruleset))
      && r.matchId != "" && r.modeId == m.fixture.modeId && r.resultHash == m.resultHash && r.replayId == m.replayId
      && multiset(r.playerIds) == multiset(m.sessionPlayers) && r.playerIds != []
      && r.settledAtMs > 0 && (m.nowMs > 0 ==> r.settledAtMs <= m.nowMs + 300000)
      && s.alg == "ED25519" && s.keyId == m.serverId && s.signatureHex == release.signature(r, s.keyId) && s.serverAuthoritative
    ensures Identified(m, s, release)
  {
  }

  lemma SoundMatchParts(m: Match)
    requires Agreement.SoundMatch(m)
    ensures Agreement.SoundFixture(m.fixture) && m.fixture.modeId != "" && m.resultHash != "" && m.replayId != "" && m.serverId != ""
  {
    hide Agreement.SoundFixture;
  }

  /** Its reward text projects and no more. */
  lemma AcceptedRewardProjects(m: Match, settled: map<string, string>, s: Signed, release: Release, rs: seq<Member>)
    requires Submit(m, settled, s, release).0.Accepted?
    requires rs != [] && PlainKeys(rs) && s.result.rewardJson == Flat(rs)
    ensures OnlyProjects(rs)
  {
    hide *;
    AcceptedHasNoComplaint(m, settled, s, release);
    NoComplaintParts(s, OptionsFor(m, s.result.matchId), release);
    RewardMeans(m, s);
    RewardProjects(rs);
  }

  /** A text in which a field that must be told has another value, or is missing, is refused, however it is
      signed, and nothing is recorded. */
  lemma AlteredIsRefused(m: Match, settled: map<string, string>, s: Signed, release: Release, ms: seq<Member>, name: string)
    requires Agreement.SoundMatch(m) && ms != [] && PlainKeys(ms) && s.result.modeJson == Flat(ms)
    requires Checked(m.fixture, name) && FieldOf(m.fixture, name) != Some(Str("")) && Find(ms, name) != FieldOf(m.fixture, name)
    ensures Submit(m, settled, s, release).0.NotAccepted? && Submit(m, settled, s, release).1 == settled
  {
    hide *;
    if Submit(m, settled, s, release).0.Accepted? {
      AcceptedIsTrue(m, settled, s, release, ms);
      ToldMeans(m.fixture, ms, name);
      assert false;
    }
    RefusedChangesNothing(m, settled, s, release);
  }

  lemma ToldMeans(f: Fixture, ms: seq<Member>, name: string)
    requires Told(f, ms, name) && FieldOf(f, name) != Some(Str(""))
    ensures Find(ms, name) == FieldOf(f, name)
  {
    hide FieldOf;
  }

  /** In particular the built text with one such field altered. */
  lemma AlteredBuiltIsRefused(m: Match, settled: map<string, string>, s: Signed, release: Release, ms: seq<Member>, name: string)
    requires Agreement.SoundMatch(m) && ms != [] && PlainKeys(ms) && s.result.modeJson == Flat(ms)
    requires Checked(m.fixture, name) && FieldOf(m.fixture, name) != Some(Str(""))
    requires Find(ms, name) != Find(ResultMembers(m.fixture), name)
    ensures Submit(m, settled, s, release).0.NotAccepted? && Submit(m, settled, s, release).1 == settled
  {
    hide *;
    SoundMatchParts(m);
    Agreement.SoundParts(m.fixture);
    ShapeFacts(m.fixture);
    BossModes(m.fixture.modeId);
    CheckedTried(m.fixture, name);
    Agreement.FindMember(m.fixture, name);
    AlteredIsRefused(m, settled, s, release, ms, name);
  }

  lemma CheckedTried(f: Fixture, name: string)
    requires Checked(f, name) && ("boss_scope" in f.modeState <==> IsBossMode(f.modeId))
    ensures name in Tried(f)
  {
    TriedIs(f, name);
    hide Tried, ReplayNames, BossNames, ConnectionNames, HpNames, OutcomeNames, WorldNames, InstanceNames, TransferNames, PlayerName,
      HasInstanceState, IsBossMode;
  }

  // ---- Nothing else may be said ----

  /** The fields a result of the match may have. */
  ghost predicate Allowed(f: Fixture, name: string) {
    || name in ReplayNames()
    || (IsBossMode(f.modeId) &&
         (name in BossNames() || name in ConnectionNames() || name in HpNames() || name in OutcomeNames()))
    || (IsBossMode(f.modeId) && PlayerName(f.playerIds, name) && name in f.modeState)
    || (f.modeId == "world_boss" && name in WorldNames())
    || (f.modeId == "instance_boss" && name in InstanceNames())
    || ("transfer_card_count" in f.modeState && name in TransferNames())
  }

  /** Only such fields, and no word of mutation in any of them. */
  ghost predicate NothingElse(f: Fixture, ms: seq<Member>) {
    && (forall i :: 0 <= i < |ms| ==> Allowed(f, ms[i].key))
    && forall i :: 0 <= i < |MODE_WORDS| ==> !MembersHave(ms, MODE_WORDS[i])
  }

  lemma ShapeParts(r: Result, o: Options)
    requires o.replayFields && ShapeComplaint(r, o) == ""
    ensures !AnyOccurs(r.modeJson, MODE_WORDS) && !SomeName(r.modeJson, name => !KnownMode(name, o))
  {
    hide AnyOccurs, SomeName, KnownMode, KnownBoss, SingleObject, BossOnlyField, IsTransfer, TransferNames;
  }

  lemma NoModeWord(ms: seq<Member>, i: nat)
    requires ms != [] && !AnyOccurs(Flat(ms), MODE_WORDS) && i < |MODE_WORDS|
    ensures !MembersHave(ms, MODE_WORDS[i])
  {
    hide Flat, MembersHave, Occurs, Word;
    ModeWordsAreWords(i);
    WordSearchIsExact(ms, MODE_WORDS[i]);
    assert !Occurs(Flat(ms), MODE_WORDS[i]);
  }

  lemma OwnIsPlayers(f: Fixture, own: string -> string, i: nat)
    requires i < |Having(f, own)| && (forall p: string :: OfPlayer(p, own(p)))
    ensures PlayerName(f.playerIds, own(Having(f, own)[i])) && own(Having(f, own)[i]) in f.modeState
  {
    Agreement.HavingIn(f, f.playerIds, own);
    hide HavingFrom, OfPlayer;
    var p := Having(f, own)[i];
    var j :| 0 <= j < |f.playerIds| && f.playerIds[j] == p;
    assert OfPlayer(f.playerIds[j], own(p));
  }

  /** What the verifier knows of boss fields besides those of either scope. */
  lemma KnownBossMeans(f: Fixture, o: Options, name: string)
    requires KnownBoss(name, o)
    requires o.damagePlayers == Having(f, DamageName) && o.spawnPlayers == Having(f, SpawnName) && o.firePlayers == Having(f, FireName)
    ensures || name in BossNames() || name in HpNames() || name in OutcomeNames() || name in WorldNames() || name in InstanceNames()
            || (PlayerName(f.playerIds, name) && name in f.modeState)
  {
    hide BossNames, HpNames, OutcomeNames, WorldNames, InstanceNames, Having, DamageName, SpawnName, FireName, PlayerName;
    Agreement.OwnNames();
    if i :| 0 <= i < |o.damagePlayers| && name == DamageName(o.damagePlayers[i]) {
      OwnIsPlayers(f, DamageName, i);
    } else if i :| 0 <= i < |o.spawnPlayers| && name == SpawnName(o.spawnPlayers[i]) {
      OwnIsPlayers(f, SpawnName, i);
    } else if i :| 0 <= i < |o.firePlayers| && name == FireName(o.firePlayers[i]) {
      OwnIsPlayers(f, FireName, i);
    }
  }

  /** A match of one scope has no field of the other. */
  lemma ScopesApart(modeId: string, ms: seq<Member>, i: nat)
    requires ms != [] && PlainKeys(ms) && WrongModeComplaint(Flat(ms), modeId) == "" && i < |ms|
    ensures modeId == "world_boss" ==> ms[i].key !in InstanceNames()
    ensures modeId == "instance_boss" ==> ms[i].key !in WorldNames()
  {
    FieldLookupIsExact(ms, ms[i].key);
    FindsKey(ms, i);
    hide Flat, PlainKeys, Find, HasField;
    assert PlainKey(ms[i].key) by { PlainAt(ms, i); }
    assert |InstanceNames()| == 3 && |WorldNames()| == 4;
    hide InstanceNames, WorldNames, PlainKey;
  }

  lemma PlainAt(ms: seq<Member>, i: nat)
    requires PlainKeys(ms) && i < |ms|
    ensures PlainKey(ms[i].key)
  {
    hide PlainKey;
  }

  lemma {:induction false} FindsKey(ms: seq<Member>, i: nat)
    requires i < |ms|
    ensures Find(ms, ms[i].key).Some?
    decreases i
  {
    if i > 0 {
      FindsKey(ms[1..], i - 1);
    }
  }

  lemma KnownIsAllowed(m: Match, id: string, ms: seq<Member>, i: nat)
    requires Agreement.SoundFixture(m.fixture) && ms != [] && PlainKeys(ms) && i < |ms|
    requires KnownMode(ms[i].key, OptionsFor(m, id))
    requires IsBossMode(m.fixture.modeId) ==> BossComplaint(Flat(ms), m.fixture.modeId, OptionsFor(m, id)) == ""
    ensures Allowed(m.fixture, ms[i].key)
  {
    var f, o, name := m.fixture, OptionsFor(m, id), ms[i].key;
    OptionsAre(m, id);
    Agreement.SoundParts(f);
    ShapeFacts(f);
    BossModes(f.modeId);
    hide OptionsFor, Agreement.SoundFixture, BossComplaint, KnownBoss, IsBossMode, PlayerName, ReplayNames, BossNames, ConnectionNames,
      HpNames, OutcomeNames, WorldNames, InstanceNames, TransferNames, Flat, PlainKeys, Expected, Having, SnapshotShape, WrongModeComplaint;
    if IsBossMode(f.modeId) {
      BossParts(Flat(ms), f.modeId, o);
      ScopesApart(f.modeId, ms, i);
      if KnownBoss(name, o) {
        KnownBossMeans(f, o, name);
      }
    }
  }

  /** An accepted text has no other field, of the other scope or unknown, and no word of mutation. */
  lemma AcceptedSaysNothingElse(m: Match, settled: map<string, string>, s: Signed, release: Release, ms: seq<Member>)
    requires Agreement.SoundMatch(m) && Submit(m, settled, s, release).0.Accepted?
    requires ms != [] && PlainKeys(ms) && s.result.modeJson == Flat(ms)
    ensures NothingElse(m.fixture, ms)
  {
    hide *;
    SoundMatchParts(m);
    AcceptedHasNoComplaint(m, settled, s, release);
    var o := OptionsFor(m, s.result.matchId);
    NoComplaintParts(s, o, release);
    IdentityMeans(m, s, release);
    OptionsAre(m, s.result.matchId);
    ShapeParts(s.result, o);
    NothingElseSaid(m, s.result, ms);
  }

  lemma NothingElseSaid(m: Match, r: Result, ms: seq<Member>)
    requires Agreement.SoundFixture(m.fixture) && ms != [] && PlainKeys(ms) && r.modeJson == Flat(ms) && r.modeId == m.fixture.modeId
    requires var o := OptionsFor(m, r.matchId);
      !AnyOccurs(r.modeJson, MODE_WORDS) && !SomeName(r.modeJson, name => !KnownMode(name, o)) && BossComplaint(r.modeJson, r.modeId, o) == ""
    ensures NothingElse(m.fixture, ms)
  {
    var o := OptionsFor(m, r.matchId);
    hide *;
    forall i: nat | i < |ms|
      ensures Allowed(m.fixture, ms[i].key)
    {
      NamesKnown(ms, name => !KnownMode(name, o), i);
      KnownIsAllowed(m, r.matchId, ms, i);
    }
    forall i: nat | i < |MODE_WORDS|
      ensures !MembersHave(ms, MODE_WORDS[i])
    {
      NoModeWord(ms, i);
    }
    NothingElseIs(m.fixture, ms);
  }

  lemma NothingElseIs(f: Fixture, ms: seq<Member>)
    requires forall i :: 0 <= i < |ms| ==> Allowed(f, ms[i].key)
    requires forall i :: 0 <= i < |MODE_WORDS| ==> !MembersHave(ms, MODE_WORDS[i])
    ensures NothingElse(f, ms)
  {
    hide Allowed, MembersHave;
  }
}
