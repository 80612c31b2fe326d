/** Building a result and submitting it: accepted in the same state exactly when no player's id and no string
    the match carries holds a forbidden word, and a duplicate when submitted again. */
module Submission {
  import opened Bytes
  import opened Text
  import opened JsonScan
  import opened FlatJson
  import opened FieldNames
  import opened WordScan
  import opened ResultFields
  import opened ResultAgreement
  import opened Wording
  import opened Agreement
  import DemHeader

  // ---- The reward projection ----

  function RewardMembers(): seq<Member> {
    [Member("source", Str("phk-battle-server")), Member("projection_only", True),
     Member("settlement_authority", Str("nakama-go"))]
  }

  lemma SourceString()
    ensures JsonEscape("phk-battle-server") == "phk-battle-server"
  {
    hide JsonEscape;
    DemHeader.PlainEscapesToItself("phk-battle-server");
  }

  lemma AuthorityString()
    ensures JsonEscape("nakama-go") == "nakama-go"
  {
    hide JsonEscape;
    DemHeader.PlainEscapesToItself("nakama-go");
  }

  lemma RewardPlain()
    ensures PlainKeys(RewardMembers()) && RewardMembers() != []
  {
    assert PlainKey("source") && PlainKey("projection_only") && PlainKey("settlement_authority");
    hide PlainKey;
  }

  lemma RestOfThree(a: Member, b: Member, c: Member)
    ensures Rest([a, b, c]) == MemberText(a) + ("," + (MemberText(b) + ("," + (MemberText(c) + "}"))))
  {
    hide MemberText;
    assert [a, b, c][1..] == [b, c];
    assert [b, c][1..] == [c];
    assert Rest([c]) == MemberText(c) + "}";
    assert Rest([b, c]) == MemberText(b) + ("," + Rest([c]));
  }

  lemma StringMember(key: string, text: string)
    requires JsonEscape(text) == text
    ensures MemberText(Member(key, Str(text))) == Needle(key) + (":" + Needle(text))
  {
  }

  lemma RewardText()
    ensures RewardJson() == Flat(RewardMembers())
  {
    RestOfThree(RewardMembers()[0], RewardMembers()[1], RewardMembers()[2]);
    SourceString();
    AuthorityString();
    StringMember("source", "phk-battle-server");
    StringMember("settlement_authority", "nakama-go");
    assert MemberText(RewardMembers()[1]) == Needle("projection_only") + (":" + "true");
    hide MemberText, Rest, Needle;
  }

  /** A text without one letter of a word does not hold the word. */
  lemma MissingLetter(text: string, w: string, i: nat)
    requires i < |w| && forall k :: 0 <= k < |text| ==> LowerChar(text[k]) != w[i]
    ensures !Occurs(text, w)
  {
    forall k: nat | k <= |text|
      ensures !At(Lower(text), k, w)
    {
      if At(Lower(text), k, w) {
        AtIndex(Lower(text), k, w, i);
      }
    }
  }

  /** The five texts of the reward projection. */
  ghost predicate FreeOf(w: string) {
    && !Occurs("source", w) && !Occurs("projection_only", w) && !Occurs("settlement_authority", w)
    && !Occurs("phk-battle-server", w) && !Occurs("nakama-go", w)
  }

  lemma NoInventory()
    ensures FreeOf("inventory")
  {
    hide Occurs;
    MissingLetter("source", "inventory", 0);
    MissingLetter("projection_only", "inventory", 2);
    MissingLetter("settlement_authority", "inventory", 2);
    MissingLetter("phk-battle-server", "inventory", 0);
    MissingLetter("nakama-go", "inventory", 0);
  }

  lemma NoWallet()
    ensures FreeOf("wallet")
  {
    hide Occurs;
    MissingLetter("source", "wallet", 0);
    MissingLetter("projection_only", "wallet", 0);
    MissingLetter("settlement_authority", "wallet", 0);
    MissingLetter("phk-battle-server", "wallet", 0);
    MissingLetter("nakama-go", "wallet", 0);
  }

  lemma NoCurrency()
    ensures FreeOf("currency")
  {
    hide Occurs;
    MissingLetter("source", "currency", 5);
    MissingLetter("projection_only", "currency", 1);
    MissingLetter("settlement_authority", "currency", 0);
    MissingLetter("phk-battle-server", "currency", 0);
    MissingLetter("nakama-go", "currency", 0);
  }

  lemma NoGrant()
    ensures FreeOf("grant")
  {
    hide Occurs;
    MissingLetter("source", "grant", 0);
    MissingLetter("projection_only", "grant", 0);
    MissingLetter("settlement_authority", "grant", 0);
    MissingLetter("phk-battle-server", "grant", 0);
    MissingLetter("nakama-go", "grant", 1);
  }

  lemma NoRewardGrant()
    ensures FreeOf("reward_grant")
  {
    hide Occurs;
    MissingLetter("source", "reward_grant", 2);
    MissingLetter("projection_only", "reward_grant", 2);
    MissingLetter("settlement_authority", "reward_grant", 2);
    MissingLetter("phk-battle-server", "reward_grant", 2);
    MissingLetter("nakama-go", "reward_grant", 0);
  }

  lemma NoItemId()
    ensures FreeOf("item_id")
  {
    hide Occurs;
    MissingLetter("source", "item_id", 0);
    MissingLetter("projection_only", "item_id", 3);
    MissingLetter("settlement_authority", "item_id", 6);
    MissingLetter("phk-battle-server", "item_id", 0);
    MissingLetter("nakama-go", "item_id", 0);
  }

  lemma NoBalance()
    ensures FreeOf("balance")
  {
    hide Occurs;
    MissingLetter("source", "balance", 0);
    MissingLetter("projection_only", "balance", 0);
    MissingLetter("settlement_authority", "balance", 0);
    MissingLetter("phk-battle-server", "balance", 4);
    MissingLetter("nakama-go", "balance", 0);
  }

  lemma NoDatabase()
    ensures FreeOf("database")
  {
    hide Occurs;
    MissingLetter("source", "database", 0);
    MissingLetter("projection_only", "database", 0);
    MissingLetter("settlement_authority", "database", 0);
    MissingLetter("phk-battle-server", "database", 0);
    MissingLetter("nakama-go", "database", 0);
  }

  lemma NoSteamInventory()
    ensures FreeOf("steam_inventory")
  {
    hide Occurs;
    MissingLetter("source", "steam_inventory", 1);
    MissingLetter("projection_only", "steam_inventory", 0);
    MissingLetter("settlement_authority", "steam_inventory", 8);
    MissingLetter("phk-battle-server", "steam_inventory", 4);
    MissingLetter("nakama-go", "steam_inventory", 0);
  }

  lemma RewardWordFree(i: nat)
    requires i < |REWARD_WORDS|
    ensures FreeOf(REWARD_WORDS[i])
  {
    hide FreeOf;
    NoInventory();
    NoWallet();
    NoCurrency();
    NoGrant();
    NoRewardGrant();
    NoItemId();
    NoBalance();
    NoDatabase();
    NoSteamInventory();
  }

  lemma RewardLacks(w: string)
    requires FreeOf(w)
    ensures !MembersHave(RewardMembers(), w)
  {
    SourceString();
    AuthorityString();
    hide Occurs, JsonEscape;
  }

  lemma RewardWords()
    ensures !AnyOccurs(RewardJson(), REWARD_WORDS)
  {
    RewardText();
    RewardPlain();
    hide Occurs, MembersHave, RewardMembers, Flat, FreeOf, Word;
    forall i: nat | i < |REWARD_WORDS|
      ensures !Occurs(RewardJson(), REWARD_WORDS[i])
    {
      RewardWordFree(i);
      RewardLacks(REWARD_WORDS[i]);
      assert MODE_WORDS[i] == REWARD_WORDS[i];
      ModeWordsAreWords(i);
      WordSearchIsExact(RewardMembers(), REWARD_WORDS[i]);
    }
  }

  lemma RewardKeys()
    ensures Keys(RewardMembers()) == RewardNames()
  {
    KeysAt(RewardMembers(), 0);
    KeysAt(RewardMembers(), 1);
    KeysAt(RewardMembers(), 2);
    hide Keys;
  }

  lemma RewardFieldsKnown()
    ensures !SomeName(RewardJson(), name => name !in RewardNames())
  {
    hide RewardMembers, Flat, FieldNamesOf, Keys, RewardNames, RewardJson;
    RewardText();
    RewardPlain();
    RewardKeys();
    FieldNamesAreKeys(RewardMembers());
  }

  lemma RewardShape()
    ensures SingleObject(RewardJson()) && RewardJson() != ""
  {
    RewardText();
    RewardPlain();
    hide Flat, RewardMembers, SingleObject;
    FlatIsSingleObject(RewardMembers());
    FlatHere(RewardMembers());
  }

  // ---- The verdict on a built result ----

  lemma WordsInFlat(ms: seq<Member>)
    requires ms != []
    ensures AnyOccurs(Flat(ms), MODE_WORDS) <==> SomeMember(ms)
  {
    hide Occurs, MembersHave, Flat, Word;
    forall i: nat | i < |MODE_WORDS|
      ensures Occurs(Flat(ms), MODE_WORDS[i]) <==> MembersHave(ms, MODE_WORDS[i])
    {
      ModeWordsAreWords(i);
      WordSearchIsExact(ms, MODE_WORDS[i]);
    }
  }

  lemma OptionsAgree(m: Match)
    ensures OptionsMatch(m.fixture, OptionsFor(m, m.matchId))
  {
    hide Expected, Having;
  }

  lemma NoIdentityComplaint(m: Match, release: Release)
    requires SoundMatch(m) && m.sessionPlayers != []
    ensures IdentityComplaint(BuiltResult(m, release), OptionsFor(m, m.matchId), release) == ""
  {
    hide SoundFixture, Having, Expected, RewardJson, ResultMembers, Flat;
  }

  lemma NoRewardComplaint(m: Match, release: Release)
    ensures RewardComplaint(BuiltResult(m, release), OptionsFor(m, m.matchId)) == ""
  {
    RewardWords();
    RewardFieldsKnown();
    RewardShape();
    hide Having, Expected, RewardJson, ResultMembers, Flat, AnyOccurs, SomeName, RewardNames;
  }

  lemma NoSignatureComplaint(m: Match, release: Release)
    requires Signs(release) && m.serverId != ""
    ensures SignatureComplaint(BuiltSigned(m, release), OptionsFor(m, m.matchId), release) == ""
  {
    hide Having, Expected, BuiltResult, IsHex;
  }

  lemma NoUnknownName(f: Fixture, o: Options)
    requires SoundFixture(f) && OptionsMatch(f, o)
    ensures !SomeName(Flat(ResultMembers(f)), name => !KnownMode(name, o))
  {
    SoundParts(f);
    hide *;
    forall name | Printed(f, name)
      ensures KnownMode(name, o)
    {
      KnownNames(f, o, name);
    }
    NoSuchName(f, name => !KnownMode(name, o));
  }

  lemma NoUnknownBossName(f: Fixture, o: Options)
    requires SoundFixture(f) && OptionsMatch(f, o) && o.bossFields
    ensures !SomeName(Flat(ResultMembers(f)), name => "boss_" <= name && !KnownBoss(name, o))
  {
    SoundParts(f);
    hide *;
    forall name | Printed(f, name)
      ensures "boss_" <= name ==> KnownBoss(name, o)
    {
      KnownNames(f, o, name);
    }
    NoSuchName(f, name => "boss_" <= name && !KnownBoss(name, o));
  }

  lemma NoTransferName(f: Fixture, o: Options)
    requires SoundFixture(f) && OptionsMatch(f, o) && !o.transferFields
    ensures !SomeName(Flat(ResultMembers(f)), name => IsTransfer(name))
  {
    SoundParts(f);
    hide *;
    forall name | Printed(f, name)
      ensures !IsTransfer(name)
    {
      KnownNames(f, o, name);
    }
    NoSuchName(f, name => IsTransfer(name));
  }

  lemma NoUnknownTransferName(f: Fixture, o: Options)
    requires SoundFixture(f) && OptionsMatch(f, o)
    ensures !SomeName(Flat(ResultMembers(f)), name => IsTransfer(name) && name !in TransferNames())
  {
    SoundParts(f);
    hide *;
    forall name | Printed(f, name)
      ensures IsTransfer(name) ==> name in TransferNames()
    {
      KnownNames(f, o, name);
    }
    NoSuchName(f, name => IsTransfer(name) && name !in TransferNames());
  }

  lemma OnlyWordsMatter(r: Result, o: Options)
    requires SingleObject(r.modeJson) && SingleObject(r.rewardJson)
    requires !IsBossMode(r.modeId) ==> !BossOnlyField(r.modeJson)
    requires o.bossFields ==> !SomeName(r.modeJson, name => "boss_" <= name && !KnownBoss(name, o))
    requires !o.transferFields ==> !SomeName(r.modeJson, name => IsTransfer(name))
    requires !SomeName(r.modeJson, name => IsTransfer(name) && name !in TransferNames())
    requires !SomeName(r.modeJson, name => !KnownMode(name, o))
    ensures ShapeComplaint(r, o) == If(AnyOccurs(r.modeJson, MODE_WORDS), "mode_result_mutation_forbidden")
  {
    hide SingleObject, BossOnlyField, SomeName, AnyOccurs, IsBossMode, KnownBoss, KnownMode, IsTransfer, TransferNames;
  }

  lemma NamesAllowed(f: Fixture, o: Options)
    requires SoundFixture(f) && OptionsMatch(f, o)
    ensures !IsBossMode(f.modeId) ==> !BossOnlyField(Flat(ResultMembers(f)))
    ensures o.bossFields ==> !SomeName(Flat(ResultMembers(f)), name => "boss_" <= name && !KnownBoss(name, o))
    ensures !o.transferFields ==> !SomeName(Flat(ResultMembers(f)), name => IsTransfer(name))
  {
    hide *;
    if !IsBossMode(f.modeId) {
      NoBossOnlyField(f, o);
    }
    if o.bossFields {
      NoUnknownBossName(f, o);
    }
    if !o.transferFields {
      NoTransferName(f, o);
    }
  }

  lemma TextShape(f: Fixture)
    requires SoundFixture(f)
    ensures SingleObject(Flat(ResultMembers(f)))
    ensures AnyOccurs(Flat(ResultMembers(f)), MODE_WORDS) <==> Carries(f)
  {
    hide *;
    SoundParts(f);
    MembersPlain(f);
    MembersExist(f);
    FlatIsSingleObject(ResultMembers(f));
    WordsInFlat(ResultMembers(f));
    ForbiddenIsCarried(f);
  }

  /** Of the printed text itself only a forbidden word can be wrong. */
  lemma ShapeVerdict(m: Match, release: Release)
    requires SoundMatch(m)
    ensures ShapeComplaint(BuiltResult(m, release), OptionsFor(m, m.matchId))
      == If(Carries(m.fixture), "mode_result_mutation_forbidden")
  {
    hide *;
    MatchParts(m);
    ShapeParts(m, release);
    OptionsAgree(m);
    TextShape(m.fixture);
    RewardShape();
    NamesAllowed(m.fixture, OptionsFor(m, m.matchId));
    NoUnknownName(m.fixture, OptionsFor(m, m.matchId));
    NoUnknownTransferName(m.fixture, OptionsFor(m, m.matchId));
    OnlyWordsMatter(BuiltResult(m, release), OptionsFor(m, m.matchId));
  }

  lemma MatchParts(m: Match)
    requires SoundMatch(m)
    ensures SoundFixture(m.fixture) && m.serverId != ""
  {
  }

  lemma ShapeParts(m: Match, release: Release)
    ensures BuiltResult(m, release).modeJson == Flat(ResultMembers(m.fixture))
    ensures BuiltResult(m, release).rewardJson == RewardJson() && BuiltResult(m, release).modeId == m.fixture.modeId
  {
    hide Flat, ResultMembers, RewardJson;
  }

  lemma FieldsVerdict(m: Match, release: Release)
    requires SoundMatch(m)
    ensures var r, o := BuiltResult(m, release), OptionsFor(m, m.matchId);
      && ReplayComplaint(r.modeJson, o) == "" && BossComplaint(r.modeJson, r.modeId, o) == ""
      && TransferComplaint(r.modeJson, o) == ""
  {
    MatchParts(m);
    ShapeParts(m, release);
    OptionsAgree(m);
    OptionsParts(m.fixture, OptionsFor(m, m.matchId));
    hide *;
    NoReplayComplaint(m.fixture, OptionsFor(m, m.matchId));
    NoBossComplaint(m.fixture, OptionsFor(m, m.matchId));
    NoTransferComplaint(m.fixture, OptionsFor(m, m.matchId));
  }

  lemma OptionsParts(f: Fixture, o: Options)
    requires OptionsMatch(f, o)
    ensures o.required == Expected(f) && o.replayFields
    ensures o.bossFields == ("boss_scope" in f.modeState) && o.transferFields == ("transfer_card_count" in f.modeState)
    ensures o.bossFields ==>
      o.damagePlayers == Having(f, DamageName) && o.spawnPlayers == Having(f, SpawnName) && o.firePlayers == Having(f, FireName)
  {
    hide Expected, Having;
  }

  /** Every guard of the verifier passes on a built result, but for the forbidden words. */
  lemma BuiltVerdict(m: Match, release: Release)
    requires SoundMatch(m) && Signs(release) && m.sessionPlayers != []
    ensures Complaint(BuiltSigned(m, release), OptionsFor(m, m.matchId), release)
      == If(Carries(m.fixture), "mode_result_mutation_forbidden")
  {
    hide *;
    SignedParts(m, release);
    MatchParts(m);
    NoIdentityComplaint(m, release);
    ShapeVerdict(m, release);
    FieldsVerdict(m, release);
    NoRewardComplaint(m, release);
    NoSignatureComplaint(m, release);
    ComplaintIs(BuiltSigned(m, release), OptionsFor(m, m.matchId), release);
  }

  lemma ComplaintIs(s: Signed, o: Options, release: Release)
    requires IdentityComplaint(s.result, o, release) == "" && ReplayComplaint(s.result.modeJson, o) == ""
    requires BossComplaint(s.result.modeJson, s.result.modeId, o) == "" && TransferComplaint(s.result.modeJson, o) == ""
    requires RewardComplaint(s.result, o) == "" && SignatureComplaint(s, o, release) == ""
    ensures Complaint(s, o, release) == ShapeComplaint(s.result, o)
  {
    hide IdentityComplaint, ShapeComplaint, ReplayComplaint, BossComplaint, TransferComplaint, RewardComplaint, SignatureComplaint;
  }

  lemma SignedParts(m: Match, release: Release)
    ensures BuiltSigned(m, release).result == BuiltResult(m, release)
    ensures BuiltResult(m, release).matchId == m.matchId && BuiltResult(m, release).resultHash == m.resultHash
  {
    hide Flat, ResultMembers, RewardJson;
  }

  function SettlementKey(m: Match): string {
    "battle-result:" + m.matchId
  }

  /** A built result submitted in the state it was built in is accepted exactly when the match carries no
      forbidden word in a player's id or a string value; a first acceptance settles the match, and submitting
      again reports a duplicate and changes nothing. */
  lemma BuilderAndVerifierAgree(m: Match, settled: map<string, string>, release: Release)
    requires SoundMatch(m) && Signs(release) && Build(m, release).Built?
    requires m.matchId in settled ==> settled[m.matchId] == m.resultHash
    ensures var signed := Build(m, release).signed;
      var first, then2 := Submit(m, settled, signed, release), Submit(m, settled[m.matchId := m.resultHash], signed, release);
      if Carries(m.fixture) then
        first == (NotAccepted("mode_result_mutation_forbidden"), settled)
      else
        && first == (Accepted(SettlementKey(m), m.matchId in settled), settled[m.matchId := m.resultHash])
        && then2 == (Accepted(SettlementKey(m), true), settled[m.matchId := m.resultHash])
  {
    hide *;
    BuiltParts(m, release);
    BuiltVerdict(m, release);
    SubmitIs(m, settled, release);
    SubmitIs(m, settled[m.matchId := m.resultHash], release);
    SettleIs(settled, m, Carries(m.fixture));
  }

  /** So a match none of whose ids and texts holds a forbidden word has its result accepted. */
  lemma WordFreeIsAccepted(m: Match, settled: map<string, string>, release: Release)
    requires SoundMatch(m) && Signs(release) && Build(m, release).Built? && WordFree(m.fixture)
    requires m.matchId in settled ==> settled[m.matchId] == m.resultHash
    ensures var signed := Build(m, release).signed;
      Submit(m, settled, signed, release) == (Accepted(SettlementKey(m), m.matchId in settled), settled[m.matchId := m.resultHash])
  {
    hide *;
    WordFreeCarriesNone(m.fixture);
    BuilderAndVerifierAgree(m, settled, release);
  }

  lemma BackspaceEscapes()
    ensures JsonEscape("\U{8}alance") == "\\balance"
  {
    var t := "\U{8}alance";
    assert t[1..] == "alance" && EscapeChar(t[0]) == "\\b";
    assert JsonEscape(t) == EscapeChar(t[0]) + JsonEscape(t[1..]);
    hide JsonEscape, EscapeChar;
    DemHeader.PlainEscapesToItself("alance");
  }

  lemma WordBehindBackslash()
    ensures Occurs("\\balance", "balance")
  {
    hide At, Lower;
    OccursAt("\\balance", "balance", 1);
  }

  /** The texts are searched as they are escaped: a backspace before `alance` holds no word and prints one. */
  lemma EscapesSpellWords()
    ensures ValueHas(Str("\U{8}alance"), "balance") && !Occurs("\U{8}alance", "balance")
  {
    BackspaceEscapes();
    WordBehindBackslash();
    hide JsonEscape, Occurs;
    MissingLetter("\U{8}alance", "balance", 0);
  }

  lemma SubmitIs(m: Match, settled: map<string, string>, release: Release)
    requires BlockReason(m.fixture) == ""
    ensures Submit(m, settled, BuiltSigned(m, release), release) ==
      Settle(settled, m.matchId, m.resultHash, Complaint(BuiltSigned(m, release), OptionsFor(m, m.matchId), release))
  {
    SignedParts(m, release);
    hide BlockReason, BuiltSigned, OptionsFor, Complaint, Settle;
  }

  lemma SettleIs(settled: map<string, string>, m: Match, forbidden: bool)
    requires m.matchId in settled ==> settled[m.matchId] == m.resultHash
    ensures var word := If(forbidden, "mode_result_mutation_forbidden");
      var again := settled[m.matchId := m.resultHash];
      if forbidden then
        Settle(settled, m.matchId, m.resultHash, word) == (NotAccepted("mode_result_mutation_forbidden"), settled)
      else
        && Settle(settled, m.matchId, m.resultHash, word) == (Accepted(SettlementKey(m), m.matchId in settled), again)
        && Settle(again, m.matchId, m.resultHash, word) == (Accepted(SettlementKey(m), true), again)
  {
    SameSettled(settled, m.matchId, m.resultHash);
  }

  lemma BuiltParts(m: Match, release: Release)
    requires Build(m, release).Built?
    ensures BlockReason(m.fixture) == "" && m.sessionPlayers != [] && Build(m, release).signed == BuiltSigned(m, release)
  {
    hide BlockReason, BuiltSigned;
  }

  lemma SameSettled(settled: map<string, string>, id: string, hash: string)
    ensures id in settled && settled[id] == hash ==> settled[id := hash] == settled
  {
  }
}
