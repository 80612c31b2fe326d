/** Where a forbidden word can come from in a built result: no fixed field name holds one and none arises
    where a player's id is joined to a name, so only the ids and the strings a match carries matter
    (src/result.cpp:45-75, src/simulation.cpp:1855-2109). */
module Wording {
  import opened Bytes
  import opened FieldLetters
  import opened FlatJson
  import opened WordScan
  import opened ResultFields
  import opened ResultNames

  // ---- Clean texts ----

  predicate Marked(w: string) {
    exists k: nat :: k < |w| && MarkAt(w, k)
  }

  lemma LowerLetter(c: char)
    requires Letter(c)
    ensures LowerChar(c) == c
  {
  }

  /** The word stands in the text at `k`, in any case. */
  predicate Here(t: string, w: string, k: nat) {
    k + |w| <= |t| && forall i :: 0 <= i < |w| ==> LowerChar(t[k + i]) == w[i]
  }

  lemma FindHere(t: string, w: string) returns (k: nat)
    requires Occurs(t, w)
    ensures Here(t, w, k)
  {
    hide Lower, At;
    k :| k <= |t| && At(Lower(t), k, w);
    OccursAt(t, w, k);
  }

  lemma HereOccurs(t: string, w: string, k: nat)
    requires Here(t, w, k)
    ensures Occurs(t, w)
  {
    hide At, Lower;
    OccursAt(t, w, k);
  }

  lemma LetterHere(s: string, w: string, k: nat, i: nat)
    requires Spelled(s) && Here(s, w, k) && i < |w|
    ensures s[k + i] == w[i]
  {
    LowerLetter(s[k + i]);
  }

  lemma MarkHere(s: string, w: string, k: nat, m: nat)
    requires Spelled(s) && Here(s, w, k) && MarkAt(w, m)
    ensures MarkAt(s, k + m)
  {
    hide Mark;
    LetterHere(s, w, k, m);
    LetterHere(s, w, k, m + 1);
    LetterHere(s, w, k, m + 2);
  }

  /** A clean text holds no word that has a mark. */
  lemma CleanHoldsNone(s: string, w: string)
    requires Clean(s) && Marked(w)
    ensures !Occurs(s, w)
  {
    hide Occurs, MarkAt, Here, Spelled;
    var m: nat :| m < |w| && MarkAt(w, m);
    if Occurs(s, w) {
      var k := FindHere(s, w);
      MarkHere(s, w, k, m);
    }
  }

  // ---- Seams ----

  /** An underscore of the word stands inside it, neither behind the letters that end a per-player prefix nor
      before those that begin a per-player suffix. */
  predicate SeamAt(w: string, c: nat) {
    c < |w| && w[c] == '_' ==> 0 < c < |w| - 1 && w[c - 1] != 'e' && w[c - 1] != 'r' && w[c + 1] != 's' && w[c + 1] != 'f'
  }

  predicate SeamsFrom(w: string, c: nat)
    decreases |w| - c
  {
    c >= |w| || (SeamAt(w, c) && SeamsFrom(w, c + 1))
  }

  lemma {:induction false} SeamsMean(w: string, from: nat, c: nat)
    requires SeamsFrom(w, from) && from <= c
    ensures SeamAt(w, c)
    decreases |w| - from
  {
    if from < c && from < |w| {
      SeamsMean(w, from + 1, c);
    }
  }

  ghost predicate Seamed(w: string) {
    w != "" && Marked(w) && forall c: nat :: SeamAt(w, c)
  }

  predicate Prefix(a: string) {
    |a| >= 2 && a[|a| - 1] == '_' && (a[|a| - 2] == 'e' || a[|a| - 2] == 'r')
  }

  predicate Suffix(b: string) {
    |b| >= 2 && b[0] == '_' && (b[1] == 's' || b[1] == 'f')
  }

  /** Around an underscore of the text that lies in an occurrence. */
  lemma SeamHere(t: string, w: string, k: nat, e: nat)
    requires Here(t, w, k) && Seamed(w) && k <= e < k + |w| && t[e] == '_'
    ensures k < e < k + |w| - 1
    ensures t[e - 1] != 'e' && t[e - 1] != 'r' && t[e + 1] != 's' && t[e + 1] != 'f'
  {
    hide Marked;
    var c := e - k;
    assert SeamAt(w, c) && LowerChar(t[k + c]) == w[c];
    assert LowerChar(t[k + (c - 1)]) == w[c - 1] && LowerChar(t[k + (c + 1)]) == w[c + 1];
  }

  lemma HereLeft(a: string, b: string, w: string, k: nat)
    requires Here(a + b, w, k) && k + |w| <= |a|
    ensures Here(a, w, k)
  {
    forall i | 0 <= i < |w|
      ensures LowerChar(a[k + i]) == w[i]
    {
      assert (a + b)[k + i] == a[k + i];
    }
  }

  lemma HereRight(a: string, b: string, w: string, k: nat)
    requires Here(a + b, w, k) && |a| <= k
    ensures Here(b, w, k - |a|)
  {
    forall i | 0 <= i < |w|
      ensures LowerChar(b[k - |a| + i]) == w[i]
    {
      assert (a + b)[k + i] == b[k - |a| + i];
    }
  }

  /** An occurrence in a text of two parts is in one of them, when the seam between them is none a word has. */
  lemma EitherPart(a: string, b: string, w: string)
    requires Seamed(w) && (Prefix(a) || Suffix(b))
    ensures Occurs(a + b, w) <==> Occurs(a, w) || Occurs(b, w)
  {
    hide Occurs, Seamed, Here;
    if Occurs(a, w) {
      OccursWithin("", a, b, w);
      assert "" + a + b == a + b;
    }
    if Occurs(b, w) {
      OccursWithin(a, b, "", w);
      assert a + b + "" == a + b;
    }
    if Occurs(a + b, w) {
      var k := FindHere(a + b, w);
      AtSeam(a, b, w, k);
      if k + |w| <= |a| {
        HereLeft(a, b, w, k);
        HereOccurs(a, w, k);
      } else {
        HereRight(a, b, w, k);
        HereOccurs(b, w, k - |a|);
      }
    }
  }

  lemma AtSeam(a: string, b: string, w: string, k: nat)
    requires Seamed(w) && (Prefix(a) || Suffix(b)) && Here(a + b, w, k)
    ensures k + |w| <= |a| || |a| <= k
  {
    var t := a + b;
    if k < |a| < k + |w| {
      HereFits(t, w, k);
      hide Seamed, Here;
      var n := |a|;
      if Prefix(a) {
        assert t[n - 1] == '_' && t[n - 2] == a[n - 2];
        SeamHere(t, w, k, n - 1);
      } else {
        assert t[n] == '_' && t[n + 1] == b[1];
        SeamHere(t, w, k, n);
      }
    }
  }

  lemma HereFits(t: string, w: string, k: nat)
    requires Here(t, w, k)
    ensures k + |w| <= |t|
  {
  }

  /** Each of a player's field names holds a word exactly when the id does. */
  lemma PlayerNameHas(player: string, name: string, w: string)
    requires OfPlayer(player, name) && Seamed(w)
    ensures Occurs(name, w) <==> Occurs(player, w)
  {
    AffixShapes();
    AffixesHoldNone(w);
    hide Occurs, Seamed, Prefix, Suffix;
    EitherPart("boss_damage_", player, w);
    EitherPart("boss_player_", player, w);
    EitherPart("boss_player_" + player, "_spawn_slot", w);
    EitherPart("boss_player_" + player, "_fire_target", w);
  }

  lemma AffixesHoldNone(w: string)
    requires Seamed(w)
    ensures !Occurs("boss_damage_", w) && !Occurs("boss_player_", w) && !Occurs("_spawn_slot", w) && !Occurs("_fire_target", w)
  {
    PlayerPartsClean();
    hide Occurs, Clean, Marked;
    CleanHoldsNone("boss_damage_", w);
    CleanHoldsNone("boss_player_", w);
    CleanHoldsNone("_spawn_slot", w);
    CleanHoldsNone("_fire_target", w);
  }

  lemma AffixShapes()
    ensures Prefix("boss_damage_") && Prefix("boss_player_") && Suffix("_spawn_slot") && Suffix("_fire_target")
  {
  }

  // ---- The forbidden words ----

  lemma SeamedWord(w: string, k: nat)
    requires w != "" && MarkAt(w, k) && SeamsFrom(w, 0)
    ensures Seamed(w)
  {
    forall c: nat
      ensures SeamAt(w, c)
    {
      SeamsMean(w, 0, c);
    }
    hide SeamAt, MarkAt, SeamsFrom;
  }

  lemma Seamed1()
    ensures Seamed("inventory") && Seamed("wallet") && Seamed("currency")
  {
    SeamedWord("inventory", 1);
    SeamedWord("wallet", 0);
    SeamedWord("currency", 5);
    hide Seamed;
  }

  lemma Seamed2()
    ensures Seamed("grant") && Seamed("reward_grant") && Seamed("item_id")
  {
    SeamedWord("grant", 0);
    SeamedWord("reward_grant", 2);
    SeamedWord("item_id", 1);
    hide Seamed;
  }

  lemma Seamed3()
    ensures Seamed("balance") && Seamed("database")
  {
    SeamedWord("balance", 0);
    SeamedWord("database", 3);
    hide Seamed;
  }

  lemma Seamed4()
    ensures Seamed("steam_inventory")
  {
    assert SeamsFrom("steam_inventory", 8);
    SeamedWord("steam_inventory", 7);
    hide Seamed;
  }

  lemma Seamed5()
    ensures Seamed("client_result_authoritative")
  {
    SeamsLong();
    SeamedWord("client_result_authoritative", 0);
    hide Seamed;
  }

  lemma SeamsLong()
    ensures SeamsFrom("client_result_authoritative", 0)
  {
    assert SeamsFrom("client_result_authoritative", 21);
    assert SeamsFrom("client_result_authoritative", 14);
    assert SeamsFrom("client_result_authoritative", 7);
  }

  lemma ModeWordIsSeamed(i: nat)
    requires i < |MODE_WORDS|
    ensures Seamed(MODE_WORDS[i])
  {
    hide Seamed;
    Seamed1();
    Seamed2();
    Seamed3();
    Seamed4();
    Seamed5();
  }

  // ---- The members of a result ----

  lemma TableHasNone(names: seq<string>, name: string, w: string)
    requires AllClean(names) && name in names && Seamed(w)
    ensures !Occurs(name, w)
  {
    PlainIn(names, name);
    CleanHoldsNone(name, w);
    hide Occurs, Clean, PlainKey, Marked;
  }

  /** Of the names a result can have, only a player's can hold a word. */
  lemma TriedName(f: Fixture, name: string, w: string)
    requires name in Tried(f) && Seamed(w)
    ensures Occurs(name, w) ==> PlayerName(f.playerIds, name)
  {
    hide *;
    TriedIs(f, name);
    ReplayNamesClean();
    BossNamesClean();
    ConnectionNamesClean();
    HpNamesClean();
    OutcomeNamesClean();
    WorldNamesClean();
    InstanceNamesClean();
    TransferNamesClean();
    if name in ReplayNames() {
      TableHasNone(ReplayNames(), name, w);
    } else if name in BossNames() {
      TableHasNone(BossNames(), name, w);
    } else if name in ConnectionNames() {
      TableHasNone(ConnectionNames(), name, w);
    } else if name in HpNames() {
      TableHasNone(HpNames(), name, w);
    } else if name in OutcomeNames() {
      TableHasNone(OutcomeNames(), name, w);
    } else if name in WorldNames() {
      TableHasNone(WorldNames(), name, w);
    } else if name in InstanceNames() {
      TableHasNone(InstanceNames(), name, w);
    } else if name in TransferNames() {
      TableHasNone(TransferNames(), name, w);
    }
  }

  /** A printed string value holds the word, as it is escaped. */
  ghost predicate TextHas(f: Fixture, w: string) {
    exists name :: name in Tried(f) && FieldOf(f, name).Some? && ValueHas(FieldOf(f, name).value, w)
  }

  /** The id of a player with a printed field of his own holds the word. */
  ghost predicate PlayerHas(f: Fixture, w: string) {
    exists j, name :: 0 <= j < |f.playerIds| && OfPlayer(f.playerIds[j], name) && FieldOf(f, name).Some? && Occurs(f.playerIds[j], w)
  }

  lemma MemberOf(f: Fixture, name: string) returns (i: nat)
    requires name in Tried(f) && FieldOf(f, name).Some?
    ensures i < |ResultMembers(f)| && ResultMembers(f)[i] == Member(name, FieldOf(f, name).value)
  {
    FindEmitted(f, Tried(f), name);
    hide Tried, FieldOf, Emit;
    i := FoundAt(ResultMembers(f), name);
  }

  lemma {:induction false} FoundAt(ms: seq<Member>, name: string) returns (i: nat)
    requires Find(ms, name).Some?
    ensures i < |ms| && ms[i] == Member(name, Find(ms, name).value)
  {
    if ms[0].key == name {
      i := 0;
    } else {
      i := FoundAt(ms[1..], name);
      i := i + 1;
    }
  }

  lemma MemberHas(f: Fixture, i: nat, w: string)
    requires Seamed(w) && i < |ResultMembers(f)|
    requires var m := ResultMembers(f)[i]; Occurs(m.key, w) || ValueHas(m.value, w)
    ensures TextHas(f, w) || PlayerHas(f, w)
  {
    hide *;
    EmittedAt(f, i);
    var m := ResultMembers(f)[i];
    if Occurs(m.key, w) {
      TriedName(f, m.key, w);
      OwnName(f, m.key, w);
    } else {
      OwnText(f, m.key, w);
    }
  }

  lemma EmittedAt(f: Fixture, i: nat)
    requires i < |ResultMembers(f)|
    ensures ResultMembers(f)[i].key in Tried(f) && FieldOf(f, ResultMembers(f)[i].key) == Some(ResultMembers(f)[i].value)
  {
    EmittedHasField(f, Tried(f), i);
    hide Tried, FieldOf, Emit;
  }

  lemma OwnText(f: Fixture, name: string, w: string)
    requires name in Tried(f) && FieldOf(f, name).Some? && ValueHas(FieldOf(f, name).value, w)
    ensures TextHas(f, w)
  {
    hide Tried, FieldOf, ValueHas;
  }

  lemma OwnName(f: Fixture, name: string, w: string)
    requires Seamed(w) && PlayerName(f.playerIds, name) && FieldOf(f, name).Some? && Occurs(name, w)
    ensures PlayerHas(f, w)
  {
    var j :| 0 <= j < |f.playerIds| && OfPlayer(f.playerIds[j], name);
    hide Occurs, OfPlayer, FieldOf, Seamed;
    PlayerNameHas(f.playerIds[j], name, w);
  }

  lemma PlayerTried(f: Fixture, j: nat, name: string)
    requires j < |f.playerIds| && OfPlayer(f.playerIds[j], name)
    ensures name in Tried(f)
  {
    TriedIs(f, name);
    hide Tried, OfPlayer, ReplayNames, BossNames, ConnectionNames, HpNames, OutcomeNames, WorldNames, InstanceNames, TransferNames;
  }

  lemma TextShows(f: Fixture, w: string)
    requires TextHas(f, w)
    ensures MembersHave(ResultMembers(f), w)
  {
    hide Tried, FieldOf, ValueHas, Occurs, ResultMembers;
    var name :| name in Tried(f) && FieldOf(f, name).Some? && ValueHas(FieldOf(f, name).value, w);
    var i := MemberOf(f, name);
  }

  lemma PlayerShows(f: Fixture, w: string)
    requires Seamed(w) && PlayerHas(f, w)
    ensures MembersHave(ResultMembers(f), w)
  {
    hide Tried, FieldOf, ValueHas, Occurs, ResultMembers, OfPlayer, Seamed;
    var j, name :| 0 <= j < |f.playerIds| && OfPlayer(f.playerIds[j], name) && FieldOf(f, name).Some? && Occurs(f.playerIds[j], w);
    PlayerTried(f, j, name);
    PlayerNameHas(f.playerIds[j], name, w);
    var i := MemberOf(f, name);
  }

  /** A printed member holds a forbidden word exactly when a string or a player's id that the match carries
      does. */
  lemma WordsAreCarried(f: Fixture, w: string)
    requires Seamed(w)
    ensures MembersHave(ResultMembers(f), w) <==> TextHas(f, w) || PlayerHas(f, w)
  {
    hide Seamed, TextHas, PlayerHas, Occurs, ValueHas, ResultMembers;
    if MembersHave(ResultMembers(f), w) {
      var ms := ResultMembers(f);
      var i :| 0 <= i < |ms| && (Occurs(ms[i].key, w) || ValueHas(ms[i].value, w));
      MemberHas(f, i, w);
    }
    if TextHas(f, w) {
      TextShows(f, w);
    }
    if PlayerHas(f, w) {
      PlayerShows(f, w);
    }
  }

  /** Some forbidden word stands in a string value or a player's id that the result of `f` prints. */
  ghost predicate Carries(f: Fixture) {
    exists i :: 0 <= i < |MODE_WORDS| && (TextHas(f, MODE_WORDS[i]) || PlayerHas(f, MODE_WORDS[i]))
  }

  predicate SomeMember(ms: seq<Member>) {
    exists i :: 0 <= i < |MODE_WORDS| && MembersHave(ms, MODE_WORDS[i])
  }

  lemma ForbiddenIsCarried(f: Fixture)
    ensures SomeMember(ResultMembers(f)) <==> Carries(f)
  {
    hide TextHas, PlayerHas, Occurs, ResultMembers, MembersHave, Seamed;
    forall i: nat | i < |MODE_WORDS|
      ensures MembersHave(ResultMembers(f), MODE_WORDS[i]) <==> TextHas(f, MODE_WORDS[i]) || PlayerHas(f, MODE_WORDS[i])
    {
      ModeWordIsSeamed(i);
      WordsAreCarried(f, MODE_WORDS[i]);
    }
  }

  /** No id and no text of the match holds a forbidden word, as far as a caller can look it up. */
  ghost predicate WordFree(f: Fixture) {
    forall i :: 0 <= i < |MODE_WORDS| ==> FreeOfWord(f, MODE_WORDS[i])
  }

  ghost predicate FreeOfWord(f: Fixture, w: string) {
    && (forall j :: 0 <= j < |f.playerIds| ==> !Occurs(f.playerIds[j], w))
    && forall name :: FieldOf(f, name).Some? ==> !ValueHas(FieldOf(f, name).value, w)
  }

  lemma WordFreeCarriesNone(f: Fixture)
    requires WordFree(f)
    ensures !Carries(f)
  {
    hide Occurs, ValueHas, FieldOf, Tried, OfPlayer;
    forall i: nat | i < |MODE_WORDS|
      ensures !TextHas(f, MODE_WORDS[i]) && !PlayerHas(f, MODE_WORDS[i])
    {
      assert FreeOfWord(f, MODE_WORDS[i]);
    }
  }
}
