/** The header of the replay container: EncodeDemHeaderJson, DecodeDemHeaderJson, and that the second
    undoes the first. */
module DemHeader {
  import opened Bytes
  import opened Text
  import opened DemJson
  import opened JsonInversion

  datatype Loadout = Loadout(characterId: string, shotType: string, bombType: string)

  datatype Player = Player(playerId: string, userId: string, loadout: Loadout)

  datatype Header = Header(
    matchId: string, modeId: string, bossId: string, rulesetVersion: string, serverSeed: string,
    tickRateHz: u32, finalTick: i64, finalStateHash: string, bossMaxHp: u64,
    players: seq<Player>, createdAt: i64, entryCount: u64, chainHeadDigest: string)

  // ---- The document a header stands for ----

  function Str(key: string, value: string): Field {
    Field(key, JString(value))
  }

  function Num(key: string, value: int): Field {
    Field(key, JNumber(DecInt(value)))
  }

  function LoadoutTree(l: Loadout): Json {
    JObject([Str("character_id", l.characterId), Str("shot_type", l.shotType), Str("bomb_type", l.bombType)])
  }

  function PlayerTree(p: Player): Json {
    JObject([Str("player_id", p.playerId), Str("user_id", p.userId), Field("loadout", LoadoutTree(p.loadout))])
  }

  function PlayerTrees(players: seq<Player>): seq<Json> {
    seq(|players|, i requires 0 <= i < |players| => PlayerTree(players[i]))
  }

  function IdentityFields(h: Header): seq<Field> {
    [Str("match_id", h.matchId), Str("mode_id", h.modeId), Str("boss_id", h.bossId),
     Str("ruleset_version", h.rulesetVersion), Str("server_seed", h.serverSeed)]
  }

  function StateFields(h: Header): seq<Field> {
    [Num("tick_rate_hz", h.tickRateHz), Num("final_tick", h.finalTick), Str("final_state_hash", h.finalStateHash)]
  }

  /** Written only when recorded: zero leaves the replayer its own default. */
  function BossFields(h: Header): seq<Field> {
    if h.bossMaxHp > 0 then [Num("boss_max_hp", h.bossMaxHp)] else []
  }

  function TailFields(h: Header): seq<Field> {
    [Field("players", JArray(PlayerTrees(h.players))), Num("created_at", h.createdAt),
     Num("entry_count", h.entryCount), Str("chain_head_digest", h.chainHeadDigest)]
  }

  function HeaderFields(h: Header): seq<Field> {
    IdentityFields(h) + StateFields(h) + BossFields(h) + TailFields(h)
  }

  function HeaderTree(h: Header): Json {
    JObject(HeaderFields(h))
  }

  // ---- Binding a document to a header ----

  /** DemField: the first member with the key. */
  function Lookup(fields: seq<Field>, key: string): Option<Json> {
    if fields == [] then None
    else if fields[0].key == key then Some(fields[0].value)
    else Lookup(fields[1..], key)
  }

  function FieldOf(tree: Json, key: string): Option<Json> {
    if tree.JObject? then Lookup(tree.fields, key) else None
  }

  function BindString(value: Option<Json>): Option<string> {
    if value.Some? && value.value.JString? then Some(value.value.s) else None
  }

  /** strtoll over the whole number text: a sign, digits and nothing else, within 64 bits. */
  function BindInt(value: Option<Json>): Option<i64> {
    if value.None? || !value.value.JNumber? then None else
    var text := value.value.text;
    var negative := text != "" && text[0] == '-';
    var digits := if negative then text[1..] else text;
    if digits == "" || !AllDigits(digits) then None else
    var v: int := if negative then 0 - DecValue(digits) else DecValue(digits);
    if -TWO_63 <= v < TWO_63 then Some(v) else None
  }

  function BindUint(value: Option<Json>): Option<u64> {
    if value.None? || !value.value.JNumber? then None else
    var text := value.value.text;
    if text == "" || !AllDigits(text) then None else
    if DecValue(text) < TWO_64 then Some(DecValue(text)) else None
  }

  function BindPlayer(item: Json): Option<Player> {
    var playerId, userId := BindString(FieldOf(item, "player_id")), BindString(FieldOf(item, "user_id"));
    var loadout := FieldOf(item, "loadout");
    if playerId.None? || userId.None? || loadout.None? then None else
    var character, shot, bomb :=
      BindString(FieldOf(loadout.value, "character_id")),
      BindString(FieldOf(loadout.value, "shot_type")),
      BindString(FieldOf(loadout.value, "bomb_type"));
    if character.None? || shot.None? || bomb.None? then None
    else Some(Player(playerId.value, userId.value, Loadout(character.value, shot.value, bomb.value)))
  }

  function BindPlayers(items: seq<Json>): Option<seq<Player>> {
    if items == [] then Some([]) else
    var last := BindPlayer(items[|items| - 1]);
    var front := BindPlayers(items[..|items| - 1]);
    if front.None? || last.None? then None else Some(front.value + [last.value])
  }

  function BindBossHp(tree: Json): Option<u64> {
    if FieldOf(tree, "boss_max_hp").None? then Some(0) else BindUint(FieldOf(tree, "boss_max_hp"))
  }

  /** The scalar members, bound in turn; the players are bound last. */
  function BindScalars(root: Json): Option<Header> {
    var matchId, modeId, bossId := BindString(FieldOf(root, "match_id")), BindString(FieldOf(root, "mode_id")),
      BindString(FieldOf(root, "boss_id"));
    var ruleset, seed := BindString(FieldOf(root, "ruleset_version")), BindString(FieldOf(root, "server_seed"));
    var rate, finalTick := BindUint(FieldOf(root, "tick_rate_hz")), BindInt(FieldOf(root, "final_tick"));
    var stateHash, bossHp := BindString(FieldOf(root, "final_state_hash")), BindBossHp(root);
    var createdAt, count := BindInt(FieldOf(root, "created_at")), BindUint(FieldOf(root, "entry_count"));
    var head := BindString(FieldOf(root, "chain_head_digest"));
    if matchId.None? || modeId.None? || bossId.None? || ruleset.None? || seed.None? || rate.None?
       || finalTick.None? || stateHash.None? || bossHp.None? || createdAt.None? || count.None? || head.None?
    then None
    else if rate.value >= TWO_32 then None
    else Some(Header(matchId.value, modeId.value, bossId.value, ruleset.value, seed.value, rate.value,
                     finalTick.value, stateHash.value, bossHp.value, [], createdAt.value, count.value, head.value))
  }

  /** DecodeDemHeaderJson after the parse. */
  function BindHeader(root: Json): Option<Header> {
    if !root.JObject? then None else
    var scalars, players := BindScalars(root), FieldOf(root, "players");
    if scalars.None? || players.None? || !players.value.JArray? then None else
    var bound := BindPlayers(players.value.items);
    if bound.None? then None else Some(scalars.value.(players := bound.value))
  }

  function DecodeHeader(text: string): Option<Header> {
    match Parse(text)
    case NoRead => None
    case Got(root, _) => BindHeader(root)
  }

  // ---- The round trip ----

  lemma {:induction false} LookupInConcat(a: seq<Field>, b: seq<Field>, key: string)
    ensures Lookup(a + b, key) == if Lookup(a, key).Some? then Lookup(a, key) else Lookup(b, key)
  {
    if a == [] {
      assert a + b == b;
    } else {
      assert (a + b)[1..] == a[1..] + b;
      LookupInConcat(a[1..], b, key);
    }
  }

  /** The member at index `k` is found when no earlier member shares its key. */
  lemma {:induction false} LookupHit(fields: seq<Field>, k: nat)
    requires k < |fields|
    requires forall i :: 0 <= i < k ==> fields[i].key != fields[k].key
    ensures Lookup(fields, fields[k].key) == Some(fields[k].value)
  {
    if k > 0 {
      LookupHit(fields[1..], k - 1);
    }
  }

  lemma {:induction false} LookupMiss(fields: seq<Field>, key: string)
    requires forall i :: 0 <= i < |fields| ==> fields[i].key != key
    ensures Lookup(fields, key) == None
  {
    if fields != [] {
      LookupMiss(fields[1..], key);
    }
  }

  lemma LookupBehind(a: seq<Field>, b: seq<Field>, key: string, k: nat)
    requires forall i :: 0 <= i < |a| ==> a[i].key != key
    requires k < |b| && b[k].key == key
    requires forall i :: 0 <= i < k ==> b[i].key != key
    ensures Lookup(a + b, key) == Some(b[k].value)
  {
    LookupHit(a + b, |a| + k);
  }

  lemma IdentityLookups(h: Header)
    ensures Lookup(HeaderFields(h), "match_id") == Some(JString(h.matchId))
    ensures Lookup(HeaderFields(h), "mode_id") == Some(JString(h.modeId))
    ensures Lookup(HeaderFields(h), "boss_id") == Some(JString(h.bossId))
    ensures Lookup(HeaderFields(h), "ruleset_version") == Some(JString(h.rulesetVersion))
    ensures Lookup(HeaderFields(h), "server_seed") == Some(JString(h.serverSeed))
  {
    var a := IdentityFields(h);
    var all := HeaderFields(h);
    assert forall i :: 0 <= i < 5 ==> all[i] == a[i];
    LookupHit(all, 0);
    LookupHit(all, 1);
    LookupHit(all, 2);
    LookupHit(all, 3);
    LookupHit(all, 4);
  }

  lemma StateLookups(h: Header)
    ensures Lookup(HeaderFields(h), "tick_rate_hz") == Some(JNumber(DecInt(h.tickRateHz)))
    ensures Lookup(HeaderFields(h), "final_tick") == Some(JNumber(DecInt(h.finalTick)))
    ensures Lookup(HeaderFields(h), "final_state_hash") == Some(JString(h.finalStateHash))
  {
    var a, b := IdentityFields(h), StateFields(h) + BossFields(h) + TailFields(h);
    assert HeaderFields(h) == a + b;
    assert forall i :: 0 <= i < 3 ==> b[i] == StateFields(h)[i];
    LookupBehind(a, b, "tick_rate_hz", 0);
    LookupBehind(a, b, "final_tick", 1);
    LookupBehind(a, b, "final_state_hash", 2);
  }

  lemma BossLookup(h: Header)
    ensures Lookup(HeaderFields(h), "boss_max_hp") ==
      if h.bossMaxHp > 0 then Some(JNumber(DecInt(h.bossMaxHp))) else None
  {
    var a, b := IdentityFields(h) + StateFields(h), BossFields(h) + TailFields(h);
    assert HeaderFields(h) == a + b;
    if h.bossMaxHp > 0 {
      LookupBehind(a, b, "boss_max_hp", 0);
    } else {
      assert b == TailFields(h);
      LookupMiss(a + b, "boss_max_hp");
    }
  }

  lemma TailLookups(h: Header)
    ensures Lookup(HeaderFields(h), "players") == Some(JArray(PlayerTrees(h.players)))
    ensures Lookup(HeaderFields(h), "created_at") == Some(JNumber(DecInt(h.createdAt)))
    ensures Lookup(HeaderFields(h), "entry_count") == Some(JNumber(DecInt(h.entryCount)))
    ensures Lookup(HeaderFields(h), "chain_head_digest") == Some(JString(h.chainHeadDigest))
  {
    var a, b := IdentityFields(h) + StateFields(h) + BossFields(h), TailFields(h);
    assert HeaderFields(h) == a + b;
    LookupBehind(a, b, "players", 0);
    LookupBehind(a, b, "created_at", 1);
    LookupBehind(a, b, "entry_count", 2);
    LookupBehind(a, b, "chain_head_digest", 3);
  }

  lemma BindSignedText(digits: string, n: int)
    requires -TWO_63 <= n < TWO_63
    requires digits != "" && AllDigits(digits) && DecValue(digits) == if n < 0 then -n else n
    ensures BindInt(Some(JNumber(if n < 0 then "-" + digits else digits))) == Some(n)
  {
    hide DecValue;
    if n < 0 {
      assert ("-" + digits)[1..] == digits;
    } else {
      assert IsDigit(digits[0]);
    }
  }

  lemma BindPrintedInt(n: int)
    requires -TWO_63 <= n < TWO_63
    ensures BindInt(Some(JNumber(DecInt(n)))) == Some(n)
  {
    hide Dec, DecValue, BindInt;
    var m: nat := if n < 0 then -n else n;
    DecValueOfDec(m);
    BindSignedText(Dec(m), n);
  }

  lemma BindPrintedUint(n: u64)
    ensures BindUint(Some(JNumber(DecInt(n)))) == Some(n)
  {
    hide Dec, DecValue;
    DecValueOfDec(n);
  }

  lemma PlayerBinds(p: Player)
    ensures BindPlayer(PlayerTree(p)) == Some(p)
  {
    var l := LoadoutTree(p.loadout).fields;
    LookupHit(l, 0);
    LookupHit(l, 1);
    LookupHit(l, 2);
    var f := PlayerTree(p).fields;
    LookupHit(f, 0);
    LookupHit(f, 1);
    LookupHit(f, 2);
  }

  lemma {:induction false} PlayersBind(players: seq<Player>)
    ensures BindPlayers(PlayerTrees(players)) == Some(players)
  {
    var items := PlayerTrees(players);
    if players != [] {
      var front := players[..|players| - 1];
      assert items[..|items| - 1] == PlayerTrees(front);
      PlayersBind(front);
      PlayerBinds(players[|players| - 1]);
      assert players == front + [players[|players| - 1]];
    }
  }

  lemma HeaderBinds(h: Header)
    ensures BindHeader(HeaderTree(h)) == Some(h)
  {
    hide HeaderFields, Lookup, DecInt, BindInt, BindUint, PlayerTrees, BindPlayers, BindScalars;
    IdentityLookups(h);
    StateLookups(h);
    BossLookup(h);
    TailLookups(h);
    BindPrintedUint(h.tickRateHz);
    BindPrintedInt(h.finalTick);
    BindPrintedUint(h.bossMaxHp);
    BindPrintedInt(h.createdAt);
    BindPrintedUint(h.entryCount);
    PlayersBind(h.players);
    BoundScalars(h, HeaderTree(h));
  }

  /** Gluing the bound fields together. */
  lemma BoundScalars(h: Header, root: Json)
    requires root.JObject?
    requires BindString(FieldOf(root, "match_id")) == Some(h.matchId)
    requires BindString(FieldOf(root, "mode_id")) == Some(h.modeId)
    requires BindString(FieldOf(root, "boss_id")) == Some(h.bossId)
    requires BindString(FieldOf(root, "ruleset_version")) == Some(h.rulesetVersion)
    requires BindString(FieldOf(root, "server_seed")) == Some(h.serverSeed)
    requires BindUint(FieldOf(root, "tick_rate_hz")) == Some(h.tickRateHz)
    requires BindInt(FieldOf(root, "final_tick")) == Some(h.finalTick)
    requires BindString(FieldOf(root, "final_state_hash")) == Some(h.finalStateHash)
    requires BindBossHp(root) == Some(h.bossMaxHp)
    requires BindInt(FieldOf(root, "created_at")) == Some(h.createdAt)
    requires BindUint(FieldOf(root, "entry_count")) == Some(h.entryCount)
    requires BindString(FieldOf(root, "chain_head_digest")) == Some(h.chainHeadDigest)
    ensures BindScalars(root) == Some(h.(players := []))
  {
    hide FieldOf, BindString, BindInt, BindUint, BindBossHp;
  }

  lemma PlayerPrintable(p: Player)
    ensures Printable(PlayerTree(p), 2)
  {
  }

  lemma PlayersPrintable(players: seq<Player>)
    ensures Printable(JArray(PlayerTrees(players)), 1)
  {
    forall k | 0 <= k < |players|
      ensures Printable(PlayerTrees(players)[k], 2)
    {
      PlayerPrintable(players[k]);
    }
  }

  ghost predicate AllPrintable(fields: seq<Field>) {
    forall k :: 0 <= k < |fields| ==> Printable(fields[k].value, 1)
  }

  lemma NumPrintable(key: string, n: int)
    ensures Printable(Num(key, n).value, 1)
  {
    DecIntIsIntText(n);
  }

  lemma HeaderPrintable(h: Header)
    ensures Printable(HeaderTree(h), 0)
  {
    assert AllPrintable(IdentityFields(h));
    assert AllPrintable(StateFields(h) + BossFields(h)) by {
      hide DecInt;
      NumPrintable("tick_rate_hz", h.tickRateHz);
      NumPrintable("final_tick", h.finalTick);
      NumPrintable("boss_max_hp", h.bossMaxHp);
    }
    assert AllPrintable(TailFields(h)) by {
      hide DecInt, PlayerTrees;
      NumPrintable("created_at", h.createdAt);
      NumPrintable("entry_count", h.entryCount);
      PlayersPrintable(h.players);
    }
    hide IdentityFields, StateFields, BossFields, TailFields;
    assert HeaderFields(h) == IdentityFields(h) + (StateFields(h) + BossFields(h)) + TailFields(h);
  }

  /** Decoding the encoding of any header gives that header: any bytes in its strings, any players,
      any signed tick, boss hp recorded or not. */
  lemma HeaderRoundTrip(h: Header)
    ensures DecodeHeader(Print(HeaderTree(h))) == Some(h)
  {
    HeaderPrintable(h);
    ParseInvertsPrint(HeaderTree(h));
    HeaderBinds(h);
  }

  // ---- The writer and the reader as the program runs them ----

  function Key(key: string): string {
    "\"" + key + "\":"
  }

  predicate Plain(s: string) {
    forall i :: 0 <= i < |s| ==> s[i] != '"' && s[i] != '\\' && s[i] >= ' '
  }

  lemma {:induction false} PlainEscapesToItself(s: string)
    requires Plain(s)
    ensures JsonEscape(s) == s
  {
    if s != "" {
      PlainEscapesToItself(s[1..]);
      assert s == [s[0]] + s[1..];
    }
  }

  lemma FieldText(key: string, value: Json)
    requires Plain(key)
    ensures PrintField(Field(key, value)) == Key(key) + Print(value)
  {
    PlainEscapesToItself(key);
    assert JsonString(key) + ":" == Key(key);
  }

  lemma {:induction false} PrintFieldsSnoc(fields: seq<Field>, f: Field)
    requires fields != []
    ensures PrintFields(fields + [f]) == PrintFields(fields) + "," + PrintField(f)
  {
    var all := fields + [f];
    assert all[1..] == fields[1..] + [f];
    if |fields| > 1 {
      PrintFieldsSnoc(fields[1..], f);
      var head := PrintField(fields[0]) + ",";
      assert head + (PrintFields(fields[1..]) + "," + PrintField(f)) == head + PrintFields(fields[1..]) + "," + PrintField(f);
    } else {
      assert fields[1..] + [f] == [f];
    }
  }

  lemma {:induction false} PrintItemsSnoc(items: seq<Json>, j: Json)
    requires items != []
    ensures PrintItems(items + [j]) == PrintItems(items) + "," + Print(j)
  {
    var all := items + [j];
    assert all[1..] == items[1..] + [j];
    if |items| > 1 {
      PrintItemsSnoc(items[1..], j);
      var head := Print(items[0]) + ",";
      assert head + (PrintItems(items[1..]) + "," + Print(j)) == head + PrintItems(items[1..]) + "," + Print(j);
    } else {
      assert items[1..] + [j] == [j];
    }
  }

  lemma MemberAppended(out: string, fields: seq<Field>, key: string, value: Json, text: string)
    requires fields != [] && out == "{" + PrintFields(fields)
    requires Plain(key) && text == Print(value)
    ensures out + "," + Key(key) + text == "{" + PrintFields(fields + [Field(key, value)])
  {
    hide *;
    PrintFieldsSnoc(fields, Field(key, value));
    FieldText(key, value);
    assert out + "," + Key(key) + text == "{" + (PrintFields(fields) + "," + (Key(key) + text));
  }

  lemma FirstMember(key: string, value: Json, text: string)
    requires Plain(key) && text == Print(value)
    ensures "{" + Key(key) + text == "{" + PrintFields([Field(key, value)])
  {
    FieldText(key, value);
    assert "{" + Key(key) + text == "{" + (Key(key) + text);
  }

  method EncodePlayer(p: Player) returns (out: string)
    ensures out == Print(PlayerTree(p))
  {
    hide Key, PrintFields, JsonString;
    ghost var f: seq<Field>;
    var loadout: string;
    loadout, f := FirstString("character_id", p.loadout.characterId);
    loadout, f := AppendString(loadout, "shot_type", p.loadout.shotType, f);
    loadout, f := AppendString(loadout, "bomb_type", p.loadout.bombType, f);
    assert f == LoadoutTree(p.loadout).fields;
    loadout := loadout + "}";
    out, f := FirstString("player_id", p.playerId);
    out, f := AppendString(out, "user_id", p.userId, f);
    out, f := AppendText(out, "loadout", loadout, LoadoutTree(p.loadout), f);
    assert f == PlayerTree(p).fields;
    out := out + "}";
  }

  /** The player loop of the writer. */
  method EncodePlayers(players: seq<Player>) returns (out: string)
    ensures out == PrintItems(PlayerTrees(players))
  {
    out := "";
    for i := 0 to |players|
      invariant out == PrintItems(PlayerTrees(players[..i]))
    {
      var text := EncodePlayer(players[i]);
      PlayersStep(players, i);
      out := if i != 0 then out + "," + text else out + text;
    }
    assert players[..|players|] == players;
  }

  lemma PlayersStep(players: seq<Player>, i: nat)
    requires i < |players|
    ensures PrintItems(PlayerTrees(players[..i + 1])) ==
      PrintItems(PlayerTrees(players[..i])) + (if i != 0 then "," else "") + Print(PlayerTree(players[i]))
  {
    var trees, tree := PlayerTrees(players[..i]), PlayerTree(players[i]);
    assert PlayerTrees(players[..i + 1]) == trees + [tree];
    hide PlayerTree, Print;
    if i == 0 {
      assert trees + [tree] == [tree];
    } else {
      hide PrintItems;
      PrintItemsSnoc(trees, tree);
    }
  }

  method EncodeIdentity(h: Header) returns (out: string)
    ensures out == "{" + PrintFields(IdentityFields(h))
  {
    hide Key, PrintFields, JsonString;
    ghost var f: seq<Field>;
    out, f := FirstString("match_id", h.matchId);
    out, f := AppendString(out, "mode_id", h.modeId, f);
    out, f := AppendString(out, "boss_id", h.bossId, f);
    out, f := AppendString(out, "ruleset_version", h.rulesetVersion, f);
    out, f := AppendString(out, "server_seed", h.serverSeed, f);
    assert f == IdentityFields(h);
  }

  method EncodeState(h: Header, before: string, ghost fields: seq<Field>) returns (out: string)
    requires fields != [] && before == "{" + PrintFields(fields)
    ensures out == "{" + PrintFields(fields + StateFields(h) + BossFields(h))
  {
    hide Key, PrintFields, DecInt;
    ghost var f: seq<Field>;
    out, f := AppendNumber(before, "tick_rate_hz", h.tickRateHz, fields);
    out, f := AppendNumber(out, "final_tick", h.finalTick, f);
    out, f := AppendString(out, "final_state_hash", h.finalStateHash, f);
    if h.bossMaxHp > 0 {
      out, f := AppendNumber(out, "boss_max_hp", h.bossMaxHp, f);
    }
    assert f == fields + StateFields(h) + BossFields(h);
  }

  method EncodeTail(h: Header, before: string, ghost fields: seq<Field>) returns (out: string)
    requires fields != [] && before == "{" + PrintFields(fields)
    ensures out == "{" + PrintFields(fields + TailFields(h))
  {
    hide Key, PrintFields, DecInt, PlayerTrees, PrintItems;
    ghost var f: seq<Field>;
    var players := EncodePlayers(h.players);
    out, f := AppendText(before, "players", "[" + players + "]", JArray(PlayerTrees(h.players)), fields);
    out, f := AppendNumber(out, "created_at", h.createdAt, f);
    out, f := AppendNumber(out, "entry_count", h.entryCount, f);
    out, f := AppendString(out, "chain_head_digest", h.chainHeadDigest, f);
    assert f == fields + TailFields(h);
  }

  /** EncodeDemHeaderJson: the members in their frozen order. */
  method EncodeDemHeaderJson(h: Header) returns (out: string)
    ensures out == Print(HeaderTree(h))
  {
    hide PrintFields, IdentityFields, StateFields, BossFields, TailFields;
    out := EncodeIdentity(h);
    IdentityNonEmpty(h);
    out := EncodeState(h, out, IdentityFields(h));
    out := EncodeTail(h, out, IdentityFields(h) + StateFields(h) + BossFields(h));
    out := out + "}";
  }

  lemma IdentityNonEmpty(h: Header)
    ensures IdentityFields(h) != []
  {
  }

  method FirstString(key: string, value: string) returns (out: string, ghost fields: seq<Field>)
    requires Plain(key)
    ensures fields == [Str(key, value)] && out == "{" + PrintFields(fields)
  {
    FirstMember(key, JString(value), JsonString(value));
    out, fields := "{" + Key(key) + JsonString(value), [Str(key, value)];
  }

  method AppendString(out: string, key: string, value: string, ghost fields: seq<Field>)
      returns (grown: string, ghost more: seq<Field>)
    requires fields != [] && out == "{" + PrintFields(fields) && Plain(key)
    ensures more == fields + [Str(key, value)]
    ensures grown == "{" + PrintFields(more)
  {
    MemberAppended(out, fields, key, JString(value), JsonString(value));
    grown, more := out + "," + Key(key) + JsonString(value), fields + [Str(key, value)];
  }

  method AppendNumber(out: string, key: string, value: int, ghost fields: seq<Field>)
      returns (grown: string, ghost more: seq<Field>)
    requires fields != [] && out == "{" + PrintFields(fields) && Plain(key)
    ensures more == fields + [Num(key, value)]
    ensures grown == "{" + PrintFields(more)
  {
    MemberAppended(out, fields, key, JNumber(DecInt(value)), DecInt(value));
    grown, more := out + "," + Key(key) + DecInt(value), fields + [Num(key, value)];
  }

  method AppendText(out: string, key: string, text: string, ghost value: Json, ghost fields: seq<Field>)
      returns (grown: string, ghost more: seq<Field>)
    requires fields != [] && out == "{" + PrintFields(fields) && Plain(key) && text == Print(value)
    ensures more == fields + [Field(key, value)]
    ensures grown == "{" + PrintFields(more)
  {
    MemberAppended(out, fields, key, value, text);
    grown, more := out + "," + Key(key) + text, fields + [Field(key, value)];
  }

  /** DecodeDemHeaderJson: run the parser, then bind the members; the player loop stops at the first
      item that does not bind. */
  method DecodeDemHeaderJson(json: string) returns (out: Option<Header>)
    ensures out == DecodeHeader(json)
  {
    hide BindScalars, FieldOf, BindPlayers, Value, SkipSpace;
    var parser := new DemJsonParser(json);
    var ok, root := parser.ParseDocument();
    if !ok || !root.JObject? {
      return None;
    }
    var scalars, players := BindScalars(root), FieldOf(root, "players");
    if scalars.None? || players.None? || !players.value.JArray? {
      return None;
    }
    var bound := DecodePlayers(players.value.items);
    if bound.None? {
      return None;
    }
    out := Some(scalars.value.(players := bound.value));
  }

  method DecodePlayers(items: seq<Json>) returns (out: Option<seq<Player>>)
    ensures out == BindPlayers(items)
  {
    var players: seq<Player> := [];
    for i := 0 to |items|
      invariant BindPlayers(items[..i]) == Some(players)
    {
      assert items[..i + 1][..i] == items[..i];
      var player := BindPlayer(items[i]);
      if player.None? {
        BindPlayersStops(items, i + 1);
        return None;
      }
      players := players + [player.value];
    }
    assert items[..|items|] == items;
    out := Some(players);
  }

  lemma {:induction false} BindPlayersStops(items: seq<Json>, k: nat)
    requires k <= |items| && BindPlayers(items[..k]).None?
    ensures BindPlayers(items).None?
    decreases |items| - k
  {
    if k == |items| {
      assert items[..k] == items;
    } else {
      assert items[..k + 1][..k] == items[..k];
      BindPlayersStops(items, k + 1);
    }
  }
}
