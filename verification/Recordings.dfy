/** What a recorded line says: the canonical payloads of src/chain_log.cpp read back by their keys, so that a
    recording tells which operations were recorded. */
module Recordings {
  import opened Bytes
  import opened Text
  import opened ChainLog
  import opened DemContainer
  import opened Replay

  // ---- Keyed text ----

  function UpToPipe(s: string): string {
    if s == "" || s[0] == '|' then "" else [s[0]] + UpToPipe(s[1..])
  }

  datatype Piece = Piece(value: string, rest: string)

  /** The text behind a key at the front, up to the next separator, and what follows. */
  function Field(text: string, key: string): Option<Piece> {
    if |text| < |key| || text[..|key|] != key then None else
    var v := UpToPipe(text[|key|..]);
    Some(Piece(v, if |key| + |v| <= |text| then text[|key| + |v|..] else ""))
  }

  datatype Pieces = Pieces(values: seq<string>, rest: string)

  function Fields(text: string, keys: seq<string>): Option<Pieces>
    decreases |keys|
  {
    if keys == [] then Some(Pieces([], text)) else
    match Field(text, keys[0])
    case None => None
    case Some(p) =>
      match Fields(p.rest, keys[1..])
      case None => None
      case Some(more) => Some(Pieces([p.value] + more.values, more.rest))
  }

  /** All of the text behind a key. */
  function Last(text: string, key: string): Option<string> {
    if |text| < |key| || text[..|key|] != key then None else Some(text[|key|..])
  }

  function Number(s: string): Option<nat> {
    if s != "" && AllDigits(s) then Some(DecValue(s)) else None
  }

  function Signed(s: string): Option<int> {
    var negative := s != "" && s[0] == '-';
    var n := Number(if negative then s[1..] else s);
    if n.None? then None else
    var v: int := if negative then 0 - n.value else n.value;
    Some(v)
  }

  function Flag(s: string): Option<bool> {
    if s == "1" then Some(true) else if s == "0" then Some(false) else None
  }

  // ---- Reading the payloads ----

  datatype InputRecord = InputRecord(sequence: nat, bits: nat, slow: bool, shoot: bool, bomb: bool, slot: int, modeActionId: string)

  datatype ActionRecord = ActionRecord(actionId: string, sequence: nat, payloadJson: string)

  function InputKeys(): seq<string> {
    ["seq=", "|dir=", "|slow=", "|shoot=", "|bomb=", "|card="]
  }

  function InputOf(values: seq<string>, id: string): Option<InputRecord>
    requires |values| == 6
  {
    match (Number(values[0]), Number(values[1]), Flag(values[2]), Flag(values[3]), Flag(values[4]), Signed(values[5]))
    case (Some(sequence), Some(bits), Some(slow), Some(shoot), Some(bomb), Some(slot)) =>
      Some(InputRecord(sequence, bits, slow, shoot, bomb, slot, id))
    case _ => None
  }

  function ReadInput(text: string): Option<InputRecord> {
    match Fields(text, InputKeys())
    case None => None
    case Some(p) =>
      if |p.values| != 6 then None else
      match Last(p.rest, "|mode_action_id=")
      case None => None
      case Some(id) => InputOf(p.values, id)
  }

  function ReadAction(text: string): Option<ActionRecord> {
    match Fields(text, ["action_id=", "|seq="])
    case None => None
    case Some(p) =>
      if |p.values| != 2 || Number(p.values[1]).None? then None else
      match Last(p.rest, "|payload=")
      case None => None
      case Some(json) => Some(ActionRecord(p.values[0], Number(p.values[1]).value, json))
  }

  /** The seed, when the kind is the one the recorder writes. */
  function ReadSeed(text: string): Option<nat> {
    match Fields(text, ["seed_kind="])
    case None => None
    case Some(p) =>
      if p.values != ["battle_derived"] then None else
      match Last(p.rest, "|seed=")
      case None => None
      case Some(n) => Number(n)
  }

  // ---- Keyed text reads back ----

  predicate Begins(rest: string) {
    rest == "" || rest[0] == '|'
  }

  lemma {:induction false} UpToPipeStops(v: string, rest: string)
    requires NoPipe(v) && Begins(rest)
    ensures UpToPipe(v + rest) == v
  {
    if v != "" {
      UpToPipeStops(v[1..], rest);
      assert (v + rest)[1..] == v[1..] + rest;
    } else {
      assert v + rest == rest;
    }
  }

  lemma FieldReads(key: string, v: string, rest: string)
    requires NoPipe(v) && Begins(rest)
    ensures Field(key + (v + rest), key) == Some(Piece(v, rest))
  {
    var text := key + (v + rest);
    UpToPipeStops(v, rest);
    assert text[..|key|] == key && text[|key|..] == v + rest;
    assert text[|key| + |v|..] == rest;
  }

  function Keyed(keys: seq<string>, values: seq<string>, rest: string): string
    requires |keys| == |values|
  {
    if keys == [] then rest else keys[0] + (values[0] + Keyed(keys[1..], values[1..], rest))
  }

  predicate PipeHeads(keys: seq<string>) {
    forall i :: 0 < i < |keys| ==> keys[i] != "" && keys[i][0] == '|'
  }

  predicate AllPipeFree(values: seq<string>) {
    forall i :: 0 <= i < |values| ==> NoPipe(values[i])
  }

  lemma KeyedBegins(keys: seq<string>, values: seq<string>, rest: string)
    requires |keys| == |values| && PipeHeads(keys) && keys != [] && Begins(rest)
    ensures Begins(Keyed(keys[1..], values[1..], rest))
  {
  }

  lemma {:induction false} FieldsRead(keys: seq<string>, values: seq<string>, rest: string)
    requires |keys| == |values| && PipeHeads(keys) && AllPipeFree(values) && Begins(rest)
    ensures Fields(Keyed(keys, values, rest), keys) == Some(Pieces(values, rest))
    decreases |keys|
  {
    hide Field, NoPipe;
    if keys != [] {
      KeyedBegins(keys, values, rest);
      FieldReads(keys[0], values[0], Keyed(keys[1..], values[1..], rest));
      FieldsRead(keys[1..], values[1..], rest);
      assert values == [values[0]] + values[1..];
    } else {
      assert values == [];
    }
  }

  lemma LastReads(key: string, v: string)
    ensures Last(key + v, key) == Some(v)
  {
    assert (key + v)[..|key|] == key && (key + v)[|key|..] == v;
  }

  lemma NumberReads(n: nat)
    ensures Number(Dec(n)) == Some(n) && NoPipe(Dec(n))
  {
    DecValueOfDec(n);
    NumbersHaveNoPipe(n, 0);
  }

  lemma SignedReads(n: int)
    ensures Signed(DecInt(n)) == Some(n) && NoPipe(DecInt(n))
  {
    NumbersHaveNoPipe(0, n);
    DecIntSign(n);
    if n < 0 {
      NumberReads(-n);
      assert DecInt(n)[1..] == Dec(-n);
    } else {
      NumberReads(n);
    }
    hide Number, Dec, NoPipe;
  }

  lemma FlagReads(b: bool)
    ensures Flag(BoolToken(b)) == Some(b) && NoPipe(BoolToken(b))
  {
  }

  // ---- The input payload ----

  function InputValues(r: InputRecord): seq<string> {
    [Dec(r.sequence), Dec(r.bits), BoolToken(r.slow), BoolToken(r.shoot), BoolToken(r.bomb), DecInt(r.slot)]
  }

  lemma Nested(x: string, k: string, v: string, rest: string)
    ensures x + k + v + rest == x + (k + (v + rest))
  {
  }

  lemma NestSix(k: seq<string>, v: seq<string>, rest: string)
    requires |k| == 6 && |v| == 6
    ensures k[0] + v[0] + k[1] + v[1] + k[2] + v[2] + k[3] + v[3] + k[4] + v[4] + k[5] + v[5] + rest == Keyed(k, v, rest)
  {
    var r5 := k[5] + (v[5] + rest);
    var r4 := k[4] + (v[4] + r5);
    var r3 := k[3] + (v[3] + r4);
    var r2 := k[2] + (v[2] + r3);
    var r1 := k[1] + (v[1] + r2);
    KeyedSix(k, v, rest);
    hide Keyed;
    Nested(k[0] + v[0] + k[1] + v[1] + k[2] + v[2] + k[3] + v[3] + k[4] + v[4], k[5], v[5], rest);
    Nested(k[0] + v[0] + k[1] + v[1] + k[2] + v[2] + k[3] + v[3], k[4], v[4], r5);
    Nested(k[0] + v[0] + k[1] + v[1] + k[2] + v[2], k[3], v[3], r4);
    Nested(k[0] + v[0] + k[1] + v[1], k[2], v[2], r3);
    Nested(k[0] + v[0], k[1], v[1], r2);
    Nested("", k[0], v[0], r1);
    assert "" + k[0] + v[0] + r1 == k[0] + v[0] + r1;
  }

  lemma KeyedOne(k: seq<string>, v: seq<string>, rest: string)
    requires k != [] && |k| == |v|
    ensures Keyed(k, v, rest) == k[0] + (v[0] + Keyed(k[1..], v[1..], rest))
  {
  }

  lemma KeyedSix(k: seq<string>, v: seq<string>, rest: string)
    requires |k| == 6 && |v| == 6
    ensures Keyed(k, v, rest) ==
      k[0] + (v[0] + (k[1] + (v[1] + (k[2] + (v[2] + (k[3] + (v[3] + (k[4] + (v[4] + (k[5] + (v[5] + rest)))))))))))
  {
    KeyedOne(k, v, rest);
    KeyedOne(k[1..], v[1..], rest);
    KeyedOne(k[2..], v[2..], rest);
    KeyedOne(k[3..], v[3..], rest);
    KeyedOne(k[4..], v[4..], rest);
    KeyedOne(k[5..], v[5..], rest);
    assert Keyed(k[6..], v[6..], rest) == rest;
    hide Keyed;
    assert k[1..][1..] == k[2..] && v[1..][1..] == v[2..] && k[2..][1..] == k[3..] && v[2..][1..] == v[3..];
    assert k[3..][1..] == k[4..] && v[3..][1..] == v[4..] && k[4..][1..] == k[5..] && v[4..][1..] == v[5..];
    assert k[5..][1..] == k[6..] && v[5..][1..] == v[6..];
  }

  lemma InputIsKeyed(r: InputRecord)
    requires r.sequence < TWO_64 && r.bits < TWO_32
    ensures InputPayload(r.sequence, r.bits, r.slow, r.shoot, r.bomb, r.slot, r.modeActionId)
      == Keyed(InputKeys(), InputValues(r), "|mode_action_id=" + r.modeActionId)
  {
    NestSix(InputKeys(), InputValues(r), "|mode_action_id=" + r.modeActionId);
    Nested(InputFront(r), "|mode_action_id=", r.modeActionId, "");
    hide Keyed, Dec, DecInt, BoolToken;
  }

  function InputFront(r: InputRecord): string {
    "seq=" + Dec(r.sequence) + "|dir=" + Dec(r.bits) + "|slow=" + BoolToken(r.slow)
    + "|shoot=" + BoolToken(r.shoot) + "|bomb=" + BoolToken(r.bomb) + "|card=" + DecInt(r.slot)
  }

  lemma InputValuesRead(r: InputRecord)
    ensures InputOf(InputValues(r), r.modeActionId) == Some(r) && AllPipeFree(InputValues(r))
  {
    NumberReads(r.sequence);
    NumberReads(r.bits);
    FlagReads(r.slow);
    FlagReads(r.shoot);
    FlagReads(r.bomb);
    SignedReads(r.slot);
    hide Number, Signed, Flag, Dec, DecInt, BoolToken, NoPipe;
  }

  lemma InputKeysPiped()
    ensures PipeHeads(InputKeys())
  {
  }

  /** Every input reads back from its payload: sequence, direction, flags, slot and action id, whatever they are. */
  lemma InputReadsBack(r: InputRecord)
    requires r.sequence < TWO_64 && r.bits < TWO_32
    ensures ReadInput(InputPayload(r.sequence, r.bits, r.slow, r.shoot, r.bomb, r.slot, r.modeActionId)) == Some(r)
  {
    var rest := "|mode_action_id=" + r.modeActionId;
    InputIsKeyed(r);
    InputValuesRead(r);
    InputKeysPiped();
    assert Begins(rest);
    hide InputPayload, Fields, Keyed, InputValues, InputOf, AllPipeFree, PipeHeads, InputKeys, Last;
    FieldsRead(InputKeys(), InputValues(r), rest);
    LastReads("|mode_action_id=", r.modeActionId);
    SixValues(r);
  }

  lemma SixValues(r: InputRecord)
    ensures |InputValues(r)| == 6 && |InputKeys()| == 6
  {
  }

  // ---- Mode actions and seeds ----

  lemma ActionIsKeyed(r: ActionRecord)
    requires r.sequence < TWO_64
    ensures ModeActionPayload(r.actionId, r.sequence, r.payloadJson)
      == Keyed(["action_id=", "|seq="], [r.actionId, Dec(r.sequence)], "|payload=" + r.payloadJson)
  {
    var k, v, rest := ["action_id=", "|seq="], [r.actionId, Dec(r.sequence)], "|payload=" + r.payloadJson;
    KeyedOne(k, v, rest);
    KeyedOne(k[1..], v[1..], rest);
    assert Keyed(k[1..][1..], v[1..][1..], rest) == rest;
    hide Keyed, Dec;
    Nested("action_id=" + r.actionId, "|seq=", Dec(r.sequence), rest);
    Nested("action_id=" + r.actionId + "|seq=" + Dec(r.sequence), "|payload=", r.payloadJson, "");
    Nested("", "action_id=", r.actionId, "|seq=" + (Dec(r.sequence) + rest));
    assert "" + "action_id=" == "action_id=";
  }

  lemma ActionReads(r: ActionRecord)
    requires r.sequence < TWO_64 && NoPipe(r.actionId)
    ensures ReadAction(ModeActionPayload(r.actionId, r.sequence, r.payloadJson)) == Some(r)
  {
    var k, v, rest := ["action_id=", "|seq="], [r.actionId, Dec(r.sequence)], "|payload=" + r.payloadJson;
    ActionIsKeyed(r);
    NumberReads(r.sequence);
    assert Begins(rest) && PipeHeads(k) && AllPipeFree(v);
    hide ModeActionPayload, Fields, Keyed, Number, Last, Dec, NoPipe;
    FieldsRead(k, v, rest);
    LastReads("|payload=", r.payloadJson);
  }

  lemma {:induction false} UpToPipeFree(s: string)
    ensures NoPipe(UpToPipe(s))
  {
    if s != "" && s[0] != '|' {
      UpToPipeFree(s[1..]);
    }
  }

  /** What is read as an action's id never holds a separator. */
  lemma ReadIdPlain(text: string)
    ensures ReadAction(text).Some? ==> NoPipe(ReadAction(text).value.actionId)
  {
    var k := ["action_id=", "|seq="];
    hide Last, Number, NoPipe;
    if Field(text, k[0]).Some? {
      UpToPipeFree(text[|k[0]|..]);
    }
  }

  /** A mode action reads back from its payload exactly when its id holds no separator; every accepted action's
      id is such. */
  lemma ActionReadsBack(r: ActionRecord)
    requires r.sequence < TWO_64
    ensures ReadAction(ModeActionPayload(r.actionId, r.sequence, r.payloadJson)) == Some(r) <==> NoPipe(r.actionId)
  {
    hide ReadAction, ModeActionPayload;
    if NoPipe(r.actionId) {
      ActionReads(r);
    } else {
      ReadIdPlain(ModeActionPayload(r.actionId, r.sequence, r.payloadJson));
    }
  }

  lemma Assoc(x: string, y: string, z: string)
    ensures x + (y + z) == x + y + z
  {
  }

  lemma InnerFour(x: string, a: string, b: string, c: string, d: string, e: string)
    ensures x + (a + b + c + d + e) == x + a + b + c + d + e
  {
    Assoc(x, a + b + c + d, e);
    Assoc(x, a + b + c, d);
    Assoc(x, a + b, c);
    Assoc(x, a, b);
  }

  /** With a separator in the id the text can be that of another action. */
  lemma ActionTwin(id: string, n: u64, json: string, m: u64, more: string)
    ensures ModeActionPayload(id + "|seq=" + Dec(n) + "|payload=" + json, m, more)
      == ModeActionPayload(id, n, json + "|seq=" + Dec(m) + "|payload=" + more)
  {
    hide Dec;
    InnerFour("action_id=", id, "|seq=", Dec(n), "|payload=", json);
    InnerFour("action_id=" + id + "|seq=" + Dec(n) + "|payload=", json, "|seq=", Dec(m), "|payload=", more);
  }

  lemma SeedReadsBack(seed: u64)
    ensures ReadSeed(SeedPayload(SEED_KIND, seed)) == Some(seed)
  {
    var k, v, rest := ["seed_kind="], ["battle_derived"], "|seed=" + Dec(seed);
    KeyedOne(k, v, rest);
    assert Keyed(k[1..], v[1..], rest) == rest;
    NumberReads(seed);
    assert Begins(rest) && PipeHeads(k) && AllPipeFree(v);
    hide Fields, Keyed, Number, Last, Dec, NoPipe;
    assert SeedPayload(SEED_KIND, seed) == Keyed(k, v, rest);
    FieldsRead(k, v, rest);
    LastReads("|seed=", Dec(seed));
  }

  // ---- Lines ----

  /** The operation a stored line tells of. */
  function ReadOperation(l: BodyEntry): Option<Operation> {
    if l.actionType == "input" && ReadInput(l.payload).Some? then
      var r := ReadInput(l.payload).value;
      if r.sequence < TWO_64 && r.bits < TWO_32 then
        Some(Input(l.tick, l.playerId, r.sequence, r.bits, r.slow, r.shoot, r.bomb, r.slot, r.modeActionId))
      else None
    else if l.actionType == "match_seed" && l.playerId == "" && l.tick == 0 && ReadSeed(l.payload).Some? then
      if ReadSeed(l.payload).value < TWO_64 then Some(MatchSeed(ReadSeed(l.payload).value)) else None
    else
      match ReadAction(l.payload)
      case None => None
      case Some(r) =>
        if r.sequence < TWO_64 then Some(ModeAction(l.tick, l.playerId, r.actionId, r.sequence, l.actionType, r.payloadJson)) else None
  }

  predicate Plain(op: Operation) {
    op.ModeAction? ==> NoPipe(op.actionId)
  }

  lemma ActionIsNoOther(id: string, sequence: u64, json: string)
    ensures ReadInput(ModeActionPayload(id, sequence, json)) == None && ReadSeed(ModeActionPayload(id, sequence, json)) == None
  {
    var text := ModeActionPayload(id, sequence, json);
    assert text == "action_id=" + (id + "|seq=" + Dec(sequence) + "|payload=" + json);
    hide ModeActionPayload, Dec;
    assert text[..4] == "acti" && text[0] == 'a';
    assert Field(text, "seq=") == None && Field(text, "seed_kind=") == None;
    hide Field;
  }

  /** Every operation reads back from its line, but for a mode action whose id holds a separator. */
  lemma LineReadsBack(op: Operation, n: nat)
    requires Plain(op)
    ensures ReadOperation(Line(op, n)) == Some(op)
  {
    hide ReadInput, ReadAction, ReadSeed, InputPayload, ModeActionPayload, SeedPayload, NoPipe;
    match op
    case MatchSeed(seed) => SeedReadsBack(seed);
    case Input(tick, playerId, sequence, bits, slow, shoot, bomb, slot, id) =>
      InputReadsBack(InputRecord(sequence, bits, slow, shoot, bomb, slot, id));
    case ModeAction(tick, playerId, actionId, sequence, actionType, json) =>
      ActionReads(ActionRecord(actionId, sequence, json));
      ActionIsNoOther(actionId, sequence, json);
  }

  // ---- Recordings ----

  /** The operations that leave a line: all but a seed behind the first line. */
  function Recorded(ops: seq<Operation>): seq<Operation> {
    if ops == [] then [] else
    var before, op := Recorded(ops[..|ops| - 1]), ops[|ops| - 1];
    if op.MatchSeed? && before != [] then before else before + [op]
  }

  lemma {:induction false} LogOfRecorded(ops: seq<Operation>)
    ensures |Log(ops)| == |Recorded(ops)|
    ensures forall i :: 0 <= i < |Log(ops)| ==> Log(ops)[i] == Line(Recorded(ops)[i], i + 1)
    decreases |ops|
  {
    hide Line;
    if ops != [] {
      LogOfRecorded(ops[..|ops| - 1]);
    }
  }

  ghost predicate AllPlain(ops: seq<Operation>) {
    forall i :: 0 <= i < |ops| ==> Plain(ops[i])
  }

  lemma {:induction false} RecordedPlain(ops: seq<Operation>)
    requires AllPlain(ops)
    ensures AllPlain(Recorded(ops))
    decreases |ops|
  {
    hide Plain;
    if ops != [] {
      RecordedPlain(ops[..|ops| - 1]);
    }
  }

  /** The stored lines tell the recorded operations, one by one. */
  lemma LogReadsBack(ops: seq<Operation>, i: nat)
    requires AllPlain(ops) && i < |Log(ops)|
    ensures |Log(ops)| == |Recorded(ops)| && ReadOperation(Log(ops)[i]) == Some(Recorded(ops)[i])
  {
    LogOfRecorded(ops);
    RecordedPlain(ops);
    hide Log, Recorded, Line, ReadOperation, Plain;
    LineReadsBack(Recorded(ops)[i], i + 1);
  }

  lemma SameLogSameOperations(a: seq<Operation>, b: seq<Operation>)
    requires AllPlain(a) && AllPlain(b) && Log(a) == Log(b)
    ensures Recorded(a) == Recorded(b)
  {
    hide Log, Recorded, ReadOperation, AllPlain;
    LogOfRecorded(a);
    LogOfRecorded(b);
    forall i: nat | i < |Recorded(a)|
      ensures Recorded(a)[i] == Recorded(b)[i]
    {
      LogReadsBack(a, i);
      LogReadsBack(b, i);
    }
  }

  /** Two accepted recordings of known operations under one chain head recorded the same operations, or show a
      collision of the digest. */
  lemma SealedOperations(p: Primitives, x: string, y: string, a: seq<Operation>, b: seq<Operation>)
    requires ParseDoc(p, x).Parsed? && ParseDoc(p, y).Parsed? && PlainDigest(p.digest) && AllPlain(a) && AllPlain(b)
    requires ParseDoc(p, x).entries == Log(a) && ParseDoc(p, y).entries == Log(b) && Log(a) != [] && Log(b) != []
    requires ParseDoc(p, x).header.chainHeadDigest == ParseDoc(p, y).header.chainHeadDigest
    requires forall i :: 0 <= i < |Log(a)| ==> LinePipeFree(Log(a)[i])
    ensures || Recorded(a) == Recorded(b) || PayloadsCollide(p.digest, Log(a), Log(b))
            || Collision(p.digest, Rebuild(p.digest, Log(a)), Rebuild(p.digest, Log(b)))
  {
    hide *;
    SealedRecording(p, x, y);
    if Log(a) == Log(b) {
      SameLogSameOperations(a, b);
    }
  }
}
