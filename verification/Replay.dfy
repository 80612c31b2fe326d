/** The recorder of src/dem.cpp and what a finished recording guarantees: it parses back to exactly what
    was recorded, and it cannot be altered without a collision of the digest. */
module Replay {
  import opened Bytes
  import opened DemHeader
  import opened ChainLog
  import opened DemContainer

  // ---- What a recorder was told ----

  datatype Operation =
    | MatchSeed(seed: u64)
    | Input(tick: i64, playerId: string, sequence: u64, directionBits: u32, slow: bool, shoot: bool, bomb: bool,
            cardSlot: int, modeActionId: string)
    | ModeAction(tick: i64, playerId: string, actionId: string, sequence: u64, actionType: string, payloadJson: string)

  /** The line an operation leaves in the log, `number` being its place there. */
  function Line(op: Operation, number: nat): BodyEntry {
    var n := number % TWO_64;
    match op
    case MatchSeed(seed) => BodyEntry(n, 0, MATCH_SCOPE, TYPE_SEED, SeedPayload(SEED_KIND, seed))
    case Input(tick, playerId, sequence, bits, slow, shoot, bomb, slot, modeActionId) =>
      BodyEntry(n, tick, playerId, TYPE_INPUT, InputPayload(sequence, bits, slow, shoot, bomb, slot, modeActionId))
    case ModeAction(tick, playerId, actionId, sequence, actionType, payloadJson) =>
      BodyEntry(n, tick, playerId, actionType, ModeActionPayload(actionId, sequence, payloadJson))
  }

  /** The log of a run of operations. A seed counts only as the first line. */
  function Log(ops: seq<Operation>): seq<BodyEntry> {
    if ops == [] then [] else
    var before, op := Log(ops[..|ops| - 1]), ops[|ops| - 1];
    if op.MatchSeed? && before != [] then before else before + [Line(op, |before| + 1)]
  }

  lemma LogSnoc(ops: seq<Operation>, op: Operation)
    ensures Log(ops + [op]) ==
      if op.MatchSeed? && Log(ops) != [] then Log(ops) else Log(ops) + [Line(op, |Log(ops)| + 1)]
  {
    assert (ops + [op])[..|ops|] == ops;
    hide Line;
  }

  // ---- A chain and its payloads side by side ----

  /** Entry `e` with payload `payload` carries line `l`. */
  predicate Carries(digest: Digest, e: Entry, payload: string, l: BodyEntry) {
    && l == BodyEntry(e.sequence % TWO_64, e.tick, e.playerId, e.actionType, payload)
    && e.payloadDigest == digest(payload)
  }

  ghost predicate Mirrors(digest: Digest, entries: seq<Entry>, payloads: seq<string>, log: seq<BodyEntry>) {
    && |entries| == |payloads| == |log|
    && forall i :: 0 <= i < |log| ==> Carries(digest, entries[i], payloads[i], log[i])
  }

  lemma MirrorsGrows(digest: Digest, entries: seq<Entry>, payloads: seq<string>, log: seq<BodyEntry>,
                     e: Entry, payload: string, l: BodyEntry)
    requires Mirrors(digest, entries, payloads, log) && Carries(digest, e, payload, l)
    ensures Mirrors(digest, entries + [e], payloads + [payload], log + [l])
  {
    hide Carries;
  }

  /** Appending to a sound chain numbers the new entry by its place. */
  lemma AppendCarries(digest: Digest, entries: seq<Entry>, op: Operation)
    requires Sound(digest, entries)
    ensures var l := Line(op, |entries| + 1);
      var more := Append(digest, entries, l.tick, l.playerId, l.actionType, digest(l.payload));
      |more| == |entries| + 1 && more[..|entries|] == entries && Carries(digest, more[|entries|], l.payload, l)
  {
    if entries != [] {
      SoundNumbers(digest, entries, |entries| - 1);
    }
    hide Sound, Head, EntryDigest, InputPayload, SeedPayload, ModeActionPayload;
  }

  lemma RecordStep(digest: Digest, entries: seq<Entry>, payloads: seq<string>, log: seq<BodyEntry>, op: Operation)
    requires Sound(digest, entries) && Mirrors(digest, entries, payloads, log)
    ensures var l := Line(op, |entries| + 1);
      var more := Append(digest, entries, l.tick, l.playerId, l.actionType, digest(l.payload));
      Mirrors(digest, more, payloads + [l.payload], log + [l])
  {
    AppendCarries(digest, entries, op);
    var l := Line(op, |entries| + 1);
    var more := Append(digest, entries, l.tick, l.playerId, l.actionType, digest(l.payload));
    hide *;
    MirrorsGrows(digest, entries, payloads, log, more[|entries|], l.payload, l);
    assert more == entries + [more[|entries|]];
  }

  lemma ExtendLog(digest: Digest, entries: seq<Entry>, payloads: seq<string>, history: seq<Operation>, op: Operation)
    requires Sound(digest, entries) && Mirrors(digest, entries, payloads, Log(history))
    requires op.MatchSeed? ==> entries == []
    ensures var l := Line(op, |entries| + 1);
      Mirrors(digest, Append(digest, entries, l.tick, l.playerId, l.actionType, digest(l.payload)),
              payloads + [l.payload], Log(history + [op]))
  {
    LogSnoc(history, op);
    RecordStep(digest, entries, payloads, Log(history), op);
    assert |Log(history)| == |entries|;
    hide *;
  }

  // ---- The recorder ----

  class DemRecorder {
    const p: Primitives
    const chain: OperationChainLog
    var payloads: seq<string>
    var userIds: map<string, string>
    ghost var history: seq<Operation>

    ghost predicate Valid()
      reads this, chain
    {
      && chain.digest == p.digest && chain.Valid()
      && Mirrors(p.digest, chain.entries, payloads, Log(history))
    }

    constructor (p: Primitives)
      ensures Valid() && fresh(chain) && this.p == p
      ensures chain.entries == [] && payloads == [] && userIds == map[] && history == []
    {
      this.p := p;
      chain := new OperationChainLog(p.digest);
      payloads := [];
      userIds := map[];
      history := [];
    }

    method RecordMatchSeed(seed: u64)
      requires Valid()
      modifies this, chain
      ensures Valid() && history == old(history) + [MatchSeed(seed)] && userIds == old(userIds)
    {
      LogSnoc(history, MatchSeed(seed));
      hide SeedPayload, Sound, Carries, Append;
      history := history + [MatchSeed(seed)];
      if chain.entries != [] {
        return;
      }
      ExtendLog(p.digest, chain.entries, payloads, old(history), MatchSeed(seed));
      chain.AppendMatchSeed(0, SEED_KIND, seed);
      payloads := payloads + [SeedPayload(SEED_KIND, seed)];
    }

    method RecordInput(tick: i64, playerId: string, sequence: u64, directionBits: u32, slow: bool, shoot: bool,
                       bomb: bool, cardSlot: int, modeActionId: string)
      requires Valid()
      modifies this, chain
      ensures Valid() && userIds == old(userIds)
      ensures history == old(history) + [Input(tick, playerId, sequence, directionBits, slow, shoot, bomb, cardSlot, modeActionId)]
    {
      hide InputPayload, Sound, Carries, Append, Log;
      var op := Input(tick, playerId, sequence, directionBits, slow, shoot, bomb, cardSlot, modeActionId);
      ExtendLog(p.digest, chain.entries, payloads, history, op);
      history := history + [op];
      chain.AppendInput(tick, playerId, sequence, directionBits, slow, shoot, bomb, cardSlot, modeActionId);
      payloads := payloads + [InputPayload(sequence, directionBits, slow, shoot, bomb, cardSlot, modeActionId)];
    }

    method RecordModeAction(tick: i64, playerId: string, actionId: string, sequence: u64, actionType: string,
                            payloadJson: string)
      requires Valid()
      modifies this, chain
      ensures Valid() && userIds == old(userIds)
      ensures history == old(history) + [ModeAction(tick, playerId, actionId, sequence, actionType, payloadJson)]
    {
      hide ModeActionPayload, Sound, Carries, Append, Log;
      var op := ModeAction(tick, playerId, actionId, sequence, actionType, payloadJson);
      ExtendLog(p.digest, chain.entries, payloads, history, op);
      history := history + [op];
      chain.AppendModeAction(tick, playerId, actionId, sequence, actionType, payloadJson);
      payloads := payloads + [ModeActionPayload(actionId, sequence, payloadJson)];
    }

    /** The first non-empty user id of a player stays. */
    method NoteUserId(playerId: string, userId: string)
      requires Valid()
      modifies this
      ensures Valid() && history == old(history) && payloads == old(payloads)
      ensures forall k :: k in userIds <==> k in old(userIds) || (k == playerId && userId != "")
      ensures forall k :: k in old(userIds) && old(userIds[k]) != "" ==> userIds[k] == old(userIds[k])
      ensures userId != "" ==> userIds[playerId] != ""
      ensures forall k :: k in userIds && k != playerId ==> userIds[k] == old(userIds[k])
    {
      if userId == "" {
        return;
      }
      if playerId in userIds && userIds[playerId] != "" {
        return;
      }
      userIds := userIds[playerId := userId];
    }

    /** Finalize: with the matching count and head digest the recording is written, and the bytes parse
        back to the header and exactly the recorded lines. */
    method Finalize(header: Header) returns (result: WriteResult)
      requires Valid()
      ensures result == WriteDoc(p, header, chain.entries, payloads)
      ensures Matching(p, header, chain.entries, Log(history)) ==>
        result.Written? && ParseDoc(p, result.bytes) == Parsed(header, Log(history))
    {
      result := WriteDemDocument(p, header, chain.entries, payloads);
      if Matching(p, header, chain.entries, Log(history)) {
        RecordingParses(p, header, chain.entries, payloads, Log(history));
      }
    }
  }

  // ---- The end-to-end round trip ----

  /** The size limits of the format, and a compressor that inverts on this body. */
  ghost predicate Storable(p: Primitives, h: Header, log: seq<BodyEntry>) {
    var body := EncodeBody(log);
    && |log| < TWO_64
    && (forall i :: 0 <= i < |log| ==> Fits(log[i]))
    && |HeaderText(h)| <= MAX_HEADER
    && 0 < |p.deflate(body)| <= MAX_BODY
    && p.inflate(p.deflate(body)) == Some(body)
  }

  /** A header that names the chain it is written with, within the size limits. */
  ghost predicate Matching(p: Primitives, h: Header, entries: seq<Entry>, log: seq<BodyEntry>) {
    Storable(p, h, log) && h.entryCount == |entries| && h.chainHeadDigest == Head(entries)
  }

  lemma MirroredBody(digest: Digest, entries: seq<Entry>, payloads: seq<string>, log: seq<BodyEntry>)
    requires Mirrors(digest, entries, payloads, log)
    ensures BodyOf(entries, payloads) == log && PayloadsMatch(digest, entries, payloads)
    ensures (forall i :: 0 <= i < |log| ==> Fits(log[i])) ==> AllFit(entries, payloads)
  {
    forall i | 0 <= i < |log|
      ensures BodyOf(entries, payloads)[i] == log[i]
    {
      assert Carries(digest, entries[i], payloads[i], log[i]);
    }
    if forall i :: 0 <= i < |log| ==> Fits(log[i]) {
      forall i | 0 <= i < |log|
        ensures |entries[i].playerId| <= FIELD_MAX && |entries[i].actionType| <= FIELD_MAX && |payloads[i]| <= FIELD_MAX
      {
        assert Carries(digest, entries[i], payloads[i], log[i]) && Fits(log[i]);
      }
    }
  }

  lemma SoundLinks(digest: Digest, entries: seq<Entry>, i: nat)
    requires Sound(digest, entries) && i < |entries|
    ensures entries[i].sequence == i + 1 && entries[i].prevDigest == Head(entries[..i])
    ensures entries[i].entryDigest == EntryDigest(digest, entries[i])
  {
    hide EntryDigest;
    SoundNumbers(digest, entries, i);
    assert Fault(digest, entries, i) == "";
  }

  lemma RebuiltIs(digest: Digest, before: seq<Entry>, e: Entry, l: BodyEntry)
    requires e.prevDigest == Head(before) && e.entryDigest == EntryDigest(digest, e)
    requires e.sequence == l.sequence && e.tick == l.tick && e.playerId == l.playerId
    requires e.actionType == l.actionType && e.payloadDigest == digest(l.payload)
    ensures RebuiltEntry(digest, before, l) == e
  {
    hide Head;
    assert Material(e) == Material(e.(entryDigest := ""));
  }

  lemma LastRebuilt(digest: Digest, entries: seq<Entry>, payloads: seq<string>, log: seq<BodyEntry>)
    requires Sound(digest, entries) && Mirrors(digest, entries, payloads, log) && 0 < |log| < TWO_64
    ensures RebuiltEntry(digest, entries[..|log| - 1], log[|log| - 1]) == entries[|log| - 1]
  {
    var n := |log| - 1;
    SoundLinks(digest, entries, n);
    assert Carries(digest, entries[n], payloads[n], log[n]);
    hide Sound, Mirrors, EntryDigest, Head, RebuiltEntry;
    assert entries[n].sequence % TWO_64 == n + 1;
    RebuiltIs(digest, entries[..n], entries[n], log[n]);
  }

  lemma MirrorsLengths(digest: Digest, entries: seq<Entry>, payloads: seq<string>, log: seq<BodyEntry>)
    requires Mirrors(digest, entries, payloads, log)
    ensures |entries| == |payloads| == |log|
  {
  }

  lemma EmptyRebuild(digest: Digest)
    ensures Rebuild(digest, []) == []
  {
  }

  /** Rebuilding the chain from the recorded lines gives the recorded chain. */
  lemma {:induction false} RebuildInverts(digest: Digest, entries: seq<Entry>, payloads: seq<string>, log: seq<BodyEntry>)
    requires Sound(digest, entries) && Mirrors(digest, entries, payloads, log) && |log| < TWO_64
    ensures Rebuild(digest, log) == entries
    decreases |log|
  {
    hide *;
    MirrorsLengths(digest, entries, payloads, log);
    if log == [] {
      EmptyRebuild(digest);
    } else {
      var n := |log| - 1;
      SoundPrefix(digest, entries, n);
      LastRebuilt(digest, entries, payloads, log);
      MirrorsPrefix(digest, entries, payloads, log, n);
      RebuildInverts(digest, entries[..n], payloads[..n], log[..n]);
      RebuildSnoc(digest, log);
      assert entries == entries[..n] + [entries[n]];
    }
  }

  lemma MirrorsPrefix(digest: Digest, entries: seq<Entry>, payloads: seq<string>, log: seq<BodyEntry>, n: nat)
    requires Mirrors(digest, entries, payloads, log) && n <= |log|
    ensures Mirrors(digest, entries[..n], payloads[..n], log[..n])
  {
    hide Carries;
  }

  lemma PartsLayout(m: string, a: string, b: string, c: string, d: string, e: string)
    ensures var bytes := m + (a + (b + (c + (d + e))));
      && |bytes| == |m| + |a| + |b| + |c| + |d| + |e| && bytes[..|m|] == m
      && At(bytes, |m|, a) && At(bytes, |m| + |a|, b) && At(bytes, |m| + |a| + |b|, c)
      && At(bytes, |m| + |a| + |b| + |c|, d) && At(bytes, |m| + |a| + |b| + |c| + |d|, e)
  {
    var bytes := m + (a + (b + (c + (d + e))));
    assert At(bytes, 0, m + (a + (b + (c + (d + e)))));
    hide *;
    AtSplit(bytes, 0, m, a + (b + (c + (d + e))));
    AtSplit(bytes, |m|, a, b + (c + (d + e)));
    AtSplit(bytes, |m| + |a|, b, c + (d + e));
    AtSplit(bytes, |m| + |a| + |b|, c, d + e);
    AtSplit(bytes, |m| + |a| + |b| + |c|, d, e);
  }

  /** Where the parts of a container lie. */
  lemma ContainerLayout(p: Primitives, headerJson: string, compressed: string)
    requires |headerJson| <= MAX_HEADER && |compressed| <= MAX_BODY
    ensures var bytes, c := ContainerBytes(p, headerJson, compressed), 12 + |headerJson|;
      && |bytes| == c + 8 + |compressed| + 32 && bytes[..8] == MAGIC
      && At(bytes, 8, LittleEndian(|headerJson|, 4)) && At(bytes, 12, headerJson)
      && At(bytes, c, LittleEndian(|compressed|, 8)) && At(bytes, c + 8, compressed)
      && At(bytes, c + 8 + |compressed|, p.sha256(headerJson + compressed))
  {
    hide LittleEndian, At;
    assert |headerJson| % TWO_32 == |headerJson|;
    PartsLayout(MAGIC, LittleEndian(|headerJson|, 4), headerJson, LittleEndian(|compressed|, 8), compressed,
                p.sha256(headerJson + compressed));
  }

  lemma AtSlice(data: string, cursor: nat, piece: string)
    requires At(data, cursor, piece)
    ensures cursor + |piece| <= |data| && data[cursor..cursor + |piece|] == piece
    ensures cursor + |piece| == |data| ==> data[cursor..] == piece
  {
  }

  lemma LengthsReadBack(bytes: string, header: nat, body: nat)
    requires header < TWO_32 && At(bytes, 8, LittleEndian(header, 4))
    requires body < TWO_64 && At(bytes, 12 + header, LittleEndian(body, 8))
    ensures ReadUint(bytes, 8, 4) == Got(header, 12) && ReadUint(bytes, 12 + header, 8) == Got(body, 20 + header)
  {
    Pow256Values();
    hide LittleEndian, ReadUint, At, Pow256;
    UintReadsBack(bytes, 8, header, 4);
    UintReadsBack(bytes, 12 + header, body, 8);
  }

  /** The frame of a container comes off cleanly: magic, lengths and checksum all hold. */
  lemma FrameReadsBack(p: Primitives, headerJson: string, compressed: string)
    requires |headerJson| <= MAX_HEADER && |compressed| <= MAX_BODY
    ensures ParseDoc(p, ContainerBytes(p, headerJson, compressed)) == ParseBody(p, headerJson, compressed)
  {
    hide ContainerBytes, ParseBody, LittleEndian, ReadUint, At;
    var bytes, c := ContainerBytes(p, headerJson, compressed), 12 + |headerJson|;
    ContainerLayout(p, headerJson, compressed);
    LengthsReadBack(bytes, |headerJson|, |compressed|);
    AtSlice(bytes, 12, headerJson);
    AtSlice(bytes, c + 8, compressed);
    AtSlice(bytes, c + 8 + |compressed|, p.sha256(headerJson + compressed));
  }

  /** Behind a sound frame the recorded lines, their chain and the header all check out. */
  lemma BodyChecksOut(p: Primitives, h: Header, entries: seq<Entry>, payloads: seq<string>, log: seq<BodyEntry>)
    requires Matching(p, h, entries, log) && Sound(p.digest, entries) && Mirrors(p.digest, entries, payloads, log)
    ensures ParseBody(p, HeaderText(h), p.deflate(EncodeBody(log))) == Parsed(h, log)
  {
    BodyRoundTrip(log);
    RebuildInverts(p.digest, entries, payloads, log);
    HeaderRoundTrip(h);
    assert DecodeHeader(HeaderText(h)) == Some(h);
    NoReason(p.digest, entries);
    hide HeaderText, EncodeBody, ReadEntries, Rebuild, FirstReason, DecodeHeader, Head, Sound;
  }

  lemma NoReason(digest: Digest, entries: seq<Entry>)
    requires Sound(digest, entries)
    ensures FirstReason(digest, entries, 0) == ""
  {
    ReasonOf(digest, entries, Verdict(true, 0, ""));
  }

  lemma RecordingIsWritten(p: Primitives, h: Header, entries: seq<Entry>, payloads: seq<string>, log: seq<BodyEntry>)
    requires Matching(p, h, entries, log) && Sound(p.digest, entries) && Mirrors(p.digest, entries, payloads, log)
    ensures WriteDoc(p, h, entries, payloads) ==
      Written(ContainerBytes(p, HeaderText(h), p.deflate(EncodeBody(log))))
  {
    MirroredBody(p.digest, entries, payloads, log);
    NoReason(p.digest, entries);
    hide HeaderText, EncodeBody, ContainerBytes, FirstReason, Head, Sound, BodyOf, PayloadsMatch, AllFit;
  }

  lemma StorableSizes(p: Primitives, h: Header, entries: seq<Entry>, log: seq<BodyEntry>)
    requires Matching(p, h, entries, log)
    ensures |HeaderText(h)| <= MAX_HEADER && |p.deflate(EncodeBody(log))| <= MAX_BODY
  {
  }

  /** Recording, writing and parsing: the recorded lines and the header come back, nothing else. */
  lemma RecordingParses(p: Primitives, h: Header, entries: seq<Entry>, payloads: seq<string>, log: seq<BodyEntry>)
    requires Matching(p, h, entries, log) && Sound(p.digest, entries) && Mirrors(p.digest, entries, payloads, log)
    ensures WriteDoc(p, h, entries, payloads).Written?
    ensures ParseDoc(p, WriteDoc(p, h, entries, payloads).bytes) == Parsed(h, log)
  {
    hide *;
    RecordingIsWritten(p, h, entries, payloads, log);
    StorableSizes(p, h, entries, log);
    BodyChecksOut(p, h, entries, payloads, log);
    FrameReadsBack(p, HeaderText(h), p.deflate(EncodeBody(log)));
  }

  // ---- What an accepted container guarantees ----

  lemma AcceptedBody(p: Primitives, headerJson: string, compressed: string)
    requires ParseBody(p, headerJson, compressed).Parsed?
    ensures var d := ParseBody(p, headerJson, compressed);
      var chain := Rebuild(p.digest, d.entries);
      && FirstReason(p.digest, chain, 0) == "" && d.header.entryCount == |d.entries|
      && d.header.chainHeadDigest == Head(chain) && DecodeHeader(headerJson) == Some(d.header)
      && compressed != "" && p.inflate(compressed).Some?
      && ReadEntries(p.inflate(compressed).value, 0, []) == Some(d.entries)
  {
    hide ReadEntries, Rebuild, FirstReason, DecodeHeader, Head;
  }

  lemma SoundReason(digest: Digest, entries: seq<Entry>)
    requires FirstReason(digest, entries, 0) == ""
    ensures Sound(digest, entries)
  {
  }

  function HeaderPart(bytes: string): string {
    if |bytes| < 12 || 12 + FromLittleEndian(bytes[8..12]) > |bytes| then ""
    else bytes[12..12 + FromLittleEndian(bytes[8..12])]
  }

  function BodyPart(bytes: string): string {
    var c := 20 + |HeaderPart(bytes)|;
    if c + 32 > |bytes| then "" else bytes[c..|bytes| - 32]
  }

  /** What the parser has checked of the frame when it reaches the body. */
  lemma AcceptedFrame(p: Primitives, bytes: string)
    requires ParseDoc(p, bytes).Parsed?
    ensures var hj, z := HeaderPart(bytes), BodyPart(bytes);
      && ParseDoc(p, bytes) == ParseBody(p, hj, z) && |bytes| == 52 + |hj| + |z| && bytes[..8] == MAGIC
      && |hj| == FromLittleEndian(bytes[8..12]) && |hj| <= MAX_HEADER && bytes[12..12 + |hj|] == hj
      && |z| == FromLittleEndian(bytes[12 + |hj|..20 + |hj|]) && |z| <= MAX_BODY && bytes[20 + |hj|..20 + |hj| + |z|] == z
      && bytes[20 + |hj| + |z|..] == p.sha256(hj + z)
  {
    hide ParseBody, FromLittleEndian;
  }

  lemma LengthField(bytes: string, from: nat, width: nat)
    requires from + width <= |bytes| && forall i :: 0 <= i < |bytes| ==> bytes[i] as int < 256
    ensures bytes[from..from + width] == LittleEndian(FromLittleEndian(bytes[from..from + width]), width)
  {
    hide *;
    FromLittleEndianInverts(bytes[from..from + width]);
  }

  lemma ContainerOfPieces(p: Primitives, bytes: string, hj: string, z: string)
    requires |bytes| == 52 + |hj| + |z| && |hj| <= MAX_HEADER && bytes[..8] == MAGIC
    requires bytes[8..12] == LittleEndian(|hj|, 4) && bytes[12..12 + |hj|] == hj
    requires bytes[12 + |hj|..20 + |hj|] == LittleEndian(|z|, 8) && bytes[20 + |hj|..20 + |hj| + |z|] == z
    requires bytes[20 + |hj| + |z|..] == p.sha256(hj + z)
    ensures bytes == ContainerBytes(p, hj, z)
  {
    hide LittleEndian;
    assert |hj| % TWO_32 == |hj|;
    JoinPieces(bytes, MAGIC, LittleEndian(|hj|, 4), hj, LittleEndian(|z|, 8), z, p.sha256(hj + z));
  }

  /** The parser accepts no byte string but those the writer's frame can produce: the accepted bytes are
      the container of their own header and body, checksum included. */
  lemma AcceptedIsContainer(p: Primitives, bytes: string)
    requires ParseDoc(p, bytes).Parsed? && forall i :: 0 <= i < |bytes| ==> bytes[i] as int < 256
    ensures bytes == ContainerBytes(p, HeaderPart(bytes), BodyPart(bytes))
  {
    hide *;
    AcceptedFrame(p, bytes);
    var hj, z := HeaderPart(bytes), BodyPart(bytes);
    LengthField(bytes, 8, 4);
    LengthField(bytes, 12 + |hj|, 8);
    ContainerOfPieces(p, bytes, hj, z);
  }

  lemma JoinPieces(s: string, m: string, a: string, b: string, c: string, d: string, e: string)
    requires |s| == |m| + |a| + |b| + |c| + |d| + |e| && s[..|m|] == m
    requires s[|m|..|m| + |a|] == a && s[|m| + |a|..|m| + |a| + |b|] == b
    requires s[|m| + |a| + |b|..|m| + |a| + |b| + |c|] == c
    requires s[|m| + |a| + |b| + |c|..|m| + |a| + |b| + |c| + |d|] == d
    requires s[|m| + |a| + |b| + |c| + |d|..] == e
    ensures s == m + (a + (b + (c + (d + e))))
  {
    CutAt(s, |m| + |a| + |b| + |c|, |m| + |a| + |b| + |c| + |d|, d);
    CutAt(s, |m| + |a| + |b|, |m| + |a| + |b| + |c|, c);
    CutAt(s, |m| + |a|, |m| + |a| + |b|, b);
    CutAt(s, |m|, |m| + |a|, a);
    assert s == s[..|m|] + s[|m|..];
  }

  lemma CutAt(s: string, i: nat, j: nat, piece: string)
    requires i <= j <= |s| && s[i..j] == piece
    ensures s[i..] == piece + s[j..]
  {
  }

  /** An accepted recording carries a sound chain whose head and length its header names. */
  lemma AcceptedChain(p: Primitives, bytes: string)
    requires ParseDoc(p, bytes).Parsed?
    ensures var d := ParseDoc(p, bytes);
      var chain := Rebuild(p.digest, d.entries);
      && Sound(p.digest, chain) && Numbered(d.entries)
      && d.header.entryCount == |d.entries| && d.header.chainHeadDigest == Head(chain)
  {
    hide *;
    AcceptedFrame(p, bytes);
    AcceptedBody(p, HeaderPart(bytes), BodyPart(bytes));
    var d := ParseDoc(p, bytes);
    SoundReason(p.digest, Rebuild(p.digest, d.entries));
    RebuiltSoundIffNumbered(p.digest, d.entries);
  }

  // ---- Tampering with a recording ----

  ghost predicate LinePipeFree(l: BodyEntry) {
    NoPipe(l.playerId) && NoPipe(l.actionType)
  }

  ghost predicate PayloadsCollide(digest: Digest, a: seq<BodyEntry>, b: seq<BodyEntry>) {
    exists i :: 0 <= i < |a| && i < |b| && a[i].payload != b[i].payload && digest(a[i].payload) == digest(b[i].payload)
  }

  lemma RebuiltPipeFree(digest: Digest, log: seq<BodyEntry>)
    requires forall i :: 0 <= i < |log| ==> LinePipeFree(log[i])
    requires PlainDigest(digest)
    ensures PipeFree(Rebuild(digest, log))
  {
    var chain := Rebuild(digest, log);
    hide Rebuild, RebuiltEntry, NoPipe;
    forall i: nat | i < |chain|
      ensures NoPipe(chain[i].playerId) && NoPipe(chain[i].actionType) && NoPipe(chain[i].payloadDigest)
    {
      RebuiltLength(digest, log);
      RebuildAt(digest, log, i);
      RebuiltFields(digest, chain[..i], log[i]);
      assert LinePipeFree(log[i]);
    }
  }

  lemma RebuiltLength(digest: Digest, log: seq<BodyEntry>)
    ensures |Rebuild(digest, log)| == |log|
  {
  }

  /** Two logs with one chain differ in no line, unless two payloads collide. */
  lemma SameChainSameLog(digest: Digest, a: seq<BodyEntry>, b: seq<BodyEntry>)
    requires Rebuild(digest, a) == Rebuild(digest, b)
    ensures a == b || PayloadsCollide(digest, a, b)
  {
    RebuiltLength(digest, a);
    RebuiltLength(digest, b);
    if !PayloadsCollide(digest, a, b) {
      forall i: nat | i < |a|
        ensures a[i] == b[i]
      {
        SameLine(digest, a, b, i);
      }
    }
  }

  lemma SameLine(digest: Digest, a: seq<BodyEntry>, b: seq<BodyEntry>, i: nat)
    requires Rebuild(digest, a) == Rebuild(digest, b) && |a| == |b| && i < |a| && !PayloadsCollide(digest, a, b)
    ensures a[i] == b[i]
  {
    hide Rebuild, RebuiltEntry;
    RebuildAt(digest, a, i);
    RebuildAt(digest, b, i);
    RebuiltFields(digest, Rebuild(digest, a[..i]), a[i]);
    RebuiltFields(digest, Rebuild(digest, b[..i]), b[i]);
    assert a[i].payload == b[i].payload;
  }

  /** Two accepted recordings whose headers name the same chain head hold the same lines, payloads included, or
      exhibit a collision of the digest; only one of them need be known to have separator-free lines. */
  lemma SealedRecording(p: Primitives, x: string, y: string)
    requires ParseDoc(p, x).Parsed? && ParseDoc(p, y).Parsed? && PlainDigest(p.digest)
    requires var a, b := ParseDoc(p, x), ParseDoc(p, y);
      && a.entries != [] && b.entries != [] && a.header.chainHeadDigest == b.header.chainHeadDigest
      && (forall i :: 0 <= i < |a.entries| ==> LinePipeFree(a.entries[i]))
    ensures var a, b := ParseDoc(p, x).entries, ParseDoc(p, y).entries;
      || a == b || PayloadsCollide(p.digest, a, b)
      || Collision(p.digest, Rebuild(p.digest, a), Rebuild(p.digest, b))
  {
    var a, b := ParseDoc(p, x).entries, ParseDoc(p, y).entries;
    hide *;
    AcceptedChain(p, x);
    AcceptedChain(p, y);
    RebuiltPipeFree(p.digest, a);
    RebuiltLength(p.digest, a);
    RebuiltLength(p.digest, b);
    SealedAgainstAll(p.digest, Rebuild(p.digest, a), Rebuild(p.digest, b));
    if Rebuild(p.digest, a) == Rebuild(p.digest, b) {
      SameChainSameLog(p.digest, a, b);
    }
  }
}
