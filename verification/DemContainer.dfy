/** The replay container of src/dem.cpp: body codec, writer, parser and recorder. Digest, SHA-256 and the
    compressor are parameters; what a theorem needs of them it says. */
module DemContainer {
  import opened Bytes
  import opened DemHeader
  import opened ChainLog
  import JsonInversion

  const MAGIC: string := "PHDEM001"
  const FIELD_MAX: nat := 0xFFFF
  const MAX_HEADER: nat := 4 * 1024 * 1024
  const MAX_BODY: nat := 256 * 1024 * 1024

  type Sha = s: string | |s| == 32 witness "00000000000000000000000000000000"

  datatype Primitives = Primitives(
    digest: Digest, sha256: string -> Sha, deflate: string -> string, inflate: string -> Option<string>)

  datatype BodyEntry = BodyEntry(sequence: u64, tick: i64, playerId: string, actionType: string, payload: string)

  datatype WriteResult = Written(bytes: string) | Refused(reason: string)

  datatype ParseResult = Parsed(header: Header, entries: seq<BodyEntry>) | Rejected(reason: string)

  // ---- Body codec ----

  function EntryBytes(e: BodyEntry): string {
    LittleEndian(e.sequence, 8) + (LittleEndian(ToU64(e.tick), 8)
      + (PrefixedBytes(e.playerId) + (PrefixedBytes(e.actionType) + PrefixedBytes(e.payload))))
  }

  function EncodeBody(entries: seq<BodyEntry>): string {
    if entries == [] then "" else EntryBytes(entries[0]) + EncodeBody(entries[1..])
  }

  function ReadU64(data: string, cursor: nat): (r: Read<u64>)
    ensures r.Got? ==> cursor < r.next <= |data|
  {
    match ReadUint(data, cursor, 8)
    case NoRead => NoRead
    case Got(v, next) =>
      FromLittleEndianBound(data[cursor..cursor + 8]);
      Pow256Values();
      Got(v, next)
  }

  function ReadEntry(data: string, cursor: nat): (r: Read<BodyEntry>)
    ensures r.Got? ==> cursor < r.next <= |data|
  {
    match ReadU64(data, cursor)
    case NoRead => NoRead
    case Got(sequence, c1) =>
      match ReadU64(data, c1)
      case NoRead => NoRead
      case Got(tick, c2) =>
        match ReadPrefixed(data, c2)
        case NoRead => NoRead
        case Got(playerId, c3) =>
          match ReadPrefixed(data, c3)
          case NoRead => NoRead
          case Got(actionType, c4) =>
            match ReadPrefixed(data, c4)
            case NoRead => NoRead
            case Got(payload, c5) => Got(BodyEntry(sequence, ToI64(tick), playerId, actionType, payload), c5)
  }

  /** The entries from `cursor` to the end of the data, `acc` being those already read. */
  function ReadEntries(data: string, cursor: nat, acc: seq<BodyEntry>): Option<seq<BodyEntry>>
    requires cursor <= |data|
    decreases |data| - cursor
  {
    if cursor == |data| then Some(acc) else
    match ReadEntry(data, cursor)
    case NoRead => None
    case Got(e, next) => ReadEntries(data, next, acc + [e])
  }

  predicate Fits(e: BodyEntry) {
    |e.playerId| <= FIELD_MAX && |e.actionType| <= FIELD_MAX && |e.payload| <= FIELD_MAX
  }

  lemma U64ReadsBack(data: string, cursor: nat, v: u64)
    requires At(data, cursor, LittleEndian(v, 8))
    ensures ReadU64(data, cursor) == Got(v, cursor + 8)
  {
    Pow256Values();
    UintReadsBack(data, cursor, v, 8);
  }

  /** Where the five fields of an entry lie. */
  lemma EntryLayout(data: string, cursor: nat, e: BodyEntry)
    requires At(data, cursor, EntryBytes(e))
    ensures At(data, cursor, LittleEndian(e.sequence, 8)) && At(data, cursor + 8, LittleEndian(ToU64(e.tick), 8))
    ensures var c3 := cursor + 16 + |PrefixedBytes(e.playerId)|;
      var c4 := c3 + |PrefixedBytes(e.actionType)|;
      && At(data, cursor + 16, PrefixedBytes(e.playerId))
      && At(data, c3, PrefixedBytes(e.actionType))
      && At(data, c4, PrefixedBytes(e.payload))
      && cursor + |EntryBytes(e)| == c4 + |PrefixedBytes(e.payload)|
  {
    var f5 := PrefixedBytes(e.payload);
    var f4 := PrefixedBytes(e.actionType) + f5;
    var f3 := PrefixedBytes(e.playerId) + f4;
    var f2 := LittleEndian(ToU64(e.tick), 8) + f3;
    hide At, PrefixedBytes, LittleEndian;
    AtSplit(data, cursor, LittleEndian(e.sequence, 8), f2);
    AtSplit(data, cursor + 8, LittleEndian(ToU64(e.tick), 8), f3);
    AtSplit(data, cursor + 16, PrefixedBytes(e.playerId), f4);
    AtSplit(data, cursor + 16 + |PrefixedBytes(e.playerId)|, PrefixedBytes(e.actionType), f5);
  }

  lemma EntryReadsBack(data: string, cursor: nat, e: BodyEntry)
    requires Fits(e) && At(data, cursor, EntryBytes(e))
    ensures ReadEntry(data, cursor) == Got(e, cursor + |EntryBytes(e)|)
  {
    EntryLayout(data, cursor, e);
    hide At, PrefixedBytes, ReadPrefixed, ReadU64, LittleEndian, EntryBytes;
    var c3 := cursor + 16 + |PrefixedBytes(e.playerId)|;
    U64ReadsBack(data, cursor, e.sequence);
    U64ReadsBack(data, cursor + 8, ToU64(e.tick));
    SignedCastsInvert(e.tick, 0);
    PrefixedReadsBack(data, cursor + 16, e.playerId);
    PrefixedReadsBack(data, c3, e.actionType);
    PrefixedReadsBack(data, c3 + |PrefixedBytes(e.actionType)|, e.payload);
  }

  lemma ReadEntriesStep(data: string, cursor: nat, acc: seq<BodyEntry>, e: BodyEntry, next: nat)
    requires cursor < |data| && ReadEntry(data, cursor) == Got(e, next)
    ensures next <= |data| && ReadEntries(data, cursor, acc) == ReadEntries(data, next, acc + [e])
  {
  }

  lemma EncodeBodyCons(entries: seq<BodyEntry>)
    requires entries != []
    ensures EncodeBody(entries) == EntryBytes(entries[0]) + EncodeBody(entries[1..])
    ensures EntryBytes(entries[0]) != ""
  {
  }

  lemma NothingReadsBack(data: string, cursor: nat, acc: seq<BodyEntry>)
    requires At(data, cursor, EncodeBody([])) && cursor + |EncodeBody([])| == |data|
    ensures ReadEntries(data, cursor, acc) == Some(acc + [])
  {
    assert acc + [] == acc;
  }

  lemma {:induction false} BodyReadsBackFrom(data: string, cursor: nat, entries: seq<BodyEntry>, acc: seq<BodyEntry>)
    requires forall i :: 0 <= i < |entries| ==> Fits(entries[i])
    requires At(data, cursor, EncodeBody(entries)) && cursor + |EncodeBody(entries)| == |data|
    ensures ReadEntries(data, cursor, acc) == Some(acc + entries)
    decreases |entries|
  {
    hide *;
    if entries == [] {
      NothingReadsBack(data, cursor, acc);
    } else {
      EncodeBodyCons(entries);
      var head, rest := EntryBytes(entries[0]), EncodeBody(entries[1..]);
      AtSplit(data, cursor, head, rest);
      EntryReadsBack(data, cursor, entries[0]);
      ReadEntriesStep(data, cursor, acc, entries[0], cursor + |head|);
      BodyReadsBackFrom(data, cursor + |head|, entries[1..], acc + [entries[0]]);
      assert acc + [entries[0]] + entries[1..] == acc + entries;
    }
  }

  /** Every list of entries within the field limit is read back from its body. */
  lemma BodyRoundTrip(entries: seq<BodyEntry>)
    requires forall i :: 0 <= i < |entries| ==> Fits(entries[i])
    ensures ReadEntries(EncodeBody(entries), 0, []) == Some(entries)
  {
    var data := EncodeBody(entries);
    assert At(data, 0, data);
    hide *;
    BodyReadsBackFrom(data, 0, entries, []);
    assert [] + entries == entries;
  }

  lemma {:induction false} EncodeBodySnoc(entries: seq<BodyEntry>, e: BodyEntry)
    ensures EncodeBody(entries + [e]) == EncodeBody(entries) + EntryBytes(e)
  {
    hide EntryBytes;
    if entries == [] {
      assert entries + [e] == [e];
      assert [e][1..] == [];
    } else {
      assert (entries + [e])[1..] == entries[1..] + [e];
      EncodeBodySnoc(entries[1..], e);
      assert EntryBytes(entries[0]) + (EncodeBody(entries[1..]) + EntryBytes(e)) == EncodeBody(entries) + EntryBytes(e);
    }
  }

  method EncodeDemBody(entries: seq<BodyEntry>) returns (out: string)
    ensures out == EncodeBody(entries)
  {
    out := "";
    for i := 0 to |entries|
      invariant out == EncodeBody(entries[..i])
    {
      ghost var before := out;
      out := EncodeDemEntry(out, entries[i]);
      EncodeBodySnoc(entries[..i], entries[i]);
      assert entries[..i + 1] == entries[..i] + [entries[i]];
    }
    assert entries[..|entries|] == entries;
  }

  method EncodeDemEntry(out: string, e: BodyEntry) returns (grown: string)
    ensures grown == out + EntryBytes(e)
  {
    hide LittleEndian, PrefixedBytes;
    grown := PutUint(out, e.sequence, 8);
    grown := PutUint(grown, ToU64(e.tick), 8);
    grown := PutPrefixed(grown, e.playerId);
    grown := PutPrefixed(grown, e.actionType);
    grown := PutPrefixed(grown, e.payload);
  }

  method DecodeDemEntry(data: string, cursor: nat) returns (r: Read<BodyEntry>)
    ensures r == ReadEntry(data, cursor)
  {
    hide FromLittleEndian, Pow256;
    Pow256Values();
    var ok, c, sequence, tick, playerId, actionType, payload;
    ok, c, sequence := GetUint(data, cursor, 8);
    if !ok { return NoRead; }
    assert sequence < TWO_64 by { FromLittleEndianBound(data[cursor..cursor + 8]); }
    var c1 := c;
    ok, c, tick := GetUint(data, c1, 8);
    if !ok { return NoRead; }
    assert tick < TWO_64 by { FromLittleEndianBound(data[c1..c1 + 8]); }
    hide ReadPrefixed;
    ok, c, playerId := GetPrefixed(data, c);
    if !ok { return NoRead; }
    ok, c, actionType := GetPrefixed(data, c);
    if !ok { return NoRead; }
    ok, c, payload := GetPrefixed(data, c);
    if !ok { return NoRead; }
    r := Got(BodyEntry(sequence, ToI64(tick), playerId, actionType, payload), c);
  }

  method DecodeDemBody(body: string) returns (out: Option<seq<BodyEntry>>)
    ensures out == ReadEntries(body, 0, [])
  {
    hide ReadEntry;
    var entries: seq<BodyEntry> := [];
    var cursor := 0;
    while cursor < |body|
      invariant cursor <= |body|
      invariant ReadEntries(body, cursor, entries) == ReadEntries(body, 0, [])
      decreases |body| - cursor
    {
      var r := DecodeDemEntry(body, cursor);
      ReadEntryAdvances(body, cursor);
      if r.NoRead? {
        return None;
      }
      entries := entries + [r.value];
      cursor := r.next;
    }
    out := Some(entries);
  }

  lemma ReadEntryAdvances(body: string, cursor: nat)
    ensures ReadEntry(body, cursor).Got? ==> cursor < ReadEntry(body, cursor).next <= |body|
  {
  }

  // ---- The chain behind a body ----

  /** The chain entry of `b` behind the entries already rebuilt. */
  function RebuiltEntry(digest: Digest, before: seq<Entry>, b: BodyEntry): Entry {
    var bare := Entry(b.sequence, b.tick, b.playerId, b.actionType, digest(b.payload), Head(before), "");
    bare.(entryDigest := EntryDigest(digest, bare))
  }

  function Rebuild(digest: Digest, body: seq<BodyEntry>): (entries: seq<Entry>)
    ensures |entries| == |body|
  {
    if body == [] then [] else
    var before := Rebuild(digest, body[..|body| - 1]);
    before + [RebuiltEntry(digest, before, body[|body| - 1])]
  }

  lemma RebuildSnoc(digest: Digest, body: seq<BodyEntry>)
    requires body != []
    ensures |Rebuild(digest, body)| == |body| && |Rebuild(digest, body[..|body| - 1])| == |body| - 1
    ensures Rebuild(digest, body) == Rebuild(digest, body[..|body| - 1])
      + [RebuiltEntry(digest, Rebuild(digest, body[..|body| - 1]), body[|body| - 1])]
  {
  }

  lemma {:induction false} RebuildAt(digest: Digest, body: seq<BodyEntry>, i: nat)
    requires i < |body|
    ensures |Rebuild(digest, body)| == |body|
    ensures Rebuild(digest, body)[..i] == Rebuild(digest, body[..i])
    ensures Rebuild(digest, body)[i] == RebuiltEntry(digest, Rebuild(digest, body[..i]), body[i])
    decreases |body|
  {
    hide *;
    var n := |body| - 1;
    RebuildSnoc(digest, body);
    if i < n {
      RebuildAt(digest, body[..n], i);
      assert body[..n][..i] == body[..i];
      assert Rebuild(digest, body)[..i] == Rebuild(digest, body[..n])[..i];
    }
  }

  predicate Numbered(body: seq<BodyEntry>) {
    forall i :: 0 <= i < |body| ==> body[i].sequence == i + 1
  }

  /** Whatever the body says, a rebuilt entry carries its own digest and its predecessor's. */
  lemma RebuiltFields(digest: Digest, before: seq<Entry>, b: BodyEntry)
    ensures var e := RebuiltEntry(digest, before, b);
      && e.entryDigest == EntryDigest(digest, e) && e.prevDigest == Head(before)
      && e.sequence == b.sequence && e.tick == b.tick && e.playerId == b.playerId
      && e.actionType == b.actionType && e.payloadDigest == digest(b.payload)
  {
  }

  lemma LinkedFault(digest: Digest, entries: seq<Entry>, i: nat)
    requires i < |entries| && entries[i].entryDigest == EntryDigest(digest, entries[i])
    requires entries[i].prevDigest == Head(entries[..i])
    ensures Fault(digest, entries, i) ==
      if i == 0 then (if entries[i].sequence == 1 then "" else "chain_first_seq_not_one")
      else if entries[i].sequence == entries[i - 1].sequence + 1 then "" else "chain_seq_gap"
  {
    hide EntryDigest;
  }

  /** What a rebuilt chain can be blamed for is its sequence numbers, nothing else. */
  lemma RebuiltFaults(digest: Digest, body: seq<BodyEntry>, i: nat)
    requires i < |body|
    ensures |Rebuild(digest, body)| == |body|
    ensures Fault(digest, Rebuild(digest, body), i) ==
      if i == 0 then (if body[i].sequence == 1 then "" else "chain_first_seq_not_one")
      else if body[i].sequence == body[i - 1].sequence + 1 then "" else "chain_seq_gap"
  {
    hide *;
    var entries := Rebuild(digest, body);
    RebuildAt(digest, body, i);
    RebuiltFields(digest, entries[..i], body[i]);
    if i > 0 {
      RebuildAt(digest, body, i - 1);
      RebuiltFields(digest, entries[..i - 1], body[i - 1]);
    }
    LinkedFault(digest, entries, i);
  }

  lemma SoundAt(digest: Digest, entries: seq<Entry>, i: nat)
    requires Sound(digest, entries) && i < |entries|
    ensures Fault(digest, entries, i) == ""
  {
  }

  lemma {:induction false} NumberedFrom(digest: Digest, body: seq<BodyEntry>, i: nat)
    requires Sound(digest, Rebuild(digest, body)) && i < |body|
    ensures body[i].sequence == i + 1
  {
    hide *;
    RebuiltFaults(digest, body, i);
    SoundAt(digest, Rebuild(digest, body), i);
    if i > 0 {
      NumberedFrom(digest, body, i - 1);
    }
  }

  lemma NumberedIsSound(digest: Digest, body: seq<BodyEntry>)
    requires Numbered(body)
    ensures Sound(digest, Rebuild(digest, body))
  {
    hide Fault;
    forall i: nat | i < |body|
      ensures Fault(digest, Rebuild(digest, body), i) == ""
    {
      RebuiltFaults(digest, body, i);
    }
  }

  /** A rebuilt chain verifies exactly when its entries are numbered 1, 2, 3, and so on. */
  lemma RebuiltSoundIffNumbered(digest: Digest, body: seq<BodyEntry>)
    ensures Sound(digest, Rebuild(digest, body)) <==> Numbered(body)
  {
    if Sound(digest, Rebuild(digest, body)) {
      hide Sound;
      forall i: nat | i < |body|
        ensures body[i].sequence == i + 1
      {
        NumberedFrom(digest, body, i);
      }
    }
    if Numbered(body) {
      NumberedIsSound(digest, body);
    }
  }

  // ---- Writing ----

  function HeaderText(h: Header): string {
    JsonInversion.Print(HeaderTree(h))
  }

  function BodyOf(entries: seq<Entry>, payloads: seq<string>): seq<BodyEntry>
    requires |entries| == |payloads|
  {
    seq(|entries|, i requires 0 <= i < |entries| =>
      BodyEntry(entries[i].sequence % TWO_64, entries[i].tick, entries[i].playerId, entries[i].actionType, payloads[i]))
  }

  function ContainerBytes(p: Primitives, headerJson: string, compressed: string): string {
    MAGIC + (LittleEndian(|headerJson| % TWO_32, 4) + (headerJson + (LittleEndian(|compressed|, 8)
      + (compressed + p.sha256(headerJson + compressed)))))
  }

  predicate PayloadsMatch(digest: Digest, entries: seq<Entry>, payloads: seq<string>) {
    |entries| == |payloads| && forall i :: 0 <= i < |entries| ==> digest(payloads[i]) == entries[i].payloadDigest
  }

  predicate AllFit(entries: seq<Entry>, payloads: seq<string>) {
    |entries| == |payloads| &&
    forall i :: 0 <= i < |entries| ==>
      |entries[i].playerId| <= FIELD_MAX && |entries[i].actionType| <= FIELD_MAX && |payloads[i]| <= FIELD_MAX
  }

  /** What WriteDemDocument answers, guard by guard. */
  function WriteDoc(p: Primitives, h: Header, entries: seq<Entry>, payloads: seq<string>): WriteResult {
    if |entries| != |payloads| then Refused("dem_payload_count_mismatch")
    else if h.entryCount != |entries| then Refused("dem_header_entry_count_mismatch")
    else if h.chainHeadDigest != Head(entries) then Refused("dem_header_head_digest_mismatch")
    else if !PayloadsMatch(p.digest, entries, payloads) then Refused("dem_payload_digest_mismatch")
    else if !AllFit(entries, payloads) then Refused("dem_payload_too_long")
    else if FirstReason(p.digest, entries, 0) != "" then
      Refused("dem_chain_verify_failed:" + FirstReason(p.digest, entries, 0))
    else
      var body := EncodeBody(BodyOf(entries, payloads));
      var compressed := p.deflate(body);
      if body != "" && compressed == "" then Refused("dem_zlib_compress_failed")
      else Written(ContainerBytes(p, HeaderText(h), compressed))
  }

  method WriteDemDocument(p: Primitives, h: Header, entries: seq<Entry>, payloads: seq<string>)
      returns (result: WriteResult)
    ensures result == WriteDoc(p, h, entries, payloads)
  {
    hide EncodeBody, ContainerBytes, HeaderText, FirstReason, Head, JsonInversion.Print, HeaderTree;
    if |entries| != |payloads| {
      return Refused("dem_payload_count_mismatch");
    }
    if h.entryCount != |entries| {
      return Refused("dem_header_entry_count_mismatch");
    }
    if h.chainHeadDigest != Head(entries) {
      return Refused("dem_header_head_digest_mismatch");
    }
    var matching := CheckPayloads(p.digest, entries, payloads);
    if !matching {
      return Refused("dem_payload_digest_mismatch");
    }
    var bodyEntries := CollectBody(entries, payloads);
    if bodyEntries.None? {
      return Refused("dem_payload_too_long");
    }
    var verified := VerifyChain(p.digest, entries);
    ReasonOf(p.digest, entries, verified);
    if !verified.ok {
      return Refused("dem_chain_verify_failed:" + verified.reason);
    }
    var body := EncodeDemBody(bodyEntries.value);
    var compressed := p.deflate(body);
    if body != "" && compressed == "" {
      return Refused("dem_zlib_compress_failed");
    }
    var bytes := Assemble(p, h, compressed);
    result := Written(bytes);
  }

  method Assemble(p: Primitives, h: Header, compressed: string) returns (bytes: string)
    ensures bytes == ContainerBytes(p, HeaderText(h), compressed)
  {
    hide LittleEndian, JsonInversion.Print, HeaderTree;
    var headerJson := EncodeDemHeaderJson(h);
    bytes := PutUint(MAGIC, |headerJson| % TWO_32, 4);
    bytes := bytes + headerJson;
    bytes := PutUint(bytes, |compressed|, 8);
    bytes := bytes + compressed;
    bytes := bytes + p.sha256(headerJson + compressed);
  }

  method CheckPayloads(digest: Digest, entries: seq<Entry>, payloads: seq<string>) returns (ok: bool)
    requires |entries| == |payloads|
    ensures ok <==> PayloadsMatch(digest, entries, payloads)
  {
    for i := 0 to |entries|
      invariant forall k :: 0 <= k < i ==> digest(payloads[k]) == entries[k].payloadDigest
    {
      if digest(payloads[i]) != entries[i].payloadDigest {
        return false;
      }
    }
    ok := true;
  }

  method CollectBody(entries: seq<Entry>, payloads: seq<string>) returns (body: Option<seq<BodyEntry>>)
    requires |entries| == |payloads|
    ensures body == if AllFit(entries, payloads) then Some(BodyOf(entries, payloads)) else None
  {
    var collected: seq<BodyEntry> := [];
    for i := 0 to |entries|
      invariant |collected| == i && forall k :: 0 <= k < i ==> collected[k] == BodyOf(entries, payloads)[k]
      invariant forall k :: 0 <= k < i ==> |entries[k].playerId| <= FIELD_MAX
      invariant forall k :: 0 <= k < i ==> |entries[k].actionType| <= FIELD_MAX && |payloads[k]| <= FIELD_MAX
    {
      var e, payload := entries[i], payloads[i];
      if |e.playerId| > FIELD_MAX || |e.actionType| > FIELD_MAX || |payload| > FIELD_MAX {
        return None;
      }
      collected := collected + [BodyEntry(e.sequence % TWO_64, e.tick, e.playerId, e.actionType, payload)];
    }
    assert collected == BodyOf(entries, payloads);
    body := Some(collected);
  }

  // ---- Parsing ----

  /** Behind the checksum: inflate, decode, rebuild and verify the chain, match the header. */
  function ParseBody(p: Primitives, headerJson: string, compressed: string): ParseResult {
    var body := if compressed == "" then None else p.inflate(compressed);
    if body.None? then Rejected("dem_zlib_failed") else
    var entries := ReadEntries(body.value, 0, []);
    if entries.None? then Rejected("dem_body_decode_failed") else
    MatchHeader(p, headerJson, entries.value)
  }

  function MatchHeader(p: Primitives, headerJson: string, entries: seq<BodyEntry>): ParseResult {
    var chain := Rebuild(p.digest, entries);
    if FirstReason(p.digest, chain, 0) != "" then Rejected("dem_chain_verify_failed:" + FirstReason(p.digest, chain, 0))
    else
      var header := DecodeHeader(headerJson);
      if header.None? then Rejected("dem_header_decode_failed")
      else if header.value.entryCount != |entries| then Rejected("dem_header_entry_count_mismatch")
      else if header.value.chainHeadDigest != Head(chain) then Rejected("dem_header_head_digest_mismatch")
      else Parsed(header.value, entries)
  }

  /** Behind the header length: the body length must account for every byte left. */
  function ParseTail(p: Primitives, bytes: string, headerEnd: nat, headerJson: string): ParseResult {
    match ReadUint(bytes, headerEnd, 8)
    case NoRead => Rejected("dem_truncated")
    case Got(bodyLen, start) =>
      if bodyLen > MAX_BODY || start + bodyLen + 32 != |bytes| then Rejected("dem_length_mismatch") else
      var compressed := bytes[start..start + bodyLen];
      if bytes[start + bodyLen..] != p.sha256(headerJson + compressed) then Rejected("dem_sha256_mismatch")
      else ParseBody(p, headerJson, compressed)
  }

  /** What ParseDemDocument answers. */
  function ParseDoc(p: Primitives, bytes: string): ParseResult {
    if |bytes| < 52 then Rejected("dem_truncated")
    else if bytes[..8] != MAGIC then Rejected("dem_bad_magic")
    else match ReadUint(bytes, 8, 4)
      case NoRead => Rejected("dem_truncated")
      case Got(headerLen, start) =>
        if headerLen > MAX_HEADER then Rejected("dem_header_too_large")
        else if start + headerLen + 8 > |bytes| then Rejected("dem_truncated")
        else ParseTail(p, bytes, start + headerLen, bytes[start..start + headerLen])
  }

  method RebuildChain(digest: Digest, body: seq<BodyEntry>) returns (entries: seq<Entry>)
    ensures entries == Rebuild(digest, body)
  {
    hide Head, EntryDigest;
    entries := [];
    for i := 0 to |body|
      invariant entries == Rebuild(digest, body[..i])
    {
      assert body[..i + 1][..i] == body[..i];
      var e := body[i];
      var entry := Entry(e.sequence, e.tick, e.playerId, e.actionType, digest(e.payload), Head(entries), "");
      entry := entry.(entryDigest := EntryDigest(digest, entry));
      entries := entries + [entry];
    }
    assert body[..|body|] == body;
  }

  method ParseDemDocument(p: Primitives, bytes: string) returns (result: ParseResult)
    ensures result == ParseDoc(p, bytes)
  {
    hide FromLittleEndian, ParseBody;
    if |bytes| < 52 {
      return Rejected("dem_truncated");
    }
    if bytes[..8] != MAGIC {
      return Rejected("dem_bad_magic");
    }
    var ok, cursor, headerLen := GetUint(bytes, 8, 4);
    if !ok {
      return Rejected("dem_truncated");
    }
    if headerLen > MAX_HEADER {
      return Rejected("dem_header_too_large");
    }
    if cursor + headerLen + 8 > |bytes| {
      return Rejected("dem_truncated");
    }
    var headerJson := bytes[cursor..cursor + headerLen];
    cursor := cursor + headerLen;
    var bodyLen;
    ok, cursor, bodyLen := GetUint(bytes, cursor, 8);
    if !ok {
      return Rejected("dem_truncated");
    }
    if bodyLen > MAX_BODY || cursor + bodyLen + 32 != |bytes| {
      return Rejected("dem_length_mismatch");
    }
    var compressed := bytes[cursor..cursor + bodyLen];
    if bytes[cursor + bodyLen..] != p.sha256(headerJson + compressed) {
      return Rejected("dem_sha256_mismatch");
    }
    result := ParseCheckedBody(p, headerJson, compressed);
  }

  method ParseCheckedBody(p: Primitives, headerJson: string, compressed: string) returns (result: ParseResult)
    ensures result == ParseBody(p, headerJson, compressed)
  {
    hide ReadEntries, Rebuild, FirstReason, DecodeHeader, Head;
    var body := if compressed == "" then None else p.inflate(compressed);
    if body.None? {
      return Rejected("dem_zlib_failed");
    }
    var entries := DecodeDemBody(body.value);
    if entries.None? {
      return Rejected("dem_body_decode_failed");
    }
    var chain := RebuildChain(p.digest, entries.value);
    var verified := VerifyChain(p.digest, chain);
    ReasonOf(p.digest, chain, verified);
    if !verified.ok {
      return Rejected("dem_chain_verify_failed:" + verified.reason);
    }
    var header := DecodeDemHeaderJson(headerJson);
    if header.None? {
      return Rejected("dem_header_decode_failed");
    }
    if header.value.entryCount != |entries.value| {
      return Rejected("dem_header_entry_count_mismatch");
    }
    if header.value.chainHeadDigest != Head(chain) {
      return Rejected("dem_header_head_digest_mismatch");
    }
    result := Parsed(header.value, entries.value);
  }
}
