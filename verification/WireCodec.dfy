/** The pushes and reads of src/match_lifecycle.cpp that build and take apart the frames of WireFrames. */
module WireCodec {
  import opened Bytes
  import opened WireFields
  import opened WireFrames

  // ---- Pushing ----

  method PushString(out: Bytes, value: Bytes) returns (grown: Bytes)
    ensures grown == out + TextBytes(value)
  {
    var len := if |value| < MAX_TEXT then |value| else MAX_TEXT;
    grown := PutUint(out, len, 2);
    grown := grown + value[..len];
    assert value[..len] == CutText(value);
  }

  method PushField(out: Bytes, f: Field) returns (grown: Bytes)
    ensures grown == out + FieldBytes(f)
  {
    match f
    case Number(width, value) => grown := PutUint(out, value, width);
    case Text(s) => grown := PushString(out, s);
    case Octet8(b) => grown := out + [b as char];
    case Texts(texts) =>
      grown := PutUint(out, |texts|, 4);
      grown := PushStrings(grown, texts);
  }

  method PushStrings(out: Bytes, texts: seq<Bytes>) returns (grown: Bytes)
    ensures grown == out + ListBytes(texts)
  {
    grown := out;
    var i := 0;
    while i < |texts|
      invariant i <= |texts| && grown + ListBytes(texts[i..]) == out + ListBytes(texts)
    {
      assert texts[i..][1..] == texts[i + 1..];
      ghost var before := grown;
      grown := PushString(grown, texts[i]);
      assert before + (TextBytes(texts[i]) + ListBytes(texts[i + 1..])) == grown + ListBytes(texts[i + 1..]);
      i := i + 1;
    }
    assert grown + "" == grown;
  }

  method PushFields(out: Bytes, fs: seq<Field>) returns (grown: Bytes)
    ensures grown == out + FrameBytes(fs)
  {
    hide FieldBytes;
    grown := out;
    var i := 0;
    while i < |fs|
      invariant i <= |fs| && grown + FrameBytes(fs[i..]) == out + FrameBytes(fs)
    {
      assert fs[i..][1..] == fs[i + 1..];
      ghost var before := grown;
      grown := PushField(grown, fs[i]);
      assert before + (FieldBytes(fs[i]) + FrameBytes(fs[i + 1..])) == grown + FrameBytes(fs[i + 1..]);
      i := i + 1;
    }
    assert grown + "" == grown;
  }

  method EncodeBattleInputPayload(input: Input) returns (out: Bytes)
    ensures out == EncodeInput(input)
  {
    hide FrameBytes, BodyFields, CardFields;
    out := PushFields([INPUT_TYPE], BodyFields(input));
    if input.cardDraw || input.cardSelect != -1 || input.cardUse {
      out := out + [CARD_MAGIC];
      out := PushFields(out, CardFields(input));
    }
  }

  method WriteTicketBlock(n: Decimals, out: Bytes, t: Ticket) returns (grown: Bytes)
    ensures grown == out + TicketBlock(n, t)
  {
    hide FrameBytes, VersionFields, IdentityFields, SessionFields, CardsFields, SignatureFields;
    grown := PushFields(out, VersionFields(t.version));
    grown := PushFields(grown, IdentityFields(t.identity));
    grown := PushFields(grown, SessionFields(t.session));
    grown := PushFields(grown, CardsFields(n, t.cards));
    grown := PushFields(grown, SignatureFields(t.signature));
    Regroup(out, FrameBytes(VersionFields(t.version)), FrameBytes(IdentityFields(t.identity)),
      FrameBytes(SessionFields(t.session)), FrameBytes(CardsFields(n, t.cards)), FrameBytes(SignatureFields(t.signature)));
  }

  lemma Regroup(o: Bytes, a: Bytes, b: Bytes, c: Bytes, d: Bytes, e: Bytes)
    ensures o + a + b + c + d + e == o + (a + (b + (c + (d + e))))
  {
  }

  method EncodeBattleInputWithTicketPayload(n: Decimals, input: Input, t: Ticket) returns (out: Bytes)
    ensures out == EncodeWithTicket(n, input, t)
  {
    hide EncodeInput, TicketBlock;
    out := EncodeBattleInputPayload(input);
    out := out + [TICKET_PRESENT];
    out := WriteTicketBlock(n, out, t);
  }

  // ---- Reading: each read moves the cursor or refuses ----

  /** What a reader yields that has already read `front`. */
  function Prepend<T>(front: seq<T>, r: Read<seq<T>>): Read<seq<T>> {
    if r.NoRead? then NoRead else Got(front + r.value, r.next)
  }

  lemma PrependOne<T>(front: seq<T>, x: T, r: Read<seq<T>>)
    ensures Prepend(front, Prepend([x], r)) == Prepend(front + [x], r)
  {
    if r.Got? {
      assert front + ([x] + r.value) == front + [x] + r.value;
    }
  }

  lemma TextsStep(data: Bytes, cursor: nat, count: nat)
    requires count > 0
    ensures ReadTexts(data, cursor, count) == match ReadPrefixed(data, cursor)
      case NoRead => NoRead
      case Got(s, next) => Prepend([s], ReadTexts(data, next, count - 1))
  {
    hide ReadPrefixed;
  }

  lemma FieldsStep(kinds: seq<Kind>, i: nat, data: Bytes, cursor: nat)
    requires i < |kinds|
    ensures ReadFields(kinds[i..], data, cursor) == match ReadField(kinds[i], data, cursor)
      case NoRead => NoRead
      case Got(f, next) => Prepend([f], ReadFields(kinds[i + 1..], data, next))
  {
    hide ReadField;
    assert kinds[i..][1..] == kinds[i + 1..];
  }

  method ReadStrings(data: Bytes, cursor: nat, count: nat) returns (r: Read<seq<Bytes>>)
    ensures r == ReadTexts(data, cursor, count)
  {
    hide ReadPrefixed, ReadTexts, Prepend;
    var texts, next, i := [], cursor, 0;
    PrependNone(ReadTexts(data, cursor, count));
    while i < count
      invariant i <= count && ReadTexts(data, cursor, count) == Prepend(texts, ReadTexts(data, next, count - i))
    {
      TextsStep(data, next, count - i);
      var ok, after, s := GetPrefixed(data, next);
      if !ok {
        PrependNothing(texts);
        return NoRead;
      }
      PrependOne(texts, s, ReadTexts(data, after, count - i - 1));
      texts, next, i := texts + [s], after, i + 1;
    }
    NoneLeft(data, next, texts);
    return Got(texts, next);
  }

  lemma PrependNone<T>(r: Read<seq<T>>)
    ensures Prepend([], r) == r
  {
    if r.Got? {
      assert [] + r.value == r.value;
    }
  }

  lemma PrependNothing<T>(front: seq<T>)
    ensures Prepend(front, NoRead) == NoRead
  {
  }

  lemma NoneLeft(data: Bytes, cursor: nat, texts: seq<Bytes>)
    ensures Prepend(texts, ReadTexts(data, cursor, 0)) == Got(texts, cursor)
  {
    assert texts + [] == texts;
  }

  lemma NoFieldLeft(kinds: seq<Kind>, data: Bytes, cursor: nat, fs: seq<Field>)
    ensures Prepend(fs, ReadFields(kinds[|kinds|..], data, cursor)) == Got(fs, cursor)
  {
    assert fs + [] == fs;
  }

  method GetField(data: Bytes, cursor: nat, kind: Kind) returns (r: Read<Field>)
    ensures r == ReadField(kind, data, cursor)
  {
    match kind
    case OfNumber(width) =>
      var ok, next, v := GetUint(data, cursor, width);
      r := if ok then Got(Number(width, v), next) else NoRead;
    case OfText =>
      var ok, next, s := GetPrefixed(data, cursor);
      r := if ok then Got(Text(s), next) else NoRead;
    case OfOctet =>
      r := if cursor >= |data| then NoRead else Got(Octet8(Octet(data[cursor])), cursor + 1);
    case OfTexts =>
      var ok, next, count := GetUint(data, cursor, 4);
      if !ok || count > MAX_LISTED {
        return NoRead;
      }
      var texts := ReadStrings(data, next, count);
      r := if texts.NoRead? then NoRead else Got(Texts(texts.value), texts.next);
  }

  method GetFields(data: Bytes, cursor: nat, kinds: seq<Kind>) returns (r: Read<seq<Field>>)
    ensures r == ReadFields(kinds, data, cursor)
  {
    hide ReadField, ReadFields, Prepend;
    var fs, next, i := [], cursor, 0;
    assert kinds[0..] == kinds;
    PrependNone(ReadFields(kinds, data, cursor));
    while i < |kinds|
      invariant i <= |kinds| && ReadFields(kinds, data, cursor) == Prepend(fs, ReadFields(kinds[i..], data, next))
    {
      FieldsStep(kinds, i, data, next);
      var f := GetField(data, next, kinds[i]);
      if f.NoRead? {
        PrependNothing(fs);
        return NoRead;
      }
      PrependOne(fs, f.value, ReadFields(kinds[i + 1..], data, f.next));
      fs, next, i := fs + [f.value], f.next, i + 1;
    }
    NoFieldLeft(kinds, data, next, fs);
    return Got(fs, next);
  }

  method ReadBattleInputBody(data: Bytes, cursor: nat) returns (r: Read<Input>)
    ensures r == ReadBody(data, cursor)
  {
    hide ReadFields, BodyOf;
    var body := GetFields(data, cursor, BODY_KINDS);
    if body.NoRead? {
      return NoRead;
    }
    var input := BodyOf(body.value);
    if body.next < |data| && data[body.next] == CARD_MAGIC {
      var card := GetFields(data, body.next + 1, CARD_KINDS);
      if card.NoRead? {
        return NoRead;
      }
      var fs := card.value;
      input := input.(cardDraw := fs[0].octet != 0, cardSelect := ToI8(fs[1].octet), cardUse := fs[2].octet != 0);
      return Got(input, card.next);
    }
    return Got(input, body.next);
  }

  method DecodeBattleInputPayload(data: Bytes) returns (r: Option<Input>)
    ensures r == DecodeInput(data)
  {
    hide ReadBody;
    if data == "" || data[0] != INPUT_TYPE {
      return None;
    }
    var body := ReadBattleInputBody(data, 1);
    r := if body.NoRead? then None else Some(body.value);
  }

  method ReadTicketBlock(n: Decimals, data: Bytes, cursor: nat) returns (r: Read<Ticket>)
    ensures r == ReadTicket(n, data, cursor)
  {
    hide ReadFields, IdentityOf, SessionOf;
    var opening := ReadTicketOpening(data, cursor);
    if opening.NoRead? {
      return NoRead;
    }
    hide ReadOpening;
    var cards := GetFields(data, opening.next, CARDS_KINDS);
    if cards.NoRead? {
      return NoRead;
    }
    var energy := n.parse(cards.value[2].text);
    if energy.None? {
      return NoRead;
    }
    var signature := GetFields(data, cards.next, SIGNATURE_KINDS);
    if signature.NoRead? {
      return NoRead;
    }
    var cs, ss := cards.value, signature.value;
    r := Got(Ticket(opening.value.0, opening.value.1, opening.value.2,
      Cards(cs[0].texts, cs[1].texts, energy.value, cs[3].text),
      Signature(ss[0].text, ss[1].text, ss[2].text, ss[3].text, ss[4].octet != 0)), signature.next);
  }

  method ReadTicketOpening(data: Bytes, cursor: nat) returns (r: Read<(Version, Identity, Session)>)
    ensures r == ReadOpening(data, cursor)
  {
    hide ReadFields, IdentityOf, SessionOf;
    var version := GetFields(data, cursor, VERSION_KINDS);
    if version.NoRead? {
      return NoRead;
    }
    var identity := GetFields(data, version.next, IDENTITY_KINDS);
    if identity.NoRead? {
      return NoRead;
    }
    var session := GetFields(data, identity.next, SESSION_KINDS);
    if session.NoRead? {
      return NoRead;
    }
    var fs := version.value;
    r := Got((Version(ToI32(fs[0].value), fs[1].text, fs[2].text, fs[3].text), IdentityOf(identity.value), SessionOf(session.value)),
      session.next);
  }

  method DecodeBattleInputTicketPayload(n: Decimals, data: Bytes) returns (r: Option<Ticket>)
    ensures r == DecodeTicket(n, data)
  {
    hide ReadBody, ReadTicket;
    if data == "" || data[0] != INPUT_TYPE {
      return None;
    }
    var body := ReadBattleInputBody(data, 1);
    if body.NoRead? || body.next >= |data| {
      return None;
    }
    var flag := data[body.next];
    if flag == TICKET_ABSENT || flag != TICKET_PRESENT {
      return None;
    }
    var ticket := ReadTicketBlock(n, data, body.next + 1);
    r := if ticket.NoRead? then None else Some(ticket.value);
  }
}
