/** The input frames of src/match_lifecycle.cpp: the body, the optional card block and the optional ticket block. */
module WireFrames {
  import opened Bytes
  import opened WireFields

  const INPUT_TYPE: char := 3 as char
  const CARD_MAGIC: char := 0x43 as char
  const TICKET_PRESENT: char := 1 as char
  const TICKET_ABSENT: char := 0 as char

  type i8 = x: int | -128 <= x < 128
  type i32 = x: int | -0x8000_0000 <= x < 0x8000_0000

  /** What an input carries on the wire; `cardSlot` is an int in the program and one byte on the wire. */
  datatype Input = Input(
    protocol: i32, matchId: Bytes, playerId: Bytes, tick: u64, sequence: u64, directionBits: u32,
    slow: bool, shoot: bool, bomb: bool, cardSlot: int, modeActionId: Bytes,
    cardDraw: bool, cardSelect: i8, cardUse: bool)

  datatype Version = Version(protocol: i32, business: Bytes, battle: Bytes, ruleset: Bytes)

  datatype Identity = Identity(
    ticketId: Bytes, matchId: Bytes, userId: Bytes, playerId: Bytes, modeId: Bytes, battleServerId: Bytes,
    endpoint: Bytes, deckSnapshotHash: Bytes, rulesetVersion: Bytes, ticketNonceHex: Bytes)

  datatype Session = Session(issuedAtMs: i64, expiresAtMs: i64, businessSessionId: Bytes)

  datatype Cards = Cards(hand: seq<Bytes>, deck: seq<Bytes>, initialEnergy: real, serverSeedDecimal: Bytes)

  datatype Signature = Signature(algorithm: Bytes, keyId: Bytes, signatureHex: Bytes, publicKeyHex: Bytes, authoritative: bool)

  datatype Ticket = Ticket(version: Version, identity: Identity, session: Session, cards: Cards, signature: Signature)

  /** snprintf with %.17g into 64 bytes, and strtod with its failure. */
  datatype Decimals = Decimals(show: real -> Bytes, parse: Bytes -> Option<real>)

  /** What is read of a number that travels as its decimal text. */
  function Reread(n: Decimals, x: real): Option<real> {
    n.parse(CutText(n.show(x)))
  }

  // ---- Casts ----

  function ToU32(v: i32): u32 {
    if v < 0 then v + TWO_32 else v
  }

  function ToI32(v: nat): i32 {
    var w := v % TWO_32;
    if w >= 0x8000_0000 then w - TWO_32 else w
  }

  /** An int cast to 8 bits: its remainder modulo 256. */
  function SlotByte(slot: int): u8 {
    slot % 256
  }

  function ToI8(b: u8): i8 {
    if b >= 128 then b - 256 else b
  }

  function FlagByte(slow: bool, shoot: bool, bomb: bool): u8 {
    (if slow then 1 else 0) + (if shoot then 2 else 0) + (if bomb then 4 else 0)
  }

  function BoolByte(b: bool): u8 {
    if b then 1 else 0
  }

  // ---- Layout ----

  function BodyFields(input: Input): seq<Field> {
    [Number(4, ToU32(input.protocol)), Text(input.matchId), Text(input.playerId), Number(8, input.tick),
     Number(8, input.sequence), Number(4, input.directionBits), Octet8(FlagByte(input.slow, input.shoot, input.bomb)),
     Octet8(SlotByte(input.cardSlot)), Text(input.modeActionId)]
  }

  const BODY_KINDS: seq<Kind> :=
    [OfNumber(4), OfText, OfText, OfNumber(8), OfNumber(8), OfNumber(4), OfOctet, OfOctet, OfText]

  predicate HasCardBlock(input: Input) {
    input.cardDraw || input.cardSelect != -1 || input.cardUse
  }

  function CardFields(input: Input): seq<Field> {
    [Octet8(BoolByte(input.cardDraw)), Octet8(SlotByte(input.cardSelect)), Octet8(BoolByte(input.cardUse))]
  }

  const CARD_KINDS: seq<Kind> := [OfOctet, OfOctet, OfOctet]

  function CardBlock(input: Input): Bytes {
    if HasCardBlock(input) then [CARD_MAGIC] + FrameBytes(CardFields(input)) else ""
  }

  function EncodeInput(input: Input): Bytes {
    [INPUT_TYPE] + FrameBytes(BodyFields(input)) + CardBlock(input)
  }

  function VersionFields(v: Version): seq<Field> {
    [Number(4, ToU32(v.protocol)), Text(v.business), Text(v.battle), Text(v.ruleset)]
  }

  function IdentityFields(i: Identity): seq<Field> {
    [Text(i.ticketId), Text(i.matchId), Text(i.userId), Text(i.playerId), Text(i.modeId), Text(i.battleServerId),
     Text(i.endpoint), Text(i.deckSnapshotHash), Text(i.rulesetVersion), Text(i.ticketNonceHex)]
  }

  function SessionFields(s: Session): seq<Field> {
    [Number(8, ToU64(s.issuedAtMs)), Number(8, ToU64(s.expiresAtMs)), Text(s.businessSessionId)]
  }

  function CardsFields(n: Decimals, c: Cards): seq<Field> {
    [Texts(c.hand), Texts(c.deck), Text(n.show(c.initialEnergy)), Text(c.serverSeedDecimal)]
  }

  function SignatureFields(s: Signature): seq<Field> {
    [Text(s.algorithm), Text(s.keyId), Text(s.signatureHex), Text(s.publicKeyHex), Octet8(BoolByte(s.authoritative))]
  }

  const VERSION_KINDS: seq<Kind> := [OfNumber(4), OfText, OfText, OfText]
  const IDENTITY_KINDS: seq<Kind> := [OfText, OfText, OfText, OfText, OfText, OfText, OfText, OfText, OfText, OfText]
  const SESSION_KINDS: seq<Kind> := [OfNumber(8), OfNumber(8), OfText]
  const CARDS_KINDS: seq<Kind> := [OfTexts, OfTexts, OfText, OfText]
  const SIGNATURE_KINDS: seq<Kind> := [OfText, OfText, OfText, OfText, OfOctet]

  function TicketBlock(n: Decimals, t: Ticket): Bytes {
    FrameBytes(VersionFields(t.version)) + (FrameBytes(IdentityFields(t.identity)) + (FrameBytes(SessionFields(t.session))
      + (FrameBytes(CardsFields(n, t.cards)) + FrameBytes(SignatureFields(t.signature)))))
  }

  function EncodeWithTicket(n: Decimals, input: Input, t: Ticket): Bytes {
    EncodeInput(input) + [TICKET_PRESENT] + TicketBlock(n, t)
  }

  // ---- Reading ----

  /** The body, before the card block: no card field is read yet. */
  function BodyOf(fs: seq<Field>): Input
    requires OfKinds(fs, BODY_KINDS)
  {
    var flags := fs[6].octet;
    Input(ToI32(fs[0].value), fs[1].text, fs[2].text, Low(fs[3].value), Low(fs[4].value), fs[5].value % TWO_32,
      flags % 2 != 0, flags / 2 % 2 != 0, flags / 4 % 2 != 0, ToI8(fs[7].octet), fs[8].text, false, -1, false)
  }

  function Low(v: nat): u64 {
    v % TWO_64
  }

  function ReadBody(data: Bytes, cursor: nat): Read<Input> {
    match ReadFields(BODY_KINDS, data, cursor)
    case NoRead => NoRead
    case Got(fs, next) => ReadCardBlock(BodyOf(fs), data, next)
  }

  function ReadCardBlock(input: Input, data: Bytes, cursor: nat): Read<Input> {
    if cursor < |data| && data[cursor] == CARD_MAGIC then
      match ReadFields(CARD_KINDS, data, cursor + 1)
      case NoRead => NoRead
      case Got(fs, next) =>
        Got(input.(cardDraw := fs[0].octet != 0, cardSelect := ToI8(fs[1].octet), cardUse := fs[2].octet != 0), next)
    else Got(input, cursor)
  }

  function DecodeInput(data: Bytes): Option<Input> {
    if data == "" || data[0] != INPUT_TYPE then None else
    match ReadBody(data, 1)
    case NoRead => None
    case Got(input, _) => Some(input)
  }

  function ReadVersion(data: Bytes, cursor: nat): Read<Version> {
    match ReadFields(VERSION_KINDS, data, cursor)
    case NoRead => NoRead
    case Got(fs, next) => Got(Version(ToI32(fs[0].value), fs[1].text, fs[2].text, fs[3].text), next)
  }

  function IdentityOf(fs: seq<Field>): Identity
    requires OfKinds(fs, IDENTITY_KINDS)
  {
    Identity(fs[0].text, fs[1].text, fs[2].text, fs[3].text, fs[4].text, fs[5].text, fs[6].text, fs[7].text,
      fs[8].text, fs[9].text)
  }

  function ReadIdentity(data: Bytes, cursor: nat): Read<Identity> {
    match ReadFields(IDENTITY_KINDS, data, cursor)
    case NoRead => NoRead
    case Got(fs, next) => Got(IdentityOf(fs), next)
  }

  function SessionOf(fs: seq<Field>): Session
    requires OfKinds(fs, SESSION_KINDS)
  {
    Session(ToI64(Low(fs[0].value)), ToI64(Low(fs[1].value)), fs[2].text)
  }

  function ReadSession(data: Bytes, cursor: nat): Read<Session> {
    match ReadFields(SESSION_KINDS, data, cursor)
    case NoRead => NoRead
    case Got(fs, next) => Got(SessionOf(fs), next)
  }

  /** strtod may find no number; the program refuses there, before the seed, with the same outcome. */
  function ReadCards(n: Decimals, data: Bytes, cursor: nat): Read<Cards> {
    match ReadFields(CARDS_KINDS, data, cursor)
    case NoRead => NoRead
    case Got(fs, next) =>
      match n.parse(fs[2].text)
      case None => NoRead
      case Some(energy) => Got(Cards(fs[0].texts, fs[1].texts, energy, fs[3].text), next)
  }

  function ReadSignature(data: Bytes, cursor: nat): Read<Signature> {
    match ReadFields(SIGNATURE_KINDS, data, cursor)
    case NoRead => NoRead
    case Got(fs, next) => Got(Signature(fs[0].text, fs[1].text, fs[2].text, fs[3].text, fs[4].octet != 0), next)
  }

  function ReadOpening(data: Bytes, cursor: nat): Read<(Version, Identity, Session)> {
    match ReadVersion(data, cursor)
    case NoRead => NoRead
    case Got(version, c1) =>
      match ReadIdentity(data, c1)
      case NoRead => NoRead
      case Got(identity, c2) =>
        match ReadSession(data, c2)
        case NoRead => NoRead
        case Got(session, c3) => Got((version, identity, session), c3)
  }

  function ReadTicket(n: Decimals, data: Bytes, cursor: nat): Read<Ticket> {
    match ReadOpening(data, cursor)
    case NoRead => NoRead
    case Got(opening, c3) =>
      match ReadCards(n, data, c3)
      case NoRead => NoRead
      case Got(cards, c4) =>
        match ReadSignature(data, c4)
        case NoRead => NoRead
        case Got(signature, c5) => Got(Ticket(opening.0, opening.1, opening.2, cards, signature), c5)
  }

  function DecodeTicket(n: Decimals, data: Bytes): Option<Ticket> {
    if data == "" || data[0] != INPUT_TYPE then None else
    match ReadBody(data, 1)
    case NoRead => None
    case Got(_, cursor) =>
      if cursor >= |data| then None else
      if data[cursor] != TICKET_PRESENT then None else
      match ReadTicket(n, data, cursor + 1)
      case NoRead => None
      case Got(t, _) => Some(t)
  }

  // ---- Round trips ----

  /** What of an input travels: strings cut to 65535 bytes, the slot cast to 8 bits. */
  function CarriedBody(input: Input): Input {
    input.(matchId := CutText(input.matchId), playerId := CutText(input.playerId),
           modeActionId := CutText(input.modeActionId), cardSlot := ToI8(SlotByte(input.cardSlot)),
           cardDraw := false, cardSelect := -1, cardUse := false)
  }

  function CarriedInput(input: Input): Input {
    CarriedBody(input).(cardDraw := input.cardDraw, cardSelect := input.cardSelect, cardUse := input.cardUse)
  }

  function CarriedVersion(v: Version): Version {
    v.(business := CutText(v.business), battle := CutText(v.battle), ruleset := CutText(v.ruleset))
  }

  function CarriedIdentity(i: Identity): Identity {
    Identity(CutText(i.ticketId), CutText(i.matchId), CutText(i.userId), CutText(i.playerId), CutText(i.modeId),
      CutText(i.battleServerId), CutText(i.endpoint), CutText(i.deckSnapshotHash), CutText(i.rulesetVersion),
      CutText(i.ticketNonceHex))
  }

  function CarriedCards(c: Cards): Cards {
    c.(hand := CutTexts(c.hand), deck := CutTexts(c.deck), serverSeedDecimal := CutText(c.serverSeedDecimal))
  }

  function CarriedSignature(s: Signature): Signature {
    s.(algorithm := CutText(s.algorithm), keyId := CutText(s.keyId), signatureHex := CutText(s.signatureHex),
       publicKeyHex := CutText(s.publicKeyHex))
  }

  function CarriedTicket(t: Ticket): Ticket {
    Ticket(CarriedVersion(t.version), CarriedIdentity(t.identity),
      CarriedSession(t.session), CarriedCards(t.cards), CarriedSignature(t.signature))
  }

  lemma CastsInvert(v: i32, s: i8, slow: bool, shoot: bool, bomb: bool)
    ensures ToI32(ToU32(v)) == v && ToI8(SlotByte(s)) == s
    ensures var f := FlagByte(slow, shoot, bomb); (f % 2 != 0) == slow && (f / 2 % 2 != 0) == shoot && (f / 4 % 2 != 0) == bomb
  {
  }

  lemma BodyShape(input: Input)
    ensures Kinds(BodyFields(input)) == BODY_KINDS && AllFit(BodyFields(input)) && AllListable(BodyFields(input))
  {
    Pow256Values();
    hide CutText, FlagByte, SlotByte, ToU32, Pow256;
  }

  lemma BodyRebuilt(input: Input)
    ensures OfKinds(AllCarried(BodyFields(input)), BODY_KINDS)
    ensures BodyOf(AllCarried(BodyFields(input))) == CarriedBody(input)
  {
    CastsInvert(input.protocol, -1, input.slow, input.shoot, input.bomb);
    hide CutText, FlagByte, SlotByte, ToU32, ToI32, ToI8;
  }

  lemma BodyReadsBack(data: Bytes, cursor: nat, input: Input)
    requires At(data, cursor, FrameBytes(BodyFields(input)))
    ensures ReadBody(data, cursor) == ReadCardBlock(CarriedBody(input), data, cursor + |FrameBytes(BodyFields(input))|)
  {
    hide At, ReadFields, BodyOf, CarriedBody, BodyFields, FrameBytes, ReadCardBlock, AllCarried, Kinds, AllListable,
      AllFit, OfKinds;
    BodyShape(input);
    BodyRebuilt(input);
    FrameReadsBack(data, cursor, BodyFields(input));
  }

  lemma CardShape(input: Input)
    ensures Kinds(CardFields(input)) == CARD_KINDS && AllFit(CardFields(input)) && AllListable(CardFields(input))
    ensures ToI8(SlotByte(input.cardSelect)) == input.cardSelect
    ensures var fs := AllCarried(CardFields(input));
      && fs[0] == Octet8(BoolByte(input.cardDraw)) && fs[1] == Octet8(SlotByte(input.cardSelect))
      && fs[2] == Octet8(BoolByte(input.cardUse))
  {
  }

  /** The card block is there exactly when a card field is not its default, and both ways all three fields come
      back; what follows the frame must not look like a card block when there is none. */
  lemma CardBlockReadsBack(data: Bytes, cursor: nat, input: Input)
    requires At(data, cursor, CardBlock(input))
    requires !HasCardBlock(input) ==> cursor == |data| || (cursor < |data| && data[cursor] != CARD_MAGIC)
    ensures ReadCardBlock(CarriedBody(input), data, cursor) == Got(CarriedInput(input), cursor + |CardBlock(input)|)
  {
    if HasCardBlock(input) {
      CardFieldsReadBack(data, cursor, input);
    } else {
      hide CutText, ToI8, SlotByte, ReadFields;
    }
  }

  lemma CardFieldsReadBack(data: Bytes, cursor: nat, input: Input)
    requires At(data, cursor, CardBlock(input)) && HasCardBlock(input)
    ensures ReadCardBlock(CarriedBody(input), data, cursor) == Got(CarriedInput(input), cursor + |CardBlock(input)|)
  {
    hide At, ReadFields, FrameBytes, CarriedBody, AllListable, AllFit, ToI8, SlotByte, CardFields, Kinds, AllCarried;
    CardShape(input);
    var block := FrameBytes(CardFields(input));
    AtSplit(data, cursor, [CARD_MAGIC], block);
    AtFirst(data, cursor, [CARD_MAGIC]);
    FrameReadsBack(data, cursor + 1, CardFields(input));
  }

  /** Any frame that begins with an encoded input, with nothing or a ticket's flag behind it, reads back the input. */
  lemma InputReadsBack(input: Input, after: Bytes)
    requires after == "" || after[0] != CARD_MAGIC
    ensures var data := EncodeInput(input) + after;
      data != "" && data[0] == INPUT_TYPE && ReadBody(data, 1) == Got(CarriedInput(input), |EncodeInput(input)|)
  {
    var body, card := FrameBytes(BodyFields(input)), CardBlock(input);
    var data := EncodeInput(input) + after;
    hide FrameBytes, CardBlock, BodyFields, ReadBody, ReadCardBlock, CarriedBody, CarriedInput, HasCardBlock, At;
    assert data == "" + (([INPUT_TYPE] + body + card) + after);
    InputLayout([INPUT_TYPE], body, card, after);
    BodyReadsBack(data, 1, input);
    CardBlockReadsBack(data, 1 + |body|, input) by {
      NoCardBlockIsEmpty(input);
    }
  }

  lemma NoCardBlockIsEmpty(input: Input)
    ensures !HasCardBlock(input) ==> CardBlock(input) == ""
  {
  }

  lemma InputLayout(head: Bytes, body: Bytes, card: Bytes, after: Bytes)
    ensures var data := head + body + card + after;
      At(data, |head|, body) && At(data, |head| + |body|, card)
  {
    var data := head + body + card + after;
    assert data == head + body + (card + after);
    AtOwn(head, body, card + after);
    assert data == (head + body) + card + after;
    AtOwn(head + body, card, after);
  }

  /** Every input frame decodes to what of the input travels, with or without the card block. */
  lemma InputRoundTrip(input: Input)
    ensures DecodeInput(EncodeInput(input)) == Some(CarriedInput(input))
  {
    InputReadsBack(input, "");
    hide EncodeInput, ReadBody, CarriedInput;
    assert EncodeInput(input) + "" == EncodeInput(input);
  }

  /** An input whose strings fit and whose slot is 8-bit travels whole. */
  lemma FittingInputTravelsWhole(input: Input)
    requires |input.matchId| <= MAX_TEXT && |input.playerId| <= MAX_TEXT && |input.modeActionId| <= MAX_TEXT
    requires -128 <= input.cardSlot < 128
    ensures DecodeInput(EncodeInput(input)) == Some(input)
  {
    InputRoundTrip(input);
    CastsInvert(0, input.cardSlot, false, false, false);
    hide DecodeInput, EncodeInput;
  }

  /** A frame encoded without a ticket never decodes as having one. */
  lemma TicketlessHasNoTicket(n: Decimals, input: Input)
    ensures DecodeTicket(n, EncodeInput(input)) == None
  {
    InputReadsBack(input, "");
    hide EncodeInput, ReadBody, CarriedInput, ReadTicket;
    assert EncodeInput(input) + "" == EncodeInput(input);
  }

  // ---- The ticket ----

  lemma VersionReadsBack(data: Bytes, cursor: nat, v: Version)
    requires At(data, cursor, FrameBytes(VersionFields(v)))
    ensures ReadVersion(data, cursor) == Got(CarriedVersion(v), cursor + |FrameBytes(VersionFields(v))|)
  {
    Pow256Values();
    CastsInvert(v.protocol, 0, false, false, false);
    var fs := VersionFields(v);
    assert Kinds(fs) == VERSION_KINDS;
    FrameReadsBack(data, cursor, fs);
    hide At, FrameBytes, ReadFields, CutText, ToI32, ToU32;
  }

  lemma IdentityShape(i: Identity)
    ensures var fs := IdentityFields(i); Kinds(fs) == IDENTITY_KINDS && AllFit(fs) && AllListable(fs)
  {
  }

  lemma IdentityRebuilt(i: Identity)
    ensures OfKinds(AllCarried(IdentityFields(i)), IDENTITY_KINDS)
    ensures IdentityOf(AllCarried(IdentityFields(i))) == CarriedIdentity(i)
  {
    hide CutText;
  }

  lemma IdentityReadsBack(data: Bytes, cursor: nat, i: Identity)
    requires At(data, cursor, FrameBytes(IdentityFields(i)))
    ensures ReadIdentity(data, cursor) == Got(CarriedIdentity(i), cursor + |FrameBytes(IdentityFields(i))|)
  {
    hide At, FrameBytes, ReadFields, IdentityFields, IdentityOf, CarriedIdentity, AllCarried, Kinds, AllFit, AllListable, OfKinds;
    IdentityShape(i);
    IdentityRebuilt(i);
    FrameReadsBack(data, cursor, IdentityFields(i));
  }

  lemma SessionShape(s: Session)
    ensures var fs := SessionFields(s); Kinds(fs) == SESSION_KINDS && AllFit(fs) && AllListable(fs)
  {
    Pow256Values();
    hide Pow256, ToU64;
  }

  function CarriedSession(s: Session): Session {
    s.(businessSessionId := CutText(s.businessSessionId))
  }

  lemma SessionRebuilt(s: Session)
    ensures OfKinds(AllCarried(SessionFields(s)), SESSION_KINDS)
    ensures SessionOf(AllCarried(SessionFields(s))) == CarriedSession(s)
  {
    SignedCastsInvert(s.issuedAtMs, 0);
    SignedCastsInvert(s.expiresAtMs, 0);
    hide CutText, ToU64, ToI64;
  }

  lemma SessionReadsBack(data: Bytes, cursor: nat, s: Session)
    requires At(data, cursor, FrameBytes(SessionFields(s)))
    ensures ReadSession(data, cursor) == Got(CarriedSession(s), cursor + |FrameBytes(SessionFields(s))|)
  {
    hide At, FrameBytes, ReadFields, SessionFields, SessionOf, CarriedSession, AllCarried, Kinds, AllFit, AllListable, OfKinds;
    SessionShape(s);
    SessionRebuilt(s);
    FrameReadsBack(data, cursor, SessionFields(s));
  }

  predicate ShortLists(c: Cards) {
    |c.hand| <= MAX_LISTED && |c.deck| <= MAX_LISTED
  }

  /** What of the cards arrives: nothing if a list is too long or the energy's text is no number. */
  function CardsArrive(n: Decimals, c: Cards): Option<Cards> {
    if !ShortLists(c) then None else
    match Reread(n, c.initialEnergy)
    case None => None
    case Some(energy) => Some(CarriedCards(c).(initialEnergy := energy))
  }

  lemma CardsReadBack(n: Decimals, data: Bytes, cursor: nat, c: Cards)
    requires |c.hand| < TWO_32 && |c.deck| < TWO_32 && At(data, cursor, FrameBytes(CardsFields(n, c)))
    ensures var r := ReadCards(n, data, cursor);
      if CardsArrive(n, c).Some? then r == Got(CardsArrive(n, c).value, cursor + |FrameBytes(CardsFields(n, c))|) else r == NoRead
  {
    var fs := CardsFields(n, c);
    assert Kinds(fs) == CARDS_KINDS;
    assert Listable(fs[0]) && Listable(fs[1]) <==> ShortLists(c);
    FrameReadsBack(data, cursor, fs);
    hide At, FrameBytes, ReadFields, CutText, CutTexts;
  }

  lemma SignatureReadsBack(data: Bytes, cursor: nat, s: Signature)
    requires At(data, cursor, FrameBytes(SignatureFields(s)))
    ensures ReadSignature(data, cursor) == Got(CarriedSignature(s), cursor + |FrameBytes(SignatureFields(s))|)
  {
    var fs := SignatureFields(s);
    assert Kinds(fs) == SIGNATURE_KINDS;
    FrameReadsBack(data, cursor, fs);
    hide At, FrameBytes, ReadFields, CutText;
  }

  /** Where the five groups of a ticket lie. */
  lemma TicketLayout(n: Decimals, data: Bytes, cursor: nat, t: Ticket)
    requires At(data, cursor, TicketBlock(n, t))
    ensures var c1 := cursor + |FrameBytes(VersionFields(t.version))|;
      var c2 := c1 + |FrameBytes(IdentityFields(t.identity))|;
      var c3 := c2 + |FrameBytes(SessionFields(t.session))|;
      var c4 := c3 + |FrameBytes(CardsFields(n, t.cards))|;
      && At(data, cursor, FrameBytes(VersionFields(t.version)))
      && At(data, c1, FrameBytes(IdentityFields(t.identity)))
      && At(data, c2, FrameBytes(SessionFields(t.session)))
      && At(data, c3, FrameBytes(CardsFields(n, t.cards)))
      && At(data, c4, FrameBytes(SignatureFields(t.signature)))
  {
    hide At, FrameBytes, VersionFields, IdentityFields, SessionFields, CardsFields, SignatureFields;
    var f1, f2 := FrameBytes(VersionFields(t.version)), FrameBytes(IdentityFields(t.identity));
    var f3, f4 := FrameBytes(SessionFields(t.session)), FrameBytes(CardsFields(n, t.cards));
    var f5 := FrameBytes(SignatureFields(t.signature));
    AtSplit(data, cursor, f1, f2 + (f3 + (f4 + f5)));
    AtSplit(data, cursor + |f1|, f2, f3 + (f4 + f5));
    AtSplit(data, cursor + |f1| + |f2|, f3, f4 + f5);
    AtSplit(data, cursor + |f1| + |f2| + |f3|, f4, f5);
  }

  lemma OpeningReadsBack(data: Bytes, cursor: nat, v: Version, i: Identity, s: Session)
    requires var c1 := cursor + |FrameBytes(VersionFields(v))|;
      var c2 := c1 + |FrameBytes(IdentityFields(i))|;
      && At(data, cursor, FrameBytes(VersionFields(v)))
      && At(data, c1, FrameBytes(IdentityFields(i)))
      && At(data, c2, FrameBytes(SessionFields(s)))
    ensures ReadOpening(data, cursor) == Got((CarriedVersion(v), CarriedIdentity(i), CarriedSession(s)),
      cursor + |FrameBytes(VersionFields(v))| + |FrameBytes(IdentityFields(i))| + |FrameBytes(SessionFields(s))|)
  {
    hide At, FrameBytes, VersionFields, IdentityFields, SessionFields, ReadVersion, ReadIdentity, ReadSession,
      CarriedVersion, CarriedIdentity, CarriedSession;
    var c1 := cursor + |FrameBytes(VersionFields(v))|;
    VersionReadsBack(data, cursor, v);
    IdentityReadsBack(data, c1, i);
    SessionReadsBack(data, c1 + |FrameBytes(IdentityFields(i))|, s);
  }

  function TicketArrives(n: Decimals, t: Ticket): Option<Ticket> {
    match CardsArrive(n, t.cards)
    case None => None
    case Some(cards) => Some(CarriedTicket(t).(cards := cards))
  }

  lemma TicketReadsBack(n: Decimals, data: Bytes, cursor: nat, t: Ticket)
    requires |t.cards.hand| < TWO_32 && |t.cards.deck| < TWO_32 && At(data, cursor, TicketBlock(n, t))
    ensures var r := ReadTicket(n, data, cursor);
      if TicketArrives(n, t).Some? then r.Got? && r.value == TicketArrives(n, t).value else r == NoRead
  {
    hide At, FrameBytes, VersionFields, IdentityFields, SessionFields, CardsFields, SignatureFields, ReadOpening,
      ReadCards, ReadSignature, TicketBlock, CardsArrive, CarriedVersion, CarriedIdentity,
      CarriedSession, CarriedCards, CarriedSignature;
    TicketLayout(n, data, cursor, t);
    OpeningReadsBack(data, cursor, t.version, t.identity, t.session);
    var c3 := cursor + |FrameBytes(VersionFields(t.version))| + |FrameBytes(IdentityFields(t.identity))|
      + |FrameBytes(SessionFields(t.session))|;
    CardsReadBack(n, data, c3, t.cards);
    SignatureReadsBack(data, c3 + |FrameBytes(CardsFields(n, t.cards))|, t.signature);
  }

  /** A frame with a ticket decodes to what of the input and of the ticket travels, whatever the formatter of
      decimals does: the input in any case, the ticket exactly when neither card list is longer than 64 and the
      text of its energy reads as a number. If that text reads as the energy itself, the whole ticket comes back. */
  lemma TicketRoundTrip(n: Decimals, input: Input, t: Ticket)
    requires |t.cards.hand| < TWO_32 && |t.cards.deck| < TWO_32
    ensures var frame := EncodeWithTicket(n, input, t);
      DecodeInput(frame) == Some(CarriedInput(input)) && DecodeTicket(n, frame) == TicketArrives(n, t)
    ensures DecodeTicket(n, EncodeWithTicket(n, input, t)).Some?
      <==> ShortLists(t.cards) && Reread(n, t.cards.initialEnergy).Some?
    ensures ShortLists(t.cards) && Reread(n, t.cards.initialEnergy) == Some(t.cards.initialEnergy)
      ==> DecodeTicket(n, EncodeWithTicket(n, input, t)) == Some(CarriedTicket(t))
  {
    var frame, head, block := EncodeWithTicket(n, input, t), EncodeInput(input), TicketBlock(n, t);
    ArrivalIs(n, t);
    hide EncodeInput, TicketBlock, ReadBody, ReadTicket, CarriedInput, CarriedTicket, ShortLists, TicketArrives, At;
    InputReadsBack(input, [TICKET_PRESENT] + block);
    assert frame == head + ([TICKET_PRESENT] + block);
    assert frame[|head|] == TICKET_PRESENT;
    AtTail(head + [TICKET_PRESENT], block);
    TicketReadsBack(n, frame, |head| + 1, t);
  }

  lemma ArrivalIs(n: Decimals, t: Ticket)
    ensures TicketArrives(n, t).Some? <==> ShortLists(t.cards) && Reread(n, t.cards.initialEnergy).Some?
    ensures ShortLists(t.cards) && Reread(n, t.cards.initialEnergy) == Some(t.cards.initialEnergy)
      ==> TicketArrives(n, t) == Some(CarriedTicket(t))
  {
    hide CarriedVersion, CarriedIdentity, CarriedSession, CarriedSignature, CutText, CutTexts;
  }

  /** A ticket of short lists and texts whose energy survives its text travels whole. */
  lemma FittingTicketTravelsWhole(n: Decimals, input: Input, t: Ticket)
    requires CarriedTicket(t) == t && ShortLists(t.cards) && Reread(n, t.cards.initialEnergy) == Some(t.cards.initialEnergy)
    ensures DecodeTicket(n, EncodeWithTicket(n, input, t)) == Some(t)
  {
    hide CarriedTicket, DecodeTicket, EncodeWithTicket;
    TicketRoundTrip(n, input, t);
  }

  lemma AtTail(head: Bytes, tail: Bytes)
    ensures At(head + tail, |head|, tail)
  {
  }
}
