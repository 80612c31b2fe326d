/** The little-endian fields of the wire frames in src/match_lifecycle.cpp. A frame is a list of fields, one for
    each push of the writer and each read of the reader. */
module WireFields {
  import opened Bytes

  const MAX_LISTED: nat := 64
  const MAX_TEXT: nat := 0xFFFF

  datatype Field = Number(width: nat, value: nat) | Text(text: Bytes) | Octet8(octet: u8) | Texts(texts: seq<Bytes>)

  datatype Kind = OfNumber(width: nat) | OfText | OfOctet | OfTexts

  function KindOf(f: Field): Kind {
    match f
    case Number(width, _) => OfNumber(width)
    case Text(_) => OfText
    case Octet8(_) => OfOctet
    case Texts(_) => OfTexts
  }

  // ---- Writing ----

  /** PushString keeps the first 65535 bytes. */
  function CutText(s: Bytes): (r: Bytes)
    ensures |r| <= MAX_TEXT && (|s| <= MAX_TEXT ==> r == s)
  {
    if |s| <= MAX_TEXT then s else s[..MAX_TEXT]
  }

  function TextBytes(s: Bytes): Bytes {
    PrefixedBytes(CutText(s))
  }

  function ListBytes(texts: seq<Bytes>): Bytes {
    if texts == [] then "" else TextBytes(texts[0]) + ListBytes(texts[1..])
  }

  function FieldBytes(f: Field): Bytes {
    match f
    case Number(width, value) => LittleEndian(value, width)
    case Text(s) => TextBytes(s)
    case Octet8(b) => [b as char]
    case Texts(texts) => LittleEndian(|texts|, 4) + ListBytes(texts)
  }

  function FrameBytes(fs: seq<Field>): Bytes {
    if fs == [] then "" else FieldBytes(fs[0]) + FrameBytes(fs[1..])
  }

  // ---- Reading ----

  function ReadTexts(data: Bytes, cursor: nat, count: nat): (r: Read<seq<Bytes>>)
    ensures r.Got? ==> |r.value| == count
    decreases count
  {
    if count == 0 then Got([], cursor) else
    match ReadPrefixed(data, cursor)
    case NoRead => NoRead
    case Got(s, next) =>
      match ReadTexts(data, next, count - 1)
      case NoRead => NoRead
      case Got(rest, after) => Got([s] + rest, after)
  }

  /** A list of more than 64 texts is refused before any of it is read. */
  function ReadField(kind: Kind, data: Bytes, cursor: nat): (r: Read<Field>)
    ensures r.Got? ==> KindOf(r.value) == kind
  {
    match kind
    case OfNumber(width) => (match ReadUint(data, cursor, width) case NoRead => NoRead case Got(v, next) => Got(Number(width, v), next))
    case OfText => (match ReadPrefixed(data, cursor) case NoRead => NoRead case Got(s, next) => Got(Text(s), next))
    case OfOctet => if cursor < |data| then Got(Octet8(Octet(data[cursor])), cursor + 1) else NoRead
    case OfTexts =>
      match ReadUint(data, cursor, 4)
      case NoRead => NoRead
      case Got(count, next) =>
        if count > MAX_LISTED then NoRead else
        match ReadTexts(data, next, count)
        case NoRead => NoRead
        case Got(texts, after) => Got(Texts(texts), after)
  }

  ghost predicate OfKinds(fs: seq<Field>, kinds: seq<Kind>) {
    |fs| == |kinds| && forall i :: 0 <= i < |fs| ==> KindOf(fs[i]) == kinds[i]
  }

  function ReadFields(kinds: seq<Kind>, data: Bytes, cursor: nat): (r: Read<seq<Field>>)
    ensures r.Got? ==> OfKinds(r.value, kinds)
    decreases |kinds|
  {
    if kinds == [] then Got([], cursor) else
    match ReadField(kinds[0], data, cursor)
    case NoRead => NoRead
    case Got(f, next) =>
      match ReadFields(kinds[1..], data, next)
      case NoRead => NoRead
      case Got(rest, after) => Got([f] + rest, after)
  }

  // ---- Round trip ----

  function CutTexts(texts: seq<Bytes>): (r: seq<Bytes>)
    ensures |r| == |texts| && forall i :: 0 <= i < |r| ==> r[i] == CutText(texts[i])
  {
    seq(|texts|, i requires 0 <= i < |texts| => CutText(texts[i]))
  }

  /** What of a field travels. */
  function Carried(f: Field): Field {
    match f
    case Text(s) => Text(CutText(s))
    case Texts(texts) => Texts(CutTexts(texts))
    case _ => f
  }

  function AllCarried(fs: seq<Field>): (r: seq<Field>)
    ensures |r| == |fs| && forall i :: 0 <= i < |r| ==> r[i] == Carried(fs[i])
  {
    seq(|fs|, i requires 0 <= i < |fs| => Carried(fs[i]))
  }

  function Kinds(fs: seq<Field>): (r: seq<Kind>)
    ensures |r| == |fs| && forall i :: 0 <= i < |r| ==> r[i] == KindOf(fs[i])
  {
    seq(|fs|, i requires 0 <= i < |fs| => KindOf(fs[i]))
  }

  /** A number fits its width, a list has a 32-bit length. */
  predicate Fits(f: Field) {
    match f
    case Number(width, value) => value < Pow256(width)
    case Texts(texts) => |texts| < TWO_32
    case _ => true
  }

  predicate Listable(f: Field) {
    f.Texts? ==> |f.texts| <= MAX_LISTED
  }

  predicate AllListable(fs: seq<Field>) {
    forall i :: 0 <= i < |fs| ==> Listable(fs[i])
  }

  ghost predicate AllFit(fs: seq<Field>) {
    forall i :: 0 <= i < |fs| ==> Fits(fs[i])
  }

  lemma HeadAndTail(fs: seq<Field>)
    requires fs != []
    ensures Kinds(fs)[1..] == Kinds(fs[1..]) && AllCarried(fs) == [Carried(fs[0])] + AllCarried(fs[1..])
    ensures AllListable(fs) <==> Listable(fs[0]) && AllListable(fs[1..])
    ensures AllFit(fs) <==> Fits(fs[0]) && AllFit(fs[1..])
  {
    hide Carried, Listable, Fits, KindOf;
    var rest := fs[1..];
    assert forall i :: 1 <= i < |fs| ==> fs[i] == rest[i - 1];
  }

  lemma {:induction false} TextsReadBack(data: Bytes, cursor: nat, texts: seq<Bytes>)
    requires At(data, cursor, ListBytes(texts))
    ensures ReadTexts(data, cursor, |texts|) == Got(CutTexts(texts), cursor + |ListBytes(texts)|)
    decreases |texts|
  {
    hide At, PrefixedBytes, ReadPrefixed;
    if texts != [] {
      var head := TextBytes(texts[0]);
      AtSplit(data, cursor, head, ListBytes(texts[1..]));
      PrefixedReadsBack(data, cursor, CutText(texts[0]));
      TextsReadBack(data, cursor + |head|, texts[1..]);
      assert CutTexts(texts) == [CutText(texts[0])] + CutTexts(texts[1..]);
    }
  }

  /** A field written reads back as what of it travels, unless it is a list of more than 64 texts. */
  lemma FieldReadsBack(data: Bytes, cursor: nat, f: Field)
    requires Fits(f) && At(data, cursor, FieldBytes(f))
    ensures ReadField(KindOf(f), data, cursor) == if Listable(f) then Got(Carried(f), cursor + |FieldBytes(f)|) else NoRead
  {
    match f
    case Number(width, value) =>
      UintReadsBack(data, cursor, value, width);
    case Text(s) =>
      PrefixedReadsBack(data, cursor, CutText(s));
    case Octet8(b) =>
      AtFirst(data, cursor, [b as char]);
    case Texts(texts) =>
      ListReadsBack(data, cursor, texts);
  }

  lemma ListReadsBack(data: Bytes, cursor: nat, texts: seq<Bytes>)
    requires |texts| < TWO_32 && At(data, cursor, FieldBytes(Texts(texts)))
    ensures ReadField(OfTexts, data, cursor)
      == if |texts| <= MAX_LISTED then Got(Texts(CutTexts(texts)), cursor + |FieldBytes(Texts(texts))|) else NoRead
  {
    Pow256Values();
    hide At, ReadTexts, ListBytes, CutTexts;
    AtSplit(data, cursor, LittleEndian(|texts|, 4), ListBytes(texts));
    UintReadsBack(data, cursor, |texts|, 4);
    TextsReadBack(data, cursor + 4, texts);
  }

  /** A frame written reads back as what of it travels, exactly when no list in it is too long. */
  lemma {:induction false} FrameReadsBack(data: Bytes, cursor: nat, fs: seq<Field>)
    requires AllFit(fs) && At(data, cursor, FrameBytes(fs))
    ensures ReadFields(Kinds(fs), data, cursor)
      == if AllListable(fs) then Got(AllCarried(fs), cursor + |FrameBytes(fs)|) else NoRead
    decreases |fs|
  {
    hide At, ReadField, FieldBytes, Carried, Listable, Fits, AllListable, AllFit;
    if fs == [] {
      EmptyFrame(fs);
    } else {
      HeadAndTail(fs);
      AtSplit(data, cursor, FieldBytes(fs[0]), FrameBytes(fs[1..]));
      FieldReadsBack(data, cursor, fs[0]);
      FrameReadsBack(data, cursor + |FieldBytes(fs[0])|, fs[1..]);
    }
  }

  lemma EmptyFrame(fs: seq<Field>)
    requires fs == []
    ensures AllListable(fs) && AllCarried(fs) == [] && Kinds(fs) == []
  {
  }
}
