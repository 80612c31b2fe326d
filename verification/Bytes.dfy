/** Little-endian integer fields, as the replay container and the wire frames write and read them.
    A byte string is a Dafny `string`; where the program casts a character to an 8-bit value the
    model takes it modulo 256. */
module Bytes {
  type Bytes = string

  const TWO_16: int := 0x1_0000
  const TWO_32: int := 0x1_0000_0000
  const TWO_63: int := 0x8000_0000_0000_0000
  const TWO_64: int := 0x1_0000_0000_0000_0000

  type u8 = x: int | 0 <= x < 256
  type u16 = x: int | 0 <= x < 0x1_0000
  type u32 = x: int | 0 <= x < 0x1_0000_0000
  type u64 = x: int | 0 <= x < 0x1_0000_0000_0000_0000
  type i64 = x: int | -0x8000_0000_0000_0000 <= x < 0x8000_0000_0000_0000

  /** The result of reading a field: the value and the cursor behind it, or no value. */
  datatype Read<+T> = NoRead | Got(value: T, next: nat)

  datatype Option<+T> = None | Some(value: T)

  function Octet(c: char): nat {
    c as int % 256
  }

  function Pow256(n: nat): (p: nat)
    ensures p > 0
  {
    if n == 0 then 1 else 256 * Pow256(n - 1)
  }

  /** The `width` low bytes of `value`, least significant first. */
  function LittleEndian(value: nat, width: nat): (b: Bytes)
    ensures |b| == width
  {
    if width == 0 then "" else [(value % 256) as char] + LittleEndian(value / 256, width - 1)
  }

  function FromLittleEndian(b: Bytes): nat {
    if b == "" then 0 else Octet(b[0]) + 256 * FromLittleEndian(b[1..])
  }

  lemma {:induction false} LittleEndianInverts(value: nat, width: nat)
    requires value < Pow256(width)
    ensures FromLittleEndian(LittleEndian(value, width)) == value
  {
    if width > 0 {
      LittleEndianInverts(value / 256, width - 1);
      var b := LittleEndian(value, width);
      assert b[1..] == LittleEndian(value / 256, width - 1);
      assert b[0] == (value % 256) as char;
    }
  }

  lemma {:induction false} FromLittleEndianInverts(b: Bytes)
    requires forall i :: 0 <= i < |b| ==> b[i] as int < 256
    ensures FromLittleEndian(b) < Pow256(|b|)
    ensures LittleEndian(FromLittleEndian(b), |b|) == b
  {
    if b != "" {
      FromLittleEndianInverts(b[1..]);
      assert FromLittleEndian(b) / 256 == FromLittleEndian(b[1..]);
      assert FromLittleEndian(b) % 256 == b[0] as int;
      assert b == [b[0]] + b[1..];
    }
  }

  lemma {:induction false} FromLittleEndianBound(b: Bytes)
    ensures FromLittleEndian(b) < Pow256(|b|)
  {
    if b != "" {
      FromLittleEndianBound(b[1..]);
    }
  }

  /** Writing one more byte appends the next eight bits. */
  lemma {:induction false} LittleEndianSnoc(value: nat, width: nat)
    ensures LittleEndian(value, width + 1) == LittleEndian(value, width) + [(value / Pow256(width) % 256) as char]
  {
    if width > 0 {
      LittleEndianSnoc(value / 256, width - 1);
      DivDiv(value, Pow256(width - 1));
    }
  }

  lemma DivDiv(a: nat, p: nat)
    requires p > 0
    ensures a / 256 / p == a / (256 * p)
  {
    var q := a / 256 / p;
    var r := a / 256 % p;
    assert a / 256 == q * p + r;
    assert a == 256 * (q * p + r) + a % 256;
    assert a == (256 * p) * q + (256 * r + a % 256);
    assert 0 <= 256 * r + a % 256 < 256 * p;
    DivUnique(a, 256 * p, q, 256 * r + a % 256);
  }

  lemma DivUnique(a: int, d: int, q: int, r: int)
    requires d > 0 && 0 <= r < d && a == d * q + r
    ensures a / d == q && a % d == r
  {
    var q', r' := a / d, a % d;
    assert a == d * q' + r';
    if q > q' {
      MulGrows(d, q - q');
      MulMinus(d, q, q');
    } else if q < q' {
      MulGrows(d, q' - q);
      MulMinus(d, q', q);
    }
  }

  lemma MulGrows(d: int, k: int)
    requires d > 0 && k >= 1
    ensures d * k >= d
  {
  }

  lemma MulMinus(d: int, a: int, b: int)
    ensures d * (a - b) == d * a - d * b
  {
  }

  lemma {:induction false} FromLittleEndianSnoc(b: Bytes, c: char)
    ensures FromLittleEndian(b + [c]) == FromLittleEndian(b) + Octet(c) * Pow256(|b|)
  {
    if b == "" {
      assert b + [c] == [c];
    } else {
      FromLittleEndianSnoc(b[1..], c);
      assert (b + [c])[1..] == b[1..] + [c];
      MulShift(Octet(c), Pow256(|b| - 1));
    }
  }

  lemma MulShift(x: nat, p: nat)
    ensures 256 * (x * p) == x * (256 * p)
  {
  }

  /** The unsigned image of a signed 64-bit value, and its inverse: the casts around the signed fields. */
  function ToU64(v: i64): u64 {
    if v < 0 then v + TWO_64 else v
  }

  function ToI64(v: u64): i64 {
    if v >= TWO_63 then v - TWO_64 else v
  }

  lemma SignedCastsInvert(v: i64, w: u64)
    ensures ToI64(ToU64(v)) == v
    ensures ToU64(ToI64(w)) == w
  {
  }

  /** What reading a `width`-byte field at `cursor` yields. */
  function ReadUint(data: Bytes, cursor: nat, width: nat): Read<nat> {
    if cursor + width > |data| then NoRead
    else Got(FromLittleEndian(data[cursor..cursor + width]), cursor + width)
  }

  lemma Pow256Values()
    ensures Pow256(1) == 256 && Pow256(2) == TWO_16 && Pow256(4) == TWO_32 && Pow256(8) == TWO_64
  {
    assert Pow256(3) == 256 * Pow256(2);
    assert Pow256(5) == 256 * Pow256(4);
    assert Pow256(6) == 256 * Pow256(5);
    assert Pow256(7) == 256 * Pow256(6);
    assert Pow256(8) == 256 * Pow256(7);
  }

  /** A length-prefixed string: 16-bit length, then the bytes. */
  function PrefixedBytes(s: Bytes): Bytes {
    LittleEndian(|s| % TWO_16, 2) + s
  }

  function ReadPrefixed(data: Bytes, cursor: nat): Read<Bytes> {
    match ReadUint(data, cursor, 2)
    case NoRead => NoRead
    case Got(len, next) => if next + len > |data| then NoRead else Got(data[next..next + len], next + len)
  }

  /** `piece` stands in `data` at `cursor`. */
  predicate At(data: Bytes, cursor: nat, piece: Bytes) {
    cursor + |piece| <= |data| && data[cursor..cursor + |piece|] == piece
  }

  lemma AtSplit(data: Bytes, cursor: nat, a: Bytes, b: Bytes)
    requires At(data, cursor, a + b)
    ensures At(data, cursor, a)
    ensures At(data, cursor + |a|, b)
  {
    var whole := data[cursor..cursor + |a + b|];
    assert whole[..|a|] == a;
    assert whole[|a|..] == b;
    assert data[cursor..cursor + |a|] == whole[..|a|];
    assert data[cursor + |a|..cursor + |a| + |b|] == whole[|a|..];
  }

  lemma AtFirst(data: Bytes, cursor: nat, piece: Bytes)
    requires At(data, cursor, piece) && piece != ""
    ensures cursor < |data| && data[cursor] == piece[0]
  {
    assert data[cursor] == data[cursor..cursor + |piece|][0];
  }

  lemma AtIndex(data: Bytes, cursor: nat, piece: Bytes, k: nat)
    requires At(data, cursor, piece) && k < |piece|
    ensures data[cursor + k] == piece[k]
  {
    assert data[cursor + k] == data[cursor..cursor + |piece|][k];
  }

  lemma AtSplit3(data: Bytes, cursor: nat, a: Bytes, b: Bytes, c: Bytes)
    requires At(data, cursor, a + b + c)
    ensures At(data, cursor, a)
    ensures At(data, cursor + |a|, b)
    ensures At(data, cursor + |a| + |b|, c)
    ensures At(data, cursor + |a|, b + c)
  {
    assert a + b + c == a + (b + c);
    AtSplit(data, cursor, a, b + c);
    AtSplit(data, cursor + |a|, b, c);
  }

  lemma AtJoin(data: Bytes, cursor: nat, a: Bytes, b: Bytes)
    requires At(data, cursor, a)
    requires At(data, cursor + |a|, b)
    ensures At(data, cursor, a + b)
  {
    assert data[cursor..cursor + |a + b|] == data[cursor..cursor + |a|] + data[cursor + |a|..cursor + |a| + |b|];
  }

  lemma AtOwn(before: Bytes, piece: Bytes, after: Bytes)
    ensures At(before + piece + after, |before|, piece)
  {
    assert (before + piece + after)[|before|..|before| + |piece|] == piece;
  }

  lemma UintReadsBack(data: Bytes, cursor: nat, value: nat, width: nat)
    requires value < Pow256(width)
    requires At(data, cursor, LittleEndian(value, width))
    ensures ReadUint(data, cursor, width) == Got(value, cursor + width)
  {
    LittleEndianInverts(value, width);
  }

  lemma PrefixedReadsBack(data: Bytes, cursor: nat, s: Bytes)
    requires |s| < TWO_16
    requires At(data, cursor, PrefixedBytes(s))
    ensures ReadPrefixed(data, cursor) == Got(s, cursor + |PrefixedBytes(s)|)
  {
    Pow256Values();
    AtSplit(data, cursor, LittleEndian(|s|, 2), s);
    UintReadsBack(data, cursor, |s|, 2);
  }

  /** DemPutU16/U32/U64 and PushU16/U32/U64: append the bytes of `value` one shift at a time. */
  method PutUint(out: Bytes, value: nat, width: nat) returns (grown: Bytes)
    ensures grown == out + LittleEndian(value, width)
  {
    grown := out;
    for i := 0 to width
      invariant grown == out + LittleEndian(value, i)
    {
      LittleEndianSnoc(value, i);
      grown := grown + [(value / Pow256(i) % 256) as char];
    }
  }

  /** DemGetU16/U32/U64 and ReadU16/U32/U64: collect the bytes at the cursor, or refuse a short buffer
      and leave the cursor alone. */
  method GetUint(data: Bytes, cursor: nat, width: nat) returns (ok: bool, next: nat, value: nat)
    ensures ok <==> ReadUint(data, cursor, width).Got?
    ensures ok ==> ReadUint(data, cursor, width) == Got(value, next)
    ensures !ok ==> next == cursor
  {
    if cursor + width > |data| {
      return false, cursor, 0;
    }
    value := 0;
    for i := 0 to width
      invariant value == FromLittleEndian(data[cursor..cursor + i])
    {
      FromLittleEndianSnoc(data[cursor..cursor + i], data[cursor + i]);
      assert data[cursor..cursor + i + 1] == data[cursor..cursor + i] + [data[cursor + i]];
      value := value + Octet(data[cursor + i]) * Pow256(i);
    }
    ok, next := true, cursor + width;
  }

  /** DemPutBytes: the length is cast to 16 bits, the bytes are appended whole. */
  method PutPrefixed(out: Bytes, value: Bytes) returns (grown: Bytes)
    ensures grown == out + PrefixedBytes(value)
  {
    grown := PutUint(out, |value| % TWO_16, 2);
    grown := grown + value;
  }

  /** DemGetBytes and ReadString. */
  method GetPrefixed(data: Bytes, cursor: nat) returns (ok: bool, next: nat, value: Bytes)
    ensures ok <==> ReadPrefixed(data, cursor).Got?
    ensures ok ==> ReadPrefixed(data, cursor) == Got(value, next)
  {
    var len: nat;
    value := "";
    ok, next, len := GetUint(data, cursor, 2);
    if !ok {
      return;
    }
    if next + len > |data| {
      ok := false;
      return;
    }
    value := data[next..next + len];
    next := next + len;
  }
}
