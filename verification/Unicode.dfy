/** The \u escapes of src/dem.cpp: any text of Unicode, spelled in escapes, reads as its UTF-8 encoding (section 3
    of RFC 3629), surrogate pairs included. */
module Unicode {
  import opened Bytes
  import opened DemJson

  /** A Unicode scalar value. */
  type Scalar = code: nat | code < 0x11_0000 && !(0xD800 <= code <= 0xDFFF)

  // ---- UTF-8 ----

  predicate Continues(c: char) {
    0x80 <= c as int < 0xC0
  }

  /** How many bytes a character has, by its first. */
  function Width(lead: char): nat {
    var b := lead as int;
    if b < 0x80 then 1 else if b < 0xC0 then 0 else if b < 0xE0 then 2 else if b < 0xF0 then 3 else if b < 0xF8 then 4 else 0
  }

  /** The six bits a continuation byte carries. */
  function Bits(c: char): nat
    requires Continues(c)
  {
    c as int - 0x80
  }

  predicate WellFormed(s: string) {
    s != "" && |s| == Width(s[0]) && forall k :: 0 < k < |s| ==> Continues(s[k])
  }

  /** The code a well-formed character carries. */
  function CodeOf(s: string): nat
    requires WellFormed(s)
  {
    var b := s[0] as int;
    if |s| == 1 then b
    else if |s| == 2 then (b - 0xC0) * 64 + Bits(s[1])
    else if |s| == 3 then ((b - 0xE0) * 64 + Bits(s[1])) * 64 + Bits(s[2])
    else (((b - 0xF0) * 64 + Bits(s[1])) * 64 + Bits(s[2])) * 64 + Bits(s[3])
  }

  /** The fewest bytes that carry the code. */
  function Fewest(code: nat): nat {
    if code < 0x80 then 1 else if code < 0x800 then 2 else if code < 0x1_0000 then 3 else 4
  }

  lemma Utf8Carries(code: Scalar)
    ensures WellFormed(Utf8(code)) && CodeOf(Utf8(code)) == code && |Utf8(code)| == Fewest(code)
  {
    var s := Utf8(code);
    if code >= 0x1_0000 {
      Sixes(code);
      assert s[0] as int == 0xF0 + code / 262144 && s[1] as int == 0x80 + code / 4096 % 64;
      assert s[2] as int == 0x80 + code / 64 % 64 && s[3] as int == 0x80 + code % 64;
      hide Utf8;
    }
  }

  lemma Sixes(code: nat)
    requires code < 0x11_0000
    ensures code / 262144 < 5 && ((code / 262144 * 64 + code / 4096 % 64) * 64 + code / 64 % 64) * 64 + code % 64 == code
  {
  }

  // ---- Spelling in escapes ----

  /** A hexadecimal digit, lower or upper case. */
  function Digit(d: nat, upper: bool): char
    requires d < 16
  {
    if upper then "0123456789ABCDEF"[d] else "0123456789abcdef"[d]
  }

  function Unit(n: nat, upper: bool): (s: string)
    requires n < 0x1_0000
    ensures |s| == 6
  {
    ['\\', 'u', Digit(n / 4096, upper), Digit(n / 256 % 16, upper), Digit(n / 16 % 16, upper), Digit(n % 16, upper)]
  }

  /** A scalar value in UTF-16 escapes: one, or a surrogate pair. */
  function Spelled(code: Scalar, upper: bool): (s: string)
    ensures |s| >= 6
  {
    if code < 0x1_0000 then Unit(code, upper)
    else Unit(0xD800 + (code - 0x1_0000) / 1024, upper) + Unit(0xDC00 + (code - 0x1_0000) % 1024, upper)
  }

  lemma DigitReads(d: nat, upper: bool)
    requires d < 16
    ensures HexValue(Digit(d, upper)) == Got(d, 0)
  {
  }

  lemma FourDigits(n: nat)
    requires n < 0x1_0000
    ensures n / 4096 < 16 && ((n / 4096 * 16 + n / 256 % 16) * 16 + n / 16 % 16) * 16 + n % 16 == n
  {
  }

  lemma UnitReads(t: string, i: nat, n: nat, upper: bool)
    requires n < 0x1_0000 && At(t, i, Unit(n, upper))
    ensures i + 6 <= |t| && t[i] == '\\' && t[i + 1] == 'u' && Hex4(t, i + 2) == Got(n, i + 6)
  {
    var a, b, c, d := n / 4096, n / 256 % 16, n / 16 % 16, n % 16;
    FourDigits(n);
    UnitAt(t, i, n, upper);
    DigitReads(a, upper);
    DigitReads(b, upper);
    DigitReads(c, upper);
    DigitReads(d, upper);
    DigitsRun(t, i + 2, a, b, c, d);
    hide HexRun, HexValue, Unit, Digit;
  }

  lemma UnitAt(t: string, i: nat, n: nat, upper: bool)
    requires n < 0x1_0000 && At(t, i, Unit(n, upper))
    ensures i + 6 <= |t| && t[i] == '\\' && t[i + 1] == 'u'
    ensures t[i + 2] == Digit(n / 4096, upper) && t[i + 3] == Digit(n / 256 % 16, upper)
    ensures t[i + 4] == Digit(n / 16 % 16, upper) && t[i + 5] == Digit(n % 16, upper)
  {
    var u := Unit(n, upper);
    hide Digit;
    assert t[i..i + 6] == u;
    assert t[i] == u[0] && t[i + 1] == u[1] && t[i + 2] == u[2] && t[i + 3] == u[3] && t[i + 4] == u[4] && t[i + 5] == u[5];
  }

  lemma DigitsRun(t: string, i: nat, a: nat, b: nat, c: nat, d: nat)
    requires i + 4 <= |t| && HexValue(t[i]) == Got(a, 0) && HexValue(t[i + 1]) == Got(b, 0)
    requires HexValue(t[i + 2]) == Got(c, 0) && HexValue(t[i + 3]) == Got(d, 0)
    ensures HexRun(t, i, 4) == Got(((a * 16 + b) * 16 + c) * 16 + d, i + 4)
  {
    hide HexValue;
    assert HexRun(t, i, 0) == Got(0, i);
    assert HexRun(t, i, 1) == Got(a, i + 1);
    assert HexRun(t, i, 2) == Got(a * 16 + b, i + 2);
    assert HexRun(t, i, 3) == Got((a * 16 + b) * 16 + c, i + 3);
  }

  /** Reading one spelled scalar value gives its UTF-8 bytes. */
  lemma SpelledReads(t: string, i: nat, code: Scalar, upper: bool)
    requires At(t, i, Spelled(code, upper))
    ensures i + |Spelled(code, upper)| <= |t|
    ensures t[i] == '\\' && StringUnit(t, i) == Got(Utf8(code), i + |Spelled(code, upper)|)
  {
    hide Hex4, Unit, Utf8;
    if code < 0x1_0000 {
      UnitReads(t, i, code, upper);
    } else {
      var high, low := 0xD800 + (code - 0x1_0000) / 1024, 0xDC00 + (code - 0x1_0000) % 1024;
      AtSplit(t, i, Unit(high, upper), Unit(low, upper));
      UnitReads(t, i, high, upper);
      UnitReads(t, i + 6, low, upper);
    }
  }

  // ---- Whole texts ----

  function SpelledAll(codes: seq<Scalar>, upper: bool): string
  {
    if codes == [] then "" else Spelled(codes[0], upper) + SpelledAll(codes[1..], upper)
  }

  function Encoded(codes: seq<Scalar>): string
  {
    if codes == [] then "" else Utf8(codes[0]) + Encoded(codes[1..])
  }

  /** The characters of a text, one after the other by their first byte. */
  function Decoded(s: string): seq<nat> {
    if s == "" then [] else
    var n := Width(s[0]);
    if n == 0 || n > |s| || !WellFormed(s[..n]) then [] else [CodeOf(s[..n])] + Decoded(s[n..])
  }

  lemma {:induction false} EncodedDecodes(codes: seq<Scalar>)
    ensures Decoded(Encoded(codes)) == codes
    decreases |codes|
  {
    if codes != [] {
      var first, rest := Utf8(codes[0]), Encoded(codes[1..]);
      Utf8Carries(codes[0]);
      EncodedDecodes(codes[1..]);
      hide Utf8, CodeOf, WellFormed;
      LeadOf(first);
      assert (first + rest)[..|first|] == first && (first + rest)[|first|..] == rest;
    }
  }

  lemma LeadOf(s: string)
    requires WellFormed(s)
    ensures s != "" && Width(s[0]) == |s|
  {
  }

  lemma {:induction false} SpelledAllReads(t: string, i: nat, codes: seq<Scalar>, upper: bool, acc: string)
    requires At(t, i, SpelledAll(codes, upper) + "\"")
    ensures i <= |t| && StringBody(t, i, acc) == Got(acc + Encoded(codes), i + |SpelledAll(codes, upper)| + 1)
    decreases |codes|
  {
    hide StringUnit, Spelled, Utf8;
    if codes == [] {
      assert t[i] == (SpelledAll(codes, upper) + "\"")[0] == '"' by { assert t[i..i + 1] == "\""; }
      assert acc + Encoded(codes) == acc;
    } else {
      var first, rest := Spelled(codes[0], upper), SpelledAll(codes[1..], upper);
      assert SpelledAll(codes, upper) + "\"" == first + (rest + "\"");
      AtSplit(t, i, first, rest + "\"");
      SpelledReads(t, i, codes[0], upper);
      SpelledAllReads(t, i + |first|, codes[1..], upper, acc + Utf8(codes[0]));
      assert acc + Utf8(codes[0]) + Encoded(codes[1..]) == acc + Encoded(codes);
    }
  }

  /** A document that spells any Unicode text in escapes, of either case, is read as the UTF-8 bytes of that text,
      from which it comes back. */
  lemma EscapedTextReads(codes: seq<Scalar>, upper: bool)
    ensures var t := "\"" + SpelledAll(codes, upper) + "\""; Parse(t) == Got(JString(Encoded(codes)), |t|)
    ensures Decoded(Encoded(codes)) == codes
  {
    EncodedDecodes(codes);
    hide *;
    var t := "\"" + SpelledAll(codes, upper) + "\"";
    QuotedAt(SpelledAll(codes, upper));
    SpelledAllReads(t, 1, codes, upper, "");
    assert "" + Encoded(codes) == Encoded(codes);
    StringDocument(t, Encoded(codes));
  }

  lemma QuotedAt(s: string)
    ensures At("\"" + s + "\"", 1, s + "\"")
  {
    assert ("\"" + s + "\"")[1..] == s + "\"";
  }

  lemma StringDocument(t: string, s: string)
    requires t != "" && t[0] == '"' && StringBody(t, 1, "") == Got(s, |t|)
    ensures Parse(t) == Got(JString(s), |t|)
  {
    hide StringBody, Members, Items, Number, HasWord;
    assert SkipSpace(t, 0) == 0;
    assert StringAt(t, 0) == Got(s, |t|);
    assert Value(t, 0, 0) == Got(JString(s), |t|);
  }

  /** A low surrogate with its escape stands here. */
  predicate LowAt(t: string, i: nat) {
    i + 6 <= |t| && t[i] == '\\' && t[i + 1] == 'u' && Hex4(t, i + 2).Got? && 0xDC00 <= Hex4(t, i + 2).value <= 0xDFFF
  }

  /** A surrogate without its partner is no character: the escape is refused. */
  lemma LoneSurrogateRefused(t: string, i: nat, n: nat, upper: bool)
    requires 0xD800 <= n <= 0xDFFF && At(t, i, Unit(n, upper)) && (n >= 0xDC00 || !LowAt(t, i + 6))
    ensures i < |t| && StringUnit(t, i) == NoRead
  {
    UnitReads(t, i, n, upper);
    hide Unit, Utf8, HexRun;
  }
}
