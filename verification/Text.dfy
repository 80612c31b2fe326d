/** Decimal and JSON text: std::to_string, its reading back, and the JSON string escape that
    src/dem.cpp, src/simulation.cpp and src/result.cpp each carry a copy of. */
module Text {

  predicate IsDigit(c: char) {
    '0' <= c <= '9'
  }

  predicate AllDigits(s: string) {
    forall i :: 0 <= i < |s| ==> IsDigit(s[i])
  }

  function DigitOf(d: nat): (c: char)
    requires d < 10
    ensures IsDigit(c) && c as int - '0' as int == d
  {
    ('0' as int + d) as char
  }

  /** std::to_string of an unsigned value. */
  function Dec(n: nat): (s: string)
    ensures |s| > 0 && AllDigits(s)
  {
    if n < 10 then [DigitOf(n)] else Dec(n / 10) + [DigitOf(n % 10)]
  }

  /** std::to_string of a signed value. */
  function DecInt(n: int): (s: string)
    ensures |s| > 0
  {
    if n < 0 then "-" + Dec(-n) else Dec(n)
  }

  function DecValue(s: string): nat
    requires AllDigits(s)
  {
    if s == "" then 0 else DecValue(s[..|s| - 1]) * 10 + (s[|s| - 1] as int - '0' as int)
  }

  lemma {:induction false} DecValueOfDec(n: nat)
    ensures DecValue(Dec(n)) == n
  {
    if n >= 10 {
      DecValueOfDec(n / 10);
      var s := Dec(n);
      assert s[..|s| - 1] == Dec(n / 10);
    } else {
      assert Dec(n)[..0] == "";
    }
  }

  lemma DecInjective(m: nat, n: nat)
    requires Dec(m) == Dec(n)
    ensures m == n
  {
    DecValueOfDec(m);
    DecValueOfDec(n);
  }

  lemma DecIntSign(n: int)
    ensures DecInt(n)[0] == '-' <==> n < 0
  {
    if n >= 0 {
      assert IsDigit(Dec(n)[0]);
    }
  }

  lemma DecIntInjective(m: int, n: int)
    requires DecInt(m) == DecInt(n)
    ensures m == n
  {
    DecIntSign(m);
    DecIntSign(n);
    if m < 0 {
      assert DecInt(m)[1..] == Dec(-m);
      assert DecInt(n)[1..] == Dec(-n);
      DecInjective(-m, -n);
    } else {
      DecInjective(m, n);
    }
  }

  // ---- JSON string escape ----

  function HexDigit(d: nat): (c: char)
    requires d < 16
  {
    "0123456789abcdef"[d]
  }

  function EscapeChar(c: char): (s: string)
    ensures |s| > 0
  {
    if c == '"' then "\\\""
    else if c == '\\' then "\\\\"
    else if c == '\U{8}' then "\\b"
    else if c == '\U{c}' then "\\f"
    else if c == '\n' then "\\n"
    else if c == '\r' then "\\r"
    else if c == '\t' then "\\t"
    else if c < ' ' then "\\u00" + [HexDigit(c as int / 16), HexDigit(c as int % 16)]
    else [c]
  }

  function JsonEscape(s: string): string {
    if s == "" then "" else EscapeChar(s[0]) + JsonEscape(s[1..])
  }

  function JsonString(s: string): string {
    "\"" + JsonEscape(s) + "\""
  }

  lemma {:induction false} JsonEscapeSnoc(s: string, c: char)
    ensures JsonEscape(s + [c]) == JsonEscape(s) + EscapeChar(c)
  {
    if s == "" {
      assert s + [c] == [c];
      assert JsonEscape([c]) == EscapeChar(c) + JsonEscape("");
    } else {
      assert (s + [c])[1..] == s[1..] + [c];
      JsonEscapeSnoc(s[1..], c);
      assert EscapeChar(s[0]) + (JsonEscape(s[1..]) + EscapeChar(c)) == JsonEscape(s) + EscapeChar(c);
    }
  }

  /** DemJsonEscape: one pass over the characters, appending. */
  method EscapeText(value: string) returns (out: string)
    ensures out == JsonEscape(value)
  {
    out := "";
    for i := 0 to |value|
      invariant out == JsonEscape(value[..i])
    {
      assert value[..i + 1] == value[..i] + [value[i]];
      JsonEscapeSnoc(value[..i], value[i]);
      out := out + EscapeChar(value[i]);
    }
    assert value[..|value|] == value;
  }

  /** Section 7 of RFC 8259: no control character stands raw in an escaped string, and a quotation mark
      only behind a reverse solidus. */
  lemma {:induction false} EscapeIsQuoteSafe(s: string)
    ensures forall i :: 0 <= i < |JsonEscape(s)| ==> JsonEscape(s)[i] >= ' '
    ensures forall i :: 0 <= i < |JsonEscape(s)| && JsonEscape(s)[i] == '"' ==> i > 0 && JsonEscape(s)[i - 1] == '\\'
  {
    if s != "" {
      EscapeIsQuoteSafe(s[1..]);
      var head, tail := EscapeChar(s[0]), JsonEscape(s[1..]);
      forall i | 0 <= i < |JsonEscape(s)|
        ensures JsonEscape(s)[i] >= ' '
        ensures JsonEscape(s)[i] == '"' ==> i > 0 && JsonEscape(s)[i - 1] == '\\'
      {
        if i >= |head| {
          assert JsonEscape(s)[i] == tail[i - |head|];
        }
      }
    }
  }
}
