/** The small JSON reader of src/dem.cpp: what it accepts (the functions), the cursor-moving class that
    runs it, and the printer it undoes. */
module DemJson {
  import opened Bytes
  import opened Text

  datatype Json =
    | JNull
    | JBool(b: bool)
    | JNumber(text: string)
    | JString(s: string)
    | JArray(items: seq<Json>)
    | JObject(fields: seq<Field>)

  datatype Field = Field(key: string, value: Json)

  const MAX_DEPTH: nat := 32

  // ---- What the reader accepts ----

  predicate IsSpace(c: char) {
    c == ' ' || c == '\t' || c == '\n' || c == '\r'
  }

  function SkipSpace(t: string, i: nat): (k: nat)
    requires i <= |t|
    ensures i <= k <= |t|
    decreases |t| - i
  {
    if i < |t| && IsSpace(t[i]) then SkipSpace(t, i + 1) else i
  }

  function DigitsEnd(t: string, i: nat): (k: nat)
    requires i <= |t|
    ensures i <= k <= |t|
    decreases |t| - i
  {
    if i < |t| && IsDigit(t[i]) then DigitsEnd(t, i + 1) else i
  }

  /** The end of an optional fraction at `i`. */
  function FractionEnd(t: string, i: nat): (r: Read<()>)
    requires i <= |t|
    ensures r.Got? ==> i <= r.next <= |t|
  {
    if i < |t| && t[i] == '.' then
      var end := DigitsEnd(t, i + 1);
      if end == i + 1 then NoRead else Got((), end)
    else Got((), i)
  }

  /** The end of an optional exponent at `i`. */
  function ExponentEnd(t: string, i: nat): (r: Read<()>)
    requires i <= |t|
    ensures r.Got? ==> i <= r.next <= |t|
  {
    if i < |t| && (t[i] == 'e' || t[i] == 'E') then
      var start := if i + 1 < |t| && (t[i + 1] == '+' || t[i + 1] == '-') then i + 2 else i + 1;
      var end := DigitsEnd(t, start);
      if end == start then NoRead else Got((), end)
    else Got((), i)
  }

  function Number(t: string, i: nat): (r: Read<Json>)
    requires i <= |t|
    ensures r.Got? ==> i < r.next <= |t|
  {
    var start := if i < |t| && t[i] == '-' then i + 1 else i;
    var end := DigitsEnd(t, start);
    if end == start then NoRead else
    match FractionEnd(t, end)
    case NoRead => NoRead
    case Got(_, fraction) =>
      match ExponentEnd(t, fraction)
      case NoRead => NoRead
      case Got(_, stop) => Got(JNumber(t[i..stop]), stop)
  }

  function HexValue(c: char): Read<nat> {
    if IsDigit(c) then Got(c as int - '0' as int, 0)
    else if 'a' <= c <= 'f' then Got(c as int - 'a' as int + 10, 0)
    else if 'A' <= c <= 'F' then Got(c as int - 'A' as int + 10, 0)
    else NoRead
  }

  /** The value of the hexadecimal digits `t[i..i + n]`. */
  function HexRun(t: string, i: nat, n: nat): (r: Read<nat>)
    requires i + n <= |t|
    ensures r.Got? ==> r.value < Pow16(n) && r.next == i + n
  {
    if n == 0 then Got(0, i) else
    match HexRun(t, i, n - 1)
    case NoRead => NoRead
    case Got(high, _) =>
      match HexValue(t[i + n - 1])
      case NoRead => NoRead
      case Got(d, _) => Got(high * 16 + d, i + n)
  }

  function Pow16(n: nat): nat {
    if n == 0 then 1 else 16 * Pow16(n - 1)
  }

  lemma Pow16Four()
    ensures Pow16(4) == 0x1_0000
  {
    assert Pow16(2) == 256;
    assert Pow16(3) == 16 * Pow16(2);
  }

  function Hex4(t: string, i: nat): (r: Read<nat>)
    ensures r.Got? ==> r.value < 0x1_0000 && r.next == i + 4 <= |t|
  {
    Pow16Four();
    if i + 4 > |t| then NoRead else HexRun(t, i, 4)
  }

  function Utf8(code: nat): string
    requires code < 0x11_0000
  {
    if code <= 0x7F then [code as char]
    else if code <= 0x7FF then [(0xC0 + code / 64) as char, (0x80 + code % 64) as char]
    else if code <= 0xFFFF then
      [(0xE0 + code / 4096) as char, (0x80 + code / 64 % 64) as char, (0x80 + code % 64) as char]
    else
      [(0xF0 + code / 262144) as char, (0x80 + code / 4096 % 64) as char,
       (0x80 + code / 64 % 64) as char, (0x80 + code % 64) as char]
  }

  /** A \u escape whose digits start at `i`, with its low surrogate where one is due. */
  function UnicodeEscape(t: string, i: nat): (r: Read<string>)
    ensures r.Got? ==> i < r.next <= |t|
  {
    match Hex4(t, i)
    case NoRead => NoRead
    case Got(code, next) =>
      if 0xD800 <= code <= 0xDBFF then
        if next + 2 > |t| || t[next] != '\\' || t[next + 1] != 'u' then NoRead else
        match Hex4(t, next + 2)
        case NoRead => NoRead
        case Got(low, end) =>
          if low < 0xDC00 || low > 0xDFFF then NoRead
          else Got(Utf8(0x1_0000 + (code - 0xD800) * 1024 + (low - 0xDC00)), end)
      else if 0xDC00 <= code <= 0xDFFF then NoRead
      else Got(Utf8(code), next)
  }

  /** One character or one escape sequence of a string body. */
  function StringUnit(t: string, i: nat): (r: Read<string>)
    requires i < |t|
    ensures r.Got? ==> i < r.next <= |t|
  {
    if t[i] < ' ' then NoRead
    else if t[i] != '\\' then Got([t[i]], i + 1)
    else if i + 1 >= |t| then NoRead
    else match t[i + 1]
      case '"' => Got("\"", i + 2)
      case '\\' => Got("\\", i + 2)
      case '/' => Got("/", i + 2)
      case 'b' => Got("\U{8}", i + 2)
      case 'f' => Got("\U{c}", i + 2)
      case 'n' => Got("\n", i + 2)
      case 'r' => Got("\r", i + 2)
      case 't' => Got("\t", i + 2)
      case 'u' => UnicodeEscape(t, i + 2)
      case _ => NoRead
  }

  /** The rest of a string whose first `|acc|` characters are read. */
  function StringBody(t: string, i: nat, acc: string): (r: Read<string>)
    requires i <= |t|
    ensures r.Got? ==> i < r.next <= |t|
    decreases |t| - i
  {
    if i == |t| then NoRead
    else if t[i] == '"' then Got(acc, i + 1)
    else match StringUnit(t, i)
      case NoRead => NoRead
      case Got(unit, next) => StringBody(t, next, acc + unit)
  }

  function StringAt(t: string, i: nat): (r: Read<string>)
    requires i <= |t|
    ensures r.Got? ==> i < r.next <= |t|
  {
    if i == |t| || t[i] != '"' then NoRead else StringBody(t, i + 1, "")
  }

  predicate HasWord(t: string, i: nat, word: string) {
    i + |word| <= |t| && t[i..i + |word|] == word
  }

  function Value(t: string, i: nat, depth: nat): (r: Read<Json>)
    requires i <= |t|
    ensures r.Got? ==> i < r.next <= |t|
    decreases MAX_DEPTH + 1 - depth, |t| - i, 1
  {
    if depth > MAX_DEPTH || i == |t| then NoRead
    else if t[i] == '{' then
      var k := SkipSpace(t, i + 1);
      if k < |t| && t[k] == '}' then Got(JObject([]), k + 1) else Members(t, k, depth, [])
    else if t[i] == '[' then
      var k := SkipSpace(t, i + 1);
      if k < |t| && t[k] == ']' then Got(JArray([]), k + 1) else Items(t, k, depth, [])
    else if t[i] == '"' then
      match StringAt(t, i) { case NoRead => NoRead case Got(s, next) => Got(JString(s), next) }
    else if t[i] == 't' then if HasWord(t, i, "true") then Got(JBool(true), i + 4) else NoRead
    else if t[i] == 'f' then if HasWord(t, i, "false") then Got(JBool(false), i + 5) else NoRead
    else if t[i] == 'n' then if HasWord(t, i, "null") then Got(JNull, i + 4) else NoRead
    else Number(t, i)
  }

  /** A value one level down, white space in front of it. */
  function Nested(t: string, i: nat, depth: nat): (r: Read<Json>)
    requires i <= |t| && depth <= MAX_DEPTH
    ensures r.Got? ==> i < r.next <= |t|
    decreases MAX_DEPTH + 1 - depth, |t| - i, 0
  {
    Value(t, SkipSpace(t, i), depth + 1)
  }

  /** One member: key, colon, value. */
  function Member(t: string, i: nat, depth: nat): (r: Read<Field>)
    requires i <= |t| && depth <= MAX_DEPTH
    ensures r.Got? ==> i < r.next <= |t|
    decreases MAX_DEPTH + 1 - depth, |t| - i, 0
  {
    match StringAt(t, SkipSpace(t, i))
    case NoRead => NoRead
    case Got(key, afterKey) =>
      var colon := SkipSpace(t, afterKey);
      if colon == |t| || t[colon] != ':' then NoRead else
      match Nested(t, colon + 1, depth)
      case NoRead => NoRead
      case Got(value, afterValue) => Got(Field(key, value), afterValue)
  }

  /** The members from `i` on, `acc` being those already read. */
  function Members(t: string, i: nat, depth: nat, acc: seq<Field>): (r: Read<Json>)
    requires i <= |t| && depth <= MAX_DEPTH
    ensures r.Got? ==> i < r.next <= |t|
    decreases MAX_DEPTH + 1 - depth, |t| - i, 1
  {
    match Member(t, i, depth)
    case NoRead => NoRead
    case Got(field, afterValue) =>
      var k := SkipSpace(t, afterValue);
      if k == |t| then NoRead
      else if t[k] == ',' then Members(t, k + 1, depth, acc + [field])
      else if t[k] == '}' then Got(JObject(acc + [field]), k + 1)
      else NoRead
  }

  function Items(t: string, i: nat, depth: nat, acc: seq<Json>): (r: Read<Json>)
    requires i <= |t| && depth <= MAX_DEPTH
    ensures r.Got? ==> i < r.next <= |t|
    decreases MAX_DEPTH + 1 - depth, |t| - i, 1
  {
    match Nested(t, i, depth)
    case NoRead => NoRead
    case Got(value, afterValue) =>
      var k := SkipSpace(t, afterValue);
      if k == |t| then NoRead
      else if t[k] == ',' then Items(t, k + 1, depth, acc + [value])
      else if t[k] == ']' then Got(JArray(acc + [value]), k + 1)
      else NoRead
  }

  /** A whole document: one value, white space around it, nothing else. */
  function Parse(t: string): Read<Json> {
    match Value(t, SkipSpace(t, 0), 0)
    case NoRead => NoRead
    case Got(value, next) => if SkipSpace(t, next) == |t| then Got(value, |t|) else NoRead
  }

  // ---- The class that runs it ----

  class DemJsonParser {
    const text: string
    var cursor: nat

    ghost predicate Valid()
      reads this
    {
      cursor <= |text|
    }

    constructor (text: string)
      ensures Valid() && this.text == text && cursor == 0
    {
      this.text := text;
      cursor := 0;
    }

    method SkipWhitespace()
      requires Valid()
      modifies this
      ensures Valid() && cursor == SkipSpace(text, old(cursor))
    {
      while cursor < |text|
        invariant Valid() && SkipSpace(text, cursor) == SkipSpace(text, old(cursor))
      {
        if !IsSpace(text[cursor]) {
          break;
        }
        cursor := cursor + 1;
      }
    }

    method SkipDigits()
      requires Valid()
      modifies this
      ensures Valid() && cursor == DigitsEnd(text, old(cursor))
    {
      while cursor < |text| && IsDigit(text[cursor])
        invariant Valid() && DigitsEnd(text, cursor) == DigitsEnd(text, old(cursor))
      {
        cursor := cursor + 1;
      }
    }

    method ParseHex4() returns (ok: bool, code: nat)
      requires Valid()
      modifies this
      ensures Valid()
      ensures ok == Hex4(text, old(cursor)).Got?
      ensures ok ==> Hex4(text, old(cursor)) == Got(code, cursor) && code < 0x1_0000
    {
      code := 0;
      if cursor + 4 > |text| {
        return false, 0;
      }
      for i := 0 to 4
        invariant cursor == old(cursor)
        invariant HexRun(text, cursor, i) == Got(code, cursor + i)
      {
        var digit := HexValue(text[cursor + i]);
        if digit.NoRead? {
          HexRunStops(text, cursor, i + 1, 4);
          return false, 0;
        }
        code := code * 16 + digit.value;
      }
      cursor := cursor + 4;
      ok := true;
    }

    method ParseUnicode() returns (ok: bool, unit: string)
      requires Valid()
      modifies this
      ensures Valid()
      ensures ok == UnicodeEscape(text, old(cursor)).Got?
      ensures ok ==> UnicodeEscape(text, old(cursor)) == Got(unit, cursor)
    {
      unit := "";
      var code: nat;
      ok, code := ParseHex4();
      if !ok {
        return;
      }
      if 0xD800 <= code <= 0xDBFF {
        if cursor + 2 > |text| || text[cursor] != '\\' || text[cursor + 1] != 'u' {
          return false, "";
        }
        cursor := cursor + 2;
        var low: nat;
        ok, low := ParseHex4();
        if !ok {
          return;
        }
        if low < 0xDC00 || low > 0xDFFF {
          return false, "";
        }
        code := 0x1_0000 + (code - 0xD800) * 1024 + (low - 0xDC00);
      } else if 0xDC00 <= code <= 0xDFFF {
        return false, "";
      }
      unit := Utf8(code);
    }

    /** The body of ParseString's loop behind the closing-quote test: one character or escape. */
    method ParseUnit() returns (ok: bool, unit: string)
      requires Valid() && cursor < |text|
      modifies this
      ensures Valid()
      ensures ok == StringUnit(text, old(cursor)).Got?
      ensures ok ==> StringUnit(text, old(cursor)) == Got(unit, cursor)
    {
      var ch := text[cursor];
      if ch < ' ' {
        return false, "";
      }
      cursor := cursor + 1;
      if ch != '\\' {
        return true, [ch];
      }
      if cursor >= |text| {
        return false, "";
      }
      var esc := text[cursor];
      cursor := cursor + 1;
      ok := true;
      match esc {
        case '"' => unit := "\"";
        case '\\' => unit := "\\";
        case '/' => unit := "/";
        case 'b' => unit := "\U{8}";
        case 'f' => unit := "\U{c}";
        case 'n' => unit := "\n";
        case 'r' => unit := "\r";
        case 't' => unit := "\t";
        case 'u' => ok, unit := ParseUnicode();
        case _ => ok, unit := false, "";
      }
    }

    method ParseString() returns (ok: bool, out: string)
      requires Valid()
      modifies this
      ensures Valid()
      ensures ok == StringAt(text, old(cursor)).Got?
      ensures ok ==> StringAt(text, old(cursor)) == Got(out, cursor)
    {
      out := "";
      if cursor >= |text| || text[cursor] != '"' {
        return false, "";
      }
      cursor := cursor + 1;
      while cursor < |text|
        invariant Valid()
        invariant StringBody(text, cursor, out) == StringAt(text, old(cursor))
        decreases |text| - cursor
      {
        if text[cursor] == '"' {
          cursor := cursor + 1;
          return true, out;
        }
        var unit;
        ok, unit := ParseUnit();
        if !ok {
          return;
        }
        out := out + unit;
      }
      ok := false;
    }

    method SkipFraction() returns (ok: bool)
      requires Valid()
      modifies this
      ensures Valid()
      ensures ok == FractionEnd(text, old(cursor)).Got?
      ensures ok ==> FractionEnd(text, old(cursor)) == Got((), cursor)
    {
      ok := true;
      if cursor < |text| && text[cursor] == '.' {
        cursor := cursor + 1;
        var fracStart := cursor;
        SkipDigits();
        ok := cursor != fracStart;
      }
    }

    method SkipExponent() returns (ok: bool)
      requires Valid()
      modifies this
      ensures Valid()
      ensures ok == ExponentEnd(text, old(cursor)).Got?
      ensures ok ==> ExponentEnd(text, old(cursor)) == Got((), cursor)
    {
      ok := true;
      if cursor < |text| && (text[cursor] == 'e' || text[cursor] == 'E') {
        cursor := cursor + 1;
        if cursor < |text| && (text[cursor] == '+' || text[cursor] == '-') {
          cursor := cursor + 1;
        }
        var expStart := cursor;
        SkipDigits();
        ok := cursor != expStart;
      }
    }

    method ParseNumber() returns (ok: bool, out: Json)
      requires Valid()
      modifies this
      ensures Valid()
      ensures ok == Number(text, old(cursor)).Got?
      ensures ok ==> Number(text, old(cursor)) == Got(out, cursor)
    {
      out := JNull;
      var start := cursor;
      if cursor < |text| && text[cursor] == '-' {
        cursor := cursor + 1;
      }
      var intStart := cursor;
      SkipDigits();
      if cursor == intStart {
        return false, JNull;
      }
      ok := SkipFraction();
      if !ok {
        return;
      }
      ok := SkipExponent();
      if !ok {
        return;
      }
      out := JNumber(text[start..cursor]);
    }

    method Literal(word: string) returns (ok: bool)
      requires Valid()
      modifies this
      ensures Valid()
      ensures ok == HasWord(text, old(cursor), word)
      ensures cursor == if ok then old(cursor) + |word| else old(cursor)
    {
      ok := cursor + |word| <= |text| && text[cursor..cursor + |word|] == word;
      if ok {
        cursor := cursor + |word|;
      }
    }

    method ParseValue(depth: nat) returns (ok: bool, out: Json)
      requires Valid()
      modifies this
      ensures Valid()
      ensures ok == Value(text, old(cursor), depth).Got?
      ensures ok ==> Value(text, old(cursor), depth) == Got(out, cursor)
      decreases MAX_DEPTH + 1 - depth, |text| - cursor, 1
    {
      out := JNull;
      if depth > MAX_DEPTH || cursor >= |text| {
        return false, JNull;
      }
      var ch := text[cursor];
      if ch == '{' {
        ok, out := ParseObject(depth);
      } else if ch == '[' {
        ok, out := ParseArray(depth);
      } else if ch == '"' {
        var s;
        ok, s := ParseString();
        out := JString(s);
      } else if ch == 't' {
        ok := Literal("true");
        out := JBool(true);
      } else if ch == 'f' {
        ok := Literal("false");
        out := JBool(false);
      } else if ch == 'n' {
        ok := Literal("null");
      } else {
        ok, out := ParseNumber();
      }
    }

    method ParseNested(depth: nat) returns (ok: bool, out: Json)
      requires Valid() && depth <= MAX_DEPTH
      modifies this
      ensures Valid()
      ensures ok == Nested(text, old(cursor), depth).Got?
      ensures ok ==> Nested(text, old(cursor), depth) == Got(out, cursor)
      decreases MAX_DEPTH + 1 - depth, |text| - cursor, 0
    {
      SkipWhitespace();
      ok, out := ParseValue(depth + 1);
    }

    method ParseMember(depth: nat) returns (ok: bool, field: Field)
      requires Valid() && depth <= MAX_DEPTH
      modifies this
      ensures Valid()
      ensures ok == Member(text, old(cursor), depth).Got?
      ensures ok ==> Member(text, old(cursor), depth) == Got(field, cursor)
      decreases MAX_DEPTH + 1 - depth, |text| - cursor, 0
    {
      SkipWhitespace();
      var key, value;
      ok, key := ParseString();
      field := Field(key, JNull);
      if !ok {
        return;
      }
      SkipWhitespace();
      if cursor >= |text| || text[cursor] != ':' {
        return false, field;
      }
      cursor := cursor + 1;
      ok, value := ParseNested(depth);
      field := Field(key, value);
    }

    /** The member loop of ParseObject. */
    method ParseMembers(depth: nat) returns (ok: bool, out: Json)
      requires Valid() && depth <= MAX_DEPTH
      modifies this
      ensures Valid()
      ensures ok == Members(text, old(cursor), depth, []).Got?
      ensures ok ==> Members(text, old(cursor), depth, []) == Got(out, cursor)
      decreases MAX_DEPTH + 1 - depth, |text| - cursor, 1
    {
      out := JNull;
      var fields: seq<Field> := [];
      ghost var whole := Members(text, cursor, depth, []);
      while true
        invariant Valid() && cursor >= old(cursor)
        invariant Members(text, cursor, depth, fields) == whole
        decreases |text| - cursor
      {
        var field;
        ok, field := ParseMember(depth);
        if !ok {
          return;
        }
        fields := fields + [field];
        SkipWhitespace();
        if cursor >= |text| {
          return false, JNull;
        }
        if text[cursor] == ',' {
          cursor := cursor + 1;
          continue;
        }
        if text[cursor] == '}' {
          cursor := cursor + 1;
          return true, JObject(fields);
        }
        return false, JNull;
      }
    }

    method ParseObject(depth: nat) returns (ok: bool, out: Json)
      requires Valid() && depth <= MAX_DEPTH
      requires cursor < |text| && text[cursor] == '{'
      modifies this
      ensures Valid()
      ensures ok == Value(text, old(cursor), depth).Got?
      ensures ok ==> Value(text, old(cursor), depth) == Got(out, cursor)
      decreases MAX_DEPTH + 1 - depth, |text| - cursor, 0
    {
      cursor := cursor + 1;
      SkipWhitespace();
      if cursor < |text| && text[cursor] == '}' {
        cursor := cursor + 1;
        return true, JObject([]);
      }
      ok, out := ParseMembers(depth);
    }

    /** The element loop of ParseArray. */
    method ParseItems(depth: nat) returns (ok: bool, out: Json)
      requires Valid() && depth <= MAX_DEPTH
      modifies this
      ensures Valid()
      ensures ok == Items(text, old(cursor), depth, []).Got?
      ensures ok ==> Items(text, old(cursor), depth, []) == Got(out, cursor)
      decreases MAX_DEPTH + 1 - depth, |text| - cursor, 1
    {
      out := JNull;
      var items: seq<Json> := [];
      ghost var whole := Items(text, cursor, depth, []);
      while true
        invariant Valid() && cursor >= old(cursor)
        invariant Items(text, cursor, depth, items) == whole
        decreases |text| - cursor
      {
        var value;
        ok, value := ParseNested(depth);
        if !ok {
          return;
        }
        items := items + [value];
        SkipWhitespace();
        if cursor >= |text| {
          return false, JNull;
        }
        if text[cursor] == ',' {
          cursor := cursor + 1;
          continue;
        }
        if text[cursor] == ']' {
          cursor := cursor + 1;
          return true, JArray(items);
        }
        return false, JNull;
      }
    }

    method ParseArray(depth: nat) returns (ok: bool, out: Json)
      requires Valid() && depth <= MAX_DEPTH
      requires cursor < |text| && text[cursor] == '['
      modifies this
      ensures Valid()
      ensures ok == Value(text, old(cursor), depth).Got?
      ensures ok ==> Value(text, old(cursor), depth) == Got(out, cursor)
      decreases MAX_DEPTH + 1 - depth, |text| - cursor, 0
    {
      cursor := cursor + 1;
      SkipWhitespace();
      if cursor < |text| && text[cursor] == ']' {
        cursor := cursor + 1;
        return true, JArray([]);
      }
      ok, out := ParseItems(depth);
    }

    /** The public entry: the whole text must be one value. */
    method ParseDocument() returns (ok: bool, out: Json)
      requires Valid() && cursor == 0
      modifies this
      ensures ok == Parse(text).Got?
      ensures ok ==> Parse(text) == Got(out, |text|)
    {
      SkipWhitespace();
      ok, out := ParseValue(0);
      if !ok {
        return;
      }
      SkipWhitespace();
      ok := cursor == |text|;
    }
  }

  lemma {:induction false} HexRunStops(t: string, i: nat, m: nat, n: nat)
    requires m <= n && i + n <= |t|
    requires HexRun(t, i, m).NoRead?
    ensures HexRun(t, i, n).NoRead?
  {
    if m < n {
      HexRunStops(t, i, m, n - 1);
    }
  }
}
