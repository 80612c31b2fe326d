/** The reader of src/dem.cpp undoes the printing of its writer: for every tree of strings, decimal
    numbers, arrays and objects within the depth limit, whatever bytes its strings hold. */
module JsonInversion {
  import opened Bytes
  import opened Text
  import opened DemJson

  /** The text the writer emits: no white space, members in order. */
  function Print(j: Json): string
    decreases j, 1
  {
    match j
    case JNull => "null"
    case JBool(b) => if b then "true" else "false"
    case JNumber(text) => text
    case JString(s) => JsonString(s)
    case JArray(items) => "[" + PrintItems(items) + "]"
    case JObject(fields) => "{" + PrintFields(fields) + "}"
  }

  function PrintItems(items: seq<Json>): string
    decreases items, 0
  {
    if items == [] then ""
    else if |items| == 1 then Print(items[0])
    else Print(items[0]) + "," + PrintItems(items[1..])
  }

  function PrintField(field: Field): string
    decreases field, 2
  {
    JsonString(field.key) + ":" + Print(field.value)
  }

  function PrintFields(fields: seq<Field>): string
    decreases fields, 0
  {
    if fields == [] then ""
    else if |fields| == 1 then PrintField(fields[0])
    else PrintField(fields[0]) + "," + PrintFields(fields[1..])
  }

  /** A number token as std::to_string prints it: an optional sign and digits. */
  predicate IsIntText(s: string) {
    var digits := if s != "" && s[0] == '-' then s[1..] else s;
    digits != "" && AllDigits(digits)
  }

  /** Numbers are integer tokens and nothing lies deeper than the reader goes. */
  ghost predicate Printable(j: Json, depth: nat)
    decreases j
  {
    depth <= MAX_DEPTH &&
    match j
    case JNumber(text) => IsIntText(text)
    case JArray(items) => forall k :: 0 <= k < |items| ==> Printable(items[k], depth + 1)
    case JObject(fields) => forall k :: 0 <= k < |fields| ==> Printable(fields[k].value, depth + 1)
    case _ => true
  }

  /** Behind a printed value comes the end of the text or a separator. */
  predicate Stops(t: string, i: nat) {
    i >= |t| || t[i] == ',' || t[i] == ']' || t[i] == '}'
  }

  // ---- Strings ----

  lemma EscapedUnitReads(t: string, i: nat, c: char)
    requires At(t, i, EscapeChar(c))
    ensures i < |t| && t[i] != '"'
    ensures StringUnit(t, i) == Got([c], i + |EscapeChar(c)|)
  {
    var e := EscapeChar(c);
    AtFirst(t, i, e);
    if |e| == 6 {
      ControlReads(t, i, c);
    } else if |e| == 2 {
      AtIndex(t, i, e, 1);
    }
  }

  lemma ControlReads(t: string, i: nat, c: char)
    requires c < ' ' && |EscapeChar(c)| == 6 && At(t, i, EscapeChar(c))
    ensures StringUnit(t, i) == Got([c], i + 6)
  {
    var e := EscapeChar(c);
    assert e == "\\u00" + [HexDigit(c as int / 16), HexDigit(c as int % 16)];
    forall k: nat | k < 6
      ensures t[i + k] == e[k]
    {
      AtIndex(t, i, e, k);
    }
    ControlHex(t, i + 2, c as int);
  }

  lemma ControlHex(t: string, i: nat, v: nat)
    requires v < 32 && i + 4 <= |t|
    requires t[i] == t[i + 1] == '0' && t[i + 2] == HexDigit(v / 16) && t[i + 3] == HexDigit(v % 16)
    ensures Hex4(t, i) == Got(v, i + 4)
  {
    HexDigitReads(v / 16);
    HexDigitReads(v % 16);
    assert HexRun(t, i, 0) == Got(0, i);
    assert HexRun(t, i, 1) == Got(0, i + 1);
    assert HexRun(t, i, 2) == Got(0, i + 2);
    assert HexRun(t, i, 3) == Got(v / 16, i + 3);
  }

  lemma HexDigitReads(d: nat)
    requires d < 16
    ensures HexValue(HexDigit(d)).Got? && HexValue(HexDigit(d)).value == d
  {
  }

  lemma StringBodyStep(t: string, i: nat, acc: string, unit: string, next: nat)
    requires i < |t| && t[i] != '"' && StringUnit(t, i) == Got(unit, next)
    ensures next <= |t| && StringBody(t, i, acc) == StringBody(t, next, acc + unit)
  {
  }

  lemma JsonEscapeCons(s: string)
    requires s != ""
    ensures JsonEscape(s) + "\"" == EscapeChar(s[0]) + (JsonEscape(s[1..]) + "\"")
  {
  }

  lemma {:induction false} EscapedBodyReads(t: string, i: nat, acc: string, s: string)
    requires At(t, i, JsonEscape(s) + "\"")
    ensures i <= |t| && StringBody(t, i, acc) == Got(acc + s, i + |JsonEscape(s) + "\""|)
    decreases |s|
  {
    hide *;
    if s == "" {
      EmptyBodyReads(t, i, acc);
      assert acc + s == acc;
    } else {
      JsonEscapeCons(s);
      var head, tail := EscapeChar(s[0]), JsonEscape(s[1..]) + "\"";
      AtSplit(t, i, head, tail);
      EscapedUnitReads(t, i, s[0]);
      StringBodyStep(t, i, acc, [s[0]], i + |head|);
      EscapedBodyReads(t, i + |head|, acc + [s[0]], s[1..]);
      assert acc + [s[0]] + s[1..] == acc + s;
    }
  }

  lemma EmptyBodyReads(t: string, i: nat, acc: string)
    requires At(t, i, JsonEscape("") + "\"")
    ensures i < |t| && StringBody(t, i, acc) == Got(acc, i + |JsonEscape("") + "\""|)
  {
    AtFirst(t, i, "\"");
  }

  /** Reading a printed string gives the string back, for every string. */
  lemma StringReadsBack(t: string, i: nat, s: string)
    requires At(t, i, JsonString(s))
    ensures i < |t| && t[i] == '"'
    ensures StringAt(t, i) == Got(s, i + |JsonString(s)|)
  {
    assert JsonString(s) == "\"" + (JsonEscape(s) + "\"");
    AtSplit(t, i, "\"", JsonEscape(s) + "\"");
    assert t[i] == t[i..i + 1][0];
    EscapedBodyReads(t, i + 1, "", s);
    assert "" + s == s;
  }

  // ---- Numbers ----

  lemma {:induction false} DigitsEndAt(t: string, i: nat, k: nat)
    requires i <= k <= |t|
    requires forall j :: i <= j < k ==> IsDigit(t[j])
    requires k == |t| || !IsDigit(t[k])
    ensures DigitsEnd(t, i) == k
    decreases k - i
  {
    if i < k {
      DigitsEndAt(t, i + 1, k);
    }
  }

  lemma IntStops(t: string, end: nat)
    requires end <= |t| && Stops(t, end)
    ensures FractionEnd(t, end) == Got((), end) && ExponentEnd(t, end) == Got((), end)
  {
  }

  lemma NumberReadsBack(t: string, i: nat, text: string)
    requires At(t, i, text) && IsIntText(text) && Stops(t, i + |text|)
    ensures i <= |t| && Number(t, i) == Got(JNumber(text), i + |text|)
    ensures t[i] == '-' || IsDigit(t[i])
  {
    var end := i + |text|;
    AtFirst(t, i, text);
    var digits := if text[0] == '-' then text[1..] else text;
    var start := end - |digits|;
    forall j | start <= j < end
      ensures IsDigit(t[j])
    {
      AtIndex(t, i, text, j - i);
      assert digits[j - start] == text[j - i];
    }
    DigitsEndAt(t, start, end);
    IntStops(t, end);
  }

  lemma DecIntIsIntText(n: int)
    ensures IsIntText(DecInt(n))
  {
    DecIntSign(n);
    if n < 0 {
      assert DecInt(n)[1..] == Dec(-n);
    }
  }

  // ---- Values ----

  lemma PrintStart(j: Json, depth: nat)
    requires Printable(j, depth)
    ensures |Print(j)| > 0 && !IsSpace(Print(j)[0])
    ensures Print(j)[0] != ']' && Print(j)[0] != '}'
  {
    if j.JNumber? {
      assert IsDigit(j.text[0]) || j.text[0] == '-';
    }
  }

  /** The inversion at the level of one value inside a longer text. */
  lemma {:induction false} ValueReadsBack(t: string, i: nat, depth: nat, j: Json)
    requires Printable(j, depth) && At(t, i, Print(j)) && Stops(t, i + |Print(j)|)
    ensures i <= |t| && Value(t, i, depth) == Got(j, i + |Print(j)|)
    decreases j, 1
  {
    match j
    case JArray(items) => ArrayReadsBack(t, i, depth, items);
    case JObject(fields) => ObjectReadsBack(t, i, depth, fields);
    case _ => ScalarReadsBack(t, i, depth, j);
  }

  lemma ScalarReadsBack(t: string, i: nat, depth: nat, j: Json)
    requires !j.JArray? && !j.JObject?
    requires Printable(j, depth) && At(t, i, Print(j)) && Stops(t, i + |Print(j)|)
    ensures i <= |t| && Value(t, i, depth) == Got(j, i + |Print(j)|)
  {
    PrintStart(j, depth);
    AtFirst(t, i, Print(j));
    match j
    case JNumber(text) => NumberReadsBack(t, i, text);
    case JString(s) => StringReadsBack(t, i, s);
    case _ =>
  }

  // One step of the reader on each list, whatever the text.

  lemma ItemsStep(t: string, i: nat, depth: nat, acc: seq<Json>, value: Json, next: nat)
    requires depth <= MAX_DEPTH && i <= |t| && SkipSpace(t, i) == i
    requires Value(t, i, depth + 1) == Got(value, next) && next < |t|
    ensures t[next] == ',' ==> Items(t, i, depth, acc) == Items(t, next + 1, depth, acc + [value])
    ensures t[next] == ']' ==> Items(t, i, depth, acc) == Got(JArray(acc + [value]), next + 1)
  {
    assert Nested(t, i, depth) == Got(value, next);
  }

  lemma MembersStep(t: string, i: nat, depth: nat, acc: seq<Field>, field: Field, next: nat)
    requires depth <= MAX_DEPTH && i <= |t|
    requires Member(t, i, depth) == Got(field, next) && next < |t|
    ensures t[next] == ',' ==> Members(t, i, depth, acc) == Members(t, next + 1, depth, acc + [field])
    ensures t[next] == '}' ==> Members(t, i, depth, acc) == Got(JObject(acc + [field]), next + 1)
  {
  }

  lemma MemberStep(t: string, i: nat, depth: nat, key: string, colon: nat, value: Json, next: nat)
    requires depth <= MAX_DEPTH && i <= |t| && SkipSpace(t, i) == i
    requires StringAt(t, i) == Got(key, colon) && colon < |t| && t[colon] == ':'
    requires SkipSpace(t, colon + 1) == colon + 1
    requires Value(t, colon + 1, depth + 1) == Got(value, next)
    ensures Member(t, i, depth) == Got(Field(key, value), next)
  {
    assert SkipSpace(t, colon) == colon;
    assert Nested(t, colon + 1, depth) == Got(value, next);
  }

  lemma StopsAt(t: string, i: nat)
    requires i < |t| && (t[i] == ',' || t[i] == ']' || t[i] == '}')
    ensures Stops(t, i)
  {
  }

  lemma SkipQuote(t: string, i: nat)
    requires i < |t| && t[i] == '"'
    ensures SkipSpace(t, i) == i
  {
  }

  lemma SkipNothing(t: string, i: nat)
    requires i < |t| && !IsSpace(t[i])
    ensures SkipSpace(t, i) == i
  {
  }

  lemma {:induction false} ArrayReadsBack(t: string, i: nat, depth: nat, items: seq<Json>)
    requires Printable(JArray(items), depth)
    requires At(t, i, Print(JArray(items)))
    ensures i <= |t| && Value(t, i, depth) == Got(JArray(items), i + |Print(JArray(items))|)
    decreases items, 1
  {
    AtSplit3(t, i, "[", PrintItems(items), "]");
    AtFirst(t, i, "[");
    if items == [] {
      AtFirst(t, i + 1, "]");
    } else {
      ItemsStart(t, i + 1, depth, items);
      SkipNothing(t, i + 1);
      ItemsReadBack(t, i + 1, depth, items, []);
      assert [] + items == items;
    }
  }

  lemma PrintFieldIs(field: Field)
    ensures PrintField(field) == JsonString(field.key) + ":" + Print(field.value)
  {
  }

  lemma PrintSingles(items: seq<Json>, fields: seq<Field>)
    ensures |items| == 1 ==> PrintItems(items) == Print(items[0])
    ensures |fields| == 1 ==> PrintFields(fields) == PrintField(fields[0])
  {
  }

  lemma PrintItemsCons(items: seq<Json>)
    requires |items| > 1
    ensures PrintItems(items) + "]" == Print(items[0]) + "," + (PrintItems(items[1..]) + "]")
  {
  }

  lemma PrintFieldsCons(fields: seq<Field>)
    requires |fields| > 1
    ensures PrintFields(fields) + "}" == PrintField(fields[0]) + "," + (PrintFields(fields[1..]) + "}")
  {
  }

  lemma ItemsStart(t: string, i: nat, depth: nat, items: seq<Json>)
    requires items != [] && Printable(items[0], depth + 1)
    requires At(t, i, PrintItems(items) + "]")
    ensures At(t, i, Print(items[0]))
    ensures i < |t| && !IsSpace(t[i]) && t[i] != ']'
    ensures |items| == 1 ==> PrintItems(items) == Print(items[0]) && At(t, i + |Print(items[0])|, "]")
    ensures |items| > 1 ==> |PrintItems(items)| == |Print(items[0])| + 1 + |PrintItems(items[1..])|
    ensures |items| > 1 ==> At(t, i + |Print(items[0])|, ",")
    ensures |items| > 1 ==> At(t, i + |Print(items[0])| + 1, PrintItems(items[1..]) + "]")
  {
    hide *;
    var head := Print(items[0]);
    PrintStart(items[0], depth + 1);
    if |items| == 1 {
      PrintSingles(items, []);
      AtSplit(t, i, head, "]");
    } else {
      PrintItemsCons(items);
      AtSplit3(t, i, head, ",", PrintItems(items[1..]) + "]");
    }
    AtFirst(t, i, head);
  }

  lemma {:induction false} ItemsReadBack(t: string, i: nat, depth: nat, items: seq<Json>, acc: seq<Json>)
    requires depth <= MAX_DEPTH && items != []
    requires forall k :: 0 <= k < |items| ==> Printable(items[k], depth + 1)
    requires At(t, i, PrintItems(items) + "]")
    ensures i <= |t| && Items(t, i, depth, acc) == Got(JArray(acc + items), i + |PrintItems(items)| + 1)
    decreases items, 0
  {
    hide *;
    ItemsStart(t, i, depth, items);
    SkipNothing(t, i);
    var after := i + |Print(items[0])|;
    AtFirst(t, after, if |items| == 1 then "]" else ",");
    StopsAt(t, after);
    ValueReadsBack(t, i, depth + 1, items[0]);
    ItemsStep(t, i, depth, acc, items[0], after);
    if |items| == 1 {
      assert acc + items == acc + [items[0]];
    } else {
      ItemsReadBack(t, after + 1, depth, items[1..], acc + [items[0]]);
      assert acc + [items[0]] + items[1..] == acc + items;
    }
  }

  lemma {:induction false} ObjectReadsBack(t: string, i: nat, depth: nat, fields: seq<Field>)
    requires Printable(JObject(fields), depth)
    requires At(t, i, Print(JObject(fields)))
    ensures i <= |t| && Value(t, i, depth) == Got(JObject(fields), i + |Print(JObject(fields))|)
    decreases fields, 3
  {
    AtSplit3(t, i, "{", PrintFields(fields), "}");
    AtFirst(t, i, "{");
    hide At;
    if fields == [] {
      AtFirst(t, i + 1, "}");
    } else {
      FieldsStart(t, i + 1, fields);
      SkipQuote(t, i + 1);
      hide PrintFields, PrintField, Members;
      MembersReadBack(t, i + 1, depth, fields, []);
      assert [] + fields == fields;
    }
  }

  lemma FieldsStart(t: string, i: nat, fields: seq<Field>)
    requires fields != [] && At(t, i, PrintFields(fields) + "}")
    ensures At(t, i, PrintField(fields[0]))
    ensures i < |t| && t[i] == '"'
    ensures |fields| == 1 ==> PrintFields(fields) == PrintField(fields[0]) && At(t, i + |PrintField(fields[0])|, "}")
    ensures |fields| > 1 ==> |PrintFields(fields)| == |PrintField(fields[0])| + 1 + |PrintFields(fields[1..])|
    ensures |fields| > 1 ==> At(t, i + |PrintField(fields[0])|, ",")
    ensures |fields| > 1 ==> At(t, i + |PrintField(fields[0])| + 1, PrintFields(fields[1..]) + "}")
  {
    hide *;
    var head := PrintField(fields[0]);
    if |fields| == 1 {
      PrintSingles([], fields);
      AtSplit(t, i, head, "}");
    } else {
      PrintFieldsCons(fields);
      AtSplit3(t, i, head, ",", PrintFields(fields[1..]) + "}");
    }
    PrintFieldStart(fields[0]);
    AtFirst(t, i, head);
  }

  lemma PrintFieldStart(field: Field)
    ensures PrintField(field) != "" && PrintField(field)[0] == '"'
  {
  }

  lemma {:induction false} MemberReadsBack(t: string, i: nat, depth: nat, field: Field)
    requires depth <= MAX_DEPTH && Printable(field.value, depth + 1)
    requires At(t, i, PrintField(field)) && Stops(t, i + |PrintField(field)|)
    ensures i <= |t| && Member(t, i, depth) == Got(field, i + |PrintField(field)|)
    decreases field, 1
  {
    var key, value := JsonString(field.key), Print(field.value);
    PrintFieldIs(field);
    hide *;
    AtSplit3(t, i, key, ":", value);
    StringReadsBack(t, i, field.key);
    var colon := i + |key|;
    AtFirst(t, colon, ":");
    PrintStart(field.value, depth + 1);
    AtFirst(t, colon + 1, value);
    SkipNothing(t, colon + 1);
    SkipQuote(t, i);
    ValueReadsBack(t, colon + 1, depth + 1, field.value);
    MemberStep(t, i, depth, field.key, colon, field.value, colon + 1 + |value|);
  }

  lemma {:induction false} MembersReadBack(t: string, i: nat, depth: nat, fields: seq<Field>, acc: seq<Field>)
    requires depth <= MAX_DEPTH && fields != []
    requires forall k :: 0 <= k < |fields| ==> Printable(fields[k].value, depth + 1)
    requires At(t, i, PrintFields(fields) + "}")
    ensures i <= |t| && Members(t, i, depth, acc) == Got(JObject(acc + fields), i + |PrintFields(fields)| + 1)
    decreases fields, 2
  {
    hide *;
    FieldsStart(t, i, fields);
    var after := i + |PrintField(fields[0])|;
    AtFirst(t, after, if |fields| == 1 then "}" else ",");
    StopsAt(t, after);
    MemberReadsBack(t, i, depth, fields[0]);
    MembersStep(t, i, depth, acc, fields[0], after);
    if |fields| == 1 {
      assert acc + fields == acc + [fields[0]];
    } else {
      MembersReadBack(t, after + 1, depth, fields[1..], acc + [fields[0]]);
      assert acc + [fields[0]] + fields[1..] == acc + fields;
    }
  }

  /** Printing and parsing undo each other on every printable document. */
  lemma ParseInvertsPrint(j: Json)
    requires Printable(j, 0)
    ensures Parse(Print(j)) == Got(j, |Print(j)|)
  {
    var t := Print(j);
    PrintStart(j, 0);
    assert At(t, 0, t);
    assert SkipSpace(t, 0) == 0;
    ValueReadsBack(t, 0, 0, j);
    assert SkipSpace(t, |t|) == |t|;
  }

  /** A value nested `n` arrays deep. */
  function Nest(n: nat): Json {
    if n == 0 then JNull else JArray([Nest(n - 1)])
  }

  lemma {:induction false} NestPrintable(n: nat, depth: nat)
    requires depth + n <= MAX_DEPTH
    ensures Printable(Nest(n), depth)
  {
    if n > 0 {
      NestPrintable(n - 1, depth + 1);
    }
  }

  lemma NestText(n: nat)
    requires n > 0
    ensures Print(Nest(n)) == "[" + Print(Nest(n - 1)) + "]"
  {
    PrintSingles([Nest(n - 1)], []);
  }

  lemma {:induction false} NestTooDeep(t: string, i: nat, depth: nat, n: nat)
    requires At(t, i, Print(Nest(n))) && depth <= MAX_DEPTH + 1 && depth + n > MAX_DEPTH
    ensures i < |t| && (t[i] == '[' || t[i] == 'n') && Value(t, i, depth).NoRead?
    decreases n
  {
    if n == 0 {
      AtFirst(t, i, "null");
    } else {
      NestText(n);
      AtSplit3(t, i, "[", Print(Nest(n - 1)), "]");
      AtFirst(t, i, "[");
      if depth <= MAX_DEPTH {
        hide Print, At;
        NestTooDeep(t, i + 1, depth + 1, n - 1);
        SkipNothing(t, i + 1);
        assert Nested(t, i + 1, depth).NoRead?;
      }
    }
  }

  /** The depth limit is exact: a value `n` arrays deep is read back if and only if `n` is at most 32. */
  lemma DepthLimitIsExact(n: nat)
    ensures Parse(Print(Nest(n))).Got? <==> n <= MAX_DEPTH
    ensures n <= MAX_DEPTH ==> Parse(Print(Nest(n))) == Got(Nest(n), |Print(Nest(n))|)
  {
    var t := Print(Nest(n));
    if n <= MAX_DEPTH {
      NestPrintable(n, 0);
      ParseInvertsPrint(Nest(n));
    } else {
      assert At(t, 0, t);
      NestTooDeep(t, 0, 0, n);
      SkipNothing(t, 0);
    }
  }
}
