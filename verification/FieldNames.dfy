/** The field-name collectors of src/result.cpp, and what they collect from a flat object. */
module FieldNames {
  import opened Bytes
  import opened Text
  import opened JsonScan
  import opened FlatJson

  // ---- JsonObjectFieldNames ----

  datatype Names = Names(depth: int, inString: bool, escaped: bool, capturing: bool, current: string,
                         fields: seq<string>, stopped: bool)

  const NO_NAMES: Names := Names(0, false, false, false, "", [], false)

  function NameStep(json: string, i: nat, s: Names): Names
    requires i < |json|
  {
    var ch := json[i];
    if s.stopped then s
    else if s.inString then
      if s.escaped then s.(current := if s.capturing then s.current + [ch] else s.current, escaped := false)
      else if ch == '\\' then s.(escaped := true)
      else if ch == '"' then NameClose(json, i, s)
      else s.(current := if s.capturing then s.current + [ch] else s.current)
    else if ch == '"' then s.(inString := true, capturing := s.depth == 1, current := "")
    else if ch == '{' then s.(depth := s.depth + 1)
    else if ch == '}' then s.(depth := s.depth - 1, stopped := s.depth - 1 <= 0)
    else s
  }

  /** A captured string is a field name when a colon follows it. */
  function NameClose(json: string, i: nat, s: Names): Names
    requires i < |json|
  {
    if s.capturing then
      s.(inString := false, capturing := false, current := "",
         fields := if ColonAfter(json, i + 1) then s.fields + [s.current] else s.fields)
    else s.(inString := false)
  }

  function NameRun(json: string, i: nat, j: nat, s: Names): Names
    requires i <= j <= |json|
    decreases j
  {
    if i == j then s else NameStep(json, j - 1, NameRun(json, i, j - 1, s))
  }

  function FieldNamesOf(json: string): seq<string> {
    NameRun(json, 0, |json|, NO_NAMES).fields
  }

  lemma {:induction false} NameJoin(json: string, i: nat, j: nat, k: nat, s: Names)
    requires i <= j <= k <= |json|
    ensures NameRun(json, i, k, s) == NameRun(json, j, k, NameRun(json, i, j, s))
    decreases k
  {
    hide NameStep;
    if j < k {
      NameJoin(json, i, j, k - 1, s);
    }
  }

  lemma NameOne(json: string, i: nat, s: Names)
    requires i < |json|
    ensures NameRun(json, i, i + 1, s) == NameStep(json, i, s)
  {
    hide NameStep;
  }

  lemma {:induction false} StoppedStays(json: string, i: nat, j: nat, s: Names)
    requires i <= j <= |json| && s.stopped
    ensures NameRun(json, i, j, s) == s
    decreases j
  {
    if i < j {
      StoppedStays(json, i, j - 1, s);
    }
  }

  method JsonObjectFieldNames(json: string) returns (fields: seq<string>)
    ensures fields == FieldNamesOf(json)
  {
    fields := [];
    var depth, inString, escaped, currentString, capturingField := 0, false, false, "", false;
    for index := 0 to |json|
      invariant Names(depth, inString, escaped, capturingField, currentString, fields, false)
        == NameRun(json, 0, index, NO_NAMES)
    {
      NameJoin(json, 0, index, index + 1, NO_NAMES);
      NameOne(json, index, NameRun(json, 0, index, NO_NAMES));
      hide NameRun, ColonAfter;
      var ch := json[index];
      if inString {
        if escaped {
          if capturingField {
            currentString := currentString + [ch];
          }
          escaped := false;
          continue;
        }
        if ch == '\\' {
          escaped := true;
          continue;
        }
        if ch == '"' {
          inString := false;
          if capturingField {
            var named := ColonFollows(json, index + 1);
            if named {
              fields := fields + [currentString];
            }
            capturingField := false;
            currentString := "";
          }
          continue;
        }
        if capturingField {
          currentString := currentString + [ch];
        }
        continue;
      }
      if ch == '"' {
        inString := true;
        capturingField := depth == 1;
        currentString := "";
        continue;
      }
      if ch == '{' {
        depth := depth + 1;
        continue;
      }
      if ch == '}' {
        depth := depth - 1;
        if depth <= 0 {
          NameJoin(json, 0, index + 1, |json|, NO_NAMES);
          StoppedStays(json, index + 1, |json|, NameRun(json, 0, index + 1, NO_NAMES));
          return;
        }
      }
    }
  }

  method ColonFollows(json: string, start: nat) returns (colon: bool)
    requires start <= |json|
    ensures colon == ColonAfter(json, start)
  {
    var cursor := SkipSpaces(json, start);
    colon := cursor < |json| && json[cursor] == ':';
  }

  // ---- LooksLikeSingleJsonObject ----

  predicate ClosesFrom(json: string, i: nat, s: Scan)
    requires i <= |json|
    decreases |json| - i
  {
    if i == |json| then false else
    var next := Step(s, json[i]);
    if !s.inString && json[i] == '}' && next.objects <= 0 then
      next.objects == 0 && SkipSpace(json, i + 1) == |json|
    else ClosesFrom(json, i + 1, next)
  }

  predicate SingleObject(json: string) {
    var start := SkipSpace(json, 0);
    start < |json| && json[start] == '{' && ClosesFrom(json, start, OUTSIDE)
  }

  lemma ClosesStep(json: string, i: nat, s: Scan)
    requires i < |json|
    ensures var next := Step(s, json[i]);
      ClosesFrom(json, i, s) <==>
        if !s.inString && json[i] == '}' && next.objects <= 0 then next.objects == 0 && SkipSpace(json, i + 1) == |json|
        else ClosesFrom(json, i + 1, next)
  {
    hide SkipSpace, Step;
  }

  lemma ClosesEnd(json: string, s: Scan)
    ensures !ClosesFrom(json, |json|, s)
  {
  }

  method LooksLikeSingleJsonObject(json: string) returns (single: bool)
    ensures single == SingleObject(json)
  {
    hide SkipSpace, ClosesFrom;
    var cursor := SkipSpaces(json, 0);
    if cursor >= |json| || json[cursor] != '{' {
      return false;
    }
    single := ClosesAtTheEnd(json, cursor);
  }

  method ClosesAtTheEnd(json: string, start: nat) returns (single: bool)
    requires start <= |json|
    ensures single == ClosesFrom(json, start, OUTSIDE)
  {
    hide SkipSpace, ClosesFrom;
    var cursor, depth, inString, escaped := start, 0, false, false;
    ghost var s := OUTSIDE;
    while cursor < |json|
      invariant cursor <= |json| && s.objects == depth && s.inString == inString && s.escaped == escaped
      invariant ClosesFrom(json, cursor, s) == ClosesFrom(json, start, OUTSIDE)
      decreases |json| - cursor
    {
      var ch := json[cursor];
      ClosesStep(json, cursor, s);
      s := Step(s, ch);
      if inString {
        if escaped {
          escaped := false;
        } else if ch == '\\' {
          escaped := true;
        } else if ch == '"' {
          inString := false;
        }
      } else if ch == '"' {
        inString := true;
      } else if ch == '{' {
        depth := depth + 1;
      } else if ch == '}' {
        depth := depth - 1;
        if depth < 0 {
          return false;
        }
        if depth == 0 {
          cursor := SkipSpaces(json, cursor + 1);
          return cursor == |json|;
        }
      }
      cursor := cursor + 1;
    }
    ClosesEnd(json, s);
    single := false;
  }

  // ---- ContainsJsonFieldWithPrefix ----

  function NextQuote(json: string, i: nat): (k: nat)
    requires i <= |json|
    ensures i <= k <= |json|
    decreases |json| - i
  {
    if i < |json| && json[i] != '"' then NextQuote(json, i + 1) else i
  }

  /** The closing quote of the string whose body goes on at `i`, and the body with its escapes dropped. */
  function StringEnd(json: string, i: nat, escaped: bool, acc: string): (r: (nat, string))
    requires i <= |json|
    ensures i <= r.0 <= |json|
    decreases |json| - i
  {
    if i == |json| then (i, acc)
    else if escaped then StringEnd(json, i + 1, false, acc + [json[i]])
    else if json[i] == '\\' then StringEnd(json, i + 1, true, acc)
    else if json[i] == '"' then (i, acc)
    else StringEnd(json, i + 1, false, acc + [json[i]])
  }

  predicate PrefixFrom(json: string, i: nat, prefix: string)
    requires i <= |json|
    decreases |json| - i
  {
    var quote := NextQuote(json, i);
    if quote == |json| then false else
    var (end, name) := StringEnd(json, quote + 1, false, "");
    if end == |json| then false
    else (ColonAfter(json, end + 1) && prefix <= name) || PrefixFrom(json, end + 1, prefix)
  }

  method FindQuote(json: string, start: nat) returns (k: nat)
    requires start <= |json|
    ensures k == NextQuote(json, start)
  {
    k := start;
    while k < |json| && json[k] != '"'
      invariant k <= |json| && NextQuote(json, k) == NextQuote(json, start)
    {
      k := k + 1;
    }
  }

  method ReadString(json: string, start: nat) returns (cursor: nat, fieldName: string)
    requires start <= |json|
    ensures (cursor, fieldName) == StringEnd(json, start, false, "")
  {
    fieldName := "";
    var escaped := false;
    cursor := start;
    while cursor < |json|
      invariant cursor <= |json|
      invariant StringEnd(json, cursor, escaped, fieldName) == StringEnd(json, start, false, "")
    {
      var ch := json[cursor];
      if escaped {
        fieldName := fieldName + [ch];
        escaped := false;
      } else if ch == '\\' {
        escaped := true;
      } else if ch == '"' {
        break;
      } else {
        fieldName := fieldName + [ch];
      }
      cursor := cursor + 1;
    }
  }

  method ContainsJsonFieldWithPrefix(json: string, prefix: string) returns (found: bool)
    ensures found == PrefixFrom(json, 0, prefix)
  {
    hide NextQuote, StringEnd, ColonAfter;
    var offset := FindQuote(json, 0);
    ghost var from: nat := 0;
    while offset < |json|
      invariant from <= offset <= |json| && offset == NextQuote(json, from)
      invariant PrefixFrom(json, from, prefix) == PrefixFrom(json, 0, prefix)
      decreases |json| - offset
    {
      var cursor, fieldName := ReadString(json, offset + 1);
      if cursor >= |json| {
        return false;
      }
      var named := ColonFollows(json, cursor + 1);
      if named && prefix <= fieldName {
        return true;
      }
      from := cursor + 1;
      offset := FindQuote(json, cursor + 1);
    }
    found := false;
  }

  // ---- Field names of a flat object ----

  function Keys(ms: seq<Member>): seq<string> {
    if ms == [] then [] else [ms[0].key] + Keys(ms[1..])
  }

  function AtTop(fields: seq<string>): Names {
    Names(1, false, false, false, "", fields, false)
  }

  lemma AtPrefix(json: string, p: nat, t: string)
    requires At(json, p, t) && t != ""
    ensures At(json, p, t[..|t| - 1]) && p + |t| <= |json| && json[p + |t| - 1] == t[|t| - 1]
  {
    AtIndex(json, p, t, |t| - 1);
    assert json[p..p + |t| - 1] == json[p..p + |t|][..|t| - 1];
  }

  lemma {:induction false} CapturePlain(json: string, p: nat, t: string, s: Names)
    requires At(json, p, t) && PlainKey(t) && s.inString && !s.escaped && s.capturing && !s.stopped
    ensures NameRun(json, p, p + |t|, s) == s.(current := s.current + t)
  {
    if t == "" {
      assert s.current + t == s.current;
    } else {
      hide At;
      AtPrefix(json, p, t);
      CapturePlain(json, p, t[..|t| - 1], s);
      assert s.current + t == s.current + t[..|t| - 1] + [t[|t| - 1]];
    }
  }

  lemma {:induction false} PassPlain(json: string, p: nat, t: string, s: Names)
    requires At(json, p, t) && PlainKey(t) && s.inString && !s.escaped && !s.stopped
    ensures Passing(s, NameRun(json, p, p + |t|, s))
  {
    if t != "" {
      hide At;
      AtPrefix(json, p, t);
      PassPlain(json, p, t[..|t| - 1], s);
    }
  }

  /** `r` differs from `s` at most in the text captured so far. */
  predicate Passing(s: Names, r: Names) {
    r == s.(current := r.current)
  }

  lemma PassPair(json: string, p: nat, d: char, s: Names)
    requires At(json, p, ['\\', d]) && s.inString && !s.escaped && !s.stopped
    ensures Passing(s, NameRun(json, p, p + 2, s))
  {
    AtIndex(json, p, ['\\', d], 0);
    AtIndex(json, p, ['\\', d], 1);
    hide ColonAfter;
    NameOne(json, p, s);
    NameJoin(json, p, p + 1, p + 2, s);
    NameOne(json, p + 1, NameRun(json, p, p + 1, s));
  }

  lemma EscapeShape(c: char)
    ensures var t := EscapeChar(c);
      || (t == [c] && c != '"' && c != '\\')
      || (|t| == 2 && t[0] == '\\')
      || (|t| == 6 && t[0] == '\\' && PlainKey(t[2..]))
  {
  }

  lemma PassChar(json: string, p: nat, c: char, s: Names)
    requires At(json, p, EscapeChar(c)) && s.inString && !s.escaped && !s.stopped
    ensures Passing(s, NameRun(json, p, p + |EscapeChar(c)|, s))
  {
    EscapeShape(c);
    var t := EscapeChar(c);
    hide EscapeChar, At, NameRun;
    if |t| == 1 {
      PassPlain(json, p, t, s);
    } else {
      assert t == [t[0], t[1]] + t[2..];
      AtSplit(json, p, [t[0], t[1]], t[2..]);
      PassPair(json, p, t[1], s);
      PassPlain(json, p + 2, t[2..], NameRun(json, p, p + 2, s));
      NameJoin(json, p, p + 2, p + |t|, s);
    }
  }

  lemma {:induction false} PassEscape(json: string, p: nat, t: string, s: Names)
    requires At(json, p, JsonEscape(t)) && s.inString && !s.escaped && !s.stopped
    ensures Passing(s, NameRun(json, p, p + |JsonEscape(t)|, s))
    decreases |t|
  {
    hide *;
    if t == "" {
      PassNothing(json, p, s);
    } else {
      EscapeCons(t);
      var head, tail := EscapeChar(t[0]), JsonEscape(t[1..]);
      AtSplit(json, p, head, tail);
      AtEnd(json, p, head);
      PassChar(json, p, t[0], s);
      var r := NameRun(json, p, p + |head|, s);
      PassingFacts(s, r);
      PassEscape(json, p + |head|, t[1..], r);
      AtEnd(json, p + |head|, tail);
      NameJoin(json, p, p + |head|, p + |JsonEscape(t)|, s);
      PassingTwice(s, r, NameRun(json, p, p + |JsonEscape(t)|, s));
    }
  }

  lemma EscapeCons(t: string)
    requires t != ""
    ensures JsonEscape(t) == EscapeChar(t[0]) + JsonEscape(t[1..])
  {
  }

  lemma AtEnd(json: string, p: nat, t: string)
    requires At(json, p, t)
    ensures p + |t| <= |json|
  {
  }

  lemma PassNothing(json: string, p: nat, s: Names)
    requires At(json, p, JsonEscape(""))
    ensures Passing(s, NameRun(json, p, p + |JsonEscape("")|, s))
  {
  }

  lemma PassingFacts(s: Names, r: Names)
    requires Passing(s, r)
    ensures r.inString == s.inString && r.escaped == s.escaped && r.stopped == s.stopped
    ensures r.depth == s.depth && r.capturing == s.capturing && r.fields == s.fields
    ensures r == Names(s.depth, s.inString, s.escaped, s.capturing, r.current, s.fields, s.stopped)
  {
  }

  lemma PassingTwice(s: Names, r: Names, q: Names)
    requires Passing(s, r) && Passing(r, q)
    ensures Passing(s, q)
  {
  }

  lemma {:induction false} NameQuiet(json: string, p: nat, t: string, s: Names)
    requires At(json, p, t) && Quiet(t) && !s.inString
    ensures NameRun(json, p, p + |t|, s) == s
  {
    if t != "" {
      AtPrefix(json, p, t);
      assert t[|t| - 1] !in "\"{}[]";
      NameQuiet(json, p, t[..|t| - 1], s);
    }
  }

  lemma NameOpen(json: string, p: nat, fields: seq<string>)
    requires p < |json| && json[p] == '"'
    ensures NameRun(json, p, p + 1, AtTop(fields)) == Names(1, true, false, true, "", fields, false)
  {
    hide ColonAfter;
    NameOne(json, p, AtTop(fields));
  }

  lemma NameShut(json: string, p: nat, text: string, fields: seq<string>)
    requires p < |json| && json[p] == '"'
    ensures NameRun(json, p, p + 1, Names(1, true, false, true, text, fields, false))
      == AtTop(if ColonAfter(json, p + 1) then fields + [text] else fields)
  {
    hide ColonAfter;
    NameOne(json, p, Names(1, true, false, true, text, fields, false));
  }

  /** A quoted text is collected as a field name exactly when a colon follows it. */
  lemma NameKey(json: string, p: nat, key: string, fields: seq<string>)
    requires At(json, p, Needle(key)) && PlainKey(key) && ColonAfter(json, p + |Needle(key)|)
    ensures NameRun(json, p, p + |Needle(key)|, AtTop(fields)) == AtTop(fields + [key])
  {
    QuotedParts(json, p, key);
    hide *;
    NameOpen(json, p, fields);
    NeedleLength(key);
    var open := Names(1, true, false, true, "", fields, false);
    CapturePlain(json, p + 1, key, open);
    assert "" + key == key;
    NameJoin(json, p, p + 1, p + 1 + |key|, AtTop(fields));
    NameShut(json, p + 1 + |key|, key, fields);
    NameJoin(json, p, p + 1 + |key|, p + 2 + |key|, AtTop(fields));
  }

  lemma NeedleLength(key: string)
    ensures |Needle(key)| == |key| + 2
  {
  }

  lemma QuotedParts(json: string, p: nat, t: string)
    requires At(json, p, "\"" + t + "\"")
    ensures p + |t| + 2 <= |json| && json[p] == '"' && At(json, p + 1, t) && json[p + 1 + |t|] == '"'
  {
    assert "\"" + t + "\"" == "\"" + (t + "\"");
    QuotedSplits(json, p, t);
  }

  lemma NameString(json: string, p: nat, s: string, fields: seq<string>)
    requires At(json, p, JsonString(s)) && p + |JsonString(s)| <= |json| && !ColonAfter(json, p + |JsonString(s)|)
    ensures NameRun(json, p, p + |JsonString(s)|, AtTop(fields)) == AtTop(fields)
  {
    hide *;
    StringParts(json, p, s);
    var e := JsonEscape(s);
    var text := NameBody(json, p, s, fields);
    NameShut(json, p + 1 + |e|, text, fields);
    NameJoin(json, p, p + 1 + |e|, p + 2 + |e|, AtTop(fields));
  }

  lemma NameBody(json: string, p: nat, s: string, fields: seq<string>) returns (text: string)
    requires p < |json| && json[p] == '"' && At(json, p + 1, JsonEscape(s)) && p + 1 + |JsonEscape(s)| <= |json|
    ensures NameRun(json, p, p + 1 + |JsonEscape(s)|, AtTop(fields)) == Names(1, true, false, true, text, fields, false)
  {
    hide *;
    var e := JsonEscape(s);
    var open := Names(1, true, false, true, "", fields, false);
    NameOpen(json, p, fields);
    PassEscape(json, p + 1, s, open);
    NameJoin(json, p, p + 1, p + 1 + |e|, AtTop(fields));
    var r := NameRun(json, p + 1, p + 1 + |e|, open);
    PassingFacts(open, r);
    text := r.current;
  }

  lemma StringParts(json: string, p: nat, s: string)
    requires At(json, p, JsonString(s))
    ensures |JsonString(s)| == |JsonEscape(s)| + 2 && p + |JsonEscape(s)| + 2 <= |json|
    ensures json[p] == '"' && At(json, p + 1, JsonEscape(s)) && json[p + 1 + |JsonEscape(s)|] == '"'
  {
    hide At, JsonEscape;
    QuotedParts(json, p, JsonEscape(s));
  }

  lemma ColonHere(json: string, c: nat)
    requires c < |json|
    ensures json[c] == ':' ==> ColonAfter(json, c)
    ensures Separator(json[c]) ==> !ColonAfter(json, c)
  {
    if !IsSpace(json[c]) {
      SkipNone(json, c);
    }
  }

  lemma NameValue(json: string, p: nat, v: Value, fields: seq<string>)
    requires At(json, p, Render(v)) && p + |Render(v)| < |json| && Separator(json[p + |Render(v)|])
    ensures NameRun(json, p, p + |Render(v)|, AtTop(fields)) == AtTop(fields)
  {
    hide NameRun, ColonAfter, At, JsonString, Separator, Quiet;
    match v
    case Uint(n) =>
      DigitsAreQuiet(n);
      NameQuiet(json, p, Dec(n), AtTop(fields));
    case True =>
      DigitsAreQuiet(0);
      NameQuiet(json, p, "true", AtTop(fields));
    case Str(s) =>
      ColonHere(json, p + |JsonString(s)|);
      NameString(json, p, s, fields);
  }

  lemma NameMember(json: string, p: nat, m: Member, fields: seq<string>)
    requires At(json, p, MemberText(m)) && p + |MemberText(m)| < |json| && Separator(json[p + |MemberText(m)|])
    requires PlainKey(m.key)
    ensures NameRun(json, p, p + |MemberText(m)|, AtTop(fields)) == AtTop(fields + [m.key])
  {
    hide *;
    MemberLayout(json, p, m);
    var c := p + |Needle(m.key)|;
    ValueFacts(json, c, m.value);
    ColonHere(json, c);
    NameKey(json, p, m.key, fields);
    DigitsAreQuiet(0);
    TopOutside(fields + [m.key]);
    NameQuiet(json, c, ":", AtTop(fields + [m.key]));
    NameValue(json, c + 1, m.value, fields + [m.key]);
    NameJoin(json, p, c, c + 1, AtTop(fields));
    NameJoin(json, p, c + 1, p + |MemberText(m)|, AtTop(fields));
  }

  lemma TopOutside(fields: seq<string>)
    ensures !AtTop(fields).inString && !AtTop(fields).stopped && AtTop(fields).fields == fields
  {
  }

  lemma NameSeparator(json: string, c: nat, fields: seq<string>)
    requires c < |json|
    ensures json[c] == ',' ==> NameRun(json, c, c + 1, AtTop(fields)) == AtTop(fields)
    ensures json[c] == '}' ==> NameRun(json, c, c + 1, AtTop(fields)).fields == fields
  {
    hide ColonAfter;
    NameOne(json, c, AtTop(fields));
  }

  lemma {:induction false} NamesOfRest(json: string, p: nat, ms: seq<Member>, fields: seq<string>)
    requires RestHere(json, p, ms)
    ensures p <= |json| && NameRun(json, p, |json|, AtTop(fields)).fields == fields + Keys(ms)
    decreases |ms|
  {
    hide *;
    PlainTail(json, p, ms);
    RestHead(json, p, ms);
    KeysCons(ms);
    var c := p + |MemberText(ms[0])|;
    NameMember(json, p, ms[0], fields);
    NameSeparator(json, c, fields + [ms[0].key]);
    NameJoin(json, p, c, c + 1, AtTop(fields));
    if |ms| == 1 {
      assert fields + [ms[0].key] == fields + Keys(ms);
    } else {
      RestTail(json, p, ms);
      NamesOfRest(json, c + 1, ms[1..], fields + [ms[0].key]);
      NameJoin(json, p, c + 1, |json|, AtTop(fields));
      assert fields + [ms[0].key] + Keys(ms[1..]) == fields + Keys(ms);
    }
  }

  lemma KeysCons(ms: seq<Member>)
    requires ms != []
    ensures Keys(ms) == [ms[0].key] + Keys(ms[1..])
    ensures |ms| == 1 ==> Keys(ms) == [ms[0].key]
  {
  }

  /** The collector finds exactly the keys, in order and with repeats; no value text is mistaken for one. */
  lemma FieldNamesAreKeys(ms: seq<Member>)
    requires ms != [] && PlainKeys(ms)
    ensures FieldNamesOf(Flat(ms)) == Keys(ms)
  {
    hide *;
    var json := Flat(ms);
    FlatHere(ms);
    NameBrace(json);
    NamesOfRest(json, 1, ms, []);
    NameJoin(json, 0, 1, |json|, NO_NAMES);
    assert [] + Keys(ms) == Keys(ms);
    NamesUnfold(json);
  }

  lemma NameBrace(json: string)
    requires json != "" && json[0] == '{'
    ensures NameRun(json, 0, 1, NO_NAMES) == AtTop([])
  {
    hide ColonAfter;
    NameOne(json, 0, NO_NAMES);
  }

  lemma NamesUnfold(json: string)
    ensures FieldNamesOf(json) == NameRun(json, 0, |json|, NO_NAMES).fields
  {
  }

  // ---- Prefix search and single-object test on a flat object ----

  lemma {:induction false} PlainEnd(json: string, i: nat, t: string, acc: string)
    requires At(json, i, t + "\"") && PlainKey(t)
    ensures i + |t| < |json| && StringEnd(json, i, false, acc) == (i + |t|, acc + t)
    decreases |t|
  {
    AtFirst(json, i, t + "\"");
    if t == "" {
      assert acc + t == acc;
    } else {
      assert t + "\"" == [t[0]] + (t[1..] + "\"");
      AtSplit(json, i, [t[0]], t[1..] + "\"");
      hide At;
      PlainEnd(json, i + 1, t[1..], acc + [t[0]]);
      assert acc + [t[0]] + t[1..] == acc + t;
    }
  }

  lemma {:induction false} PlainGoesOn(json: string, i: nat, t: string, acc: string) returns (more: string)
    requires At(json, i, t) && PlainKey(t) && i + |t| <= |json|
    ensures StringEnd(json, i, false, acc) == StringEnd(json, i + |t|, false, more)
    decreases |t|
  {
    if t == "" {
      more := acc;
    } else {
      AtFirst(json, i, t);
      assert t == [t[0]] + t[1..];
      AtSplit(json, i, [t[0]], t[1..]);
      hide At;
      more := PlainGoesOn(json, i + 1, t[1..], acc + [t[0]]);
    }
  }

  lemma PairGoesOn(json: string, i: nat, d: char, acc: string)
    requires i + 2 <= |json| && json[i] == '\\' && json[i + 1] == d
    ensures StringEnd(json, i, false, acc) == StringEnd(json, i + 2, false, acc + [d])
  {
  }

  lemma CharGoesOn(json: string, i: nat, c: char, acc: string) returns (more: string)
    requires At(json, i, EscapeChar(c)) && i + |EscapeChar(c)| <= |json|
    ensures StringEnd(json, i, false, acc) == StringEnd(json, i + |EscapeChar(c)|, false, more)
  {
    EscapeShape(c);
    var t := EscapeChar(c);
    hide EscapeChar, StringEnd;
    if |t| == 1 {
      more := PlainGoesOn(json, i, t, acc);
    } else {
      assert t == [t[0], t[1]] + t[2..];
      AtSplit(json, i, [t[0], t[1]], t[2..]);
      AtIndex(json, i, t, 0);
      AtIndex(json, i, t, 1);
      hide At;
      PairGoesOn(json, i, t[1], acc);
      more := PlainGoesOn(json, i + 2, t[2..], acc + [t[1]]);
    }
  }

  lemma {:induction false} EscapeEnd(json: string, i: nat, t: string, acc: string)
    requires At(json, i, JsonEscape(t)) && i + |JsonEscape(t)| < |json| && json[i + |JsonEscape(t)|] == '"'
    ensures StringEnd(json, i, false, acc).0 == i + |JsonEscape(t)|
    decreases |t|
  {
    hide *;
    if t == "" {
      EndHere(json, i, acc);
    } else {
      EscapeCons(t);
      AtSplit(json, i, EscapeChar(t[0]), JsonEscape(t[1..]));
      var more := CharGoesOn(json, i, t[0], acc);
      EscapeEnd(json, i + |EscapeChar(t[0])|, t[1..], more);
    }
  }

  lemma EndHere(json: string, i: nat, acc: string)
    requires i + |JsonEscape("")| < |json| && json[i + |JsonEscape("")|] == '"'
    ensures StringEnd(json, i, false, acc).0 == i + |JsonEscape("")|
  {
  }

  lemma {:induction false} NoQuoteBefore(json: string, i: nat, j: nat)
    requires i <= j <= |json| && forall k :: i <= k < j ==> json[k] != '"'
    ensures NextQuote(json, i) == NextQuote(json, j)
    decreases j - i
  {
    if i < j {
      NoQuoteBefore(json, i + 1, j);
    }
  }

  lemma PrefixSkips(json: string, i: nat, j: nat, prefix: string)
    requires i <= j <= |json| && forall k :: i <= k < j ==> json[k] != '"'
    ensures PrefixFrom(json, i, prefix) <==> PrefixFrom(json, j, prefix)
  {
    NoQuoteBefore(json, i, j);
    hide StringEnd, ColonAfter, NextQuote;
  }

  lemma PrefixAtQuote(json: string, p: nat, prefix: string, name: string, end: nat)
    requires p < |json| && json[p] == '"' && end < |json| && StringEnd(json, p + 1, false, "") == (end, name)
    ensures PrefixFrom(json, p, prefix) <==>
      (ColonAfter(json, end + 1) && prefix <= name) || PrefixFrom(json, end + 1, prefix)
  {
    hide StringEnd, ColonAfter;
  }

  lemma PrefixKey(json: string, p: nat, key: string, prefix: string)
    requires At(json, p, Needle(key)) && PlainKey(key) && p + |Needle(key)| < |json| && json[p + |Needle(key)|] == ':'
    ensures PrefixFrom(json, p, prefix) <==> prefix <= key || PrefixFrom(json, p + |Needle(key)|, prefix)
  {
    hide *;
    NeedleParts(json, p, key);
    PlainEnd(json, p + 1, key, "");
    assert "" + key == key;
    ColonHere(json, p + |Needle(key)|);
    PrefixAtQuote(json, p, prefix, key, p + 1 + |key|);
  }

  lemma NeedleParts(json: string, p: nat, key: string)
    requires At(json, p, Needle(key))
    ensures p + |key| + 2 <= |json| && |Needle(key)| == |key| + 2 && json[p] == '"' && At(json, p + 1, key + "\"")
  {
    assert Needle(key) == "\"" + (key + "\"");
    AtSplit(json, p, "\"", key + "\"");
    AtFirst(json, p, "\"");
  }

  lemma PrefixValue(json: string, p: nat, v: Value, prefix: string)
    requires At(json, p, Render(v)) && p + |Render(v)| < |json| && Separator(json[p + |Render(v)|])
    ensures PrefixFrom(json, p, prefix) <==> PrefixFrom(json, p + |Render(v)|, prefix)
  {
    hide PrefixFrom, StringEnd, ColonAfter, JsonEscape, Separator;
    if v.Str? {
      var e := JsonEscape(v.s);
      StringParts(json, p, v.s);
      EscapeEnd(json, p + 1, v.s, "");
      PrefixAtQuote(json, p, prefix, StringEnd(json, p + 1, false, "").1, p + 1 + |e|);
      ColonHere(json, p + 2 + |e|);
    } else {
      NoQuoteIn(json, p, v);
      PrefixSkips(json, p, p + |Render(v)|, prefix);
    }
  }

  lemma NoQuoteIn(json: string, p: nat, v: Value)
    requires At(json, p, Render(v)) && !v.Str?
    ensures forall k :: p <= k < p + |Render(v)| && k < |json| ==> json[k] != '"'
  {
    DigitsAreQuiet(if v.Uint? then v.n else 0);
    forall k | p <= k < p + |Render(v)|
      ensures json[k] != '"'
    {
      AtIndex(json, p, Render(v), k - p);
      assert Render(v)[k - p] !in "\"{}[]";
    }
  }

  lemma PrefixMember(json: string, p: nat, m: Member, prefix: string)
    requires At(json, p, MemberText(m)) && p + |MemberText(m)| < |json| && Separator(json[p + |MemberText(m)|])
    requires PlainKey(m.key)
    ensures PrefixFrom(json, p, prefix) <==> prefix <= m.key || PrefixFrom(json, p + |MemberText(m)| + 1, prefix)
  {
    hide *;
    MemberLayout(json, p, m);
    var c := p + |Needle(m.key)|;
    ValueFacts(json, c, m.value);
    PrefixKey(json, p, m.key, prefix);
    PrefixSkips(json, c, c + 1, prefix);
    PrefixValue(json, c + 1, m.value, prefix);
    SeparatorNoQuote(json, p + |MemberText(m)|);
    PrefixSkips(json, p + |MemberText(m)|, p + |MemberText(m)| + 1, prefix);
  }

  lemma SeparatorNoQuote(json: string, c: nat)
    requires c < |json| && Separator(json[c])
    ensures json[c] != '"'
  {
  }

  predicate AnyKeyStarts(ms: seq<Member>, prefix: string) {
    exists i :: 0 <= i < |ms| && prefix <= ms[i].key
  }

  lemma AnyKeyCons(ms: seq<Member>, prefix: string)
    requires ms != []
    ensures AnyKeyStarts(ms, prefix) <==> prefix <= ms[0].key || AnyKeyStarts(ms[1..], prefix)
    ensures |ms| == 1 ==> !AnyKeyStarts(ms[1..], prefix)
  {
    if AnyKeyStarts(ms, prefix) && !(prefix <= ms[0].key) {
      var i :| 0 <= i < |ms| && prefix <= ms[i].key;
      assert ms[1..][i - 1] == ms[i];
    }
    if AnyKeyStarts(ms[1..], prefix) {
      var i :| 0 <= i < |ms[1..]| && prefix <= ms[1..][i].key;
      assert ms[i + 1] == ms[1..][i];
    }
  }

  lemma PrefixAtEnd(json: string, prefix: string)
    ensures !PrefixFrom(json, |json|, prefix)
  {
  }

  lemma {:induction false} PrefixOfRest(json: string, p: nat, ms: seq<Member>, prefix: string)
    requires RestHere(json, p, ms)
    ensures p <= |json| && (PrefixFrom(json, p, prefix) <==> AnyKeyStarts(ms, prefix))
    decreases |ms|
  {
    hide *;
    PlainTail(json, p, ms);
    RestHead(json, p, ms);
    PrefixMember(json, p, ms[0], prefix);
    AnyKeyCons(ms, prefix);
    if |ms| == 1 {
      PrefixAtEnd(json, prefix);
    } else {
      RestTail(json, p, ms);
      PrefixOfRest(json, p + |MemberText(ms[0])| + 1, ms[1..], prefix);
    }
  }

  /** The prefix search finds a field exactly when some key starts with the prefix. */
  lemma PrefixSearchIsExact(ms: seq<Member>, prefix: string)
    requires ms != [] && PlainKeys(ms)
    ensures PrefixFrom(Flat(ms), 0, prefix) <==> AnyKeyStarts(ms, prefix)
  {
    hide *;
    FlatHere(ms);
    PrefixSkips(Flat(ms), 0, 1, prefix);
    PrefixOfRest(Flat(ms), 1, ms, prefix);
  }

  // ---- Every flat object passes the single-object test ----

  /** No closing brace is live between `a` and `b`, and the scanner is in the one object throughout. */
  ghost predicate OpenOver(json: string, a: nat, b: nat) {
    forall k :: a <= k < b && k < |json| ==>
      StateAt(json, k).objects == 1 && (StateAt(json, k).inString || (json[k] != '}' && json[k] != '{'))
  }

  lemma OpenJoin(json: string, a: nat, b: nat, c: nat)
    requires OpenOver(json, a, b) && OpenOver(json, b, c)
    ensures OpenOver(json, a, c)
  {
    hide StateAt;
  }

  lemma CoveredIsOpen(json: string, a: nat, b: nat)
    requires Covered(json, a, b)
    ensures OpenOver(json, a, b)
  {
    hide StateAt;
  }

  lemma OneOpen(json: string, k: nat)
    requires k < |json| && StateAt(json, k) == TOP && json[k] != '}' && json[k] != '{'
    ensures OpenOver(json, k, k + 1)
  {
    hide StateAt;
  }

  lemma RenderNoBrace(v: Value)
    ensures |Render(v)| > 0 && Render(v)[0] != '{' && Render(v)[0] != '}'
  {
    RenderFirst(v);
  }

  lemma MemberOpen(json: string, p: nat, m: Member)
    requires At(json, p, MemberText(m)) && p + |MemberText(m)| < |json| && Separator(json[p + |MemberText(m)|])
    requires StateAt(json, p) == TOP && PlainKey(m.key)
    ensures OpenOver(json, p, p + |MemberText(m)|) && StateAt(json, p + |MemberText(m)|) == TOP
  {
    hide *;
    MemberLayout(json, p, m);
    MemberStates(json, p, m);
    var v := p + |Needle(m.key)| + 1;
    NeedleParts(json, p, m.key);
    ValueFacts(json, v - 1, m.value);
    RenderNoBrace(m.value);
    AtFirst(json, v, Render(m.value));
    OneOpen(json, p);
    OneOpen(json, v);
    CoveredIsOpen(json, p + 1, v);
    CoveredIsOpen(json, v + 1, p + |MemberText(m)|);
    OpenJoin(json, p, p + 1, v);
    OpenJoin(json, p, v, v + 1);
    OpenJoin(json, p, v + 1, p + |MemberText(m)|);
  }

  lemma {:induction false} RestOpen(json: string, p: nat, ms: seq<Member>)
    requires RestHere(json, p, ms)
    ensures p < |json| && OpenOver(json, p, |json| - 1) && StateAt(json, |json| - 1) == TOP && json[|json| - 1] == '}'
    decreases |ms|
  {
    hide *;
    PlainTail(json, p, ms);
    RestHead(json, p, ms);
    MemberOpen(json, p, ms[0]);
    var c := p + |MemberText(ms[0])|;
    if |ms| > 1 {
      RestTail(json, p, ms);
      OneOpen(json, c);
      RestOpen(json, c + 1, ms[1..]);
      OpenJoin(json, p, c, c + 1);
      OpenJoin(json, p, c + 1, |json| - 1);
    }
  }

  lemma {:induction false} ClosesAfterOpen(json: string, k: nat)
    requires k < |json| && OpenOver(json, k, |json| - 1) && StateAt(json, |json| - 1) == TOP && json[|json| - 1] == '}'
    ensures ClosesFrom(json, k, StateAt(json, k))
    decreases |json| - k
  {
    hide StateAt, ClosesFrom;
    ClosesStep(json, k, StateAt(json, k));
    if k < |json| - 1 {
      StateNext(json, k);
      ClosesAfterOpen(json, k + 1);
    }
  }

  lemma FlatIsSingleObject(ms: seq<Member>)
    requires ms != [] && PlainKeys(ms)
    ensures SingleObject(Flat(ms))
  {
    hide *;
    var json := Flat(ms);
    FlatHere(ms);
    RestOpen(json, 1, ms);
    ClosesAfterOpen(json, 1);
    BraceOpens(json);
  }

  lemma BraceOpens(json: string)
    requires |json| > 1 && json[0] == '{' && ClosesFrom(json, 1, StateAt(json, 1))
    ensures SingleObject(json)
  {
    SkipNone(json, 0);
    ClosesStep(json, 0, OUTSIDE);
    StateNext(json, 0);
    assert json[..0] == "";
    hide ClosesFrom, SkipSpace;
  }
}
