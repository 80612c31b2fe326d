/** The flat objects of src/simulation.cpp's result builder, and what the scanners of src/result.cpp find
    in them. */
module FlatJson {
  import opened Bytes
  import opened Text
  import opened JsonScan
  import JsonInversion

  datatype Value = Uint(n: nat) | Str(s: string) | True

  datatype Member = Member(key: string, value: Value)

  function Render(v: Value): string {
    match v
    case Uint(n) => Dec(n)
    case Str(s) => JsonString(s)
    case True => "true"
  }

  function MemberText(m: Member): string {
    Needle(m.key) + (":" + Render(m.value))
  }

  /** The object's text from its first member to its closing brace. */
  function Rest(ms: seq<Member>): string {
    if ms == [] then "}"
    else if |ms| == 1 then MemberText(ms[0]) + "}"
    else MemberText(ms[0]) + ("," + Rest(ms[1..]))
  }

  function Flat(ms: seq<Member>): string {
    "{" + Rest(ms)
  }

  /** A key that needs no escape, as every key of the builder is. */
  predicate PlainKey(key: string) {
    forall i :: 0 <= i < |key| ==> key[i] != '"' && key[i] != '\\'
  }

  ghost predicate PlainKeys(ms: seq<Member>) {
    forall i :: 0 <= i < |ms| ==> PlainKey(ms[i].key)
  }

  /** The value of the first member with this key. */
  function Find(ms: seq<Member>, name: string): Option<Value> {
    if ms == [] then None else if ms[0].key == name then Some(ms[0].value) else Find(ms[1..], name)
  }

  // ---- The scanner over the pieces of an object ----

  lemma {:induction false} PlainRun(s: Scan, t: string)
    requires s.inString && !s.escaped && PlainKey(t)
    ensures Run(s, t) == s
  {
    if t != "" {
      PlainRun(s, t[..|t| - 1]);
    }
  }

  predicate Quiet(t: string) {
    forall i :: 0 <= i < |t| ==> t[i] !in "\"{}[]"
  }

  lemma {:induction false} QuietRun(s: Scan, t: string)
    requires !s.inString && Quiet(t)
    ensures Run(s, t) == s
  {
    if t != "" {
      assert t[|t| - 1] !in "\"{}[]";
      QuietRun(s, t[..|t| - 1]);
    }
  }

  lemma RunOne(s: Scan, c: char)
    ensures Run(s, [c]) == Step(s, c)
  {
    assert [c][..0] == "";
  }

  lemma RunTwo(s: Scan, c: char, d: char)
    ensures Run(s, [c, d]) == Step(Step(s, c), d)
  {
    RunConcat(s, [c], [d]);
    RunOne(s, c);
    RunOne(Step(s, c), d);
    assert [c] + [d] == [c, d];
  }

  /** Scanning one escaped character keeps the scanner in the string. */
  lemma EscapeCharRun(s: Scan, c: char)
    requires s.inString && !s.escaped
    ensures Run(s, EscapeChar(c)) == s
  {
    if c < ' ' && |EscapeChar(c)| == 6 {
      var t := EscapeChar(c);
      assert t[..2] == "\\u" && t == t[..2] + t[2..];
      RunConcat(s, t[..2], t[2..]);
      RunTwo(s, '\\', 'u');
      PlainRun(s, t[2..]);
    } else if |EscapeChar(c)| == 2 {
      RunTwo(s, '\\', EscapeChar(c)[1]);
    } else {
      RunOne(s, c);
    }
  }

  lemma {:induction false} EscapeRun(s: Scan, t: string)
    requires s.inString && !s.escaped
    ensures Run(s, JsonEscape(t)) == s
  {
    if t != "" {
      EscapeCharRun(s, t[0]);
      EscapeRun(s, t[1..]);
      hide Run, EscapeChar;
      RunConcat(s, EscapeChar(t[0]), JsonEscape(t[1..]));
    }
  }

  /** At no point of an escaped text is the scanner outside the string. */
  predicate StaysQuoted(s: Scan, t: string) {
    forall k :: 0 <= k <= |t| ==> Run(s, t[..k]).inString && Run(s, t[..k]).objects == s.objects
  }

  lemma QuotedPrefix(s: Scan, a: string, b: string)
    requires StaysQuoted(s, a) && Run(s, a) == s && StaysQuoted(s, b)
    ensures StaysQuoted(s, a + b)
  {
    forall k | 0 <= k <= |a + b|
      ensures Run(s, (a + b)[..k]).inString && Run(s, (a + b)[..k]).objects == s.objects
    {
      if k <= |a| {
        assert (a + b)[..k] == a[..k];
      } else {
        assert (a + b)[..k] == a + b[..k - |a|];
        RunConcat(s, a, b[..k - |a|]);
      }
    }
  }

  lemma {:induction false} PlainStaysQuoted(s: Scan, t: string)
    requires s.inString && !s.escaped && PlainKey(t)
    ensures StaysQuoted(s, t)
  {
    forall k | 0 <= k <= |t|
      ensures Run(s, t[..k]).inString && Run(s, t[..k]).objects == s.objects
    {
      PlainRun(s, t[..k]);
    }
  }

  lemma PairStaysQuoted(s: Scan, d: char)
    requires s.inString && !s.escaped
    ensures StaysQuoted(s, ['\\', d])
  {
    var t := ['\\', d];
    RunOne(s, '\\');
    RunTwo(s, '\\', d);
    assert t[..0] == "" && t[..1] == ['\\'] && t[..2] == t;
  }

  lemma EscapeCharStaysQuoted(s: Scan, c: char)
    requires s.inString && !s.escaped
    ensures StaysQuoted(s, EscapeChar(c))
  {
    if c < ' ' && |EscapeChar(c)| == 6 {
      var t := EscapeChar(c);
      assert t == ['\\', 'u'] + t[2..];
      PairStaysQuoted(s, 'u');
      RunTwo(s, '\\', 'u');
      PlainStaysQuoted(s, t[2..]);
      QuotedPrefix(s, ['\\', 'u'], t[2..]);
    } else if |EscapeChar(c)| == 2 {
      PairStaysQuoted(s, EscapeChar(c)[1]);
    } else {
      PlainStaysQuoted(s, [c]);
    }
  }

  lemma {:induction false} EscapeStaysQuoted(s: Scan, t: string)
    requires s.inString && !s.escaped
    ensures StaysQuoted(s, JsonEscape(t))
  {
    if t == "" {
      assert JsonEscape(t)[..0] == "";
    } else {
      EscapeCharRun(s, t[0]);
      EscapeCharStaysQuoted(s, t[0]);
      EscapeStaysQuoted(s, t[1..]);
      hide Run, EscapeChar, StaysQuoted;
      QuotedPrefix(s, EscapeChar(t[0]), JsonEscape(t[1..]));
    }
  }

  // ---- Scanner states inside an object ----

  /** The scanner's state over characters `a` to `b`: inside a string, or at a character that is no quote;
      and inside the one object either way. */
  ghost predicate Covered(json: string, a: nat, b: nat) {
    forall k :: a <= k < b && k < |json| ==>
      StateAt(json, k).objects == 1 && (StateAt(json, k).inString || json[k] !in "\"{}[]")
  }

  lemma CoveredJoin(json: string, a: nat, b: nat, c: nat)
    requires Covered(json, a, b) && Covered(json, b, c)
    ensures Covered(json, a, c)
  {
    hide StateAt;
  }

  lemma StateInside(json: string, p: nat, t: string, k: nat)
    requires At(json, p, t) && k <= |t|
    ensures StateAt(json, p + k) == Run(StateAt(json, p), t[..k])
  {
    hide StateAt, Run;
    assert At(json, p, t[..k]) by {
      assert json[p..p + k] == json[p..p + |t|][..k];
    }
    StateAcross(json, p, t[..k]);
  }

  lemma QuietStates(json: string, p: nat, t: string)
    requires At(json, p, t) && StateAt(json, p) == TOP && Quiet(t)
    ensures StateAt(json, p + |t|) == TOP && Covered(json, p, p + |t|)
  {
    hide StateAt, Run;
    forall k | p <= k <= p + |t|
      ensures StateAt(json, k) == TOP
    {
      StateInside(json, p, t, k - p);
      QuietRun(TOP, t[..k - p]);
    }
    forall k | p <= k < p + |t|
      ensures json[k] !in "\"{}[]"
    {
      AtIndex(json, p, t, k - p);
    }
  }

  lemma QuotedEnds(json: string, p: nat, t: string)
    requires At(json, p, "\"" + (t + "\"")) && StateAt(json, p) == TOP && Run(QUOTED, t) == QUOTED
    ensures p + |t| + 2 <= |json|
    ensures At(json, p + 1, t) && StateAt(json, p + 1) == QUOTED && StateAt(json, p + |t| + 2) == TOP
  {
    hide StateAt, Run, At;
    AtSplit(json, p, "\"", t + "\"");
    AtSplit(json, p + 1, t, "\"");
    AtFirst(json, p, "\"");
    AtFirst(json, p + 1 + |t|, "\"");
    StateNext(json, p);
    StateAcross(json, p + 1, t);
    StateNext(json, p + 1 + |t|);
  }

  /** A quoted text whose body never leaves the string. */
  lemma QuotedStates(json: string, p: nat, t: string)
    requires At(json, p, "\"" + (t + "\"")) && StateAt(json, p) == TOP
    requires StaysQuoted(QUOTED, t) && Run(QUOTED, t) == QUOTED
    ensures StateAt(json, p + |t| + 2) == TOP && Covered(json, p + 1, p + |t| + 2)
    ensures forall k :: p < k < p + |t| + 2 ==> StateAt(json, k).inString
  {
    hide StateAt, Run, At;
    QuotedEnds(json, p, t);
    forall k | p < k < p + |t| + 2
      ensures StateAt(json, k).inString && StateAt(json, k).objects == 1
    {
      StateInside(json, p + 1, t, k - p - 1);
    }
  }

  lemma KeyStates(json: string, p: nat, key: string)
    requires At(json, p, Needle(key)) && StateAt(json, p) == TOP && PlainKey(key)
    ensures StateAt(json, p + |Needle(key)|) == TOP && Covered(json, p + 1, p + |Needle(key)|)
    ensures forall k :: p < k < p + |Needle(key)| ==> StateAt(json, k).inString
  {
    hide StateAt, Run, StaysQuoted;
    assert Needle(key) == "\"" + (key + "\"");
    PlainRun(QUOTED, key);
    PlainStaysQuoted(QUOTED, key);
    QuotedStates(json, p, key);
  }

  lemma StringStates(json: string, p: nat, s: string)
    requires At(json, p, JsonString(s)) && StateAt(json, p) == TOP
    ensures StateAt(json, p + |JsonString(s)|) == TOP && Covered(json, p + 1, p + |JsonString(s)|)
    ensures forall k :: p < k < p + |JsonString(s)| ==> StateAt(json, k).inString
  {
    hide StateAt, Run, StaysQuoted, JsonEscape;
    assert JsonString(s) == "\"" + (JsonEscape(s) + "\"");
    EscapeRun(QUOTED, s);
    EscapeStaysQuoted(QUOTED, s);
    QuotedStates(json, p, JsonEscape(s));
  }

  lemma DigitsAreQuiet(n: nat)
    ensures Quiet(Dec(n)) && Quiet("true") && Quiet(":") && Quiet(",")
  {
    forall i | 0 <= i < |Dec(n)|
      ensures Dec(n)[i] !in "\"{}[]"
    {
      assert IsDigit(Dec(n)[i]);
    }
  }

  /** Behind its first character a value is covered, and it leaves the scanner where it found it. */
  lemma ValueStates(json: string, p: nat, v: Value)
    requires At(json, p, Render(v)) && StateAt(json, p) == TOP
    ensures StateAt(json, p + |Render(v)|) == TOP && |Render(v)| > 0
    ensures Covered(json, p + 1, p + |Render(v)|) && (v.Str? || Covered(json, p, p + 1))
  {
    hide StateAt, Covered, Quiet, JsonString;
    match v
    case Uint(n) =>
      DigitsAreQuiet(n);
      QuietStates(json, p, Dec(n));
      CoveredPart(json, p, p + |Dec(n)|);
    case True =>
      DigitsAreQuiet(0);
      QuietStates(json, p, "true");
      CoveredPart(json, p, p + 4);
    case Str(s) =>
      StringStates(json, p, s);
      QuoteFirst(s);
  }

  lemma QuoteFirst(s: string)
    ensures |JsonString(s)| > 0 && JsonString(s)[0] == '"'
  {
  }

  lemma CoveredPart(json: string, a: nat, b: nat)
    requires a < b && Covered(json, a, b)
    ensures Covered(json, a, a + 1) && Covered(json, a + 1, b)
  {
    hide StateAt;
  }

  // ---- No key where there is none ----

  lemma CoveredMisses(json: string, name: string, a: nat, b: nat)
    requires Covered(json, a, b)
    ensures forall k :: a <= k < b ==> !Hit(json, name, k)
  {
    forall k | a <= k < b
      ensures !Hit(json, name, k)
    {
      hide StateAt;
      if At(json, k, Needle(name)) {
        AtFirst(json, k, Needle(name));
      }
    }
  }

  /** Two quoted plain names at one place are one name. */
  lemma SameName(json: string, p: nat, a: string, b: string)
    requires At(json, p, Needle(a)) && At(json, p, Needle(b)) && PlainKey(a) && PlainKey(b)
    ensures a == b
  {
    NameEnd(json, p, a);
    NameEnd(json, p, b);
    hide At, Needle;
    forall i | 0 <= i < |a|
      ensures a[i] == b[i]
    {
      assert json[p + 1 + i] == a[i];
    }
  }

  lemma NameEnd(json: string, p: nat, a: string)
    requires At(json, p, Needle(a)) && PlainKey(a)
    ensures forall i :: p < i < p + 1 + |a| && i < |json| ==> json[i] != '"'
    ensures p + |a| + 2 <= |json| && json[p] == '"' && json[p + 1 + |a|] == '"'
    ensures forall i :: 0 <= i < |a| ==> json[p + 1 + i] == a[i]
  {
    assert Needle(a) == "\"" + (a + "\"");
    AtSplit(json, p, "\"", a + "\"");
    AtSplit(json, p + 1, a, "\"");
    AtFirst(json, p, "\"");
    AtFirst(json, p + 1 + |a|, "\"");
    forall i | 0 <= i < |a|
      ensures json[p + 1 + i] == a[i]
    {
      AtIndex(json, p + 1, a, i);
    }
    forall i | p < i < p + 1 + |a|
      ensures json[i] != '"'
    {
      assert json[p + 1 + (i - p - 1)] == a[i - p - 1];
    }
  }

  predicate Separator(c: char) {
    c == ',' || c == '}'
  }

  /** A string value is never taken for a key, whatever it says: no colon follows it. */
  lemma StringIsNoKey(json: string, p: nat, s: string, name: string)
    requires At(json, p, JsonString(s)) && StateAt(json, p) == TOP && PlainKey(name)
    requires p + |JsonString(s)| < |json| && Separator(json[p + |JsonString(s)|])
    ensures !Hit(json, name, p)
  {
    hide StateAt, SkipSpace, TopLevel, JsonString;
    if Hit(json, name, p) {
      StringStates(json, p, s);
      KeyStates(json, p, name);
      if |JsonString(s)| == |Needle(name)| {
        SkipNone(json, p + |Needle(name)|);
      }
    }
  }

  lemma SkipNone(json: string, i: nat)
    requires i < |json| && !IsSpace(json[i])
    ensures SkipSpace(json, i) == i
  {
  }

  // ---- One member ----

  /** A value stands behind the colon at `c`, and a separator behind the value. */
  predicate ValueHere(json: string, c: nat, v: Value) {
    && c < |json| && json[c] == ':' && At(json, c + 1, Render(v))
    && c + 1 + |Render(v)| < |json| && Separator(json[c + 1 + |Render(v)|])
  }

  lemma MemberLayout(json: string, p: nat, m: Member)
    requires At(json, p, MemberText(m)) && p + |MemberText(m)| < |json| && Separator(json[p + |MemberText(m)|])
    ensures At(json, p, Needle(m.key)) && At(json, p + |Needle(m.key)|, ":")
    ensures ValueHere(json, p + |Needle(m.key)|, m.value)
    ensures |MemberText(m)| == |Needle(m.key)| + 1 + |Render(m.value)|
  {
    hide At, Needle, Render;
    AtSplit(json, p, Needle(m.key), ":" + Render(m.value));
    AtSplit(json, p + |Needle(m.key)|, ":", Render(m.value));
    AtFirst(json, p + |Needle(m.key)|, ":");
  }

  /** A member keeps the scanner at the top of the object and hides nothing behind its first quote. */
  lemma MemberStates(json: string, p: nat, m: Member)
    requires At(json, p, MemberText(m)) && p + |MemberText(m)| < |json| && Separator(json[p + |MemberText(m)|])
    requires StateAt(json, p) == TOP && PlainKey(m.key)
    ensures var v := p + |Needle(m.key)| + 1;
      && StateAt(json, p + |MemberText(m)|) == TOP && StateAt(json, v) == TOP
      && Covered(json, p + 1, v) && Covered(json, v + 1, p + |MemberText(m)|)
      && (m.value.Str? || Covered(json, v, v + 1))
  {
    hide *;
    MemberLayout(json, p, m);
    KeyStates(json, p, m.key);
    var c := p + |Needle(m.key)|;
    DigitsAreQuiet(0);
    QuietStates(json, c, ":");
    CoveredJoin(json, p + 1, c, c + 1);
    ValueFacts(json, c, m.value);
    ValueStates(json, c + 1, m.value);
  }

  lemma ValueFacts(json: string, c: nat, v: Value)
    requires ValueHere(json, c, v)
    ensures c < |json| && json[c] == ':' && At(json, c + 1, Render(v))
    ensures c + 1 + |Render(v)| < |json| && Separator(json[c + 1 + |Render(v)|])
  {
  }

  /** A member is hit at its key when the name is its key, and nowhere when it is not. */
  lemma MemberHits(json: string, p: nat, m: Member, name: string)
    requires At(json, p, MemberText(m)) && p + |MemberText(m)| < |json| && Separator(json[p + |MemberText(m)|])
    requires StateAt(json, p) == TOP && PlainKey(m.key) && PlainKey(name)
    ensures m.key == name ==> Hit(json, name, p) && ValueHere(json, p + |Needle(name)|, m.value)
    ensures m.key != name ==> forall k :: p <= k < p + |MemberText(m)| ==> !Hit(json, name, k)
  {
    MemberLayout(json, p, m);
    if m.key == name {
      hide StateAt, Run;
      SkipNone(json, p + |Needle(name)|);
    } else {
      OtherKeyMisses(json, p, m, name);
    }
  }

  lemma OtherKeyMisses(json: string, p: nat, m: Member, name: string)
    requires At(json, p, MemberText(m)) && p + |MemberText(m)| < |json| && Separator(json[p + |MemberText(m)|])
    requires StateAt(json, p) == TOP && PlainKey(m.key) && PlainKey(name) && m.key != name
    ensures forall k :: p <= k < p + |MemberText(m)| ==> !Hit(json, name, k)
  {
    hide *;
    MemberLayout(json, p, m);
    MemberStates(json, p, m);
    var c := p + |Needle(m.key)|;
    KeyIsNotHit(json, p, m.key, name);
    CoveredMisses(json, name, p + 1, c + 1);
    CoveredMisses(json, name, c + 2, p + |MemberText(m)|);
    ValueStartMisses(json, c, m.value, name);
  }

  lemma KeyIsNotHit(json: string, p: nat, key: string, name: string)
    requires At(json, p, Needle(key)) && PlainKey(key) && PlainKey(name) && key != name
    ensures !Hit(json, name, p)
  {
    if Hit(json, name, p) {
      hide StateAt, Needle, At;
      SameName(json, p, key, name);
    }
  }

  lemma ValueStartMisses(json: string, c: nat, v: Value, name: string)
    requires ValueHere(json, c, v) && StateAt(json, c + 1) == TOP && PlainKey(name)
    requires v.Str? || Covered(json, c + 1, c + 2)
    ensures !Hit(json, name, c + 1)
  {
    hide StateAt, Covered, Hit, JsonString;
    if v.Str? {
      StringIsNoKey(json, c + 1, v.s, name);
    } else {
      CoveredMisses(json, name, c + 1, c + 2);
    }
  }

  // ---- The lookups over a whole object ----

  /** `text` from `p` on is the rest of an object whose members are `ms`, the scanner being at its top. */
  ghost predicate RestHere(json: string, p: nat, ms: seq<Member>) {
    && ms != [] && PlainKeys(ms) && At(json, p, Rest(ms)) && p + |Rest(ms)| == |json| && StateAt(json, p) == TOP
  }

  lemma RestHead(json: string, p: nat, ms: seq<Member>)
    requires RestHere(json, p, ms)
    ensures At(json, p, MemberText(ms[0])) && p + |MemberText(ms[0])| < |json| && PlainKey(ms[0].key)
    ensures Separator(json[p + |MemberText(ms[0])|]) && StateAt(json, p) == TOP
    ensures |ms| == 1 ==> p + |MemberText(ms[0])| + 1 == |json| && json[p + |MemberText(ms[0])|] == '}'
  {
    hide StateAt, MemberText, At, PlainKey, Rest;
    var sep := AfterMember(ms);
    RestIs(ms);
    AtSplit(json, p, MemberText(ms[0]), sep);
    AtFirst(json, p + |MemberText(ms[0])|, sep);
  }

  /** What follows the first member: the brace, or a comma and the other members. */
  function AfterMember(ms: seq<Member>): (s: string)
    requires ms != []
    ensures s != "" && s[0] == (if |ms| == 1 then '}' else ',') && (|ms| == 1 ==> s == "}")
  {
    if |ms| == 1 then "}" else "," + Rest(ms[1..])
  }

  lemma RestIs(ms: seq<Member>)
    requires ms != []
    ensures Rest(ms) == MemberText(ms[0]) + AfterMember(ms)
  {
    hide MemberText;
  }

  lemma RestTail(json: string, p: nat, ms: seq<Member>)
    requires RestHere(json, p, ms) && |ms| > 1
    ensures RestHere(json, p + |MemberText(ms[0])| + 1, ms[1..]) && json[p + |MemberText(ms[0])|] == ','
  {
    hide *;
    RestHead(json, p, ms);
    MemberStates(json, p, ms[0]);
    RestSplit(json, p, ms);
    StateComma(json, p + |MemberText(ms[0])|);
    PlainTail(json, p, ms);
    RestMake(json, p + |MemberText(ms[0])| + 1, ms[1..]);
  }

  lemma StateComma(json: string, c: nat)
    requires c < |json| && json[c] == ',' && StateAt(json, c) == TOP
    ensures StateAt(json, c + 1) == TOP
  {
    StateNext(json, c);
  }

  lemma PlainTail(json: string, p: nat, ms: seq<Member>)
    requires RestHere(json, p, ms)
    ensures ms != [] && PlainKeys(ms[1..])
  {
    hide StateAt, At, Rest, PlainKey;
  }

  lemma RestMake(json: string, p: nat, ms: seq<Member>)
    requires ms != [] && PlainKeys(ms) && At(json, p, Rest(ms)) && p + |Rest(ms)| == |json| && StateAt(json, p) == TOP
    ensures RestHere(json, p, ms)
  {
    hide StateAt, At, Rest, PlainKeys;
  }

  lemma RestSplit(json: string, p: nat, ms: seq<Member>)
    requires RestHere(json, p, ms) && |ms| > 1
    ensures var c := p + |MemberText(ms[0])|;
      && c < |json| && json[c] == ',' && At(json, c + 1, Rest(ms[1..])) && c + 1 + |Rest(ms[1..])| == |json|
  {
    hide StateAt, MemberText, At;
    var c := p + |MemberText(ms[0])|;
    AtSplit(json, p, MemberText(ms[0]), "," + Rest(ms[1..]));
    AtSplit(json, c, ",", Rest(ms[1..]));
    AtFirst(json, c, ",");
  }

  /** Where the search for `name` ends up, and what stands there. */
  ghost predicate Located(json: string, name: string, from: nat, found: Option<Value>) {
    match found
    case None => FirstHit(json, name, from) == None
    case Some(v) =>
      var k := FirstHit(json, name, from);
      k.Some? && k.value < |json| && Hit(json, name, k.value) && ValueHere(json, k.value + |Needle(name)|, v)
  }

  lemma {:induction false} SearchRest(json: string, p: nat, ms: seq<Member>, name: string)
    requires RestHere(json, p, ms) && PlainKey(name)
    ensures Located(json, name, p, Find(ms, name))
    decreases |ms|
  {
    hide *;
    PlainTail(json, p, ms);
    RestHead(json, p, ms);
    MemberHits(json, p, ms[0], name);
    if ms[0].key == name {
      FindFirst(ms, name);
      LocatedHere(json, name, p, ms[0].value);
    } else {
      FindLater(ms, name);
      var c := p + |MemberText(ms[0])|;
      SeparatorMisses(json, name, c);
      SkipMisses(json, name, p, c);
      SkipMisses(json, name, c, c + 1);
      if |ms| == 1 {
        LocatedNowhere(json, name, p, ms[1..]);
      } else {
        RestTail(json, p, ms);
        SearchRest(json, c + 1, ms[1..], name);
        LocatedLater(json, name, p, c + 1, Find(ms[1..], name));
      }
    }
  }

  lemma FindFirst(ms: seq<Member>, name: string)
    requires ms != [] && ms[0].key == name
    ensures Find(ms, name) == Some(ms[0].value)
  {
  }

  lemma FindLater(ms: seq<Member>, name: string)
    requires ms != [] && ms[0].key != name
    ensures Find(ms, name) == Find(ms[1..], name)
  {
  }

  lemma LocatedHere(json: string, name: string, p: nat, v: Value)
    requires p < |json| && Hit(json, name, p) && ValueHere(json, p + |Needle(name)|, v)
    ensures Located(json, name, p, Some(v))
  {
    hide Hit, ValueHere, Needle;
  }

  lemma LocatedNowhere(json: string, name: string, p: nat, none: seq<Member>)
    requires none == [] && FirstHit(json, name, p) == FirstHit(json, name, |json|)
    ensures Located(json, name, p, Find(none, name))
  {
    hide Hit, ValueHere, Needle;
  }

  lemma LocatedLater(json: string, name: string, p: nat, q: nat, found: Option<Value>)
    requires FirstHit(json, name, p) == FirstHit(json, name, q) && Located(json, name, q, found)
    ensures Located(json, name, p, found)
  {
    hide FirstHit, Hit, ValueHere, Needle;
  }

  lemma SeparatorMisses(json: string, name: string, c: nat)
    requires c < |json| && Separator(json[c])
    ensures !Hit(json, name, c)
  {
    hide StateAt;
    if At(json, c, Needle(name)) {
      AtFirst(json, c, Needle(name));
    }
  }

  lemma FlatHere(ms: seq<Member>)
    requires ms != [] && PlainKeys(ms)
    ensures RestHere(Flat(ms), 1, ms) && Flat(ms)[0] == '{' && |Flat(ms)| > 1
  {
    var json := Flat(ms);
    assert At(json, 1, Rest(ms)) by {
      hide Rest;
      assert json[1..1 + |Rest(ms)|] == Rest(ms);
    }
    assert |Rest(ms)| > 0;
    hide Rest;
    assert json[..1] == "{" && json[..0] == "";
    StateNext(json, 0);
  }

  /** The lookup stops at the value of the first member with the name, and finds nothing otherwise. */
  lemma ValueStartIs(ms: seq<Member>, name: string)
    requires ms != [] && PlainKeys(ms) && PlainKey(name)
    ensures match Find(ms, name)
      case None => ValueStart(Flat(ms), name) == None
      case Some(v) =>
        var start := ValueStart(Flat(ms), name);
        start.Some? && 0 < start.value && ValueHere(Flat(ms), start.value - 1, v)
  {
    hide *;
    var json := Flat(ms);
    FlatHere(ms);
    SearchRest(json, 1, ms, name);
    BraceMisses(json, name);
    LocatedLater(json, name, 0, 1, Find(ms, name));
    LocatedStart(json, name, Find(ms, name));
  }

  lemma LocatedStart(json: string, name: string, found: Option<Value>)
    requires Located(json, name, 0, found)
    ensures match found
      case None => ValueStart(json, name) == None
      case Some(v) =>
        var start := ValueStart(json, name);
        start.Some? && 0 < start.value && ValueHere(json, start.value - 1, v)
  {
    hide Hit, FirstHit, ValueHere, Needle, ColonAfter, ValueBehind, PlainKeys;
    if found.Some? {
      FirstOfRender(json, FirstHit(json, name, 0).value + |Needle(name)|, found.value);
    }
  }

  lemma BraceMisses(json: string, name: string)
    requires json != "" && json[0] == '{'
    ensures FirstHit(json, name, 0) == FirstHit(json, name, 1)
  {
    hide StateAt;
    if At(json, 0, Needle(name)) {
      AtFirst(json, 0, Needle(name));
    }
  }

  /** No space stands between a printed colon and its value. */
  lemma FirstOfRender(json: string, c: nat, v: Value)
    requires ValueHere(json, c, v)
    ensures c <= |json| && ColonAfter(json, c) && ValueBehind(json, c) == c + 1
  {
    RenderFirst(v);
    hide Render, At, SkipSpace;
    AtFirst(json, c + 1, Render(v));
    SkipNone(json, c);
    SkipNone(json, c + 1);
  }

  lemma RenderFirst(v: Value)
    ensures |Render(v)| > 0 && !IsSpace(Render(v)[0])
    ensures v.Uint? ==> IsDigit(Render(v)[0])
    ensures v.Str? <==> Render(v)[0] == '"'
  {
    match v
    case Uint(n) => assert IsDigit(Dec(n)[0]);
    case Str(s) => QuoteFirst(s);
    case True =>
  }

  // ---- Exactness ----

  lemma UintMatches(json: string, c: nat, v: Value, expected: nat)
    requires ValueHere(json, c, v)
    ensures (At(json, c + 1, Dec(expected)) && Delimited(json, c + 1 + |Dec(expected)|)) <==> v == Uint(expected)
  {
    hide *;
    ValueFacts(json, c, v);
    RenderFirst(v);
    AtFirst(json, c + 1, Render(v));
    if v.Uint? {
      RenderUint(v.n);
      SeparatorDelimits(json, c + 1 + |Dec(v.n)|);
      if At(json, c + 1, Dec(expected)) && Delimited(json, c + 1 + |Dec(expected)|) {
        SameNumber(json, c + 1, v.n, expected);
      }
    } else {
      NotANumber(v);
      if At(json, c + 1, Dec(expected)) {
        DecFirst(expected);
        AtFirst(json, c + 1, Dec(expected));
      }
    }
  }

  lemma RenderUint(n: nat)
    ensures Render(Uint(n)) == Dec(n)
  {
  }

  lemma SeparatorDelimits(json: string, k: nat)
    requires k < |json| && Separator(json[k])
    ensures Delimited(json, k)
  {
  }

  lemma DecFirst(n: nat)
    ensures Dec(n) != "" && IsDigit(Dec(n)[0])
  {
  }

  lemma NotANumber(v: Value)
    requires !v.Uint?
    ensures |Render(v)| > 0 && !IsDigit(Render(v)[0])
  {
    if v.Str? {
      QuoteFirst(v.s);
    }
  }

  lemma SameNumber(json: string, p: nat, m: nat, n: nat)
    requires At(json, p, Dec(m)) && At(json, p, Dec(n))
    requires p + |Dec(m)| < |json| && Separator(json[p + |Dec(m)|]) && Delimited(json, p + |Dec(n)|)
    ensures m == n
  {
    DigitsHere(json, p, m);
    DigitsHere(json, p, n);
    hide Dec;
    assert |Dec(m)| == |Dec(n)|;
    DecInjective(m, n);
  }

  lemma DigitsHere(json: string, p: nat, n: nat)
    requires At(json, p, Dec(n))
    ensures forall k :: p <= k < p + |Dec(n)| && k < |json| ==> IsDigit(json[k])
  {
    forall k | p <= k < p + |Dec(n)|
      ensures IsDigit(json[k])
    {
      AtIndex(json, p, Dec(n), k - p);
      assert IsDigit(Dec(n)[k - p]);
    }
  }

  /** The uint lookup answers yes exactly when the first field of that name holds that number, whatever
      the other fields and their values say. */
  lemma UintLookupIsExact(ms: seq<Member>, name: string, expected: nat)
    requires ms != [] && PlainKeys(ms) && PlainKey(name)
    ensures HasUint(Flat(ms), name, expected) <==> Find(ms, name) == Some(Uint(expected))
  {
    hide Flat, Find, ValueStart, PlainKeys, Dec, ValueHere, PlainKey, At, Delimited;
    ValueStartIs(ms, name);
    if Find(ms, name).Some? {
      var start := ValueStart(Flat(ms), name).value;
      UintMatches(Flat(ms), start - 1, Find(ms, name).value, expected);
    }
  }

  predicate StringStands(json: string, v: nat, expected: string) {
    && v < |json| && json[v] == '"' && At(json, v + 1, JsonEscape(expected))
    && v + 1 + |JsonEscape(expected)| < |json| && json[v + 1 + |JsonEscape(expected)|] == '"'
  }

  lemma StandsIsAt(json: string, v: nat, s: string)
    ensures StringStands(json, v, s) <==> At(json, v, JsonString(s))
  {
    QuotedIsAt(json, v, JsonEscape(s));
    assert JsonString(s) == "\"" + (JsonEscape(s) + "\"");
    hide At, JsonEscape, JsonString;
  }

  lemma QuotedIsAt(json: string, v: nat, e: string)
    ensures At(json, v, "\"" + (e + "\"")) <==>
      v < |json| && json[v] == '"' && At(json, v + 1, e) && v + 1 + |e| < |json| && json[v + 1 + |e|] == '"'
  {
    if At(json, v, "\"" + (e + "\"")) {
      QuotedSplits(json, v, e);
    } else if v < |json| && json[v] == '"' && At(json, v + 1, e) && v + 1 + |e| < |json| && json[v + 1 + |e|] == '"' {
      QuotedJoins(json, v, e);
    }
  }

  lemma QuotedSplits(json: string, v: nat, e: string)
    requires At(json, v, "\"" + (e + "\""))
    ensures v < |json| && json[v] == '"' && At(json, v + 1, e) && v + 1 + |e| < |json| && json[v + 1 + |e|] == '"'
  {
    hide At;
    AtSplit(json, v, "\"", e + "\"");
    AtSplit(json, v + 1, e, "\"");
    AtFirst(json, v, "\"");
    AtFirst(json, v + 1 + |e|, "\"");
  }

  lemma QuotedJoins(json: string, v: nat, e: string)
    requires v < |json| && json[v] == '"' && At(json, v + 1, e) && v + 1 + |e| < |json| && json[v + 1 + |e|] == '"'
    ensures At(json, v, "\"" + (e + "\""))
  {
    assert At(json, v + 1 + |e|, "\"") && At(json, v, "\"");
    hide At;
    AtJoin(json, v + 1, e, "\"");
    AtJoin(json, v, "\"", e + "\"");
  }

  /** One place holds at most one printed string. */
  lemma SameString(json: string, v: nat, s: string, t: string)
    requires At(json, v, JsonString(s)) && At(json, v, JsonString(t))
    ensures s == t
  {
    hide *;
    JsonInversion.StringReadsBack(json, v, s);
    JsonInversion.StringReadsBack(json, v, t);
  }

  lemma StringMatches(json: string, c: nat, v: Value, expected: string)
    requires ValueHere(json, c, v)
    ensures (StringStands(json, c + 1, expected) && Delimited(json, c + 3 + |JsonEscape(expected)|)) <==> v == Str(expected)
  {
    hide *;
    ValueFacts(json, c, v);
    StandsIsAt(json, c + 1, expected);
    StringLength(expected);
    RenderFirst(v);
    AtFirst(json, c + 1, Render(v));
    if v.Str? {
      RenderString(v.s);
      StringLength(v.s);
      SeparatorDelimits(json, c + 1 + |JsonString(v.s)|);
      if StringStands(json, c + 1, expected) {
        SameString(json, c + 1, v.s, expected);
      }
    } else {
      StringFirst(json, c + 1, expected);
    }
  }

  lemma StringFirst(json: string, v: nat, s: string)
    requires v < |json| && json[v] != '"'
    ensures !StringStands(json, v, s)
  {
  }

  lemma StringLength(s: string)
    ensures |JsonString(s)| == |JsonEscape(s)| + 2
  {
  }

  lemma RenderString(s: string)
    ensures Render(Str(s)) == JsonString(s)
  {
  }

  /** The string lookup, for a non-empty expectation, answers yes exactly when the first field of that name
      holds that string; quotes, escapes and key-like text in any value change nothing. */
  lemma StringLookupIsExact(ms: seq<Member>, name: string, expected: string)
    requires ms != [] && PlainKeys(ms) && PlainKey(name) && expected != ""
    ensures HasString(Flat(ms), name, expected) <==> Find(ms, name) == Some(Str(expected))
  {
    hide Flat, Find, ValueStart, PlainKeys, JsonEscape, ValueHere, PlainKey, At, Delimited;
    ValueStartIs(ms, name);
    if Find(ms, name).Some? {
      var start := ValueStart(Flat(ms), name).value;
      StringMatches(Flat(ms), start - 1, Find(ms, name).value, expected);
    }
  }

  /** An empty expectation is met by every text, so the lookup is not exact for it. */
  lemma EmptyExpectationAlwaysMet(json: string, name: string)
    ensures HasString(json, name, "")
    ensures exists ms: seq<Member> :: ms != [] && PlainKeys(ms) && Find(ms, name) != Some(Str("")) && HasString(Flat(ms), name, "")
  {
    var ms := [Member(name[..0], Uint(0))];
    assert Find(ms, name) != Some(Str("")) by {
      assert Find(ms[1..], name) == None;
    }
    assert HasString(Flat(ms), name, "");
  }

  lemma FieldLookupIsExact(ms: seq<Member>, name: string)
    requires ms != [] && PlainKeys(ms) && PlainKey(name)
    ensures HasField(Flat(ms), name) <==> Find(ms, name).Some?
  {
    ValueStartIs(ms, name);
  }
}
