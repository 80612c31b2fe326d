/** The text scanners of src/result.cpp, which look a field up without parsing, and the flat objects the
    result builder prints. */
module JsonScan {
  import opened Bytes
  import opened Text

  // ---- Scanner state ----

  datatype Scan = Scan(objects: int, arrays: int, inString: bool, escaped: bool)

  const OUTSIDE: Scan := Scan(0, 0, false, false)
  const TOP: Scan := Scan(1, 0, false, false)
  const QUOTED: Scan := Scan(1, 0, true, false)

  function Step(s: Scan, c: char): Scan {
    if s.inString then
      if s.escaped then s.(escaped := false)
      else if c == '\\' then s.(escaped := true)
      else if c == '"' then s.(inString := false)
      else s
    else if c == '"' then s.(inString := true)
    else if c == '{' then s.(objects := s.objects + 1)
    else if c == '}' then s.(objects := s.objects - 1)
    else if c == '[' then s.(arrays := s.arrays + 1)
    else if c == ']' then s.(arrays := s.arrays - 1)
    else s
  }

  function Run(s: Scan, text: string): Scan {
    if text == "" then s else Step(Run(s, text[..|text| - 1]), text[|text| - 1])
  }

  /** The scanner's state before character `k`. */
  function StateAt(json: string, k: nat): Scan
    requires k <= |json|
  {
    Run(OUTSIDE, json[..k])
  }

  lemma {:induction false} RunConcat(s: Scan, a: string, b: string)
    ensures Run(s, a + b) == Run(Run(s, a), b)
    decreases |b|
  {
    if b == "" {
      assert a + b == a;
    } else {
      var t := a + b;
      assert t[..|t| - 1] == a + b[..|b| - 1];
      assert t[|t| - 1] == b[|b| - 1];
      RunConcat(s, a, b[..|b| - 1]);
    }
  }

  lemma StateAcross(json: string, k: nat, piece: string)
    requires At(json, k, piece)
    ensures StateAt(json, k + |piece|) == Run(StateAt(json, k), piece)
  {
    hide Run;
    assert json[..k + |piece|] == json[..k] + piece;
    RunConcat(OUTSIDE, json[..k], piece);
  }

  lemma StateNext(json: string, k: nat)
    requires k < |json|
    ensures StateAt(json, k + 1) == Step(StateAt(json, k), json[k])
  {
    assert json[..k + 1][..k] == json[..k];
  }

  // ---- The lookup ----

  predicate IsSpace(c: char) {
    c == ' ' || c == '\t' || c == '\n' || c == '\r' || c == '\U{b}' || c == '\U{c}'
  }

  function SkipSpace(json: string, i: nat): (k: nat)
    requires i <= |json|
    ensures i <= k <= |json|
    decreases |json| - i
  {
    if i < |json| && IsSpace(json[i]) then SkipSpace(json, i + 1) else i
  }

  predicate TopLevel(json: string, k: nat)
    requires k <= |json|
  {
    var s := StateAt(json, k);
    !s.inString && s.objects == 1 && s.arrays == 0
  }

  function Needle(name: string): string {
    "\"" + name + "\""
  }

  predicate ColonAfter(json: string, c: nat)
    requires c <= |json|
  {
    SkipSpace(json, c) < |json| && json[SkipSpace(json, c)] == ':'
  }

  /** The quoted name stands at `k` as a top-level key. */
  predicate Hit(json: string, name: string, k: nat) {
    At(json, k, Needle(name)) && TopLevel(json, k) && ColonAfter(json, k + |Needle(name)|)
  }

  function FirstHit(json: string, name: string, k: nat): Option<nat>
    decreases |json| - k
  {
    if k >= |json| then None else if Hit(json, name, k) then Some(k) else FirstHit(json, name, k + 1)
  }

  /** Where the value of a hit begins: behind the name, its colon and any space. */
  function ValueBehind(json: string, c: nat): nat
    requires c <= |json| && ColonAfter(json, c)
  {
    SkipSpace(json, SkipSpace(json, c) + 1)
  }

  /** JsonFieldValueStart. */
  function ValueStart(json: string, name: string): Option<nat> {
    match FirstHit(json, name, 0)
    case None => None
    case Some(k) => HitIsHit(json, name, 0); Some(ValueBehind(json, k + |Needle(name)|))
  }

  lemma {:induction false} HitIsHit(json: string, name: string, from: nat)
    requires FirstHit(json, name, from).Some?
    ensures var k := FirstHit(json, name, from).value; from <= k < |json| && Hit(json, name, k)
    decreases |json| - from
  {
    hide Hit;
    if !Hit(json, name, from) {
      HitIsHit(json, name, from + 1);
    }
  }

  /** ContainsJsonField. */
  predicate HasField(json: string, name: string) {
    ValueStart(json, name).Some?
  }

  /** ContainsJsonUintField. */
  predicate HasUint(json: string, name: string, expected: nat) {
    match ValueStart(json, name)
    case None => false
    case Some(v) => At(json, v, Dec(expected)) && Delimited(json, v + |Dec(expected)|)
  }

  predicate Delimited(json: string, k: nat) {
    k == |json| || (k < |json| && (json[k] == ',' || json[k] == '}'))
  }

  /** ContainsJsonStringField; an empty expectation is always met. */
  predicate HasString(json: string, name: string, expected: string) {
    expected == "" ||
    match ValueStart(json, name)
    case None => false
    case Some(v) =>
      && v < |json| && json[v] == '"'
      && At(json, v + 1, JsonEscape(expected))
      && v + 1 + |JsonEscape(expected)| < |json| && json[v + 1 + |JsonEscape(expected)|] == '"'
      && Delimited(json, v + 2 + |JsonEscape(expected)|)
  }

  // ---- The lookup as the program runs it ----

  method SkipSpaces(json: string, start: nat) returns (k: nat)
    requires start <= |json|
    ensures k == SkipSpace(json, start)
  {
    k := start;
    while k < |json| && IsSpace(json[k])
      invariant k <= |json| && SkipSpace(json, k) == SkipSpace(json, start)
    {
      k := k + 1;
    }
  }

  method IsTopLevelJsonObjectKey(json: string, keyStart: nat) returns (top: bool)
    requires keyStart <= |json|
    ensures top == TopLevel(json, keyStart)
  {
    var objectDepth, arrayDepth, inString, escaped := 0, 0, false, false;
    for index := 0 to keyStart
      invariant Scan(objectDepth, arrayDepth, inString, escaped) == StateAt(json, index)
    {
      StateNext(json, index);
      hide StateAt;
      var ch := json[index];
      if inString {
        if escaped {
          escaped := false;
        } else if ch == '\\' {
          escaped := true;
        } else if ch == '"' {
          inString := false;
        }
        continue;
      }
      if ch == '"' {
        inString := true;
      } else if ch == '{' {
        objectDepth := objectDepth + 1;
      } else if ch == '}' {
        objectDepth := objectDepth - 1;
      } else if ch == '[' {
        arrayDepth := arrayDepth + 1;
      } else if ch == ']' {
        arrayDepth := arrayDepth - 1;
      }
    }
    top := !inString && objectDepth == 1 && arrayDepth == 0;
  }

  /** std::string::find. */
  method FindFrom(json: string, key: string, start: nat) returns (found: Option<nat>)
    ensures found.None? ==> forall k: nat :: start <= k ==> !At(json, k, key)
    ensures found.Some? ==> start <= found.value && At(json, found.value, key)
    ensures found.Some? ==> forall k :: start <= k < found.value ==> !At(json, k, key)
  {
    var k := start;
    while k + |key| <= |json|
      invariant start <= k
      invariant forall j :: start <= j < k ==> !At(json, j, key)
      decreases |json| - k
    {
      if json[k..k + |key|] == key {
        return Some(k);
      }
      k := k + 1;
    }
    found := None;
  }

  lemma {:induction false} SkipMisses(json: string, name: string, a: nat, b: nat)
    requires a <= b && forall k :: a <= k < b ==> !Hit(json, name, k)
    ensures FirstHit(json, name, a) == FirstHit(json, name, b)
    decreases b - a
  {
    hide Hit;
    if a < b {
      SkipMisses(json, name, a + 1, b);
    }
  }

  lemma {:induction false} NothingFound(json: string, name: string, from: nat)
    requires forall k: nat :: from <= k ==> !At(json, k, Needle(name))
    ensures FirstHit(json, name, from) == None
    decreases |json| - from
  {
    hide At, Needle, StateAt;
    if from < |json| {
      NothingFound(json, name, from + 1);
    }
  }

  lemma MissesBetween(json: string, name: string, from: nat, to: nat)
    requires forall k :: from <= k < to ==> !At(json, k, Needle(name))
    ensures forall k :: from <= k < to ==> !Hit(json, name, k)
  {
    hide At, Needle, StateAt, ColonAfter, TopLevel;
  }

  method JsonFieldValueStart(json: string, name: string) returns (start: Option<nat>)
    ensures start == ValueStart(json, name)
  {
    hide SkipSpace, StateAt, TopLevel;
    var key := Needle(name);
    var searchStart := 0;
    while searchStart < |json|
      invariant FirstHit(json, name, 0) == FirstHit(json, name, searchStart)
    {
      var found := FindFrom(json, key, searchStart);
      if found.None? {
        NothingFound(json, name, searchStart);
        return None;
      }
      var keyStart := found.value;
      MissesBetween(json, name, searchStart, keyStart);
      SkipMisses(json, name, searchStart, keyStart);
      var top := IsTopLevelJsonObjectKey(json, keyStart);
      if top {
        var c := SkipSpaces(json, keyStart + |key|);
        if c < |json| && json[c] == ':' {
          c := SkipSpaces(json, c + 1);
          return Some(c);
        }
      }
      searchStart := keyStart + 1;
    }
    start := None;
  }

  method ContainsJsonUintField(json: string, name: string, expected: nat) returns (found: bool)
    ensures found == HasUint(json, name, expected)
  {
    hide ValueStart, Dec;
    var valueStart := JsonFieldValueStart(json, name);
    if valueStart.None? {
      return false;
    }
    var text := Dec(expected);
    var v := valueStart.value;
    if v + |text| > |json| || json[v..v + |text|] != text {
      return false;
    }
    var after := v + |text|;
    if after == |json| {
      return true;
    }
    found := json[after] == ',' || json[after] == '}';
  }

  method ContainsJsonStringField(json: string, name: string, expected: string) returns (found: bool)
    ensures found == HasString(json, name, expected)
  {
    hide ValueStart, JsonEscape;
    if expected == "" {
      return true;
    }
    var valueStart := JsonFieldValueStart(json, name);
    if valueStart.None? || valueStart.value >= |json| || json[valueStart.value] != '"' {
      return false;
    }
    var text := EscapeText(expected);
    var s := valueStart.value + 1;
    if s + |text| > |json| || json[s..s + |text|] != text || s + |text| >= |json| || json[s + |text|] != '"' {
      return false;
    }
    var after := s + |text| + 1;
    if after == |json| {
      return true;
    }
    found := json[after] == ',' || json[after] == '}';
  }
}
