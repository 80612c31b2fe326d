/** The forbidden-word scan of src/result.cpp, and where in a flat object a word can be. */
module WordScan {
  import opened Bytes
  import opened Text
  import opened JsonScan
  import opened FlatJson

  const REWARD_WORDS: seq<string> :=
    ["inventory", "wallet", "currency", "grant", "reward_grant", "item_id", "balance", "database", "steam_inventory"]

  const MODE_WORDS: seq<string> := REWARD_WORDS + ["client_result_authoritative"]

  function LowerChar(c: char): char {
    if 'A' <= c <= 'Z' then (c as int + 32) as char else c
  }

  function Lower(text: string): (r: string)
    ensures |r| == |text|
    ensures forall i :: 0 <= i < |text| ==> r[i] == LowerChar(text[i])
  {
    seq(|text|, i requires 0 <= i < |text| => LowerChar(text[i]))
  }

  predicate Occurs(text: string, word: string) {
    exists k: nat :: k <= |text| && At(Lower(text), k, word)
  }

  predicate AnyOccurs(text: string, words: seq<string>) {
    exists i :: 0 <= i < |words| && Occurs(text, words[i])
  }

  method LowerAscii(value: string) returns (lowered: string)
    ensures lowered == Lower(value)
  {
    lowered := "";
    for i := 0 to |value|
      invariant |lowered| == i && forall k :: 0 <= k < i ==> lowered[k] == LowerChar(value[k])
    {
      lowered := lowered + [LowerChar(value[i])];
    }
  }

  /** ContainsForbiddenModeResultMutation and ContainsForbiddenRewardMutation, which differ in their words. */
  method ContainsForbiddenWord(json: string, words: seq<string>) returns (found: bool)
    ensures found == AnyOccurs(json, words)
  {
    hide Lower, At;
    var lowered := LowerAscii(json);
    for i := 0 to |words|
      invariant forall j :: 0 <= j < i ==> !Occurs(json, words[j])
    {
      var hit := FindFrom(lowered, words[i], 0);
      if hit.Some? {
        AtWithin(lowered, hit.value, words[i]);
        LowerLength(json);
        assert Occurs(json, words[i]);
        return true;
      }
    }
    found := false;
  }

  lemma AtWithin(text: string, k: nat, piece: string)
    requires At(text, k, piece)
    ensures k <= |text|
  {
  }

  lemma LowerLength(text: string)
    ensures |Lower(text)| == |text|
  {
  }

  // ---- Words and separators ----

  predicate WordChar(c: char) {
    'a' <= c <= 'z' || c == '_'
  }

  predicate Word(w: string) {
    w != "" && forall i :: 0 <= i < |w| ==> WordChar(w[i])
  }

  predicate Breaks(c: char) {
    !WordChar(LowerChar(c))
  }

  lemma OccursAt(text: string, w: string, k: nat)
    ensures At(Lower(text), k, w) <==>
      k + |w| <= |text| && forall i :: 0 <= i < |w| ==> LowerChar(text[k + i]) == w[i]
  {
    if k + |w| <= |text| && forall i :: 0 <= i < |w| ==> LowerChar(text[k + i]) == w[i] {
      assert forall i :: 0 <= i < |w| ==> Lower(text)[k..k + |w|][i] == w[i];
    }
    if At(Lower(text), k, w) {
      forall i | 0 <= i < |w|
        ensures LowerChar(text[k + i]) == w[i]
      {
        AtIndex(Lower(text), k, w, i);
      }
    }
  }

  /** An occurrence in a part is one in the whole. */
  lemma OccursWithin(a: string, b: string, c: string, w: string)
    requires Occurs(b, w)
    ensures Occurs(a + b + c, w)
  {
    hide At, Lower;
    var k: nat :| k <= |b| && At(Lower(b), k, w);
    OccursAt(b, w, k);
    OccursAt(a + b + c, w, |a| + k);
  }

  /** No occurrence spans a character that no word has. */
  lemma OccursBroken(a: string, c: char, b: string, w: string)
    requires Word(w) && Breaks(c)
    ensures Occurs(a + [c] + b, w) <==> Occurs(a, w) || Occurs(b, w)
  {
    hide At, Lower;
    var t := a + [c] + b;
    if Occurs(a, w) {
      OccursWithin("", a, [c] + b, w);
      assert "" + a + ([c] + b) == t;
    }
    if Occurs(b, w) {
      OccursWithin(a + [c], b, "", w);
      assert a + [c] + b + "" == t;
    }
    if Occurs(t, w) {
      var k: nat :| k <= |t| && At(Lower(t), k, w);
      OccursAt(t, w, k);
      forall j | k <= j < k + |w|
        ensures LowerChar(t[j]) == w[j - k]
      {
        assert LowerChar(t[k + (j - k)]) == w[j - k];
      }
      BreakOutside(t, w, k, |a|);
      if k + |w| <= |a| {
        OccursAt(a, w, k);
      } else {
        OccursAt(b, w, k - |a| - 1);
      }
    }
  }

  lemma BreakOutside(t: string, w: string, k: nat, gap: nat)
    requires Word(w) && k + |w| <= |t| && gap < |t| && Breaks(t[gap])
    requires forall j :: k <= j < k + |w| ==> LowerChar(t[j]) == w[j - k]
    ensures k + |w| <= gap || gap < k
  {
  }

  lemma NoWordInNothing(w: string)
    requires Word(w)
    ensures !Occurs("", w)
  {
  }

  lemma DropFront(c: char, b: string, w: string)
    requires Word(w) && Breaks(c)
    ensures Occurs([c] + b, w) <==> Occurs(b, w)
  {
    hide Occurs;
    OccursBroken("", c, b, w);
    NoWordInNothing(w);
    assert "" + [c] + b == [c] + b;
  }

  lemma DropQuotes(t: string, w: string)
    requires Word(w)
    ensures Occurs("\"" + t + "\"", w) <==> Occurs(t, w)
  {
    hide Occurs;
    OccursBroken("\"" + t, '"', "", w);
    NoWordInNothing(w);
    assert "\"" + t + ['"'] + "" == "\"" + t + "\"";
    DropFront('"', t, w);
  }

  lemma NoWordInDigits(n: nat, w: string)
    requires Word(w)
    ensures !Occurs(Dec(n), w)
  {
    DigitsStayDigits(n);
    forall k: nat | k <= |Dec(n)|
      ensures !At(Lower(Dec(n)), k, w)
    {
      if At(Lower(Dec(n)), k, w) {
        AtFirst(Lower(Dec(n)), k, w);
      }
    }
  }

  lemma DigitsStayDigits(n: nat)
    ensures forall j :: 0 <= j < |Lower(Dec(n))| ==> !WordChar(Lower(Dec(n))[j])
  {
    forall j | 0 <= j < |Dec(n)|
      ensures !WordChar(LowerChar(Dec(n)[j]))
    {
      assert IsDigit(Dec(n)[j]);
    }
  }

  lemma NoLongWord(t: string, w: string)
    requires |t| < |w|
    ensures !Occurs(t, w)
  {
  }

  /** The text of a value that a word can be in. */
  predicate ValueHas(v: Value, w: string) {
    v.Str? && Occurs(JsonEscape(v.s), w)
  }

  lemma OccursInValue(v: Value, w: string)
    requires Word(w) && |w| > 4
    ensures Occurs(Render(v), w) <==> ValueHas(v, w)
  {
    hide Occurs, JsonEscape, Dec;
    match v
    case Uint(n) => NoWordInDigits(n, w);
    case True => NoLongWord("true", w);
    case Str(s) => DropQuotes(JsonEscape(s), w);
  }

  lemma OccursInMember(m: Member, w: string)
    requires Word(w) && |w| > 4
    ensures Occurs(MemberText(m), w) <==> Occurs(m.key, w) || ValueHas(m.value, w)
  {
    hide Occurs, Render, Needle, ValueHas;
    OccursBroken(Needle(m.key), ':', Render(m.value), w);
    assert Needle(m.key) + [':'] + Render(m.value) == MemberText(m);
    OccursInValue(m.value, w);
    assert Needle(m.key) == "\"" + m.key + "\"" by {
      NeedleIs(m.key);
    }
    DropQuotes(m.key, w);
  }

  lemma NeedleIs(key: string)
    ensures Needle(key) == "\"" + key + "\""
  {
  }

  predicate MembersHave(ms: seq<Member>, w: string) {
    exists i :: 0 <= i < |ms| && (Occurs(ms[i].key, w) || ValueHas(ms[i].value, w))
  }

  lemma MembersHaveCons(ms: seq<Member>, w: string)
    requires ms != []
    ensures MembersHave(ms, w) <==> Occurs(ms[0].key, w) || ValueHas(ms[0].value, w) || MembersHave(ms[1..], w)
    ensures |ms| == 1 ==> !MembersHave(ms[1..], w)
  {
    hide Occurs, ValueHas;
    if MembersHave(ms[1..], w) {
      var i :| 0 <= i < |ms[1..]| && (Occurs(ms[1..][i].key, w) || ValueHas(ms[1..][i].value, w));
      assert ms[i + 1] == ms[1..][i];
    }
    if MembersHave(ms, w) && !Occurs(ms[0].key, w) && !ValueHas(ms[0].value, w) {
      var i :| 0 <= i < |ms| && (Occurs(ms[i].key, w) || ValueHas(ms[i].value, w));
      assert ms[1..][i - 1] == ms[i];
    }
  }

  lemma {:induction false} OccursInRest(ms: seq<Member>, w: string)
    requires Word(w) && |w| > 4 && ms != []
    ensures Occurs(Rest(ms), w) <==> MembersHave(ms, w)
    decreases |ms|
  {
    MembersHaveCons(ms, w);
    OccursInMember(ms[0], w);
    NoWordInNothing(w);
    RestParts(ms);
    hide *;
    if |ms| == 1 {
      BraceBreaks();
      OccursBroken(MemberText(ms[0]), '}', "", w);
    } else {
      BraceBreaks();
      OccursBroken(MemberText(ms[0]), ',', Rest(ms[1..]), w);
      OccursInRest(ms[1..], w);
    }
  }

  lemma BraceBreaks()
    ensures Breaks('{') && Breaks('}') && Breaks(',')
  {
  }

  lemma RestParts(ms: seq<Member>)
    requires ms != []
    ensures |ms| == 1 ==> Rest(ms) == MemberText(ms[0]) + ['}'] + ""
    ensures |ms| > 1 ==> Rest(ms) == MemberText(ms[0]) + [','] + Rest(ms[1..])
  {
    hide MemberText;
    if |ms| > 1 {
      RestMore(ms);
    }
  }

  lemma RestMore(ms: seq<Member>)
    requires |ms| > 1
    ensures Rest(ms) == MemberText(ms[0]) + [','] + Rest(ms[1..])
  {
    var a, b := MemberText(ms[0]), Rest(ms[1..]);
    hide MemberText;
    assert Rest(ms) == a + ("," + b);
    hide Rest;
    assert a + ("," + b) == a + [','] + b;
  }

  /** A forbidden word is found in an object exactly when it is in one of the keys or escaped strings; no
      word arises across the punctuation between them. */
  lemma WordSearchIsExact(ms: seq<Member>, w: string)
    requires Word(w) && |w| > 4 && ms != []
    ensures Occurs(Flat(ms), w) <==> MembersHave(ms, w)
  {
    hide Occurs, MembersHave, Rest;
    BraceBreaks();
    DropFront('{', Rest(ms), w);
    OccursInRest(ms, w);
    assert Flat(ms) == ['{'] + Rest(ms);
  }

  lemma ModeWordsAreWords(i: nat)
    requires i < |MODE_WORDS|
    ensures Word(MODE_WORDS[i]) && |MODE_WORDS[i]| > 4
  {
  }

  // ---- Any case ----

  /** The letter, small or capital. */
  predicate AnyCase(c: char, letter: char) {
    c == letter || ('a' <= letter <= 'z' && c as int == letter as int - 32)
  }

  ghost predicate SpelledAt(text: string, word: string, i: nat) {
    i + |word| <= |text| && forall k :: 0 <= k < |word| ==> AnyCase(text[i + k], word[k])
  }

  lemma SpelledThere(text: string, word: string, i: nat)
    requires Word(word) && i <= |text|
    ensures At(Lower(text), i, word) <==> SpelledAt(text, word, i)
  {
    var low := Lower(text);
    hide Lower;
    if At(low, i, word) {
      forall k | 0 <= k < |word|
        ensures AnyCase(text[i + k], word[k])
      {
        AtIndex(low, i, word, k);
      }
    }
    if SpelledAt(text, word, i) {
      forall k | 0 <= k < |word|
        ensures low[i + k] == word[k]
      {
        assert AnyCase(text[i + k], word[k]) && WordChar(word[k]);
      }
      assert low[i..i + |word|] == word;
    }
  }

  /** A word occurs exactly when it is spelled somewhere, in whatever mix of capitals. */
  lemma OccursInAnyCase(text: string, word: string)
    requires Word(word)
    ensures Occurs(text, word) <==> exists i: nat :: SpelledAt(text, word, i)
  {
    hide Lower, Word, At, SpelledAt;
    if Occurs(text, word) {
      var k: nat :| k <= |text| && At(Lower(text), k, word);
      SpelledThere(text, word, k);
    }
    if i: nat :| SpelledAt(text, word, i) {
      SpelledWithin(text, word, i);
      SpelledThere(text, word, i);
    }
  }

  lemma SpelledWithin(text: string, word: string, i: nat)
    requires SpelledAt(text, word, i)
    ensures i <= |text|
  {
  }
}
