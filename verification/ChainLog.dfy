/** The append-only digest chain of src/chain_log.cpp. The digest is a parameter: nothing is assumed of
    it, so what tampering would take comes out as an explicit collision. */
module ChainLog {
  import opened Bytes
  import opened Text

  type Digest = string -> string

  const GENESIS: string := "00000000"
  const SEED_KIND: string := "battle_derived"
  const MATCH_SCOPE: string := ""
  const TYPE_INPUT: string := "input"
  const TYPE_SEED: string := "match_seed"

  datatype Entry = Entry(
    sequence: nat, tick: i64, playerId: string, actionType: string,
    payloadDigest: string, prevDigest: string, entryDigest: string)

  datatype Verdict = Verdict(ok: bool, firstBadSeq: nat, reason: string)

  // ---- Canonical payloads ----

  function BoolToken(b: bool): string {
    if b then "1" else "0"
  }

  function InputPayload(sequence: u64, directionBits: u32, slow: bool, shoot: bool, bomb: bool,
                        cardSlot: int, modeActionId: string): string
  {
    "seq=" + Dec(sequence) + "|dir=" + Dec(directionBits) + "|slow=" + BoolToken(slow)
    + "|shoot=" + BoolToken(shoot) + "|bomb=" + BoolToken(bomb) + "|card=" + DecInt(cardSlot)
    + "|mode_action_id=" + modeActionId
  }

  function ModeActionPayload(actionId: string, sequence: u64, payloadJson: string): string {
    "action_id=" + actionId + "|seq=" + Dec(sequence) + "|payload=" + payloadJson
  }

  function SeedPayload(kind: string, seed: u64): string {
    "seed_kind=" + kind + "|seed=" + Dec(seed)
  }

  // ---- Digests ----

  function Material(e: Entry): string {
    Dec(e.sequence) + "|" + (DecInt(e.tick) + "|" + (e.playerId + "|" + (e.actionType + "|"
      + (e.payloadDigest + "|" + e.prevDigest))))
  }

  function EntryDigest(digest: Digest, e: Entry): string {
    digest(Material(e))
  }

  function Head(entries: seq<Entry>): string {
    if entries == [] then GENESIS else entries[|entries| - 1].entryDigest
  }

  // ---- Verification ----

  /** The first complaint about entry `i`, empty when it is sound. */
  function Fault(digest: Digest, entries: seq<Entry>, i: nat): string
    requires i < |entries|
  {
    var e := entries[i];
    if i == 0 && e.sequence != 1 then "chain_first_seq_not_one"
    else if i == 0 && e.prevDigest != GENESIS then "chain_genesis_prev_digest_mismatch"
    else if i > 0 && e.sequence != entries[i - 1].sequence + 1 then "chain_seq_gap"
    else if i > 0 && e.prevDigest != entries[i - 1].entryDigest then "chain_prev_link_broken"
    else if e.entryDigest != EntryDigest(digest, e) then "chain_entry_digest_mismatch"
    else ""
  }

  ghost predicate Sound(digest: Digest, entries: seq<Entry>) {
    forall i :: 0 <= i < |entries| ==> Fault(digest, entries, i) == ""
  }

  /** The complaint VerifyChain reports when it starts at entry `i`. */
  function FirstReason(digest: Digest, entries: seq<Entry>, i: nat): (r: string)
    requires i <= |entries|
    ensures r == "" <==> forall k :: i <= k < |entries| ==> Fault(digest, entries, k) == ""
    decreases |entries| - i
  {
    if i == |entries| then ""
    else if Fault(digest, entries, i) != "" then Fault(digest, entries, i)
    else FirstReason(digest, entries, i + 1)
  }

  /** `v` reports entry `i`, and every entry before it is sound. */
  ghost predicate FirstFault(digest: Digest, entries: seq<Entry>, i: nat, v: Verdict) {
    && i < |entries|
    && (forall k :: 0 <= k < i ==> Fault(digest, entries, k) == "")
    && Fault(digest, entries, i) != ""
    && v == Verdict(false, entries[i].sequence, Fault(digest, entries, i))
  }

  /** VerifyChain: it accepts exactly the sound chains and names the first bad entry of any other. */
  method VerifyChain(digest: Digest, entries: seq<Entry>) returns (v: Verdict)
    ensures v.ok <==> Sound(digest, entries)
    ensures v.ok ==> v == Verdict(true, 0, if entries == [] then "chain_empty" else "ok")
    ensures !v.ok ==> exists i: nat :: FirstFault(digest, entries, i, v)
  {
    hide Head, EntryDigest, FirstReason;
    for i := 0 to |entries|
      invariant forall k :: 0 <= k < i ==> Fault(digest, entries, k) == ""
    {
      var fault := Fault(digest, entries, i);
      if fault != "" {
        v := Verdict(false, entries[i].sequence, fault);
        assert FirstFault(digest, entries, i, v);
        return;
      }
    }
    v := Verdict(true, 0, if entries == [] then "chain_empty" else "ok");
  }

  lemma {:induction false} FirstReasonAt(digest: Digest, entries: seq<Entry>, from: nat, i: nat, v: Verdict)
    requires from <= i && FirstFault(digest, entries, i, v)
    ensures FirstReason(digest, entries, from) == v.reason
    decreases i - from
  {
    hide Fault;
    if from < i {
      assert Fault(digest, entries, from) == "";
      FirstReasonAt(digest, entries, from + 1, i, v);
    }
  }

  /** The reason VerifyChain gives for a chain it refuses, and the empty reason for one it accepts. */
  lemma ReasonOf(digest: Digest, entries: seq<Entry>, v: Verdict)
    requires v.ok <==> Sound(digest, entries)
    requires !v.ok ==> exists i: nat :: FirstFault(digest, entries, i, v)
    ensures FirstReason(digest, entries, 0) == if v.ok then "" else v.reason
  {
    hide Fault, FirstReason;
    if !v.ok {
      var i: nat :| FirstFault(digest, entries, i, v);
      FirstReasonAt(digest, entries, 0, i, v);
    }
  }

  lemma SoundPrefix(digest: Digest, entries: seq<Entry>, n: nat)
    requires Sound(digest, entries) && n <= |entries|
    ensures Sound(digest, entries[..n])
  {
    forall k | 0 <= k < n
      ensures Fault(digest, entries[..n], k) == ""
    {
      assert Fault(digest, entries, k) == "";
    }
  }

  lemma {:induction false} SoundNumbers(digest: Digest, entries: seq<Entry>, i: nat)
    requires Sound(digest, entries) && i < |entries|
    ensures entries[i].sequence == i + 1
  {
    assert Fault(digest, entries, i) == "";
    if i > 0 {
      SoundNumbers(digest, entries, i - 1);
    }
  }

  // ---- Appending ----

  /** AppendEntry. */
  function Append(digest: Digest, entries: seq<Entry>, tick: i64, playerId: string, actionType: string,
                  payloadDigest: string): seq<Entry>
  {
    var n := if entries == [] then 1 else entries[|entries| - 1].sequence + 1;
    var bare := Entry(n, tick, playerId, actionType, payloadDigest, Head(entries), "");
    entries + [bare.(entryDigest := EntryDigest(digest, bare))]
  }

  lemma AppendKeepsSound(digest: Digest, entries: seq<Entry>, tick: i64, playerId: string, actionType: string,
                         payloadDigest: string)
    requires Sound(digest, entries)
    ensures Sound(digest, Append(digest, entries, tick, playerId, actionType, payloadDigest))
  {
    var more := Append(digest, entries, tick, playerId, actionType, payloadDigest);
    forall i | 0 <= i < |more|
      ensures Fault(digest, more, i) == ""
    {
      if i < |entries| {
        assert Fault(digest, entries, i) == "";
      } else {
        assert Material(more[i]) == Material(more[i].(entryDigest := ""));
      }
    }
  }

  class OperationChainLog {
    const digest: Digest
    var entries: seq<Entry>

    ghost predicate Valid()
      reads this
    {
      Sound(digest, entries)
    }

    constructor (digest: Digest)
      ensures Valid() && this.digest == digest && entries == []
    {
      this.digest := digest;
      entries := [];
    }

    method AppendEntry(tick: i64, playerId: string, actionType: string, payloadDigest: string)
      requires Valid()
      modifies this
      ensures Valid()
      ensures entries == Append(digest, old(entries), tick, playerId, actionType, payloadDigest)
    {
      AppendKeepsSound(digest, entries, tick, playerId, actionType, payloadDigest);
      var n := if entries == [] then 1 else entries[|entries| - 1].sequence + 1;
      var entry := Entry(n, tick, playerId, actionType, payloadDigest, Head(entries), "");
      entry := entry.(entryDigest := EntryDigest(digest, entry));
      entries := entries + [entry];
    }

    method AppendMatchSeed(tick: i64, kind: string, seed: u64)
      requires Valid()
      modifies this
      ensures Valid()
      ensures entries == Append(digest, old(entries), tick, MATCH_SCOPE, TYPE_SEED, digest(SeedPayload(kind, seed)))
    {
      AppendEntry(tick, MATCH_SCOPE, TYPE_SEED, digest(SeedPayload(kind, seed)));
    }

    method AppendInput(tick: i64, playerId: string, sequence: u64, directionBits: u32, slow: bool, shoot: bool,
                       bomb: bool, cardSlot: int, modeActionId: string)
      requires Valid()
      modifies this
      ensures Valid()
      ensures entries == Append(digest, old(entries), tick, playerId, TYPE_INPUT,
        digest(InputPayload(sequence, directionBits, slow, shoot, bomb, cardSlot, modeActionId)))
    {
      AppendEntry(tick, playerId, TYPE_INPUT,
        digest(InputPayload(sequence, directionBits, slow, shoot, bomb, cardSlot, modeActionId)));
    }

    method AppendModeAction(tick: i64, playerId: string, actionId: string, sequence: u64, actionType: string,
                            payloadJson: string)
      requires Valid()
      modifies this
      ensures Valid()
      ensures entries == Append(digest, old(entries), tick, playerId, actionType,
        digest(ModeActionPayload(actionId, sequence, payloadJson)))
    {
      AppendEntry(tick, playerId, actionType, digest(ModeActionPayload(actionId, sequence, payloadJson)));
    }

    /** Verify: a log built by the Append methods alone passes. */
    method Verify() returns (v: Verdict)
      requires Valid()
      ensures v == Verdict(true, 0, if entries == [] then "chain_empty" else "ok")
    {
      v := VerifyChain(digest, entries);
    }
  }

  // ---- Tamper evidence ----

  predicate NoPipe(s: string) {
    forall i :: 0 <= i < |s| ==> s[i] != '|'
  }

  ghost predicate PipeFree(entries: seq<Entry>) {
    forall i :: 0 <= i < |entries| ==>
      NoPipe(entries[i].playerId) && NoPipe(entries[i].actionType) && NoPipe(entries[i].payloadDigest)
  }

  /** Two different materials, one from each chain, with the same digest. */
  ghost predicate Collision(digest: Digest, a: seq<Entry>, b: seq<Entry>) {
    exists i, j :: 0 <= i < |a| && 0 <= j < |b| && Collide(digest, a[i], b[j])
  }

  predicate Collide(digest: Digest, x: Entry, y: Entry) {
    Material(x) != Material(y) && digest(Material(x)) == digest(Material(y))
  }

  lemma SplitAtPipe(a: string, s: string, b: string, t: string)
    requires NoPipe(a) && NoPipe(b) && a + "|" + s == b + "|" + t
    ensures a == b && s == t
  {
    var u, v := a + "|" + s, b + "|" + t;
    assert u[|a|] == '|' && v[|b|] == '|';
    assert forall i :: 0 <= i < |a| ==> u[i] == a[i];
    assert forall i :: 0 <= i < |b| ==> v[i] == b[i];
    assert |a| == |b|;
    assert a == u[..|a|] && s == u[|a| + 1..];
    assert b == v[..|b|] && t == v[|b| + 1..];
  }

  lemma NumbersHaveNoPipe(n: nat, v: int)
    ensures NoPipe(Dec(n)) && NoPipe(DecInt(v))
  {
    if v < 0 {
      assert NoPipe(Dec(-v));
    }
  }

  /** Between the separators the material determines every field it covers. */
  lemma MaterialInjective(x: Entry, y: Entry)
    requires NoPipe(x.playerId) && NoPipe(x.actionType) && NoPipe(x.payloadDigest)
    requires NoPipe(y.playerId) && NoPipe(y.actionType) && NoPipe(y.payloadDigest)
    requires Material(x) == Material(y)
    ensures x.(entryDigest := "") == y.(entryDigest := "")
  {
    NumbersHaveNoPipe(x.sequence, x.tick);
    NumbersHaveNoPipe(y.sequence, y.tick);
    var x4, y4 := x.payloadDigest + "|" + x.prevDigest, y.payloadDigest + "|" + y.prevDigest;
    var x3, y3 := x.actionType + "|" + x4, y.actionType + "|" + y4;
    var x2, y2 := x.playerId + "|" + x3, y.playerId + "|" + y3;
    var x1, y1 := DecInt(x.tick) + "|" + x2, DecInt(y.tick) + "|" + y2;
    hide Dec, DecInt, NoPipe;
    SplitAtPipe(Dec(x.sequence), x1, Dec(y.sequence), y1);
    SplitAtPipe(DecInt(x.tick), x2, DecInt(y.tick), y2);
    SplitAtPipe(x.playerId, x3, y.playerId, y3);
    SplitAtPipe(x.actionType, x4, y.actionType, y4);
    SplitAtPipe(x.payloadDigest, x.prevDigest, y.payloadDigest, y.prevDigest);
    DecInjective(x.sequence, y.sequence);
    DecIntInjective(x.tick, y.tick);
  }

  /** Two accepted chains with the same head are the same chain, entry by entry, or show a collision of
      the digest on two of their own materials. */
  lemma {:induction false} SameHeadSameChain(digest: Digest, a: seq<Entry>, b: seq<Entry>)
    requires Sound(digest, a) && Sound(digest, b) && PipeFree(a) && PipeFree(b)
    requires a != [] && b != [] && Head(a) == Head(b)
    ensures a == b || Collision(digest, a, b)
    decreases |a|
  {
    var m, n := |a| - 1, |b| - 1;
    assert Fault(digest, a, m) == "" && Fault(digest, b, n) == "";
    if Collide(digest, a[m], b[n]) {
      return;
    }
    MaterialInjective(a[m], b[n]);
    SoundNumbers(digest, a, m);
    SoundNumbers(digest, b, n);
    if m > 0 {
      SoundPrefix(digest, a, m);
      SoundPrefix(digest, b, n);
      SameHeadSameChain(digest, a[..m], b[..n]);
      if Collision(digest, a[..m], b[..n]) {
        LiftCollision(digest, a, b, m, n);
        return;
      }
    }
    assert a == a[..m] + [a[m]] && b == b[..n] + [b[n]];
  }

  lemma LiftCollision(digest: Digest, a: seq<Entry>, b: seq<Entry>, m: nat, n: nat)
    requires m <= |a| && n <= |b| && Collision(digest, a[..m], b[..n])
    ensures Collision(digest, a, b)
  {
    var i, j :| 0 <= i < m && 0 <= j < n && Collide(digest, a[..m][i], b[..n][j]);
    assert Collide(digest, a[i], b[j]);
  }

  /** With a digest that never collides the chains are equal outright. */
  lemma InjectiveDigestSealsChain(digest: Digest, a: seq<Entry>, b: seq<Entry>)
    requires forall s, t :: digest(s) == digest(t) ==> s == t
    requires Sound(digest, a) && Sound(digest, b) && PipeFree(a) && PipeFree(b)
    requires a != [] && b != [] && Head(a) == Head(b)
    ensures a == b
  {
    SameHeadSameChain(digest, a, b);
  }

  // ---- Which chains the seal holds for ----

  function Pipes(s: string): nat {
    if s == "" then 0 else (if s[0] == '|' then 1 else 0) + Pipes(s[1..])
  }

  lemma {:induction false} PipesConcat(a: string, b: string)
    ensures Pipes(a + b) == Pipes(a) + Pipes(b)
  {
    if a == "" {
      assert a + b == b;
    } else {
      assert (a + b)[1..] == a[1..] + b;
      PipesConcat(a[1..], b);
    }
  }

  lemma {:induction false} PipesNone(s: string)
    ensures Pipes(s) == 0 <==> NoPipe(s)
  {
    if s != "" {
      PipesNone(s[1..]);
      assert s == [s[0]] + s[1..];
    }
  }

  lemma PipesJoin(a: string, b: string)
    ensures Pipes(a + "|" + b) == Pipes(a) + 1 + Pipes(b)
  {
    PipesConcat(a + "|", b);
    PipesConcat(a, "|");
    assert Pipes("|") == 1;
  }

  /** The material holds the five separators and those inside its fields. */
  lemma MaterialPipes(e: Entry)
    requires NoPipe(e.prevDigest)
    ensures Pipes(Material(e)) == 5 + Pipes(e.playerId) + Pipes(e.actionType) + Pipes(e.payloadDigest)
  {
    NumbersHaveNoPipe(e.sequence, e.tick);
    PipesNone(Dec(e.sequence));
    PipesNone(DecInt(e.tick));
    PipesNone(e.prevDigest);
    var x4 := e.payloadDigest + "|" + e.prevDigest;
    var x3 := e.actionType + "|" + x4;
    var x2 := e.playerId + "|" + x3;
    hide Pipes, Dec, DecInt, NoPipe;
    PipesJoin(e.payloadDigest, e.prevDigest);
    PipesJoin(e.actionType, x4);
    PipesJoin(e.playerId, x3);
    PipesJoin(DecInt(e.tick), x2);
    PipesJoin(Dec(e.sequence), DecInt(e.tick) + "|" + x2);
    assert Material(e) == Dec(e.sequence) + "|" + (DecInt(e.tick) + "|" + x2);
  }

  predicate EntryPipeFree(e: Entry) {
    NoPipe(e.playerId) && NoPipe(e.actionType) && NoPipe(e.payloadDigest)
  }

  /** An entry with the material of a separator-free one has no separator in its fields either. */
  lemma PipeFreeByMaterial(x: Entry, y: Entry)
    requires EntryPipeFree(x) && NoPipe(x.prevDigest) && NoPipe(y.prevDigest) && Material(x) == Material(y)
    ensures EntryPipeFree(y)
  {
    MaterialPipes(x);
    MaterialPipes(y);
    hide Material, Pipes, NoPipe;
    PipesNone(x.playerId);
    PipesNone(x.actionType);
    PipesNone(x.payloadDigest);
    PipesNone(y.playerId);
    PipesNone(y.actionType);
    PipesNone(y.payloadDigest);
  }

  ghost predicate PlainDigest(digest: Digest) {
    forall s :: NoPipe(digest(s))
  }

  lemma LinksHaveNoPipe(digest: Digest, a: seq<Entry>, m: nat)
    requires PlainDigest(digest) && Sound(digest, a) && m < |a|
    ensures NoPipe(a[m].prevDigest)
  {
    assert Fault(digest, a, m) == "";
    if m > 0 {
      assert Fault(digest, a, m - 1) == "";
      assert a[m].prevDigest == digest(Material(a[m - 1]));
    }
  }

  /** The seal of a separator-free chain holds against every chain, separators or not: one with the same head is
      the same chain, or shows a collision. */
  lemma {:induction false} SealedAgainstAll(digest: Digest, a: seq<Entry>, b: seq<Entry>)
    requires PlainDigest(digest) && Sound(digest, a) && Sound(digest, b) && PipeFree(a)
    requires a != [] && b != [] && Head(a) == Head(b)
    ensures a == b || Collision(digest, a, b)
    decreases |a|
  {
    var m, n := |a| - 1, |b| - 1;
    hide Fault, Sound, PipeFree, PlainDigest, Material;
    if Collide(digest, a[m], b[n]) {
      return;
    }
    SameLast(digest, a, b, m, n);
    if m > 0 {
      SoundPrefix(digest, a, m);
      SoundPrefix(digest, b, n);
      FrontPipeFree(a, m);
      SealedAgainstAll(digest, a[..m], b[..n]);
      if Collision(digest, a[..m], b[..n]) {
        LiftCollision(digest, a, b, m, n);
        return;
      }
    }
    assert a == a[..m] + [a[m]] && b == b[..n] + [b[n]];
  }

  lemma FrontPipeFree(a: seq<Entry>, m: nat)
    requires PipeFree(a) && m <= |a|
    ensures PipeFree(a[..m])
  {
  }

  /** The last entries of two chains under one head agree, and so do the chains before them, unless they collide. */
  lemma SameLast(digest: Digest, a: seq<Entry>, b: seq<Entry>, m: nat, n: nat)
    requires PlainDigest(digest) && Sound(digest, a) && Sound(digest, b) && PipeFree(a)
    requires m == |a| - 1 && n == |b| - 1 && Head(a) == Head(b) && !Collide(digest, a[m], b[n])
    ensures m == n && a[m] == b[n] && (m > 0 ==> Head(a[..m]) == Head(b[..n]))
  {
    assert Fault(digest, a, m) == "" && Fault(digest, b, n) == "";
    LastIsPipeFree(digest, a, b, m, n);
    MaterialInjective(a[m], b[n]);
    SoundNumbers(digest, a, m);
    SoundNumbers(digest, b, n);
    hide Material;
  }

  lemma LastIsPipeFree(digest: Digest, a: seq<Entry>, b: seq<Entry>, m: nat, n: nat)
    requires PlainDigest(digest) && Sound(digest, a) && Sound(digest, b) && PipeFree(a)
    requires m < |a| && n < |b| && Material(a[m]) == Material(b[n])
    ensures EntryPipeFree(a[m]) && EntryPipeFree(b[n])
  {
    LinksHaveNoPipe(digest, a, m);
    LinksHaveNoPipe(digest, b, n);
    assert EntryPipeFree(a[m]);
    PipeFreeByMaterial(a[m], b[n]);
  }

  function FirstPipe(s: string): (k: nat)
    requires !NoPipe(s)
    ensures k < |s| && s[k] == '|'
  {
    if s[0] == '|' then 0 else
    assert s == [s[0]] + s[1..];
    1 + FirstPipe(s[1..])
  }

  /** The entry with one separator of its fields taken for the one between two fields. */
  function Twin(e: Entry): Entry
    requires !EntryPipeFree(e)
  {
    if !NoPipe(e.playerId) then
      var k := FirstPipe(e.playerId);
      e.(playerId := e.playerId[..k], actionType := e.playerId[k + 1..] + "|" + e.actionType)
    else if !NoPipe(e.actionType) then
      var k := FirstPipe(e.actionType);
      e.(actionType := e.actionType[..k], payloadDigest := e.actionType[k + 1..] + "|" + e.payloadDigest)
    else
      var k := FirstPipe(e.payloadDigest);
      e.(actionType := e.actionType + "|" + e.payloadDigest[..k], payloadDigest := e.payloadDigest[k + 1..])
  }

  lemma TwoWays(s: string, k: nat, t: string, rest: string)
    requires k < |s| && s[k] == '|'
    ensures s + "|" + (t + "|" + rest) == s[..k] + "|" + ((s[k + 1..] + "|" + t) + "|" + rest)
  {
    assert s == s[..k] + "|" + s[k + 1..];
  }

  lemma TwoWaysBack(s: string, k: nat, t: string, rest: string)
    requires k < |s| && s[k] == '|'
    ensures t + "|" + (s + "|" + rest) == (t + "|" + s[..k]) + "|" + (s[k + 1..] + "|" + rest)
  {
    assert s == s[..k] + "|" + s[k + 1..];
  }

  lemma TwinHasTheMaterial(e: Entry)
    requires !EntryPipeFree(e)
    ensures var t := Twin(e); t != e && Material(t) == Material(e) && t == e.(playerId := t.playerId, actionType := t.actionType, payloadDigest := t.payloadDigest)
  {
    hide Dec, DecInt, NoPipe;
    var tail := e.payloadDigest + "|" + e.prevDigest;
    if !NoPipe(e.playerId) {
      TwoWays(e.playerId, FirstPipe(e.playerId), e.actionType, tail);
    } else if !NoPipe(e.actionType) {
      TwoWays(e.actionType, FirstPipe(e.actionType), e.payloadDigest, e.prevDigest);
    } else {
      TwoWaysBack(e.payloadDigest, FirstPipe(e.payloadDigest), e.actionType, e.prevDigest);
    }
  }

  /** A separator anywhere in the fields of an accepted chain breaks its seal, under any digest: with the twin of
      that entry in its place the chain is another one, accepted too, under the same head. */
  lemma PipesBreakTheSeal(digest: Digest, a: seq<Entry>, i: nat)
    requires Sound(digest, a) && i < |a| && !EntryPipeFree(a[i])
    ensures var b := a[i := Twin(a[i])]; Sound(digest, b) && b != a && Head(b) == Head(a)
  {
    hide *;
    TwinHasTheMaterial(a[i]);
    SameMaterialStaysSound(digest, a, i, Twin(a[i]));
    assert a[i := Twin(a[i])][i] != a[i];
  }

  /** Another entry of the same material and digests takes the place of one unnoticed. */
  lemma SameMaterialStaysSound(digest: Digest, a: seq<Entry>, i: nat, e: Entry)
    requires Sound(digest, a) && i < |a| && Material(e) == Material(a[i])
    requires e == a[i].(playerId := e.playerId, actionType := e.actionType, payloadDigest := e.payloadDigest)
    ensures Sound(digest, a[i := e]) && Head(a[i := e]) == Head(a)
  {
    hide Material;
    var b := a[i := e];
    forall k | 0 <= k < |b|
      ensures Fault(digest, b, k) == ""
    {
      assert Fault(digest, a, k) == "";
    }
  }

  /** The exact condition of the seal: with a digest that never collides and never writes a separator, an accepted
      chain is the only one under its head if and only if no field of it holds a separator. */
  lemma SealHoldsIffPipeFree(digest: Digest, a: seq<Entry>)
    requires (forall s, t :: digest(s) == digest(t) ==> s == t) && PlainDigest(digest)
    requires Sound(digest, a) && a != []
    ensures (forall b :: b != [] && Sound(digest, b) && Head(b) == Head(a) ==> b == a) <==> PipeFree(a)
  {
    hide Sound, PlainDigest, Head, Fault;
    if PipeFree(a) {
      forall b | b != [] && Sound(digest, b) && Head(b) == Head(a)
        ensures b == a
      {
        SealedAgainstAll(digest, a, b);
      }
    } else {
      var i :| 0 <= i < |a| && !EntryPipeFree(a[i]);
      PipesBreakTheSeal(digest, a, i);
      var b := a[i := Twin(a[i])];
      assert b != [] && b != a;
    }
  }
}
