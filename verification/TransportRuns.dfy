/** What every run of the transport edge keeps: no replay, no stolen binding, every datagram counted. */
module TransportRuns {
  import opened Bytes
  import opened Transport
  import SimTypes

  // ---- Joined keys ----

  predicate Plainly(s: string) {
    ':' !in s
  }

  predicate Named(h: Header) {
    h.matchId != "" && h.playerId != "" && Plainly(h.matchId) && Plainly(h.playerId)
  }

  lemma TokenIsPlain(s: string)
    requires SimTypes.AuditToken(s)
    ensures s != "" && Plainly(s)
  {
  }

  /** A key joined with ':' gives back its first part when that holds no ':'. */
  lemma JoinUnique(a: string, b: string, c: string, d: string)
    requires Plainly(a) && Plainly(c) && a + ":" + b == c + ":" + d
    ensures a == c && b == d
  {
    var x, y := a + ":" + b, c + ":" + d;
    assert forall i :: 0 <= i < |a| ==> x[i] == a[i];
    assert forall i :: 0 <= i < |c| ==> y[i] == c[i];
    assert x[|a|] == ':' && y[|c|] == ':';
    assert |a| == |c|;
    assert x[..|a|] == a && y[..|c|] == c && x[|a| + 1..] == b && y[|c| + 1..] == d;
  }

  predicate SamePlayer(h: Header, g: Header) {
    h.matchId == g.matchId && h.playerId == g.playerId
  }

  predicate SameSession(h: Header, g: Header) {
    SamePlayer(h, g) && h.keyId == g.keyId
  }

  predicate SameNonce(h: Header, g: Header) {
    SameSession(h, g) && h.nonceHex == g.nonceHex
  }

  lemma SeqKeysApart(h: Header, g: Header)
    requires Named(h) && Named(g)
    ensures SeqKey(h) == SeqKey(g) <==> SamePlayer(h, g)
  {
    if SeqKey(h) == SeqKey(g) {
      JoinUnique(h.matchId, h.playerId, g.matchId, g.playerId);
    }
  }

  lemma ThreePartKeysApart(m: string, p: string, k: string, n: string, q: string, l: string)
    requires Plainly(m) && Plainly(p) && Plainly(n) && Plainly(q)
    ensures m + ":" + p + ":" + k == n + ":" + q + ":" + l <==> m == n && p == q && k == l
  {
    assert m + ":" + p + ":" + k == m + ":" + (p + ":" + k);
    assert n + ":" + q + ":" + l == n + ":" + (q + ":" + l);
    if m + ":" + p + ":" + k == n + ":" + q + ":" + l {
      JoinUnique(m, p + ":" + k, n, q + ":" + l);
      JoinUnique(p, k, q, l);
    }
  }

  lemma RemoteKeysApart(h: Header, g: Header)
    requires Named(h) && Named(g) && h.keyId != "" && g.keyId != ""
    ensures RemoteKey(h) != "" && (RemoteKey(h) == RemoteKey(g) <==> SameSession(h, g))
  {
    ThreePartKeysApart(h.matchId, h.playerId, h.keyId, g.matchId, g.playerId, g.keyId);
  }

  /** The nonce has a fixed length, so that even a key id with ':' in it is told apart. */
  lemma NonceKeysApart(h: Header, g: Header)
    requires Named(h) && Named(g) && |h.nonceHex| == |g.nonceHex|
    ensures NonceKey(h) == NonceKey(g) <==> SameNonce(h, g)
  {
    var x, y := h.keyId + ":" + h.nonceHex, g.keyId + ":" + g.nonceHex;
    assert NonceKey(h) == h.matchId + ":" + h.playerId + ":" + x;
    assert NonceKey(g) == g.matchId + ":" + g.playerId + ":" + y;
    ThreePartKeysApart(h.matchId, h.playerId, x, g.matchId, g.playerId, y);
    if x == y {
      assert |h.keyId| == |g.keyId|;
      assert x[..|h.keyId|] == h.keyId && y[..|g.keyId|] == g.keyId;
      assert x[|h.keyId| + 1..] == h.nonceHex && y[|g.keyId| + 1..] == g.nonceHex;
    }
  }

  // ---- The last of a player, a match, a session ----

  /** The sequence of the last packet of the player of `g` that got through. */
  function LastSeq(log: seq<Passed>, g: Header): Option<nat> {
    if log == [] then None else
    var last := log[|log| - 1].header;
    if SamePlayer(last, g) then Some(last.sequence) else LastSeq(log[..|log| - 1], g)
  }

  /** The highest tick of a match so far. */
  function TopTick(log: seq<Passed>, m: string): Option<nat> {
    if log == [] then None else
    var last, before := log[|log| - 1].header, TopTick(log[..|log| - 1], m);
    if last.matchId != m then before
    else if before.Some? && before.value >= last.tick then before else Some(last.tick)
  }

  /** Where the last datagram of the session of `g` came from. */
  function LastEndpoint(log: seq<Passed>, g: Header): Option<string> {
    if log == [] then None else
    var last := log[|log| - 1];
    if last.endpoint.Some? && SameSession(last.header, g) then last.endpoint else LastEndpoint(log[..|log| - 1], g)
  }

  function Find<T>(m: map<string, T>, k: string): Option<T> {
    if k in m then Some(m[k]) else None
  }

  // ---- The invariant ----

  /** What got through is named by a session and shaped as the dispatcher demands. */
  predicate Proper(p: Passed) {
    && Named(p.header)
    && (p.encrypted ==> Replayable(p.header))
    && (p.endpoint.Some? ==> p.encrypted)
  }

  ghost predicate AllProper(log: seq<Passed>) {
    forall i :: 0 <= i < |log| ==> Proper(log[i])
  }

  ghost predicate SeqsTold(e: Edge) {
    forall g: Header :: Named(g) ==> Find(e.tables.lastSeq, SeqKey(g)) == LastSeq(e.log, g)
  }

  ghost predicate TicksTold(e: Edge) {
    forall m :: Find(e.tables.lastTick, m) == TopTick(e.log, m)
  }

  ghost predicate Spent(log: seq<Passed>, g: Header) {
    exists i :: 0 <= i < |log| && log[i].encrypted && SameNonce(log[i].header, g)
  }

  ghost predicate NoncesTold(e: Edge) {
    forall g: Header :: Named(g) && |g.nonceHex| == NONCE_HEX ==> (NonceKey(g) in e.tables.nonces <==> Spent(e.log, g))
  }

  ghost predicate RemotesTold(e: Edge) {
    forall g: Header :: Named(g) && g.keyId != "" ==> Find(e.remotes, RemoteKey(g)) == LastEndpoint(e.log, g)
  }

  /** The packet at `j` was new when it came: a later sequence than any of its player, a nonce not spent, no jump
      in ticks, and from where its session was last heard unless it reconnects. */
  ghost predicate NewAt(log: seq<Passed>, j: nat)
    requires j < |log|
  {
    var h, before := log[j].header, log[..j];
    && (LastSeq(before, h).Some? ==> LastSeq(before, h).value < h.sequence)
    && (log[j].encrypted ==> !Spent(before, h))
    && (TopTick(before, h.matchId).Some? ==> h.tick <= TopTick(before, h.matchId).value + MAX_TICK_JUMP)
    && (log[j].endpoint.Some? && LastEndpoint(before, h).Some? && LastEndpoint(before, h) != log[j].endpoint
        ==> h.payloadType == Reconnect)
  }

  ghost predicate AllNew(log: seq<Passed>) {
    forall j :: 0 <= j < |log| ==> NewAt(log, j)
  }

  ghost predicate Sound(e: Edge) {
    AllProper(e.log) && SeqsTold(e) && TicksTold(e) && NoncesTold(e) && RemotesTold(e) && AllNew(e.log)
  }

  // ---- One packet let through ----

  lemma SeqsKept(e: Edge, p: Passed, t: Edge)
    requires SeqsTold(e) && Named(p.header) && t.log == e.log + [p]
    requires t.tables.lastSeq == e.tables.lastSeq[SeqKey(p.header) := p.header.sequence]
    ensures SeqsTold(t)
  {
    forall g: Header | Named(g)
      ensures Find(t.tables.lastSeq, SeqKey(g)) == LastSeq(t.log, g)
    {
      assert Find(e.tables.lastSeq, SeqKey(g)) == LastSeq(e.log, g);
      SeqKeysApart(p.header, g);
      assert t.log[..|e.log|] == e.log;
    }
  }

  lemma TicksKept(e: Edge, p: Passed, t: Edge)
    requires TicksTold(e) && t.log == e.log + [p] && t.tables.lastTick == Noted(e.tables, p.header).lastTick
    ensures TicksTold(t)
  {
    forall m
      ensures Find(t.tables.lastTick, m) == TopTick(t.log, m)
    {
      assert Find(e.tables.lastTick, m) == TopTick(e.log, m);
      assert t.log[..|e.log|] == e.log;
    }
  }

  lemma SpentOne(log: seq<Passed>, p: Passed, g: Header)
    ensures Spent(log + [p], g) <==> Spent(log, g) || (p.encrypted && SameNonce(p.header, g))
  {
    var more := log + [p];
    if Spent(log, g) {
      var i :| 0 <= i < |log| && log[i].encrypted && SameNonce(log[i].header, g);
      assert more[i] == log[i];
    }
    assert more[|log|] == p;
  }

  lemma NoncesKept(e: Edge, p: Passed, t: Edge)
    requires NoncesTold(e) && Proper(p) && t.log == e.log + [p]
    requires t.tables.nonces == if p.encrypted then e.tables.nonces + {NonceKey(p.header)} else e.tables.nonces
    ensures NoncesTold(t)
  {
    forall g: Header | Named(g) && |g.nonceHex| == NONCE_HEX
      ensures NonceKey(g) in t.tables.nonces <==> Spent(t.log, g)
    {
      assert NonceKey(g) in e.tables.nonces <==> Spent(e.log, g);
      SpentOne(e.log, p, g);
      if p.encrypted {
        NonceKeysApart(p.header, g);
      }
    }
    hide NonceKey;
  }

  lemma RemotesKept(e: Edge, p: Passed, t: Edge)
    requires RemotesTold(e) && Proper(p) && t.log == e.log + [p]
    requires t.remotes == if p.endpoint.Some? then Bound(e, p.header, p.endpoint.value) else e.remotes
    ensures RemotesTold(t)
  {
    hide RemoteKey, Named;
    forall g: Header | Named(g) && g.keyId != ""
      ensures Find(t.remotes, RemoteKey(g)) == LastEndpoint(t.log, g)
    {
      assert Find(e.remotes, RemoteKey(g)) == LastEndpoint(e.log, g);
      assert t.log[..|e.log|] == e.log;
      if p.endpoint.Some? {
        RemoteKeysApart(p.header, g);
      }
    }
  }

  lemma NewOne(log: seq<Passed>, p: Passed)
    requires AllNew(log) && NewAt(log + [p], |log|)
    ensures AllNew(log + [p])
  {
    var more := log + [p];
    forall j | 0 <= j < |more|
      ensures NewAt(more, j)
    {
      if j < |log| {
        assert NewAt(log, j) && more[..j] == log[..j] && more[j] == log[j];
      }
    }
  }

  /** The refusals of the dispatcher's tables say what the log says. */
  lemma TablesTell(e: Edge, h: Header)
    requires SeqsTold(e) && TicksTold(e) && Named(h) && TableFault(e.tables, h) == ""
    ensures LastSeq(e.log, h).Some? ==> LastSeq(e.log, h).value < h.sequence
    ensures TopTick(e.log, h.matchId).Some? ==> h.tick <= TopTick(e.log, h.matchId).value + MAX_TICK_JUMP
  {
    assert Find(e.tables.lastSeq, SeqKey(h)) == LastSeq(e.log, h);
    assert Find(e.tables.lastTick, h.matchId) == TopTick(e.log, h.matchId);
  }

  // ---- Steps ----

  lemma RefusedSound(e: Edge, c: Counters)
    requires Sound(e)
    ensures Sound(e.(counters := c))
  {
    hide Named, SeqKey, NonceKey, RemoteKey;
    var t := e.(counters := c);
    assert SeqsTold(t) by {
      forall g: Header | Named(g)
        ensures Find(t.tables.lastSeq, SeqKey(g)) == LastSeq(t.log, g)
      {
        assert Find(e.tables.lastSeq, SeqKey(g)) == LastSeq(e.log, g);
      }
    }
  }

  /** What the gate, the dispatcher and the adapter have checked of an accepted datagram. */
  lemma AcceptedDatagram(env: Env, e: Edge, a: Arrival)
    requires a.step.Arrives? && Registered(a)
    requires DatagramFault(env, e, a.look, a.step.packet, a.step.datagram) == ""
    ensures var h := a.step.packet.header;
      && Named(h) && Replayable(h) && NonceKey(h) !in e.tables.nonces && TableFault(e.tables, h) == ""
      && RemoteFault(e.remotes, a.look, h, a.step.datagram.endpoint) == "" && FromClient(h.payloadType)
      && a.look.session.Some? && WindowFault(a.look, h) == ""
  {
    var p := a.step.packet;
    GatePassed(a.look, p);
    TokenIsPlain(p.header.matchId);
    TokenIsPlain(p.header.playerId);
    EncryptedPassed(env, e.tables, p);
    hide SimTypes.AuditToken, TableFault, WindowFault, RemoteFault, GateFault, EncryptedFault, Replayable, NonceKey;
  }

  lemma GatePassed(look: Look, p: Packet)
    requires GateFault(look, p) == ""
    ensures look.session.Some? && FromClient(p.header.payloadType) && WindowFault(look, p.header) == ""
  {
  }

  lemma EncryptedPassed(env: Env, t: Tables, p: Packet)
    requires EncryptedFault(env, t, p) == ""
    ensures Replayable(p.header) && NonceKey(p.header) !in t.nonces && TableFault(t, p.header) == ""
  {
    hide TableFault, IsHex, NonceKey;
  }

  lemma NewDatagram(e: Edge, look: Look, h: Header, endpoint: string)
    requires Sound(e) && Named(h) && Replayable(h) && FromClient(h.payloadType)
    requires NonceKey(h) !in e.tables.nonces && TableFault(e.tables, h) == "" && RemoteFault(e.remotes, look, h, endpoint) == ""
    ensures NewAt(e.log + [Passed(h, true, Some(endpoint))], |e.log|)
  {
    var more := e.log + [Passed(h, true, Some(endpoint))];
    assert more[..|e.log|] == e.log;
    hide Named, TableFault;
    TablesTell(e, h);
    assert NonceKey(h) in e.tables.nonces <==> Spent(e.log, h);
    assert Find(e.remotes, RemoteKey(h)) == LastEndpoint(e.log, h);
    RemoteKeysApart(h, h);
    hide NonceKey, RemoteKey, Spent, LastSeq, LastEndpoint, TopTick;
  }

  lemma LetSound(e: Edge, look: Look, h: Header, endpoint: string)
    requires Sound(e) && Named(h) && Replayable(h) && FromClient(h.payloadType)
    requires NonceKey(h) !in e.tables.nonces && TableFault(e.tables, h) == "" && RemoteFault(e.remotes, look, h, endpoint) == ""
    ensures Sound(Let(e, h, endpoint))
  {
    var p, t := Passed(h, true, Some(endpoint)), Let(e, h, endpoint);
    NewDatagram(e, look, h, endpoint);
    hide Named, NonceShape, TableFault, RemoteFault, NonceKey, RemoteKey, SeqKey;
    LetParts(e, h, endpoint);
    SeqsKept(e, p, t);
    TicksKept(e, p, t);
    NoncesKept(e, p, t);
    RemotesKept(e, p, t);
    NewOne(e.log, p);
    ProperOne(e.log, p);
    hide SeqsTold, TicksTold, NoncesTold, RemotesTold, AllNew, AllProper;
  }

  lemma LetParts(e: Edge, h: Header, endpoint: string)
    requires Replayable(h)
    ensures var t := Let(e, h, endpoint);
      && t.tables.lastSeq == e.tables.lastSeq[SeqKey(h) := h.sequence]
      && t.tables.lastTick == Noted(e.tables, h).lastTick
      && t.tables.nonces == e.tables.nonces + {NonceKey(h)}
      && t.remotes == Bound(e, h, endpoint)
  {
  }

  lemma ProperOne(log: seq<Passed>, p: Passed)
    requires AllProper(log) && Proper(p)
    ensures AllProper(log + [p])
  {
    hide Proper;
  }

  lemma PlainPassed(env: Env, e: Edge, a: Arrival)
    requires a.step.Plain? && Registered(a) && PlainFault(env, a.look, e.tables, a.step.header, a.step.payload) == ""
    ensures Named(a.step.header) && TableFault(e.tables, a.step.header) == ""
  {
    var h := a.step.header;
    DispatchPassed(env, e.tables, h, env.modeFault(a.step.payload));
    hide SimTypes.AuditToken, TableFault, DispatchFault;
    TokenIsPlain(h.matchId);
    TokenIsPlain(h.playerId);
  }

  lemma DispatchPassed(env: Env, t: Tables, h: Header, payloadFault: string)
    ensures DispatchFault(env, t, h, payloadFault) == "" ==> TableFault(t, h) == "" && h.matchId != "" && h.playerId != ""
  {
    hide TableFault, ShapeFault;
  }

  lemma PlainSound(e: Edge, h: Header)
    requires Sound(e) && Named(h) && TableFault(e.tables, h) == ""
    ensures Sound(e.(tables := Noted(e.tables, h), log := e.log + [Passed(h, false, None)]))
  {
    var p := Passed(h, false, None);
    var t := e.(tables := Noted(e.tables, h), log := e.log + [p]);
    hide NonceKey, RemoteKey, SeqKey, NonceShape, Named;
    TablesTell(e, h);
    assert t.log[..|e.log|] == e.log;
    assert NewAt(t.log, |e.log|);
    SeqsKept(e, p, t);
    TicksKept(e, p, t);
    NoncesKept(e, p, t);
    RemotesKept(e, p, t);
    NewOne(e.log, p);
    ProperOne(e.log, p);
    hide SeqsTold, TicksTold, NoncesTold, RemotesTold, AllNew, AllProper;
  }

  lemma ApplySound(env: Env, e: Edge, a: Arrival)
    requires Sound(e) && Registered(a)
    ensures Sound(Apply(env, e, a))
  {
    hide Sound, Let, Named, DatagramFault, PlainFault, RemoteFault, TableFault, Noted, Registered, Replayable, NonceKey, FromClient;
    match a.step
    case Arrives(p, d) =>
      if DatagramFault(env, e, a.look, p, d) == "" {
        AcceptedDatagram(env, e, a);
        LetSound(e, a.look, p.header, d.endpoint);
      } else {
        RefusedSound(e, Refused(e, a.look, p, d).counters);
      }
    case Plain(h, payload) =>
      if PlainFault(env, a.look, e.tables, h, payload) == "" {
        PlainPassed(env, e, a);
        PlainSound(e, h);
      }
  }

  // ---- Runs ----

  /** Along every run what got through was new when it came, and the tables say exactly what got through. */
  lemma {:induction false} RunsAreSound(env: Env, arrivals: seq<Arrival>)
    requires forall i :: 0 <= i < |arrivals| ==> Registered(arrivals[i])
    ensures Sound(Run(env, arrivals))
    decreases |arrivals|
  {
    hide Sound, Apply, Registered;
    if arrivals == [] {
      EmptyIsSound();
    } else {
      RunsAreSound(env, arrivals[..|arrivals| - 1]);
      ApplySound(env, Run(env, arrivals[..|arrivals| - 1]), arrivals[|arrivals| - 1]);
    }
  }

  lemma EmptyIsSound()
    ensures Sound(EMPTY)
  {
  }

  lemma {:induction false} LastSeqBounds(log: seq<Passed>, g: Header, i: nat)
    requires AllNew(log) && i < |log| && SamePlayer(log[i].header, g)
    ensures LastSeq(log, g).Some? && log[i].header.sequence <= LastSeq(log, g).value
    decreases |log|
  {
    var n := |log| - 1;
    var front := log[..n];
    FrontNew(log);
    if i < n {
      LastSeqBounds(front, g, i);
      assert NewAt(log, n);
      if SamePlayer(log[n].header, g) {
        SameLastSeq(front, g, log[n].header);
      }
    }
  }

  lemma FrontNew(log: seq<Passed>)
    requires AllNew(log) && log != []
    ensures AllNew(log[..|log| - 1])
  {
    var front := log[..|log| - 1];
    forall j | 0 <= j < |front|
      ensures NewAt(front, j)
    {
      assert NewAt(log, j) && front[..j] == log[..j];
    }
  }

  lemma {:induction false} SameLastSeq(log: seq<Passed>, g: Header, h: Header)
    requires SamePlayer(g, h)
    ensures LastSeq(log, g) == LastSeq(log, h)
    decreases |log|
  {
    if log != [] {
      SameLastSeq(log[..|log| - 1], g, h);
    }
  }

  /** Accepted packets of one player in one match have strictly increasing sequence numbers. */
  lemma SequencesIncrease(env: Env, arrivals: seq<Arrival>, i: nat, j: nat)
    requires forall k :: 0 <= k < |arrivals| ==> Registered(arrivals[k])
    requires var log := Run(env, arrivals).log; i < j < |log| && SamePlayer(log[i].header, log[j].header)
    ensures var log := Run(env, arrivals).log; log[i].header.sequence < log[j].header.sequence
  {
    RunsAreSound(env, arrivals);
    var log := Run(env, arrivals).log;
    hide Run, Registered;
    PrefixNew(log, j);
    LastSeqBounds(log[..j], log[j].header, i);
    assert NewAt(log, j);
  }

  lemma PrefixNew(log: seq<Passed>, n: nat)
    requires AllNew(log) && n <= |log|
    ensures AllNew(log[..n])
  {
    var front := log[..n];
    forall j | 0 <= j < n
      ensures NewAt(front, j)
    {
      assert NewAt(log, j) && front[..j] == log[..j];
    }
  }

  /** No nonce of a session gets through twice. */
  lemma NoncesNeverRepeat(env: Env, arrivals: seq<Arrival>, i: nat, j: nat)
    requires forall k :: 0 <= k < |arrivals| ==> Registered(arrivals[k])
    requires i < j < |Run(env, arrivals).log| && Run(env, arrivals).log[i].encrypted && Run(env, arrivals).log[j].encrypted
    ensures var log := Run(env, arrivals).log; !SameNonce(log[i].header, log[j].header)
  {
    RunsAreSound(env, arrivals);
    var log := Run(env, arrivals).log;
    hide Run, Registered;
    assert NewAt(log, j);
    assert log[..j][i] == log[i];
  }

  /** A packet of this player with this sequence or a later one got through. */
  ghost predicate Reached(log: seq<Passed>, h: Header) {
    exists i :: 0 <= i < |log| && SamePlayer(log[i].header, h) && h.sequence <= log[i].header.sequence
  }

  lemma ReachedIs(log: seq<Passed>, h: Header)
    requires AllNew(log)
    ensures Reached(log, h) <==> LastSeq(log, h).Some? && h.sequence <= LastSeq(log, h).value
  {
    LastSeqHappened(log, h);
    if Reached(log, h) {
      var i :| 0 <= i < |log| && SamePlayer(log[i].header, h) && h.sequence <= log[i].header.sequence;
      LastSeqBounds(log, h, i);
    }
    hide LastSeq, AllNew;
  }

  lemma ReplayIs(e: Edge, h: Header)
    requires Sound(e) && Named(h)
    ensures TableFault(e.tables, h) == "seq_replay" <==> Reached(e.log, h)
    ensures |h.nonceHex| == NONCE_HEX ==> (NonceKey(h) in e.tables.nonces <==> Spent(e.log, h))
  {
    assert Find(e.tables.lastSeq, SeqKey(h)) == LastSeq(e.log, h);
    ReachedIs(e.log, h);
    hide LastSeq, SeqKey, NonceKey, Spent, Reached, TicksTold, SeqsTold, RemotesTold, AllNew, AllProper, Named;
  }

  /** And the refusals are exact: a packet is a sequence replay only for a sequence its own player already
      reached, a nonce replay only for a nonce its own session already spent. */
  lemma ReplaysAreExact(env: Env, arrivals: seq<Arrival>, h: Header)
    requires forall k :: 0 <= k < |arrivals| ==> Registered(arrivals[k])
    requires Named(h)
    ensures TableFault(Run(env, arrivals).tables, h) == "seq_replay" <==> Reached(Run(env, arrivals).log, h)
    ensures |h.nonceHex| == NONCE_HEX ==> (NonceKey(h) in Run(env, arrivals).tables.nonces <==> Spent(Run(env, arrivals).log, h))
  {
    RunsAreSound(env, arrivals);
    hide Run, Registered, TableFault, Reached, Spent, NonceKey, Named, Sound;
    ReplayIs(Run(env, arrivals), h);
  }

  lemma {:induction false} LastSeqHappened(log: seq<Passed>, g: Header)
    ensures LastSeq(log, g).Some?
      ==> exists i :: 0 <= i < |log| && SamePlayer(log[i].header, g) && log[i].header.sequence == LastSeq(log, g).value
    decreases |log|
  {
    if log != [] {
      var n := |log| - 1;
      if !SamePlayer(log[n].header, g) {
        LastSeqHappened(log[..n], g);
        if LastSeq(log[..n], g).Some? {
          var i :| 0 <= i < n && SamePlayer(log[..n][i].header, g) && log[..n][i].header.sequence == LastSeq(log[..n], g).value;
          assert log[i] == log[..n][i];
        }
      }
    }
  }

  // ---- Keys ----

  /** The packet is under the key of a session that shook hands, sealed, with the nonce that belongs to it. */
  predicate Keyed(env: Env, look: Look, p: Packet) {
    && look.session.Some? && look.session.value.accepted && look.session.value.keyId != ""
    && p.header.keyId == look.session.value.keyId && look.session.value.keyId != look.session.value.serverKeyId
    && (look.session.value.aead == "CHACHA20_POLY1305" || look.session.value.aead == "XCHACHA20_POLY1305")
    && |look.session.value.transcriptHash| == 32 && p.ciphertext != "" && |p.authTag| == 16
    && p.header.nonceHex == env.nonceOf(p.header) && |p.header.nonceHex| == 24
    && p.header.compatible && p.header.matchId != "" && p.header.playerId != "" && p.header.sequence > 0
  }

  lemma ShapePassed(env: Env, t: Tables, p: Packet)
    requires EncryptedFault(env, t, p) == ""
    ensures p.header.nonceHex == env.nonceOf(p.header) && |p.header.nonceHex| == 24 && p.ciphertext != "" && |p.authTag| == 16
    ensures p.header.compatible && p.header.matchId != "" && p.header.playerId != "" && p.header.sequence > 0
  {
    SealPassed(env, t, p);
    NoncePassed(env, t, p.header);
    HeaderPassed(env, t, p.header);
    hide EncryptedFault, DispatchFault, FromClient;
  }

  lemma SealPassed(env: Env, t: Tables, p: Packet)
    requires EncryptedFault(env, t, p) == ""
    ensures p.ciphertext != "" && |p.authTag| == 16 && FromClient(p.header.payloadType) && DispatchFault(env, t, p.header, "") == ""
  {
    hide DispatchFault, NonceKey, Replayable;
  }

  lemma HeaderPassed(env: Env, t: Tables, h: Header)
    requires DispatchFault(env, t, h, "") == ""
    ensures h.compatible && h.matchId != "" && h.playerId != "" && h.sequence > 0
  {
    hide TableFault, ShapeFault;
  }

  lemma NoncePassed(env: Env, t: Tables, h: Header)
    requires DispatchFault(env, t, h, "") == "" && FromClient(h.payloadType)
    ensures h.nonceHex == env.nonceOf(h) && |h.nonceHex| == 24
  {
    hide TableFault, ShapeFault, FromClient;
    NonceFits(env, h);
  }

  lemma NonceFits(env: Env, h: Header)
    ensures ShapeFault(env, h) == "" && FromClient(h.payloadType) ==> h.nonceHex == env.nonceOf(h) && |h.nonceHex| == 24
  {
    if ShapeFault(env, h) == "" && FromClient(h.payloadType) {
      assert NonceShape(h.nonceHex);
      assert h.nonceHex == env.nonceOf(h);
    }
  }

  lemma SessionPassed(look: Look, p: Packet)
    requires GateFault(look, p) == ""
    ensures look.session.Some? && SessionFault(look.session, p.header) == ""
  {
    GatePassed(look, p);
    hide SessionFault, WindowFault;
  }

  /** Every datagram that gets through carries the key of its player's session. */
  lemma AcceptedIsKeyed(env: Env, e: Edge, look: Look, p: Packet, d: Datagram)
    requires DatagramFault(env, e, look, p, d) == ""
    ensures Keyed(env, look, p)
  {
    EdgePassed(env, e, look, p, d);
    SessionPassed(look, p);
    ShapePassed(env, e.tables, p);
    hide DatagramFault, GateFault, EncryptedFault, IsHex;
  }

  lemma EdgePassed(env: Env, e: Edge, look: Look, p: Packet, d: Datagram)
    requires DatagramFault(env, e, look, p, d) == ""
    ensures GateFault(look, p) == "" && EncryptedFault(env, e.tables, p) == ""
  {
    hide GateFault, EncryptedFault, RemoteFault;
  }

  // ---- Bindings ----

  /** The arrival is a reconnect of the session of `g`, of a player the server says is not connected, that got
      through at `e` and came from elsewhere than the session was bound to. */
  ghost predicate Reconnects(env: Env, e: Edge, a: Arrival, g: Header) {
    && a.step.Arrives? && SameSession(a.step.packet.header, g) && a.step.packet.header.payloadType == Reconnect
    && a.look.session.Some? && !a.look.connected && a.look.closed == "" && !a.look.settled
    && DatagramFault(env, e, a.look, a.step.packet, a.step.datagram) == ""
    && Find(e.remotes, RemoteKey(g)) != Some(a.step.datagram.endpoint)
  }

  lemma GateOpen(look: Look, p: Packet)
    requires GateFault(look, p) == ""
    ensures look.closed == "" && !look.settled
  {
    hide SessionFault, WindowFault;
  }

  lemma RefusedKeepsRemotes(env: Env, e: Edge, a: Arrival)
    requires a.step.Plain? || DatagramFault(env, e, a.look, a.step.packet, a.step.datagram) != ""
    ensures Apply(env, e, a).remotes == e.remotes
  {
    hide DatagramFault, PlainFault, RemoteFault, Noted;
  }

  lemma LetRemotes(env: Env, e: Edge, a: Arrival)
    requires a.step.Arrives? && DatagramFault(env, e, a.look, a.step.packet, a.step.datagram) == ""
    ensures Apply(env, e, a).remotes == Bound(e, a.step.packet.header, a.step.datagram.endpoint)
  {
    hide DatagramFault, NotedEncrypted, Bound;
  }

  lemma DatagramPassed(env: Env, e: Edge, look: Look, p: Packet, d: Datagram)
    requires DatagramFault(env, e, look, p, d) == ""
    ensures GateFault(look, p) == "" && RemoteFault(e.remotes, look, p.header, d.endpoint) == ""
  {
    hide GateFault, EncryptedFault, RemoteFault;
  }

  lemma BindingMoves(env: Env, e: Edge, a: Arrival, g: Header)
    requires Registered(a) && Named(g) && g.keyId != "" && RemoteKey(g) in e.remotes
    ensures RemoteKey(g) in Apply(env, e, a).remotes
    ensures Apply(env, e, a).remotes[RemoteKey(g)] != e.remotes[RemoteKey(g)] ==> Reconnects(env, e, a, g)
  {
    hide Apply, DatagramFault, Registered, Named, SameSession, RemoteKey, GateFault;
    if a.step.Plain? || DatagramFault(env, e, a.look, a.step.packet, a.step.datagram) != "" {
      RefusedKeepsRemotes(env, e, a);
    } else {
      LetRemotes(env, e, a);
      AcceptedDatagram(env, e, a);
      RemoteKeysApart(a.step.packet.header, g);
      DatagramPassed(env, e, a.look, a.step.packet, a.step.datagram);
      GateOpen(a.look, a.step.packet);
      hide NonceShape, NonceKey, TableFault, WindowFault;
    }
  }

  /** Where the session of `g` is bound to after the first `k` arrivals. */
  function Binding(env: Env, arrivals: seq<Arrival>, g: Header, k: nat): Option<string>
    requires k <= |arrivals|
  {
    Find(Run(env, arrivals[..k]).remotes, RemoteKey(g))
  }

  ghost predicate ReconnectsAt(env: Env, arrivals: seq<Arrival>, g: Header, k: nat)
    requires k < |arrivals|
  {
    Reconnects(env, Run(env, arrivals[..k]), arrivals[k], g)
  }

  ghost predicate ReconnectsBetween(env: Env, arrivals: seq<Arrival>, g: Header, i: nat, j: nat)
    requires j <= |arrivals|
  {
    exists k: nat :: i <= k < j && ReconnectsAt(env, arrivals, g, k)
  }

  lemma BindingAfter(env: Env, arrivals: seq<Arrival>, g: Header, k: nat)
    requires k < |arrivals| && Registered(arrivals[k])
    requires Named(g) && g.keyId != "" && Binding(env, arrivals, g, k).Some?
    ensures Binding(env, arrivals, g, k + 1).Some?
    ensures Binding(env, arrivals, g, k + 1) != Binding(env, arrivals, g, k) ==> ReconnectsAt(env, arrivals, g, k)
  {
    assert arrivals[..k + 1][..k] == arrivals[..k];
    hide Apply, Registered, Named, Reconnects, RemoteKey;
    BindingMoves(env, Run(env, arrivals[..k]), arrivals[k], g);
  }

  /** A session once bound stays bound, and where it is bound to differs between two points of a run only if
      between them a reconnect of that very session got through, its player not connected. */
  lemma {:induction false} BindingsChangeByReconnect(env: Env, arrivals: seq<Arrival>, g: Header, i: nat, j: nat)
    requires forall k :: 0 <= k < |arrivals| ==> Registered(arrivals[k])
    requires Named(g) && g.keyId != "" && i <= j <= |arrivals| && Binding(env, arrivals, g, i).Some?
    ensures Binding(env, arrivals, g, j).Some?
    ensures Binding(env, arrivals, g, j) != Binding(env, arrivals, g, i) ==> ReconnectsBetween(env, arrivals, g, i, j)
    decreases j - i
  {
    hide Binding, Registered, Named, ReconnectsAt;
    if i < j {
      BindingsChangeByReconnect(env, arrivals, g, i, j - 1);
      BindingAfter(env, arrivals, g, j - 1);
    }
  }

  /** The datagrams among the arrivals. */
  function Datagrams(arrivals: seq<Arrival>): nat {
    if arrivals == [] then 0 else
    Datagrams(arrivals[..|arrivals| - 1]) + (if arrivals[|arrivals| - 1].step.Arrives? then 1 else 0)
  }

  /** Every datagram is accepted or rejected, none twice; each malformed or mismatched one was rejected. */
  lemma {:induction false} EveryDatagramCounted(env: Env, arrivals: seq<Arrival>)
    ensures var c := Run(env, arrivals).counters;
      && c.accepted + c.rejected == Datagrams(arrivals)
      && c.malformed + c.mismatches <= c.rejected && c.rebinds <= c.accepted
    decreases |arrivals|
  {
    if arrivals != [] {
      EveryDatagramCounted(env, arrivals[..|arrivals| - 1]);
      hide DatagramFault, PlainFault, RemoteFault, Noted, NotedEncrypted, Bound, Rebinds;
    }
  }
}
