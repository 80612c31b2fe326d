/** The transport edge: the dispatcher of src/protocol.cpp, the server's gate before it (src/server.cpp) and the
    datagram adapter of src/kcp_endpoint.cpp, as steps on their tables. */
module Transport {
  import opened Bytes
  import SimTypes

  const TAG_BYTES: nat := 16
  const NONCE_HEX: nat := 24
  const MAX_TICK_JUMP: nat := 600

  datatype PayloadType =
    | Unspecified | HandshakeHello | HandshakeAccept | Input | Snapshot | Event | Ping | Reconnect | Result | ModeAction | Other

  datatype Header = Header(
    compatible: bool, matchId: string, playerId: string, tick: nat, sequence: nat, ack: nat, payloadType: PayloadType,
    keyId: string, nonceHex: string)

  datatype Packet = Packet(header: Header, ciphertext: string, authTag: string)

  datatype Datagram = Datagram(endpoint: string, payload: string)

  /** The nonce a header must carry, and the fault of a plaintext mode action's payload, empty for none. */
  datatype Env = Env(nonceOf: Header -> string, modeFault: string -> string)

  datatype SessionKeys = SessionKeys(accepted: bool, transcriptHash: string, aead: string, keyId: string, serverKeyId: string)

  /** What the server knows when a packet arrives: why its match is closed (empty when it is running), whether it
      is settled, the session and connection of its player, and the match's tick, events and input window. */
  datatype Look = Look(closed: string, settled: bool, session: Option<SessionKeys>, connected: bool, tick: nat, events: nat, ahead: nat)

  /** The tables of the dispatcher. */
  datatype Tables = Tables(lastSeq: map<string, nat>, lastTick: map<string, nat>, nonces: set<string>)

  // ---- Keys ----

  function SeqKey(h: Header): string {
    h.matchId + ":" + h.playerId
  }

  function RemoteKey(h: Header): string {
    if h.matchId == "" || h.playerId == "" || h.keyId == "" then "" else h.matchId + ":" + h.playerId + ":" + h.keyId
  }

  function NonceKey(h: Header): string {
    h.matchId + ":" + h.playerId + ":" + h.keyId + ":" + h.nonceHex
  }

  predicate HexDigit(c: char) {
    '0' <= c <= '9' || 'a' <= c <= 'f' || 'A' <= c <= 'F'
  }

  predicate IsHex(s: string) {
    forall i :: 0 <= i < |s| ==> HexDigit(s[i])
  }

  predicate NonceShape(s: string) {
    |s| == NONCE_HEX && IsHex(s)
  }

  predicate FromClient(p: PayloadType) {
    p == Input || p == ModeAction || p == Ping || p == Reconnect
  }

  // ---- The dispatcher ----

  function ShapeFault(env: Env, h: Header): string {
    if !FromClient(h.payloadType) then ""
    else if h.keyId == "" then "key_id_missing"
    else if !NonceShape(h.nonceHex) then "nonce_invalid"
    else if h.nonceHex != env.nonceOf(h) then "nonce_mismatch"
    else ""
  }

  function TableFault(t: Tables, h: Header): string {
    if SeqKey(h) in t.lastSeq && h.sequence <= t.lastSeq[SeqKey(h)] then "seq_replay"
    else if h.matchId in t.lastTick && h.tick > t.lastTick[h.matchId] && h.tick - t.lastTick[h.matchId] > MAX_TICK_JUMP then "tick_jump"
    else ""
  }

  /** The refusal of DispatchWithPayloadValidation, empty for an accepted packet. */
  function DispatchFault(env: Env, t: Tables, h: Header, payloadFault: string): string {
    if !h.compatible then "version_incompatible"
    else if h.matchId == "" || h.playerId == "" then "identity_missing"
    else if h.sequence == 0 then "seq_missing"
    else if h.payloadType == Result then "client_result_forbidden"
    else if h.payloadType == Unspecified then "payload_type_missing"
    else if h.payloadType == ModeAction && payloadFault != "" then payloadFault
    else if ShapeFault(env, h) != "" then ShapeFault(env, h)
    else TableFault(t, h)
  }

  function Noted(t: Tables, h: Header): Tables {
    var before := if h.matchId in t.lastTick then t.lastTick[h.matchId] else 0;
    t.(lastSeq := t.lastSeq[SeqKey(h) := h.sequence],
       lastTick := t.lastTick[h.matchId := if h.tick > before then h.tick else before])
  }

  function EncryptedFault(env: Env, t: Tables, p: Packet): string {
    if p.ciphertext == "" then "ciphertext_missing"
    else if |p.authTag| != TAG_BYTES then "auth_tag_invalid"
    else if !FromClient(p.header.payloadType) then
      (if p.header.payloadType == Result then "client_result_forbidden" else "encrypted_payload_type_invalid")
    else if Replayable(p.header) && NonceKey(p.header) in t.nonces then "nonce_replay"
    else DispatchFault(env, t, p.header, "")
  }

  predicate Replayable(h: Header) {
    h.matchId != "" && h.playerId != "" && h.keyId != "" && NonceShape(h.nonceHex)
  }

  function NotedEncrypted(t: Tables, h: Header): Tables {
    Noted(t, h).(nonces := if Replayable(h) then t.nonces + {NonceKey(h)} else t.nonces)
  }

  // ---- The server's gate ----

  predicate SupportedAead(a: string) {
    a == "CHACHA20_POLY1305" || a == "XCHACHA20_POLY1305"
  }

  /** ValidateEncryptedSession. */
  function SessionFault(session: Option<SessionKeys>, h: Header): string {
    if session.None? then "player_unknown" else
    var s := session.value;
    if !s.accepted then "handshake_required"
    else if |s.transcriptHash| != 32 || !IsHex(s.transcriptHash) then "handshake_transcript_missing"
    else if !SupportedAead(s.aead) then "session_aead_missing"
    else if s.keyId == "" || s.serverKeyId == "" then "session_key_missing"
    else if s.keyId == s.serverKeyId then "session_direction_key_reuse"
    else if h.keyId != s.keyId then "session_key_mismatch"
    else ""
  }

  function WindowFault(look: Look, h: Header): string {
    if (h.payloadType == Input || h.payloadType == ModeAction || h.payloadType == Ping) && h.ack > look.tick then "encrypted_ack_ahead"
    else if h.payloadType == Input || h.payloadType == ModeAction then
      if !look.connected then "encrypted_player_disconnected"
      else if h.tick <= look.tick then "encrypted_tick_too_old"
      else if h.tick - look.tick > look.ahead then "encrypted_tick_too_far_ahead"
      else ""
    else if h.payloadType == Reconnect then
      if look.connected then "encrypted_reconnect_player_connected"
      else if h.ack > look.events then "encrypted_event_cursor_ahead"
      else ""
    else ""
  }

  /** BattleServer::DispatchEncrypted before it reaches the dispatcher. */
  function GateFault(look: Look, p: Packet): string {
    if p.ciphertext == "" then "ciphertext_missing"
    else if |p.authTag| != TAG_BYTES then "auth_tag_invalid"
    else if p.header.payloadType == Result then "client_result_forbidden"
    else if !FromClient(p.header.payloadType) then "encrypted_payload_type_invalid"
    else if p.header.matchId == "" || p.header.playerId == "" then "identity_missing"
    else if look.closed != "" then look.closed
    else if look.settled then "match_settled"
    else if SessionFault(look.session, p.header) != "" then SessionFault(look.session, p.header)
    else WindowFault(look, p.header)
  }

  function ServerFault(env: Env, look: Look, t: Tables, p: Packet): string {
    if GateFault(look, p) != "" then GateFault(look, p) else EncryptedFault(env, t, p)
  }

  /** BattleServer::Dispatch, for plaintext packets. */
  function PlainFault(env: Env, look: Look, t: Tables, h: Header, payload: string): string {
    if h.matchId != "" && look.closed != "" then look.closed
    else if h.matchId != "" && look.settled then "match_settled"
    else if h.matchId != "" && h.playerId != "" && look.session.None? then "player_unknown"
    else DispatchFault(env, t, h, env.modeFault(payload))
  }

  // ---- The adapter ----

  datatype Counters = Counters(accepted: nat, rejected: nat, malformed: nat, mismatches: nat, rebinds: nat)

  /** A packet that got through; the endpoint it came from, if it came as a datagram. */
  datatype Passed = Passed(header: Header, encrypted: bool, endpoint: Option<string>)

  /** `log` is what got through, in order. */
  datatype Edge = Edge(tables: Tables, remotes: map<string, string>, counters: Counters, log: seq<Passed>)

  const EMPTY: Edge := Edge(Tables(map[], map[], {}), map[], Counters(0, 0, 0, 0, 0), [])

  /** The checks of ProcessEncryptedDatagram on where a packet comes from. */
  function RemoteFault(remotes: map<string, string>, look: Look, h: Header, endpoint: string): string {
    var key := RemoteKey(h);
    if key == "" || key !in remotes || remotes[key] == endpoint then ""
    else if h.payloadType == Reconnect then if look.connected then "remote_rebind_player_connected" else ""
    else if h.payloadType == Input || h.payloadType == ModeAction || h.payloadType == Ping then "remote_endpoint_mismatch"
    else ""
  }

  function DatagramFault(env: Env, e: Edge, look: Look, p: Packet, d: Datagram): string {
    if d.endpoint == "" then "remote_endpoint_missing"
    else if d.payload == "" then "datagram_payload_missing"
    else if RemoteFault(e.remotes, look, p.header, d.endpoint) != "" then RemoteFault(e.remotes, look, p.header, d.endpoint)
    else ServerFault(env, look, e.tables, p)
  }

  function Refused(e: Edge, look: Look, p: Packet, d: Datagram): Edge {
    var c := e.counters.(rejected := e.counters.rejected + 1);
    e.(counters :=
      if d.endpoint == "" || d.payload == "" then c.(malformed := c.malformed + 1)
      else if RemoteFault(e.remotes, look, p.header, d.endpoint) != "" then c.(mismatches := c.mismatches + 1)
      else c)
  }

  function Bound(e: Edge, h: Header, endpoint: string): map<string, string> {
    if RemoteKey(h) == "" then e.remotes else e.remotes[RemoteKey(h) := endpoint]
  }

  predicate Rebinds(e: Edge, h: Header, endpoint: string) {
    RemoteKey(h) != "" && RemoteKey(h) in e.remotes && e.remotes[RemoteKey(h)] != endpoint && h.payloadType == Reconnect
  }

  function Let(e: Edge, h: Header, endpoint: string): Edge {
    Edge(NotedEncrypted(e.tables, h), Bound(e, h, endpoint),
      e.counters.(accepted := e.counters.accepted + 1,
                  rebinds := e.counters.rebinds + (if Rebinds(e, h, endpoint) then 1 else 0)),
      e.log + [Passed(h, true, Some(endpoint))])
  }

  /** ProcessEncryptedDatagram. */
  function Process(env: Env, e: Edge, look: Look, p: Packet, d: Datagram): Edge {
    if DatagramFault(env, e, look, p, d) != "" then Refused(e, look, p, d) else Let(e, p.header, d.endpoint)
  }

  /** A plaintext packet, which shares the dispatcher's tables. */
  function ProcessPlain(env: Env, e: Edge, look: Look, h: Header, payload: string): Edge {
    if PlainFault(env, look, e.tables, h, payload) != "" then e
    else e.(tables := Noted(e.tables, h), log := e.log + [Passed(h, false, None)])
  }

  datatype Step = Arrives(packet: Packet, datagram: Datagram) | Plain(header: Header, payload: string)

  datatype Arrival = Arrival(step: Step, look: Look)

  function HeaderOf(s: Step): Header {
    if s.Plain? then s.header else s.packet.header
  }

  /** The server registers players only under audit tokens, so a session's ids hold no ':'. */
  predicate Registered(a: Arrival) {
    a.look.session.Some? ==> SimTypes.AuditToken(HeaderOf(a.step).matchId) && SimTypes.AuditToken(HeaderOf(a.step).playerId)
  }

  function Apply(env: Env, e: Edge, a: Arrival): Edge {
    match a.step
    case Arrives(p, d) => Process(env, e, a.look, p, d)
    case Plain(h, payload) => ProcessPlain(env, e, a.look, h, payload)
  }

  function Run(env: Env, arrivals: seq<Arrival>): Edge {
    if arrivals == [] then EMPTY else Apply(env, Run(env, arrivals[..|arrivals| - 1]), arrivals[|arrivals| - 1])
  }
}
