/** The dispatcher and the datagram adapter as objects, proved against the steps of Transport. */
module TransportEdge {
  import opened Bytes
  import opened Transport
  import opened TransportRuns

  /** BattleDispatcher. */
  class BattleDispatcher {
    var lastSeqByPlayer: map<string, nat>
    var lastTickByMatch: map<string, nat>
    var seenEncryptedNonces: set<string>

    function Contents(): Tables
      reads this
    {
      Tables(lastSeqByPlayer, lastTickByMatch, seenEncryptedNonces)
    }

    constructor ()
      ensures Contents() == EMPTY.tables
    {
      lastSeqByPlayer, lastTickByMatch, seenEncryptedNonces := map[], map[], {};
    }

    method DispatchWithPayloadValidation(env: Env, h: Header, payloadFault: string) returns (reason: string)
      modifies this
      ensures reason == DispatchFault(env, old(Contents()), h, payloadFault)
      ensures Contents() == if reason == "" then Noted(old(Contents()), h) else old(Contents())
    {
      if !h.compatible {
        return "version_incompatible";
      }
      if h.matchId == "" || h.playerId == "" {
        return "identity_missing";
      }
      if h.sequence == 0 {
        return "seq_missing";
      }
      if h.payloadType == Result {
        return "client_result_forbidden";
      }
      if h.payloadType == Unspecified {
        return "payload_type_missing";
      }
      if h.payloadType == ModeAction && payloadFault != "" {
        return payloadFault;
      }
      if FromClient(h.payloadType) {
        if h.keyId == "" {
          return "key_id_missing";
        }
        if !NonceShape(h.nonceHex) {
          return "nonce_invalid";
        }
        if h.nonceHex != env.nonceOf(h) {
          return "nonce_mismatch";
        }
      }
      reason := CheckTables(h);
      if reason == "" {
        Note(h);
      }
    }

    method CheckTables(h: Header) returns (reason: string)
      ensures reason == TableFault(Contents(), h)
    {
      var key := SeqKey(h);
      if key in lastSeqByPlayer && h.sequence <= lastSeqByPlayer[key] {
        return "seq_replay";
      }
      if h.matchId in lastTickByMatch && h.tick > lastTickByMatch[h.matchId]
         && h.tick - lastTickByMatch[h.matchId] > MAX_TICK_JUMP {
        return "tick_jump";
      }
      return "";
    }

    method Note(h: Header)
      modifies this
      ensures Contents() == Noted(old(Contents()), h)
    {
      lastSeqByPlayer := lastSeqByPlayer[SeqKey(h) := h.sequence];
      if h.matchId !in lastTickByMatch {
        lastTickByMatch := lastTickByMatch[h.matchId := 0];
      }
      if h.tick > lastTickByMatch[h.matchId] {
        lastTickByMatch := lastTickByMatch[h.matchId := h.tick];
      }
      assert lastTickByMatch == Noted(old(Contents()), h).lastTick;
    }

    method DispatchEncrypted(env: Env, p: Packet) returns (reason: string)
      modifies this
      ensures reason == EncryptedFault(env, old(Contents()), p)
      ensures Contents() == if reason == "" then NotedEncrypted(old(Contents()), p.header) else old(Contents())
    {
      hide DispatchFault, Noted;
      NotedKeepsNonces(Contents(), p.header);
      var h := p.header;
      if p.ciphertext == "" {
        return "ciphertext_missing";
      }
      if |p.authTag| != TAG_BYTES {
        return "auth_tag_invalid";
      }
      if !FromClient(h.payloadType) {
        return if h.payloadType == Result then "client_result_forbidden" else "encrypted_payload_type_invalid";
      }
      if h.matchId != "" && h.playerId != "" && h.keyId != "" && NonceShape(h.nonceHex) {
        var key := NonceKey(h);
        if key in seenEncryptedNonces {
          return "nonce_replay";
        }
        reason := DispatchWithPayloadValidation(env, h, "");
        if reason == "" {
          seenEncryptedNonces := seenEncryptedNonces + {key};
        }
        return;
      }
      reason := DispatchWithPayloadValidation(env, h, "");
    }

    lemma NotedKeepsNonces(t: Tables, h: Header)
      ensures Noted(t, h).nonces == t.nonces
    {
    }
  }

  /** KcpAeadPacketAdapter with the server's gate behind it; the log is what got through. */
  class KcpAeadPacketAdapter {
    const dispatcher: BattleDispatcher
    var remoteEndpointBySession: map<string, string>
    var stats: Counters
    ghost var log: seq<Passed>

    ghost function Contents(): Edge
      reads this, dispatcher
    {
      Edge(dispatcher.Contents(), remoteEndpointBySession, stats, log)
    }

    ghost predicate Valid()
      reads this, dispatcher
    {
      Sound(Contents())
    }

    constructor ()
      ensures Valid() && fresh(dispatcher) && Contents() == EMPTY
    {
      dispatcher := new BattleDispatcher();
      remoteEndpointBySession, stats, log := map[], Counters(0, 0, 0, 0, 0), [];
      new;
      EmptyIsSound();
      hide Sound;
    }

    /** BattleServer::DispatchEncrypted, the server's state given by `look`. */
    method DispatchEncrypted(env: Env, look: Look, p: Packet) returns (reason: string)
      modifies dispatcher
      ensures reason == ServerFault(env, look, old(dispatcher.Contents()), p)
      ensures dispatcher.Contents()
        == if reason == "" then NotedEncrypted(old(dispatcher.Contents()), p.header) else old(dispatcher.Contents())
    {
      hide GateFault, EncryptedFault, NotedEncrypted;
      reason := Gate(look, p);
      if reason == "" {
        reason := dispatcher.DispatchEncrypted(env, p);
      }
    }

    method Gate(look: Look, p: Packet) returns (reason: string)
      ensures reason == GateFault(look, p)
    {
      hide IsHex, SupportedAead;
      var h := p.header;
      if p.ciphertext == "" {
        return "ciphertext_missing";
      }
      if |p.authTag| != TAG_BYTES {
        return "auth_tag_invalid";
      }
      if h.payloadType == Result {
        return "client_result_forbidden";
      }
      if !FromClient(h.payloadType) {
        return "encrypted_payload_type_invalid";
      }
      if h.matchId == "" || h.playerId == "" {
        return "identity_missing";
      }
      if look.closed != "" {
        return look.closed;
      }
      if look.settled {
        return "match_settled";
      }
      reason := ValidateEncryptedSession(look.session, h);
      if reason == "" {
        reason := CheckWindow(look, h);
      }
    }

    method ValidateEncryptedSession(session: Option<SessionKeys>, h: Header) returns (reason: string)
      ensures reason == SessionFault(session, h)
    {
      hide IsHex, SupportedAead;
      if session.None? {
        return "player_unknown";
      }
      var s := session.value;
      if !s.accepted {
        return "handshake_required";
      }
      if |s.transcriptHash| != 32 || !IsHex(s.transcriptHash) {
        return "handshake_transcript_missing";
      }
      if !SupportedAead(s.aead) {
        return "session_aead_missing";
      }
      if s.keyId == "" || s.serverKeyId == "" {
        return "session_key_missing";
      }
      if s.keyId == s.serverKeyId {
        return "session_direction_key_reuse";
      }
      if h.keyId != s.keyId {
        return "session_key_mismatch";
      }
      return "";
    }

    method CheckWindow(look: Look, h: Header) returns (reason: string)
      ensures reason == WindowFault(look, h)
    {
      var bound := h.payloadType == Input || h.payloadType == ModeAction;
      if (bound || h.payloadType == Ping) && h.ack > look.tick {
        return "encrypted_ack_ahead";
      }
      if bound {
        if !look.connected {
          return "encrypted_player_disconnected";
        }
        if h.tick <= look.tick {
          return "encrypted_tick_too_old";
        }
        if h.tick - look.tick > look.ahead {
          return "encrypted_tick_too_far_ahead";
        }
      }
      if h.payloadType == Reconnect {
        if look.connected {
          return "encrypted_reconnect_player_connected";
        }
        if h.ack > look.events {
          return "encrypted_event_cursor_ahead";
        }
      }
      return "";
    }

    method CheckRemote(look: Look, h: Header, endpoint: string) returns (reason: string)
      ensures reason == RemoteFault(remoteEndpointBySession, look, h, endpoint)
    {
      var rebindAllowed := h.payloadType == Reconnect;
      var key := RemoteKey(h);
      var elsewhere := key != "" && key in remoteEndpointBySession && remoteEndpointBySession[key] != endpoint;
      if !rebindAllowed && (h.payloadType == Input || h.payloadType == ModeAction || h.payloadType == Ping) && elsewhere {
        return "remote_endpoint_mismatch";
      }
      if rebindAllowed && elsewhere && look.connected {
        return "remote_rebind_player_connected";
      }
      return "";
    }

    method ProcessEncryptedDatagram(env: Env, look: Look, p: Packet, d: Datagram) returns (reason: string)
      requires Valid() && Registered(Arrival(Arrives(p, d), look))
      modifies this, dispatcher
      ensures Valid() && reason == DatagramFault(env, old(Contents()), look, p, d)
      ensures Contents() == Process(env, old(Contents()), look, p, d)
    {
      ghost var e := Contents();
      ApplySound(env, e, Arrival(Arrives(p, d), look));
      hide Sound, RemoteFault, ServerFault, NotedEncrypted, Registered, RemoteKey, Let;
      if d.endpoint == "" || d.payload == "" {
        Reject(true, false);
        return if d.endpoint == "" then "remote_endpoint_missing" else "datagram_payload_missing";
      }
      reason := CheckRemote(look, p.header, d.endpoint);
      if reason != "" {
        Reject(false, true);
        return;
      }
      reason := DispatchEncrypted(env, look, p);
      if reason != "" {
        Reject(false, false);
      } else {
        Accept(p.header, d.endpoint, e.tables);
      }
    }

    method Reject(malformed: bool, mismatch: bool)
      modifies this`stats
      ensures stats == old(stats).(rejected := old(stats).rejected + 1,
        malformed := old(stats).malformed + (if malformed then 1 else 0),
        mismatches := old(stats).mismatches + (if mismatch then 1 else 0))
    {
      stats := stats.(rejected := stats.rejected + 1);
      if malformed {
        stats := stats.(malformed := stats.malformed + 1);
      }
      if mismatch {
        stats := stats.(mismatches := stats.mismatches + 1);
      }
    }

    /** What follows an accepted dispatch, which took the dispatcher's tables from `before`. */
    method Accept(h: Header, endpoint: string, ghost before: Tables)
      requires dispatcher.Contents() == NotedEncrypted(before, h)
      modifies this
      ensures Contents() == Let(old(Contents()).(tables := before), h, endpoint)
    {
      hide NotedEncrypted, RemoteKey;
      Bind(h, endpoint);
      stats := stats.(accepted := stats.accepted + 1);
      log := log + [Passed(h, true, Some(endpoint))];
    }

    method Bind(h: Header, endpoint: string)
      modifies this
      ensures remoteEndpointBySession == Bound(old(Contents()), h, endpoint) && log == old(log)
      ensures stats == old(stats).(rebinds := old(stats).rebinds + (if Rebinds(old(Contents()), h, endpoint) then 1 else 0))
    {
      var key := RemoteKey(h);
      hide RemoteKey;
      if key != "" {
        if key in remoteEndpointBySession && remoteEndpointBySession[key] != endpoint && h.payloadType == Reconnect {
          stats := stats.(rebinds := stats.rebinds + 1);
        }
        remoteEndpointBySession := remoteEndpointBySession[key := endpoint];
      }
    }
  }
}
