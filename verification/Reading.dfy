// What the readers accept: exactly what the writers write, except that any byte but zero passes for a
// true flag.
module Reading {
  import opened Basics
  import opened Wire
  import opened WireTheorems

  /** `s` is what was written as `b`, and then `rest`. */
  ghost predicate ReadsAs(s: Bytes, b: Option<Bytes>, rest: Bytes) {
    b.Some? && s == b.value + rest
  }

  /** The same, but that at the offsets `flags` a larger byte can stand for a one. */
  ghost predicate ReadsButFlags(s: Bytes, b: Option<Bytes>, rest: Bytes, flags: set<nat>) {
    && b.Some? && |s| == |b.value| + |rest| && s[|b.value|..] == rest
    && forall k: nat :: k < |b.value| ==> s[k] == b.value[k] || (k in flags && b.value[k] == 1 && s[k] > 1)
  }

  lemma Then(s: Bytes, a: Bytes, s1: Bytes, b: Option<Bytes>, rest: Bytes)
    requires ReadsAs(s, Some(a), s1) && ReadsAs(s1, b, rest)
    ensures ReadsAs(s, Both(Some(a), b), rest)
  {
    Regroup(a, b.value, rest);
  }

  lemma NoFlags(s: Bytes, b: Option<Bytes>, rest: Bytes)
    requires ReadsAs(s, b, rest)
    ensures ReadsButFlags(s, b, rest, {})
  {
    assert s[|b.value|..] == rest;
  }

  /** What stands behind something else has its flags so much later. */
  lemma ThenFlags(s: Bytes, a: Bytes, s1: Bytes, b: Option<Bytes>, rest: Bytes, early: set<nat>, late: set<nat>,
                  all: set<nat>)
    requires ReadsButFlags(s, Some(a), s1, early) && ReadsButFlags(s1, b, rest, late)
    requires (forall k <- early :: k in all) && forall k <- late :: |a| + k in all
    ensures ReadsButFlags(s, Both(Some(a), b), rest, all)
  {
    var n, both := |a|, a + b.value;
    assert both[n..] == b.value && s[n..] == s1;
    forall k: nat | k < |both| ensures s[k] == both[k] || (k in all && both[k] == 1 && s[k] > 1) {
      if k >= n {
        assert s1[k - n] == s[k] && b.value[k - n] == both[k];
        assert k - n in late ==> n + (k - n) in all;
      }
    }
  }

  // ---------------------------------------------------------------------------
  // Numbers and buffers.

  lemma ReadTag(s: Bytes, tag: Byte, b: Option<Bytes>, rest: Bytes)
    requires s != [] && s[0] == tag && ReadsAs(s[1..], b, rest)
    ensures ReadsAs(s, Tagged(tag, b), rest)
  {
    assert s == [tag] + s[1..];
    Then(s, [tag], s[1..], b, rest);
  }

  lemma Read16(s: Bytes)
    requires GetU16(s).Got?
    ensures GetU16(s).value < 0x1_0000 && ReadsAs(s, Some(U16(GetU16(s).value)), GetU16(s).rest)
  {
    assert s == U16(GetU16(s).value) + s[2..];
  }

  lemma Read32(s: Bytes)
    requires GetU32(s).Got?
    ensures GetU32(s).value < 0x1_0000_0000 && ReadsAs(s, Some(U32(GetU32(s).value)), GetU32(s).rest)
  {
    hide U16, GetU16, ReadsAs;
    var lo := GetU16(s);
    var hi := GetU16(lo.rest);
    Read16(s);
    Read16(lo.rest);
    Then(s, U16(lo.value), lo.rest, Some(U16(hi.value)), hi.rest);
    assert (lo.value + 0x1_0000 * hi.value) % 0x1_0000 == lo.value;
  }

  lemma ReadN(s: Bytes, n: nat)
    requires GetN(s, n).Got?
    ensures |GetN(s, n).value| == n && ReadsAs(s, Some(GetN(s, n).value), GetN(s, n).rest)
  {
    assert s == s[..n] + s[n..];
  }

  lemma ReadBool(s: Bytes)
    requires GetBool(s).Got?
    ensures ReadsButFlags(s, Some(Bool(GetBool(s).value)), GetBool(s).rest, {0})
  {}

  lemma ReadBuffer(s: Bytes)
    requires GetBuffer(s).Got?
    ensures ReadsAs(s, BufferBytes(GetBuffer(s).value), GetBuffer(s).rest)
  {
    hide U16, GetU16, GetN, ReadsAs;
    var n := GetU16(s);
    Read16(s);
    ReadN(n.rest, n.value);
    Then(s, U16(n.value), n.rest, Some(GetBuffer(s).value), GetBuffer(s).rest);
  }

  lemma ReadPayload(s: Bytes)
    requires GetPayload(s).Got?
    ensures ReadsAs(s, PayloadBytes(GetPayload(s).value.0, GetPayload(s).value.1), GetPayload(s).rest)
  {
    hide U16, GetU16, GetBuffer, BufferBytes, ReadsAs;
    var len := GetU16(s);
    Read16(s);
    ReadBuffer(len.rest);
    Then(s, U16(len.value), len.rest, BufferBytes(GetPayload(s).value.1), GetPayload(s).rest);
  }

  lemma ReadText(s: Bytes)
    requires GetText(s).Got?
    ensures ReadsAs(s, Text(GetText(s).value), GetText(s).rest)
  {
    hide U32, GetU32, GetN, ReadsAs;
    var n := GetU32(s);
    Read32(s);
    ReadN(n.rest, n.value);
    Then(s, U32(n.value), n.rest, Some(GetText(s).value), GetText(s).rest);
  }

  /** An error behind its tag. */
  lemma ReadError(s: Bytes)
    requires s != [] && s[0] == ERROR && GetError(s[1..]).Got?
    ensures var r := GetError(s[1..]); ReadsAs(s, ErrorBytes(r.value.0, r.value.1), r.rest)
  {
    hide U16, GetU16, Text, GetText, ReadsAs;
    var code := GetU16(s[1..]);
    var text := GetText(code.rest);
    Read16(s[1..]);
    ReadText(code.rest);
    Then(s[1..], U16(code.value), code.rest, Text(text.value), text.rest);
    ReadTag(s, ERROR, Both(Some(U16(code.value)), Text(text.value)), text.rest);
  }

  // ---------------------------------------------------------------------------
  // Packets.

  lemma ReadHandshake(s: Bytes)
    requires GetHandshake(s).Got?
    ensures ReadsAs(s, HandshakeBytes(GetHandshake(s).value), GetHandshake(s).rest)
  {
    hide GetPayload, PayloadBytes, ReadsAs;
    var r := GetPayload(s[1..]);
    ReadPayload(s[1..]);
    ReadTag(s, s[0], PayloadBytes(r.value.0, r.value.1), r.rest);
  }

  lemma ReadTransparent(s: Bytes)
    requires GetTransparent(s).Got?
    ensures ReadsAs(s, TransparentBytes(GetTransparent(s).value), GetTransparent(s).rest)
  {
    hide GetError, ErrorBytes, GetHandshake, HandshakeBytes, GetBuffer, BufferBytes, ReadsAs;
    var r := GetTransparent(s);
    if s[0] == ERROR {
      ReadError(s);
    } else if s[0] == HANDSHAKE_SERVER {
      ReadHandshake(s[1..]);
      ReadTag(s, s[0], HandshakeBytes(r.value.handshake), r.rest);
    } else {
      var key := GetBuffer(s[1..]);
      ReadBuffer(s[1..]);
      ReadHandshake(key.rest);
      ReadThenTagged(s, BufferBytes(key.value), key.rest, HandshakeBytes(r.value.handshake), r.rest);
    }
  }

  lemma ReadThenTagged(s: Bytes, a: Option<Bytes>, s1: Bytes, b: Option<Bytes>, rest: Bytes)
    requires s != [] && ReadsAs(s[1..], a, s1) && ReadsAs(s1, b, rest)
    ensures ReadsAs(s, Tagged(s[0], Both(a, b)), rest)
  {
    assert a.Some?;
    hide ReadsAs;
    Then(s[1..], a.value, s1, b, rest);
    ReadTag(s, s[0], Both(a, b), rest);
  }

  lemma {:induction false} ReadChunks(s: Bytes, n: nat)
    requires GetChunks(s, n).Got?
    ensures ReadsAs(s, ChunksBytes(GetChunks(s, n).value), GetChunks(s, n).rest)
  {
    if n == 0 {
      assert [] + s == s;
    } else {
      var first := GetPayload(s);
      ReadPayload(s);
      ReadChunks(first.rest, n - 1);
      var all := GetChunks(s, n).value;
      assert all[1..] == GetChunks(first.rest, n - 1).value;
      Then(s, PayloadBytes(first.value.0, first.value.1).value, first.rest, ChunksBytes(all[1..]),
           GetChunks(s, n).rest);
    }
  }

  lemma ReadEnvelope(s: Bytes)
    requires GetEnvelope(s).Got?
    ensures ReadsButFlags(s, EnvelopeBytes(GetEnvelope(s).value), GetEnvelope(s).rest, {1})
  {
    hide GetBool, Bool, GetU32, U32, GetChunks, ChunksBytes, ReadsAs, ReadsButFlags;
    var flag := GetBool(s[1..]);
    var n := GetU32(flag.rest);
    var r := GetChunks(n.rest, n.value);
    ReadBool(s[1..]);
    Read32(flag.rest);
    ReadChunks(n.rest, n.value);
    ChunksRead(n.rest, n.value);
    var counted := Both(Some(U32(n.value)), ChunksBytes(r.value));
    Then(flag.rest, U32(n.value), n.rest, ChunksBytes(r.value), r.rest);
    NoFlags(flag.rest, counted, r.rest);
    ThenFlags(s[1..], Bool(flag.value), flag.rest, counted, r.rest, {0}, {}, {0});
    TagThenFlags(s, Both(Some(Bool(flag.value)), counted), r.rest, {0}, {1});
  }

  lemma TagThenFlags(s: Bytes, b: Option<Bytes>, rest: Bytes, flags: set<nat>, all: set<nat>)
    requires s != [] && ReadsButFlags(s[1..], b, rest, flags) && forall k <- flags :: 1 + k in all
    ensures ReadsButFlags(s, Tagged(s[0], b), rest, all)
  {
    hide ReadsButFlags;
    assert s == [s[0]] + s[1..];
    NoFlags(s, Some([s[0]]), s[1..]);
    ThenFlags(s, [s[0]], s[1..], b, rest, {}, flags, all);
  }

  lemma ReadSessionId(s: Bytes)
    requires GetSessionId(s).Got?
    ensures ReadsButFlags(s, Some(SessionIdBytes(GetSessionId(s).value)), GetSessionId(s).rest, {0})
  {
    hide GetN, ReadsButFlags, ReadsAs;
    ReadBool(s);
    if GetBool(s).value {
      var id := GetN(s[1..], 16);
      ReadN(s[1..], 16);
      NoFlags(s[1..], Some(id.value), id.rest);
      ThenFlags(s, Bool(true), s[1..], Some(id.value), id.rest, {0}, {}, {0});
    }
  }

  /** Where the flags of an opaque message stand: whether a session is named, and whether it is a broadcast. */
  function OpaqueFlags(o: OpaqueMessage): set<nat> {
    match o
    case NoOpaque => {}
    case ServerEnvelope(_) => {2}
    case PeerMessage(key, None, _) => {3 + |key|, 5 + |key|}
    case PeerMessage(key, Some(_), _) => {3 + |key|, 21 + |key|}
  }

  lemma ReadOpaque(s: Bytes)
    requires GetOpaque(s).Got?
    ensures ReadsButFlags(s, OpaqueBytes(GetOpaque(s).value), GetOpaque(s).rest, OpaqueFlags(GetOpaque(s).value))
  {
    hide GetEnvelope, EnvelopeBytes, GetBuffer, GetSessionId, SessionIdBytes, ReadsButFlags, ReadsAs;
    var r := GetOpaque(s);
    if s[0] == OPAQUE_SERVER {
      ReadEnvelope(s[1..]);
      TagThenFlags(s, EnvelopeBytes(r.value.envelope), r.rest, {1}, {2});
    } else {
      ReadPeerMessage(s[1..]);
      var key, id := r.value.key, r.value.sessionId;
      var n := |key| + if id.None? then 4 else 20;
      TagThenFlags(s, Both(BufferBytes(key), Both(Some(SessionIdBytes(id)), EnvelopeBytes(r.value.envelope))), r.rest,
                   {2 + |key|, n}, OpaqueFlags(r.value));
    }
  }

  /** Behind the tag: the key, perhaps a session, and the envelope. */
  lemma ReadPeerMessage(s: Bytes)
    requires GetBuffer(s).Got? && GetSessionId(GetBuffer(s).rest).Got?
    requires GetEnvelope(GetSessionId(GetBuffer(s).rest).rest).Got?
    ensures var key := GetBuffer(s);
            var id := GetSessionId(key.rest);
            var e := GetEnvelope(id.rest);
            ReadsButFlags(s, Both(BufferBytes(key.value),
                                  Both(Some(SessionIdBytes(id.value)), EnvelopeBytes(e.value))), e.rest,
                          {2 + |key.value|, |key.value| + if id.value.None? then 4 else 20})
  {
    hide GetEnvelope, EnvelopeBytes, GetBuffer, GetSessionId, ReadsButFlags;
    var key := GetBuffer(s);
    var id := GetSessionId(key.rest);
    var e := GetEnvelope(id.rest);
    ReadBuffer(s);
    ReadSessionId(key.rest);
    ReadEnvelope(id.rest);
    var n := if id.value.None? then 1 else 17;
    assert |SessionIdBytes(id.value)| == n && |BufferBytes(key.value).value| == 2 + |key.value|;
    ThenFlags(key.rest, SessionIdBytes(id.value), id.rest, EnvelopeBytes(e.value), e.rest, {0}, {1}, {0, n + 1});
    hide ReadsAs, SessionIdBytes, BufferBytes;
    NoFlags(s, BufferBytes(key.value), key.rest);
    ThenFlags(s, BufferBytes(key.value).value, key.rest, Both(Some(SessionIdBytes(id.value)), EnvelopeBytes(e.value)),
              e.rest,
              {}, {0, n + 1}, {2 + |key.value|, 3 + |key.value| + n});
  }

  lemma ReadPreamble(s: Bytes)
    requires GetPreamble(s).Got?
    ensures ReadsAs(s, Some(Preamble()), GetPreamble(s).rest)
  {
    hide GetN, GetU16, U16, ReadsAs;
    var identity := GetN(s, 4);
    ReadN(s, 4);
    Read16(identity.rest);
    Then(s, IDENTITY, identity.rest, Some(U16(VERSION)), GetPreamble(s).rest);
  }

  function PacketFlags(p: Packet): set<nat> {
    if p.OpaquePacket? then set k <- OpaqueFlags(p.opaqueMessage) :: 7 + k else {}
  }

  /**
   * Whatever is read as a packet is its encoding and what was left behind. Only the two flags, for a named
   * session and for a broadcast, can have been other bytes: anything but zero passes for true.
   */
  lemma PacketsReadAsWritten(s: Bytes)
    requires GetPacket(s).Got?
    ensures ReadsButFlags(s, PacketBytes(GetPacket(s).value), GetPacket(s).rest, PacketFlags(GetPacket(s).value))
  {
    hide GetPreamble, Preamble, GetTransparent, TransparentBytes, GetOpaque, OpaqueBytes, OpaqueFlags, ReadsAs,
         ReadsButFlags;
    var r := GetPacket(s);
    var s1 := GetPreamble(s).rest;
    ReadPreamble(s);
    NoFlags(s, Some(Preamble()), s1);
    var body := if r.value.TransparentPacket? then TransparentBytes(r.value.transparent)
                else OpaqueBytes(r.value.opaqueMessage);
    var flags := if r.value.OpaquePacket? then OpaqueFlags(r.value.opaqueMessage) else {};
    if r.value.TransparentPacket? {
      ReadTransparent(s1[1..]);
      NoFlags(s1[1..], body, r.rest);
    } else {
      ReadOpaque(s1[1..]);
    }
    var tagged := set k <- flags :: 1 + k;
    TagThenFlags(s1, body, r.rest, flags, tagged);
    PreambleSize();
    ThenFlags(s, Preamble(), s1, Tagged(s1[0], body), r.rest, {}, tagged, PacketFlags(r.value));
  }

  lemma PreambleSize()
    ensures |Preamble()| == 6
  {}

  // ---------------------------------------------------------------------------
  // Server messages.

  lemma {:induction false} ReadKeys(s: Bytes, n: nat)
    requires GetKeys(s, n).Got?
    ensures ReadsAs(s, KeysBytes(GetKeys(s, n).value), GetKeys(s, n).rest)
    decreases n
  {
    hide GetBuffer;
    if n == 0 {
      assert [] + s == s;
    } else {
      var first := GetBuffer(s);
      ReadBuffer(s);
      ReadKeys(first.rest, n - 1);
      var all := GetKeys(s, n).value;
      assert all[1..] == GetKeys(first.rest, n - 1).value;
      Then(s, BufferBytes(first.value).value, first.rest, KeysBytes(all[1..]), GetKeys(s, n).rest);
    }
  }

  lemma ReadKeyList(s: Bytes)
    requires GetKeyList(s).Got?
    ensures ReadsAs(s, KeyListBytes(GetKeyList(s).value), GetKeyList(s).rest)
  {
    hide U16, GetU16, GetKeys, KeysBytes, ReadsAs;
    var n := GetU16(s);
    Read16(s);
    ReadKeys(n.rest, n.value);
    KeysRead(n.rest, n.value);
    Then(s, U16(n.value), n.rest, KeysBytes(GetKeyList(s).value), GetKeyList(s).rest);
  }

  lemma ReadListed(s: Bytes)
    requires GetListed(s).Got?
    ensures ReadsAs(s, ListedBytes(GetListed(s).value.0, GetListed(s).value.1), GetListed(s).rest)
  {
    hide GetN, GetKeyList, KeyListBytes, ReadsAs;
    var id := GetN(s, 16);
    ReadN(s, 16);
    ReadKeyList(id.rest);
    Then(s, id.value, id.rest, KeyListBytes(GetListed(s).value.1), GetListed(s).rest);
  }

  /** Slots may be repeated; then they are fewer than their count said. */
  lemma {:induction false} ReadSlots(s: Bytes, n: nat) returns (order: seq<UserId>)
    requires GetSlots(s, n).Got?
    ensures |order| == n && Members(order) == GetSlots(s, n).value
    ensures ReadsAs(s, Some(SlotsBytes(order)), GetSlots(s, n).rest)
    decreases n
  {
    if n == 0 {
      order := [];
      assert [] + s == s;
      assert Members(order) == {};
    } else {
      hide GetN, ReadsAs, Members;
      var first := GetN(s, 32);
      ReadN(s, 32);
      var u: UserId := first.value;
      var rest := ReadSlots(first.rest, n - 1);
      order := [u] + rest;
      assert order[1..] == rest;
      MembersStep(order);
      Then(s, u, first.rest, Some(SlotsBytes(rest)), GetSlots(s, n).rest);
    }
  }

  lemma ReadNewMeeting(s: Bytes) returns (order: seq<UserId>)
    requires GetNewMeeting(s).Got?
    ensures GetNewMeeting(s).value == NewMeeting(GetNewMeeting(s).value.ownerId, Members(order))
    ensures ReadsAs(s, Some(GetNewMeeting(s).value.ownerId + (U32(|order| % 0x1_0000_0000) + SlotsBytes(order))),
                    GetNewMeeting(s).rest)
  {
    hide GetN, GetU32, U32, GetSlots, SlotsBytes, ReadsAs;
    var ownerId := GetN(s, 32);
    var n := GetU32(ownerId.rest);
    ReadN(s, 32);
    Read32(ownerId.rest);
    order := ReadSlots(n.rest, n.value);
    Then(ownerId.rest, U32(n.value), n.rest, Some(SlotsBytes(order)), GetNewMeeting(s).rest);
    Then(s, ownerId.value, ownerId.rest, Some(U32(n.value) + SlotsBytes(order)), GetNewMeeting(s).rest);
  }

  lemma ReadJoinMeeting(s: Bytes)
    requires GetJoinMeeting(s).Got?
    ensures GetJoinMeeting(s).value.JoinMeeting?
    ensures var m := GetJoinMeeting(s).value; ReadsAs(s, Some(m.meetingId + m.userId), GetJoinMeeting(s).rest)
  {
    hide GetN, ReadsAs;
    var id := GetN(s, 16);
    ReadN(s, 16);
    ReadN(id.rest, 32);
    Then(s, id.value, id.rest, Some(GetJoinMeeting(s).value.userId), GetJoinMeeting(s).rest);
  }

  lemma ReadConnection(s: Bytes)
    requires GetSessionConnection(s).Got?
    ensures GetSessionConnection(s).value.SessionConnection?
    ensures var m := GetSessionConnection(s).value;
            ReadsAs(s, Both(Some(m.sessionId), BufferBytes(m.peerKey)), GetSessionConnection(s).rest)
  {
    hide GetN, GetBuffer, BufferBytes, ReadsAs;
    var id := GetN(s, 16);
    ReadN(s, 16);
    ReadBuffer(id.rest);
    Then(s, id.value, id.rest, BufferBytes(GetSessionConnection(s).value.peerKey), GetSessionConnection(s).rest);
  }

  /** Whatever is read as a server message is its encoding, for some order of its slots, and what was left behind. */
  lemma MessagesReadAsWritten(s: Bytes) returns (order: seq<UserId>)
    requires GetMessage(s).Got?
    ensures ReadsAs(s, MessageBytes(GetMessage(s).value, order), GetMessage(s).rest)
    ensures GetMessage(s).value.NewMeeting? ==> GetMessage(s).value.slots == Members(order)
  {
    hide GetError, ErrorBytes, GetN, GetListed, ListedBytes, GetKeyList, KeyListBytes, GetNewMeeting, GetJoinMeeting,
         GetSessionConnection, BufferBytes, SlotsBytes, U32, ReadsAs, Members;
    var m, rest, tag, s1 := GetMessage(s).value, GetMessage(s).rest, s[0], s[1..];
    order := [];
    if tag == ERROR {
      ReadError(s);
    } else if tag == MEETING_NEW {
      order := ReadNewMeeting(s1);
      ReadTag(s, tag, Some(m.ownerId + (U32(|order| % 0x1_0000_0000) + SlotsBytes(order))), rest);
    } else if tag == MEETING_JOIN {
      ReadJoinMeeting(s1);
      ReadTag(s, tag, Some(GetJoinMeeting(s1).value.meetingId + GetJoinMeeting(s1).value.userId), rest);
    } else if tag == SESSION_NEW {
      ReadKeyList(s1);
      ReadTag(s, tag, KeyListBytes(GetKeyList(s1).value), rest);
    } else if tag == SESSION_CONNECTION {
      ReadConnection(s1);
      var c := GetSessionConnection(s1).value;
      ReadTag(s, tag, Both(Some(c.sessionId), BufferBytes(c.peerKey)), rest);
    } else if tag == SESSION_TIMEOUT || tag == SESSION_CLOSE || tag == SESSION_FINISHED {
      ReadN(s1, 16);
      ReadTag(s, tag, Some(GetN(s1, 16).value), rest);
    } else {
      ReadListed(s1);
      ReadTag(s, tag, ListedBytes(GetListed(s1).value.0, GetListed(s1).value.1), rest);
    }
  }
}
