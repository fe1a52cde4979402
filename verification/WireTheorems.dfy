// What the encoding promises: decoding an encoded message gives the message back and leaves whatever
// followed it untouched, exactly when the message fits the widths of its length fields.
module WireTheorems {
  import opened Basics
  import opened Wire

  // ---------------------------------------------------------------------------
  // What fits.

  predicate KeysFit(keys: seq<Key>) {
    |keys| < 0x1_0000 && forall key <- keys :: |key| <= MAX_BUFFER_SIZE
  }

  predicate HandshakeFits(h: HandshakeMessage) {
    !h.NoHandshake? && h.len <= MAX_BUFFER_SIZE && |h.buf| <= MAX_BUFFER_SIZE
  }

  predicate TransparentFits(t: TransparentMessage) {
    match t
    case NoTransparent => false
    case TransparentError(_, text) => |text| <= MAX_BUFFER_SIZE
    case ServerHandshake(h) => HandshakeFits(h)
    case PeerHandshake(key, h) => |key| <= MAX_BUFFER_SIZE && HandshakeFits(h)
  }

  predicate ChunkFits(c: Chunk) {
    c.length <= MAX_BUFFER_SIZE && |c.contents| <= MAX_BUFFER_SIZE
  }

  predicate EnvelopeFits(e: SealedEnvelope) {
    !e.encoding.NoEncoding? && |e.chunks| < 0x1_0000_0000 && forall c <- e.chunks :: ChunkFits(c)
  }

  predicate OpaqueFits(o: OpaqueMessage) {
    match o
    case NoOpaque => false
    case ServerEnvelope(e) => EnvelopeFits(e)
    case PeerMessage(key, _, e) => |key| <= MAX_BUFFER_SIZE && EnvelopeFits(e)
  }

  predicate PacketFits(p: Packet) {
    match p
    case NoPacket => false
    case TransparentPacket(t) => TransparentFits(t)
    case OpaquePacket(o) => OpaqueFits(o)
  }

  predicate MessageFits(m: ServerMessage) {
    match m
    case NoMessage => false
    case ErrorMessage(_, text) => |text| <= MAX_BUFFER_SIZE
    case NewMeeting(_, slots) => |slots| < 0x1_0000_0000
    case JoinMeeting(_, _) => true
    case MeetingCreated(m) => KeysFit(m.registered)
    case MeetingReady(m) => KeysFit(m.registered)
    case NewSession(keys) => KeysFit(keys)
    case SessionConnection(_, key) => |key| <= MAX_BUFFER_SIZE
    case SessionCreated(s) => KeysFit(s.participants)
    case SessionReady(s) => KeysFit(s.participants)
    case SessionActive(s) => KeysFit(s.participants)
    case SessionTimeout(_) => true
    case CloseSession(_) => true
    case SessionFinished(_) => true
  }

  /** m was encoded as b, and reading b back off the front of any input gives m. */
  predicate Survives<M(==)>(b: Option<Bytes>, read: Bytes -> Parsed<M>, m: M, rest: Bytes) {
    b.Some? && read(b.value + rest) == Got(m, rest)
  }

  // ---------------------------------------------------------------------------
  // Primitives.

  lemma U16Back(v: nat, rest: Bytes)
    requires v < 0x1_0000
    ensures GetU16(U16(v) + rest) == Got(v, rest)
  {
    assert (U16(v) + rest)[2..] == rest;
  }

  lemma U32Back(v: nat, rest: Bytes)
    requires v < 0x1_0000_0000
    ensures GetU32(U32(v) + rest) == Got(v, rest)
  {
    hide U16, GetU16;
    var lo, hi := v % 0x1_0000, v / 0x1_0000;
    Regroup(U16(lo), U16(hi), rest);
    U16Back(lo, U16(hi) + rest);
    U16Back(hi, rest);
  }

  lemma NBack(b: Bytes, rest: Bytes)
    ensures GetN(b + rest, |b|) == Got(b, rest)
  {
    assert (b + rest)[..|b|] == b && (b + rest)[|b|..] == rest;
  }

  lemma TagBack(tag: Byte, b: Bytes, rest: Bytes)
    ensures GetU8(([tag] + b) + rest) == Got(tag, b + rest)
  {
    var s := ([tag] + b) + rest;
    assert s[1..] == b + rest;
  }

  lemma BoolBack(b: bool, rest: Bytes)
    ensures GetBool(Bool(b) + rest) == Got(b, rest)
  {
    assert (Bool(b) + rest)[1..] == rest;
  }

  lemma TextBack(t: Bytes, rest: Bytes)
    requires |t| < 0x1_0000_0000
    ensures GetText(Text(t).value + rest) == if |t| <= MAX_BUFFER_SIZE then Got(t, rest) else Bad
  {
    hide U32, GetU32, GetN;
    Regroup(U32(|t|), t, rest);
    U32Back(|t|, t + rest);
    NBack(t, rest);
  }

  lemma BufferBack(b: Bytes, rest: Bytes)
    requires |b| <= MAX_BUFFER_SIZE
    ensures GetBuffer(BufferBytes(b).value + rest) == Got(b, rest)
  {
    hide U16, GetU16, GetN;
    Regroup(U16(|b|), b, rest);
    U16Back(|b|, b + rest);
    NBack(b, rest);
  }

  lemma PayloadBack(len: nat, b: Bytes, rest: Bytes)
    requires len <= MAX_BUFFER_SIZE && |b| <= MAX_BUFFER_SIZE
    ensures PayloadBytes(len, b).Some? && GetPayload(PayloadBytes(len, b).value + rest) == Got((len, b), rest)
  {
    hide U16, GetU16, GetBuffer;
    var body := BufferBytes(b).value;
    Regroup(U16(len), body, rest);
    U16Back(len, body + rest);
    BufferBack(b, rest);
  }

  /** An error whose text is longer than readers accept does not come back. */
  lemma ErrorBack(code: StatusCode, text: Bytes, rest: Bytes)
    requires |text| < 0x1_0000_0000
    ensures ErrorBytes(code, text).Some?
    ensures GetU8(ErrorBytes(code, text).value + rest) == Got(ERROR, ErrorBytes(code, text).value[1..] + rest)
    ensures GetError(ErrorBytes(code, text).value[1..] + rest)
            == if |text| <= MAX_BUFFER_SIZE then Got((code, text), rest) else Bad
  {
    hide U16, GetU16, Text, GetText, GetU8;
    assert Text(text).Some? by { TextFits(text); }
    var t := Text(text).value;
    var b := ErrorBytes(code, text).value;
    assert b[1..] == U16(code) + t;
    TagBack(ERROR, U16(code) + t, rest);
    Regroup(U16(code), t, rest);
    U16Back(code, t + rest);
    TextBack(text, rest);
  }

  lemma TextFits(text: Bytes)
    ensures Text(text).Some? <==> |text| < 0x1_0000_0000
  {}

  // ---------------------------------------------------------------------------
  // Transparent messages.

  lemma HandshakeBack(h: HandshakeMessage, rest: Bytes)
    requires HandshakeFits(h)
    ensures Survives(HandshakeBytes(h), GetHandshake, h, rest)
  {
    hide PayloadBytes, GetPayload, GetU8;
    PayloadBack(h.len, h.buf, rest);
    TagBack(if h.Initiator? then HANDSHAKE_INITIATOR else HANDSHAKE_RESPONDER, PayloadBytes(h.len, h.buf).value, rest);
  }

  lemma HandshakeEncodes(h: HandshakeMessage)
    ensures HandshakeBytes(h).Some? <==> HandshakeFits(h)
  {}

  lemma TransparentBack(t: TransparentMessage, rest: Bytes)
    ensures Survives(TransparentBytes(t), GetTransparent, t, rest) <==> TransparentFits(t)
  {
    hide HandshakeBytes, GetHandshake, GetBuffer, GetU8, ErrorBytes, GetError, HandshakeFits;
    match t
    case NoTransparent =>
    case TransparentError(code, text) =>
      TextFits(text);
      ErrorEncodes(code, text);
      if |text| < 0x1_0000_0000 {
        ErrorBack(code, text, rest);
      }
    case ServerHandshake(h) =>
      HandshakeEncodes(h);
      if HandshakeFits(h) {
        HandshakeBack(h, rest);
        TagBack(HANDSHAKE_SERVER, HandshakeBytes(h).value, rest);
      }
    case PeerHandshake(key, h) =>
      HandshakeEncodes(h);
      if HandshakeFits(h) && |key| <= MAX_BUFFER_SIZE {
        HandshakeBack(h, rest);
        var k, b := BufferBytes(key).value, HandshakeBytes(h).value;
        TagBack(HANDSHAKE_PEER, k + b, rest);
        Regroup(k, b, rest);
        BufferBack(key, b + rest);
      }
  }

  lemma ErrorEncodes(code: StatusCode, text: Bytes)
    ensures ErrorBytes(code, text).Some? <==> |text| < 0x1_0000_0000
  {}

  // ---------------------------------------------------------------------------
  // Envelopes and opaque messages.

  lemma {:induction false} ChunksBack(chunks: seq<Chunk>, rest: Bytes)
    requires forall c <- chunks :: ChunkFits(c)
    ensures ChunksBytes(chunks).Some?
    ensures GetChunks(ChunksBytes(chunks).value + rest, |chunks|) == Got(chunks, rest)
  {
    hide PayloadBytes, GetPayload;
    if chunks == [] {
      assert ChunksBytes(chunks).value + rest == rest;
    } else {
      var c, tail := chunks[0], chunks[1..];
      assert ChunkFits(c);
      ChunksBack(tail, rest);
      var p, q := PayloadBytes(c.length, c.contents), ChunksBytes(tail).value;
      PayloadBack(c.length, c.contents, q + rest);
      Regroup(p.value, q, rest);
      assert chunks == [c] + tail;
    }
  }

  lemma {:induction false} ChunksFit(chunks: seq<Chunk>)
    ensures ChunksBytes(chunks).Some? <==> forall c <- chunks :: ChunkFits(c)
  {
    if chunks != [] {
      ChunksFit(chunks[1..]);
      assert chunks == [chunks[0]] + chunks[1..];
      assert PayloadBytes(chunks[0].length, chunks[0].contents).Some? <==> ChunkFits(chunks[0]);
    }
  }

  lemma {:induction false} ChunksRead(s: Bytes, n: nat)
    ensures var r := GetChunks(s, n); r.Got? ==> |r.value| == n && forall c <- r.value :: ChunkFits(c)
  {
    if n > 0 && GetPayload(s).Got? {
      ChunksRead(GetPayload(s).rest, n - 1);
    }
  }

  lemma EnvelopeHeadBack(tag: Byte, broadcast: bool, n: nat, c: Bytes, rest: Bytes)
    requires n < 0x1_0000_0000
    ensures GetU8(([tag] + (Bool(broadcast) + (U32(n) + c))) + rest)
            == Got(tag, (Bool(broadcast) + (U32(n) + c)) + rest)
    ensures GetBool((Bool(broadcast) + (U32(n) + c)) + rest) == Got(broadcast, (U32(n) + c) + rest)
    ensures GetU32((U32(n) + c) + rest) == Got(n, c + rest)
  {
    hide GetU8, U32, GetU32, Bool, GetBool;
    TagBack(tag, Bool(broadcast) + (U32(n) + c), rest);
    Regroup(Bool(broadcast), U32(n) + c, rest);
    BoolBack(broadcast, (U32(n) + c) + rest);
    Regroup(U32(n), c, rest);
    U32Back(n, c + rest);
  }

  /** A message of encoding none does not come back, nor one whose chunk count wraps at 32 bits. */
  lemma EnvelopeBack(e: SealedEnvelope, rest: Bytes)
    ensures Survives(EnvelopeBytes(e), GetEnvelope, e, rest) <==> EnvelopeFits(e)
  {
    hide GetU8, U32, GetU32, Bool, GetBool, ChunkFits, ChunksBytes, GetChunks;
    ChunksFit(e.chunks);
    if ChunksBytes(e.chunks).Some? {
      var n := |e.chunks| % 0x1_0000_0000;
      var c := ChunksBytes(e.chunks).value;
      EnvelopeHeadBack(EncodingTag(e.encoding), e.broadcast, n, c, rest);
      ChunksRead(c + rest, n);
      if n == |e.chunks| {
        ChunksBack(e.chunks, rest);
      }
    }
  }

  lemma SessionIdBack(id: Option<Id>, rest: Bytes)
    ensures GetSessionId(SessionIdBytes(id) + rest) == Got(id, rest)
  {
    hide Bool, GetBool, GetN;
    match id
    case None => BoolBack(false, rest);
    case Some(b) =>
      Regroup(Bool(true), b, rest);
      BoolBack(true, b + rest);
      NBack(b, rest);
  }

  lemma OpaqueBack(o: OpaqueMessage, rest: Bytes)
    ensures Survives(OpaqueBytes(o), GetOpaque, o, rest) <==> OpaqueFits(o)
  {
    hide GetEnvelope, EnvelopeBytes, EnvelopeFits, GetBuffer, GetSessionId, SessionIdBytes, GetU8;
    match o
    case NoOpaque =>
    case ServerEnvelope(e) =>
      EnvelopeBack(e, rest);
      if EnvelopeBytes(e).Some? {
        TagBack(OPAQUE_SERVER, EnvelopeBytes(e).value, rest);
      }
    case PeerMessage(key, id, e) =>
      EnvelopeBack(e, rest);
      if EnvelopeBytes(e).Some? && |key| <= MAX_BUFFER_SIZE {
        var k, i, b := BufferBytes(key).value, SessionIdBytes(id), EnvelopeBytes(e).value;
        TagBack(OPAQUE_PEER, k + (i + b), rest);
        Regroup(k, i + b, rest);
        BufferBack(key, (i + b) + rest);
        Regroup(i, b, rest);
        SessionIdBack(id, b + rest);
      }
  }

  // ---------------------------------------------------------------------------
  // Packets.

  lemma PreambleBack(rest: Bytes)
    ensures GetPreamble(Preamble() + rest) == Got((), rest)
  {
    hide U16, GetU16, GetN;
    Regroup(IDENTITY, U16(VERSION), rest);
    NBack(IDENTITY, U16(VERSION) + rest);
    U16Back(VERSION, rest);
  }

  /**
   * Requests and responses survive the wire, with anything behind them, exactly when they are not
   * empty, their buffers, texts and lengths do not exceed 65535 and their chunk count fits 32 bits.
   */
  lemma PacketRoundTrip(p: Packet, rest: Bytes)
    ensures Survives(PacketBytes(p), GetPacket, p, rest) <==> PacketFits(p)
  {
    hide Preamble, GetPreamble, GetU8, TransparentBytes, GetTransparent, OpaqueBytes, GetOpaque, TransparentFits,
         OpaqueFits;
    match p
    case NoPacket =>
    case TransparentPacket(t) =>
      TransparentBack(t, rest);
      if TransparentBytes(t).Some? {
        FramedBack(TRANSPARENT, TransparentBytes(t).value, rest);
      }
    case OpaquePacket(o) =>
      OpaqueBack(o, rest);
      if OpaqueBytes(o).Some? {
        FramedBack(OPAQUE, OpaqueBytes(o).value, rest);
      }
  }

  lemma FramedBack(tag: Byte, b: Bytes, rest: Bytes)
    ensures GetPreamble((Preamble() + ([tag] + b)) + rest) == Got((), ([tag] + b) + rest)
    ensures GetU8(([tag] + b) + rest) == Got(tag, b + rest)
  {
    hide Preamble, GetPreamble, GetU8;
    Regroup(Preamble(), [tag] + b, rest);
    PreambleBack(([tag] + b) + rest);
    TagBack(tag, b, rest);
  }

  /** No packet's encoding begins another's: two packets on the wire cannot be confused. */
  lemma PacketsArePrefixFree(p: Packet, q: Packet)
    requires PacketFits(p) && PacketFits(q) && PacketBytes(p).Some? && PacketBytes(q).Some?
    requires PacketBytes(p).value <= PacketBytes(q).value
    ensures p == q
  {
    hide PacketBytes, GetPacket, PacketFits;
    var b, c := PacketBytes(p).value, PacketBytes(q).value;
    assert b + c[|b|..] == c + [];
    PacketRoundTrip(p, c[|b|..]);
    PacketRoundTrip(q, []);
  }

  // ---------------------------------------------------------------------------
  // Whatever was decoded can be encoded again.

  lemma BufferRead(s: Bytes)
    ensures GetBuffer(s).Got? ==> |GetBuffer(s).value| <= MAX_BUFFER_SIZE
  {}

  lemma EnvelopeRead(s: Bytes)
    ensures GetEnvelope(s).Got? ==> EnvelopeFits(GetEnvelope(s).value)
  {
    hide GetChunks, ChunkFits;
    if GetEnvelope(s).Got? {
      var s2 := GetBool(GetU8(s).rest).rest;
      ChunksRead(GetU32(s2).rest, GetU32(s2).value);
    }
  }

  lemma TransparentRead(s: Bytes)
    ensures GetTransparent(s).Got? ==> TransparentFits(GetTransparent(s).value)
  {}

  lemma OpaqueRead(s: Bytes)
    ensures GetOpaque(s).Got? ==> OpaqueFits(GetOpaque(s).value)
  {
    hide GetEnvelope, EnvelopeFits, GetSessionId, GetBuffer;
    if s != [] {
      EnvelopeRead(s[1..]);
      BufferRead(s[1..]);
      if GetBuffer(s[1..]).Got? {
        var s2 := GetBuffer(s[1..]).rest;
        if GetSessionId(s2).Got? {
          EnvelopeRead(GetSessionId(s2).rest);
        }
      }
    }
  }

  /** The relaying server relies on this: no packet it managed to read fails to be written again. */
  lemma DecodedPacketsFit(s: Bytes)
    ensures GetPacket(s).Got? ==> PacketFits(GetPacket(s).value)
  {
    hide GetTransparent, GetOpaque, GetPreamble, TransparentFits, OpaqueFits;
    if GetPreamble(s).Got? {
      var s1 := GetPreamble(s).rest;
      if s1 != [] {
        TransparentRead(s1[1..]);
        OpaqueRead(s1[1..]);
      }
    }
  }

  // ---------------------------------------------------------------------------
  // Server messages.

  lemma {:induction false} KeysBack(keys: seq<Key>, rest: Bytes)
    requires forall key <- keys :: |key| <= MAX_BUFFER_SIZE
    ensures KeysBytes(keys).Some?
    ensures GetKeys(KeysBytes(keys).value + rest, |keys|) == Got(keys, rest)
  {
    hide GetBuffer;
    if keys == [] {
      assert KeysBytes(keys).value + rest == rest;
    } else {
      KeysBack(keys[1..], rest);
      var b, q := BufferBytes(keys[0]).value, KeysBytes(keys[1..]).value;
      BufferBack(keys[0], q + rest);
      Regroup(b, q, rest);
      assert keys == [keys[0]] + keys[1..];
    }
  }

  lemma {:induction false} KeysEncode(keys: seq<Key>)
    ensures KeysBytes(keys).Some? <==> forall key <- keys :: |key| <= MAX_BUFFER_SIZE
  {
    if keys != [] {
      KeysEncode(keys[1..]);
      assert keys == [keys[0]] + keys[1..];
    }
  }

  lemma {:induction false} KeysRead(s: Bytes, n: nat)
    ensures var r := GetKeys(s, n); r.Got? ==> |r.value| == n
  {
    if n > 0 && GetBuffer(s).Got? {
      KeysRead(GetBuffer(s).rest, n - 1);
    }
  }

  /** Key lists survive exactly when there are fewer than 0x1_0000 keys, each of at most 65535 bytes. */
  lemma KeyListBack(keys: seq<Key>, rest: Bytes)
    ensures Survives(KeyListBytes(keys), GetKeyList, keys, rest) <==> KeysFit(keys)
  {
    hide U16, GetU16;
    KeysEncode(keys);
    if KeysBytes(keys).Some? {
      var n, b := |keys| % 0x1_0000, KeysBytes(keys).value;
      Regroup(U16(n), b, rest);
      U16Back(n, b + rest);
      KeysRead(b + rest, n);
      if n == |keys| {
        KeysBack(keys, rest);
      }
    }
  }

  lemma ListedBack(id: Id, keys: seq<Key>, rest: Bytes)
    ensures Survives(ListedBytes(id, keys), GetListed, (id, keys), rest) <==> KeysFit(keys)
  {
    hide KeyListBytes, GetKeyList, GetN, KeysFit;
    KeyListBack(keys, rest);
    if KeyListBytes(keys).Some? {
      var b := KeyListBytes(keys).value;
      Regroup(id, b, rest);
      NBack(id, b + rest);
    }
  }

  lemma {:induction false} SlotsBack(order: seq<UserId>, rest: Bytes)
    ensures GetSlots(SlotsBytes(order) + rest, |order|) == Got(Members(order), rest)
  {
    hide GetN;
    if order == [] {
      assert SlotsBytes(order) + rest == rest;
      assert Members(order) == {};
    } else {
      var tail := order[1..];
      SlotsBack(tail, rest);
      Regroup(order[0], SlotsBytes(tail), rest);
      NBack(order[0], SlotsBytes(tail) + rest);
      assert GetN(SlotsBytes(order) + rest, 32) == Got(order[0], SlotsBytes(tail) + rest);
      MembersStep(order);
      assert GetSlots(SlotsBytes(order) + rest, |order|) == Got({order[0]} + Members(tail), rest);
    }
  }

  lemma {:induction false} SlotsRead(s: Bytes, n: nat)
    ensures var r := GetSlots(s, n); r.Got? ==> |r.value| <= n
  {
    if n > 0 && GetN(s, 32).Got? {
      SlotsRead(GetN(s, 32).rest, n - 1);
    }
  }

  lemma NewMeetingBack(ownerId: UserId, order: seq<UserId>, rest: Bytes)
    requires Distinct(order)
    ensures GetNewMeeting(ownerId + (U32(|order| % 0x1_0000_0000) + SlotsBytes(order)) + rest)
            == Got(NewMeeting(ownerId, Members(order)), rest)
            <==> |order| < 0x1_0000_0000
  {
    hide GetN, U32, GetU32, GetSlots, SlotsBytes;
    var n, b := |order| % 0x1_0000_0000, SlotsBytes(order);
    Regroup(ownerId, U32(n) + b, rest);
    NBack(ownerId, (U32(n) + b) + rest);
    Regroup(U32(n), b, rest);
    U32Back(n, b + rest);
    SlotsRead(b + rest, n);
    MembersCount(order);
    if n == |order| {
      SlotsBack(order, rest);
    }
  }

  lemma JoinMeetingBack(meetingId: Id, userId: UserId, rest: Bytes)
    ensures GetJoinMeeting(meetingId + userId + rest) == Got(JoinMeeting(meetingId, userId), rest)
  {
    hide GetN;
    Regroup(meetingId, userId, rest);
    NBack(meetingId, userId + rest);
    NBack(userId, rest);
  }

  lemma SessionConnectionBack(id: Id, key: Key, rest: Bytes)
    requires |key| <= MAX_BUFFER_SIZE
    ensures GetSessionConnection(id + BufferBytes(key).value + rest) == Got(SessionConnection(id, key), rest)
  {
    hide GetN, GetBuffer;
    Regroup(id, BufferBytes(key).value, rest);
    NBack(id, BufferBytes(key).value + rest);
    BufferBack(key, rest);
  }

  lemma ListedMessageBack(m: ServerMessage, tag: Byte, id: Id, keys: seq<Key>, rest: Bytes)
    requires MessageBytes(m, []) == Tagged(tag, ListedBytes(id, keys))
    requires || (m == MeetingCreated(MeetingState(id, keys)) && tag == MEETING_CREATED)
             || (m == MeetingReady(MeetingState(id, keys)) && tag == MEETING_READY)
             || (m == SessionCreated(Sessions.SessionState(id, keys)) && tag == SESSION_CREATED)
             || (m == SessionReady(Sessions.SessionState(id, keys)) && tag == SESSION_READY)
             || (m == SessionActive(Sessions.SessionState(id, keys)) && tag == SESSION_ACTIVE)
    ensures Survives(MessageBytes(m, []), GetMessage, m, rest) <==> KeysFit(keys)
  {
    hide MessageBytes, ListedBytes, GetListed, KeysFit, GetU8, GetNewMeeting, GetJoinMeeting, GetSessionConnection,
         GetKeyList, GetError;
    ListedBack(id, keys, rest);
    if ListedBytes(id, keys).Some? {
      var b := ListedBytes(id, keys).value;
      TagBack(tag, b, rest);
    }
  }

  lemma ErrorMessageBack(code: StatusCode, text: Bytes, rest: Bytes)
    ensures Survives(ErrorBytes(code, text), GetMessage, ErrorMessage(code, text), rest) <==> |text| <= MAX_BUFFER_SIZE
  {
    hide GetU8, GetError, ErrorBytes;
    ErrorEncodes(code, text);
    if |text| < 0x1_0000_0000 {
      ErrorBack(code, text, rest);
    }
  }

  lemma ConnectionMessageBack(id: Id, key: Key, rest: Bytes)
    ensures Survives(MessageBytes(SessionConnection(id, key), []), GetMessage, SessionConnection(id, key), rest) <==>
            |key| <= MAX_BUFFER_SIZE
  {
    hide GetU8, GetSessionConnection;
    if |key| <= MAX_BUFFER_SIZE {
      SessionConnectionBack(id, key, rest);
      TagBack(SESSION_CONNECTION, id + BufferBytes(key).value, rest);
    }
  }

  /**
   * Server messages survive the wire, with anything behind them, exactly when they are not empty, their
   * key lists fit their 16-bit counts and their slots the 32-bit one; for slots, whatever the order the
   * set is iterated in.
   */
  lemma MessageRoundTrip(m: ServerMessage, order: seq<UserId>, rest: Bytes)
    requires SlotOrder(m, order)
    ensures Survives(MessageBytes(m, order), GetMessage, m, rest) <==> MessageFits(m)
  {
    hide GetU8, GetN, ListedBytes, GetListed, KeyListBytes, GetKeyList, KeysFit, GetNewMeeting, GetJoinMeeting,
         GetSessionConnection,
      GetError, ErrorBytes, BufferBytes, SlotsBytes, U32;
    match m
    case NoMessage =>
    case ErrorMessage(code, text) => ErrorMessageBack(code, text, rest);
    case NewMeeting(ownerId, slots) =>
      assert slots == Members(order);
      MembersCount(order);
      NewMeetingBack(ownerId, order, rest);
      TagBack(MEETING_NEW, ownerId + (U32(|order| % 0x1_0000_0000) + SlotsBytes(order)), rest);
    case JoinMeeting(meetingId, userId) =>
      TagBack(MEETING_JOIN, meetingId + userId, rest);
      JoinMeetingBack(meetingId, userId, rest);
    case NewSession(keys) =>
      KeyListBack(keys, rest);
      if KeyListBytes(keys).Some? {
        TagBack(SESSION_NEW, KeyListBytes(keys).value, rest);
      }
    case SessionConnection(id, key) => ConnectionMessageBack(id, key, rest);
    case MeetingCreated(s) => ListedMessageBack(m, MEETING_CREATED, s.id, s.registered, rest);
    case MeetingReady(s) => ListedMessageBack(m, MEETING_READY, s.id, s.registered, rest);
    case SessionCreated(s) => ListedMessageBack(m, SESSION_CREATED, s.id, s.participants, rest);
    case SessionReady(s) => ListedMessageBack(m, SESSION_READY, s.id, s.participants, rest);
    case SessionActive(s) => ListedMessageBack(m, SESSION_ACTIVE, s.id, s.participants, rest);
    case SessionTimeout(id) => TagBack(SESSION_TIMEOUT, id, rest); NBack(id, rest);
    case CloseSession(id) => TagBack(SESSION_CLOSE, id, rest); NBack(id, rest);
    case SessionFinished(id) => TagBack(SESSION_FINISHED, id, rest); NBack(id, rest);
  }
}
