// The encoding in literal bytes: where each field of a message stands, which tag announces it and how its
// numbers are written. Nothing here uses the constants or the primitives of the encoding.
module Layout {
  import opened Basics
  import opened Wire

  // ---------------------------------------------------------------------------
  // Fields.

  /** One byte at an offset. */
  predicate ByteIs(b: Bytes, at: nat, v: nat) {
    at < |b| && b[at] as nat == v
  }

  /** Two bytes, the lower first. */
  predicate Num16(b: Bytes, at: nat, v: nat) {
    at + 2 <= |b| && v == b[at] as nat + 256 * (b[at + 1] as nat)
  }

  /** Four bytes, the lowest first. */
  predicate Num32(b: Bytes, at: nat, v: nat) {
    && at + 4 <= |b|
    && v == b[at] as nat + 256 * (b[at + 1] as nat) + 65536 * (b[at + 2] as nat) + 16777216 * (b[at + 3] as nat)
  }

  predicate Raw(b: Bytes, at: nat, x: Bytes) {
    at + |x| <= |b| && b[at..at + |x|] == x
  }

  /** A buffer behind its 16-bit length. */
  predicate Sized16(b: Bytes, at: nat, x: Bytes) {
    Num16(b, at, |x|) && Raw(b, at + 2, x)
  }

  // ---------------------------------------------------------------------------
  // Packets.

  predicate HandshakeLaid(b: Bytes, h: HandshakeMessage) {
    match h
    case NoHandshake => false
    case Initiator(len, buf) => |b| == 5 + |buf| && ByteIs(b, 0, 1) && Num16(b, 1, len) && Sized16(b, 3, buf)
    case Responder(len, buf) => |b| == 5 + |buf| && ByteIs(b, 0, 2) && Num16(b, 1, len) && Sized16(b, 3, buf)
  }

  predicate ErrorLaid(b: Bytes, code: StatusCode, text: Bytes) {
    |b| == 7 + |text| && ByteIs(b, 0, 255) && Num16(b, 1, code) && Num32(b, 3, |text|) && Raw(b, 7, text)
  }

  predicate TransparentLaid(b: Bytes, t: TransparentMessage) {
    match t
    case NoTransparent => false
    case TransparentError(code, text) => ErrorLaid(b, code, text)
    case ServerHandshake(h) => ByteIs(b, 0, 1) && HandshakeLaid(b[1..], h)
    case PeerHandshake(key, h) => ByteIs(b, 0, 2) && Sized16(b, 1, key) && HandshakeLaid(b[3 + |key|..], h)
  }

  predicate ChunksLaid(b: Bytes, chunks: seq<Chunk>) {
    if chunks == [] then b == []
    else
      var c := chunks[0];
      Num16(b, 0, c.length) && Sized16(b, 2, c.contents) && ChunksLaid(b[4 + |c.contents|..], chunks[1..])
  }

  /** Tag, broadcast flag, chunk count, chunks. */
  predicate EnvelopeLaid(b: Bytes, e: SealedEnvelope) {
    && ByteIs(b, 0, match e.encoding case NoEncoding => 0 case Blob => 1 case Json => 2)
    && ByteIs(b, 1, if e.broadcast then 1 else 0)
    && Num32(b, 2, |e.chunks| % 4294967296)
    && ChunksLaid(b[6..], e.chunks)
  }

  predicate OpaqueLaid(b: Bytes, o: OpaqueMessage) {
    match o
    case NoOpaque => false
    case ServerEnvelope(e) => ByteIs(b, 0, 1) && EnvelopeLaid(b[1..], e)
    case PeerMessage(key, None, e) =>
      ByteIs(b, 0, 2) && Sized16(b, 1, key) && ByteIs(b, 3 + |key|, 0) && EnvelopeLaid(b[4 + |key|..], e)
    case PeerMessage(key, Some(id), e) =>
      && ByteIs(b, 0, 2) && Sized16(b, 1, key)
      && ByteIs(b, 3 + |key|, 1) && Raw(b, 4 + |key|, id) && EnvelopeLaid(b[20 + |key|..], e)
  }

  /** The letters MPCR and the version, then what kind of packet it is. */
  predicate PacketLaid(b: Bytes, p: Packet) {
    && Raw(b, 0, [77, 80, 67, 82, 1, 0])
    && match p
       case NoPacket => false
       case TransparentPacket(t) => ByteIs(b, 6, 128) && TransparentLaid(b[7..], t)
       case OpaquePacket(o) => ByteIs(b, 6, 129) && OpaqueLaid(b[7..], o)
  }

  // ---------------------------------------------------------------------------
  // Server messages.

  predicate KeysLaid(b: Bytes, keys: seq<Key>) {
    if keys == [] then b == [] else Sized16(b, 0, keys[0]) && KeysLaid(b[2 + |keys[0]|..], keys[1..])
  }

  predicate KeyListLaid(b: Bytes, keys: seq<Key>) {
    Num16(b, 0, |keys| % 65536) && KeysLaid(b[2..], keys)
  }

  predicate ListedLaid(b: Bytes, tag: nat, id: Id, keys: seq<Key>) {
    ByteIs(b, 0, tag) && Raw(b, 1, id) && KeyListLaid(b[17..], keys)
  }

  predicate IdLaid(b: Bytes, tag: nat, id: Id) {
    |b| == 17 && ByteIs(b, 0, tag) && Raw(b, 1, id)
  }

  predicate SlotsLaid(b: Bytes, order: seq<UserId>) {
    |b| == 32 * |order| && forall k: nat :: k < |order| ==> Raw(b, 32 * k, order[k])
  }

  predicate MessageLaid(b: Bytes, m: ServerMessage, order: seq<UserId>) {
    match m
    case NoMessage => false
    case ErrorMessage(code, text) => ErrorLaid(b, code, text)
    case NewMeeting(ownerId, _) =>
      ByteIs(b, 0, 1) && Raw(b, 1, ownerId) && Num32(b, 33, |order| % 4294967296) && SlotsLaid(b[37..], order)
    case MeetingCreated(s) => ListedLaid(b, 2, s.id, s.registered)
    case JoinMeeting(meetingId, userId) => |b| == 49 && ByteIs(b, 0, 3) && Raw(b, 1, meetingId) && Raw(b, 17, userId)
    case MeetingReady(s) => ListedLaid(b, 4, s.id, s.registered)
    case NewSession(keys) => ByteIs(b, 0, 5) && KeyListLaid(b[1..], keys)
    case SessionCreated(s) => ListedLaid(b, 6, s.id, s.participants)
    case SessionReady(s) => ListedLaid(b, 7, s.id, s.participants)
    case SessionConnection(id, key) => |b| == 19 + |key| && ByteIs(b, 0, 8) && Raw(b, 1, id) && Sized16(b, 17, key)
    case SessionActive(s) => ListedLaid(b, 9, s.id, s.participants)
    case SessionTimeout(id) => IdLaid(b, 10, id)
    case CloseSession(id) => IdLaid(b, 11, id)
    case SessionFinished(id) => IdLaid(b, 12, id)
  }

  // ---------------------------------------------------------------------------
  // Fields are what the encoding writes.

  lemma Tag(b: Bytes, tag: Byte, c: Bytes)
    ensures b == [tag] + c <==> ByteIs(b, 0, tag as nat) && b[1..] == c
  {
    if b != [] {
      assert b == [b[0]] + b[1..];
    }
  }

  lemma Front16(b: Bytes, v: nat, c: Bytes)
    requires v < 65536
    ensures b == U16(v) + c <==> Num16(b, 0, v) && b[2..] == c
  {
    if b == U16(v) + c {
      assert b[0] == U16(v)[0] && b[1] == U16(v)[1];
    }
    if Num16(b, 0, v) {
      assert b == [b[0], b[1]] + b[2..];
      assert U16(v) == [b[0], b[1]];
    }
  }

  lemma Front32(b: Bytes, v: nat, c: Bytes)
    requires v < 4294967296
    ensures b == U32(v) + c <==> Num32(b, 0, v) && b[4..] == c
  {
    hide U16;
    var lo, hi := v % 65536, v / 65536;
    Regroup(U16(lo), U16(hi), c);
    Front16(b, lo, U16(hi) + c);
    if |b| >= 4 {
      Front16(b[2..], hi, c);
      assert b[2..][2..] == b[4..];
    }
  }

  lemma FrontRaw(b: Bytes, x: Bytes, c: Bytes)
    ensures b == x + c <==> Raw(b, 0, x) && b[|x|..] == c
  {
    if Raw(b, 0, x) {
      assert b == b[..|x|] + b[|x|..];
    }
  }

  lemma FrontSized(b: Bytes, x: Bytes, c: Bytes)
    ensures BufferBytes(x).Some? && b == BufferBytes(x).value + c <==> Sized16(b, 0, x) && b[2 + |x|..] == c
  {
    hide U16;
    if |x| < 65536 {
      Regroup(U16(|x|), x, c);
      Front16(b, |x|, x + c);
      if |b| >= 2 {
        FrontRaw(b[2..], x, c);
        Shifted(b, 2, x);
      }
    }
  }

  /** What stands at an offset stands at the front of the rest. */
  lemma Shifted(b: Bytes, at: nat, x: Bytes)
    requires at <= |b|
    ensures Raw(b, at, x) <==> Raw(b[at..], 0, x)
    ensures Raw(b, at, x) ==> b[at..][|x|..] == b[at + |x|..]
  {
    if at + |x| <= |b| {
      assert b[at..][..|x|] == b[at..at + |x|];
    }
  }

  lemma ShiftedSized(b: Bytes, at: nat, x: Bytes)
    requires at <= |b|
    ensures Sized16(b, at, x) <==> Sized16(b[at..], 0, x)
    ensures Sized16(b, at, x) ==> b[at..][2 + |x|..] == b[at + 2 + |x|..]
  {
    if at + 2 + |x| <= |b| {
      assert b[at..][2..2 + |x|] == b[at + 2..at + 2 + |x|];
    }
  }

  lemma FrontPayload(b: Bytes, len: nat, x: Bytes, c: Bytes)
    ensures PayloadBytes(len, x).Some? && b == PayloadBytes(len, x).value + c
            <==> Num16(b, 0, len) && Sized16(b, 2, x) && b[4 + |x|..] == c
  {
    hide U16, BufferBytes;
    if len < 65536 {
      if BufferBytes(x).Some? {
        Regroup(U16(len), BufferBytes(x).value, c);
        Front16(b, len, BufferBytes(x).value + c);
      }
      if |b| >= 2 {
        FrontSized(b[2..], x, c);
        ShiftedSized(b, 2, x);
      }
    }
  }

  lemma NothingBehind(b: Bytes, n: nat)
    requires n <= |b|
    ensures b[n..] == [] <==> |b| == n
  {}

  lemma HandshakeLayout(b: Bytes, h: HandshakeMessage)
    ensures HandshakeBytes(h) == Some(b) <==> HandshakeLaid(b, h)
  {
    if !h.NoHandshake? {
      hide PayloadBytes, U16, Num16, Raw;
      var tag: Byte := if h.Initiator? then 1 else 2;
      var payload := PayloadBytes(h.len, h.buf);
      if payload.Some? {
        Tag(b, tag, payload.value);
        assert payload.value + [] == payload.value;
      }
      if b != [] {
        FrontPayload(b[1..], h.len, h.buf, []);
        PayloadShifted(b, 1, h.len, h.buf);
        if 5 + |h.buf| <= |b| {
          NothingBehind(b[1..], 4 + |h.buf|);
        }
      }
    }
  }

  lemma PayloadShifted(b: Bytes, at: nat, len: nat, x: Bytes)
    requires at <= |b|
    ensures Num16(b, at, len) <==> Num16(b[at..], 0, len)
    ensures Sized16(b, at + 2, x) <==> Sized16(b[at..], 2, x)
    ensures Sized16(b, at + 2, x) ==> at + 4 + |x| <= |b|
  {
    if at + 2 <= |b| {
      ShiftedSized(b, at + 2, x);
      ShiftedSized(b[at..], 2, x);
      assert b[at..][2..] == b[at + 2..];
    }
  }

  lemma ErrorLayout(b: Bytes, code: StatusCode, text: Bytes)
    ensures ErrorBytes(code, text) == Some(b) <==> ErrorLaid(b, code, text)
  {
    hide U16, U32;
    if |text| < 4294967296 {
      var t := U32(|text|) + text;
      Tag(b, 255, U16(code) + t);
      if |b| >= 7 {
        Front16(b[1..], code, t);
        Front32(b[3..], |text|, text);
        assert b[1..][2..] == b[3..] && b[3..][4..] == b[7..];
        Shifted(b, 7, text);
        FrontRaw(b[7..], text, []);
        assert text + [] == text;
      }
    }
  }

  lemma TransparentLayout(b: Bytes, t: TransparentMessage)
    ensures TransparentBytes(t) == Some(b) <==> TransparentLaid(b, t)
  {
    hide HandshakeBytes, HandshakeLaid, ErrorBytes, ErrorLaid, BufferBytes, Num16;
    match t
    case NoTransparent =>
    case TransparentError(code, text) => ErrorLayout(b, code, text);
    case ServerHandshake(h) =>
      if HandshakeBytes(h).Some? {
        Tag(b, 1, HandshakeBytes(h).value);
      }
      if b != [] {
        HandshakeLayout(b[1..], h);
      }
    case PeerHandshake(key, h) =>
      var rest := HandshakeBytes(h);
      if rest.Some? && BufferBytes(key).Some? {
        Tag(b, 2, BufferBytes(key).value + rest.value);
      }
      if b != [] {
        SizedThen(b, 1, key, if rest.Some? then rest.value else []);
        if 3 + |key| <= |b| {
          HandshakeLayout(b[3 + |key|..], h);
        }
      }
  }

  /** A buffer at an offset and what is behind it. */
  lemma SizedThen(b: Bytes, at: nat, x: Bytes, c: Bytes)
    requires at <= |b|
    ensures BufferBytes(x).Some? && b[at..] == BufferBytes(x).value + c
            <==> Sized16(b, at, x) && b[at + 2 + |x|..] == c
  {
    hide BufferBytes, Num16;
    FrontSized(b[at..], x, c);
    ShiftedSized(b, at, x);
  }

  lemma {:induction false} ChunksLayout(b: Bytes, chunks: seq<Chunk>)
    ensures ChunksBytes(chunks) == Some(b) <==> ChunksLaid(b, chunks)
  {
    if chunks != [] {
      hide PayloadBytes, Num16, Raw;
      var c, rest := chunks[0], ChunksBytes(chunks[1..]);
      FrontPayload(b, c.length, c.contents, if rest.Some? then rest.value else []);
      if 4 + |c.contents| <= |b| {
        ChunksLayout(b[4 + |c.contents|..], chunks[1..]);
      }
    }
  }

  lemma EnvelopeLayout(b: Bytes, e: SealedEnvelope)
    ensures EnvelopeBytes(e) == Some(b) <==> EnvelopeLaid(b, e)
  {
    hide U32, ChunksBytes, ChunksLaid, Num32;
    var n, rest := |e.chunks| % 4294967296, ChunksBytes(e.chunks);
    var chunks := if rest.Some? then rest.value else [];
    Tag(b, EncodingTag(e.encoding), Bool(e.broadcast) + (U32(n) + chunks));
    if |b| >= 2 {
      Tag(b[1..], if e.broadcast then 1 else 0, U32(n) + chunks);
      Front32(b[2..], n, chunks);
      assert b[1..][1..] == b[2..];
      Shifted32(b, 2, n);
      if |b| >= 6 {
        assert b[2..][4..] == b[6..];
        ChunksLayout(b[6..], e.chunks);
      }
    }
  }

  lemma Shifted32(b: Bytes, at: nat, v: nat)
    requires at <= |b|
    ensures Num32(b, at, v) <==> Num32(b[at..], 0, v)
    ensures Num32(b, at, v) ==> at + 4 <= |b|
  {}

  lemma OpaqueLayout(b: Bytes, o: OpaqueMessage)
    ensures OpaqueBytes(o) == Some(b) <==> OpaqueLaid(b, o)
  {
    hide EnvelopeBytes, EnvelopeLaid, BufferBytes, Num16;
    match o
    case NoOpaque =>
    case ServerEnvelope(e) =>
      if EnvelopeBytes(e).Some? {
        Tag(b, 1, EnvelopeBytes(e).value);
      }
      if b != [] {
        EnvelopeLayout(b[1..], e);
      }
    case PeerMessage(key, id, e) =>
      var envelope := if EnvelopeBytes(e).Some? then EnvelopeBytes(e).value else [];
      if EnvelopeBytes(e).Some? && BufferBytes(key).Some? {
        Tag(b, 2, BufferBytes(key).value + (SessionIdBytes(id) + envelope));
      }
      if b != [] {
        SizedThen(b, 1, key, SessionIdBytes(id) + envelope);
        if 3 + |key| <= |b| {
          SessionIdLayout(b, 3 + |key|, id, envelope);
          var at := 3 + |key| + if id.None? then 1 else 17;
          if at <= |b| {
            EnvelopeLayout(b[at..], e);
          }
        }
      }
  }

  lemma SessionIdLayout(b: Bytes, at: nat, id: Option<Id>, c: Bytes)
    requires at <= |b|
    ensures b[at..] == SessionIdBytes(id) + c <==>
            match id
            case None => ByteIs(b, at, 0) && b[at + 1..] == c
            case Some(i) => ByteIs(b, at, 1) && Raw(b, at + 1, i) && b[at + 17..] == c
  {
    match id
    case None => Tag(b[at..], 0, c);
    case Some(i) =>
      Regroup([1], i, c);
      Tag(b[at..], 1, i + c);
      if at < |b| {
        assert b[at..][1..] == b[at + 1..];
        FrontRaw(b[at + 1..], i, c);
        Shifted(b, at + 1, i);
      }
  }

  /** Every packet is written just so, and nothing else is written for it. */
  lemma PacketLayout(b: Bytes, p: Packet)
    ensures PacketBytes(p) == Some(b) <==> PacketLaid(b, p)
  {
    hide TransparentBytes, TransparentLaid, OpaqueBytes, OpaqueLaid;
    if !p.NoPacket? {
      var tag: Byte := if p.TransparentPacket? then 128 else 129;
      var body := if p.TransparentPacket? then TransparentBytes(p.transparent) else OpaqueBytes(p.opaqueMessage);
      PreambleLayout();
      FrontRaw(b, [77, 80, 67, 82, 1, 0], [tag] + if body.Some? then body.value else []);
      if |b| >= 7 {
        Tag(b[6..], tag, if body.Some? then body.value else []);
        assert b[6..][1..] == b[7..];
        if p.TransparentPacket? {
          TransparentLayout(b[7..], p.transparent);
        } else {
          OpaqueLayout(b[7..], p.opaqueMessage);
        }
      }
    }
  }

  lemma PreambleLayout()
    ensures Preamble() == [77, 80, 67, 82, 1, 0]
  {}

  // ---------------------------------------------------------------------------
  // Server messages.

  lemma {:induction false} KeysLayout(b: Bytes, keys: seq<Key>)
    ensures KeysBytes(keys) == Some(b) <==> KeysLaid(b, keys)
  {
    if keys != [] {
      hide BufferBytes, Num16;
      var key, rest := keys[0], KeysBytes(keys[1..]);
      FrontSized(b, key, if rest.Some? then rest.value else []);
      if 2 + |key| <= |b| {
        KeysLayout(b[2 + |key|..], keys[1..]);
      }
    }
  }

  lemma KeyListLayout(b: Bytes, keys: seq<Key>)
    ensures KeyListBytes(keys) == Some(b) <==> KeyListLaid(b, keys)
  {
    hide U16, KeysBytes, KeysLaid;
    var rest := KeysBytes(keys);
    Front16(b, |keys| % 65536, if rest.Some? then rest.value else []);
    if |b| >= 2 {
      KeysLayout(b[2..], keys);
    }
  }

  lemma ListedLayout(b: Bytes, tag: Byte, id: Id, keys: seq<Key>)
    ensures Tagged(tag, ListedBytes(id, keys)) == Some(b) <==> ListedLaid(b, tag as nat, id, keys)
  {
    hide KeyListBytes, KeyListLaid;
    var rest := KeyListBytes(keys);
    var list := if rest.Some? then rest.value else [];
    Tag(b, tag, id + list);
    if |b| >= 17 {
      FrontRaw(b[1..], id, list);
      Shifted(b, 1, id);
      KeyListLayout(b[17..], keys);
    }
  }

  lemma IdLayout(b: Bytes, tag: Byte, id: Id)
    ensures Tagged(tag, Some(id)) == Some(b) <==> IdLaid(b, tag as nat, id)
  {
    Tag(b, tag, id);
    if |b| == 17 {
      FrontRaw(b[1..], id, []);
      Shifted(b, 1, id);
      assert id + [] == id;
    }
  }

  lemma {:induction false} SlotsLayout(b: Bytes, order: seq<UserId>)
    ensures b == SlotsBytes(order) <==> SlotsLaid(b, order)
  {
    if order != [] {
      hide Raw;
      var tail := order[1..];
      FrontRaw(b, order[0], SlotsBytes(tail));
      if |b| >= 32 {
        SlotsLayout(b[32..], tail);
        FirstSlot(b, order);
      }
    }
  }

  lemma FirstSlot(b: Bytes, order: seq<UserId>)
    requires |b| >= 32 && order != []
    ensures SlotsLaid(b, order) <==> Raw(b, 0, order[0]) && SlotsLaid(b[32..], order[1..])
  {
    hide Raw;
    var tail := order[1..];
    forall k: nat | k < |tail| ensures Raw(b[32..], 32 * k, tail[k]) <==> Raw(b, 32 * (k + 1), order[k + 1]) {
      ShiftedSlot(b, 32, 32 * k, tail[k]);
    }
    if Raw(b, 0, order[0]) && SlotsLaid(b[32..], tail) {
      forall k: nat | k < |order| ensures Raw(b, 32 * k, order[k]) {
        if k > 0 {
          assert Raw(b[32..], 32 * (k - 1), tail[k - 1]);
        }
      }
    }
    if SlotsLaid(b, order) {
      assert Raw(b, 32 * 0, order[0]);
      forall k: nat | k < |tail| ensures Raw(b[32..], 32 * k, tail[k]) {
        assert Raw(b, 32 * (k + 1), order[k + 1]);
      }
    }
  }

  lemma ShiftedSlot(b: Bytes, n: nat, at: nat, x: Bytes)
    requires n <= |b|
    ensures Raw(b[n..], at, x) <==> Raw(b, n + at, x)
  {
    if n + at + |x| <= |b| {
      assert b[n..][at..at + |x|] == b[n + at..n + at + |x|];
    }
  }

  lemma NewMeetingLayout(b: Bytes, ownerId: UserId, order: seq<UserId>)
    ensures b == [1] + (ownerId + (U32(|order| % 4294967296) + SlotsBytes(order)))
            <==>
            ByteIs(b, 0, 1) && Raw(b, 1, ownerId) && Num32(b, 33, |order| % 4294967296) && SlotsLaid(b[37..], order)
  {
    hide U32, SlotsBytes, SlotsLaid, Num32;
    var n, slots := |order| % 4294967296, SlotsBytes(order);
    Tag(b, 1, ownerId + (U32(n) + slots));
    if |b| >= 33 {
      FrontRaw(b[1..], ownerId, U32(n) + slots);
      Shifted(b, 1, ownerId);
      Front32(b[33..], n, slots);
      Shifted32(b, 33, n);
      if |b| >= 37 {
        assert b[33..][4..] == b[37..];
        SlotsLayout(b[37..], order);
      }
    }
  }

  lemma JoinMeetingLayout(b: Bytes, meetingId: Id, userId: UserId)
    ensures b == [3] + (meetingId + userId)
            <==> |b| == 49 && ByteIs(b, 0, 3) && Raw(b, 1, meetingId) && Raw(b, 17, userId)
  {
    Tag(b, 3, meetingId + userId);
    if |b| == 49 {
      FrontRaw(b[1..], meetingId, userId);
      Shifted(b, 1, meetingId);
      FrontRaw(b[17..], userId, []);
      Shifted(b, 17, userId);
      assert userId + [] == userId;
    }
  }

  lemma ConnectionLayout(b: Bytes, id: Id, key: Key)
    ensures Tagged(8, Both(Some(id), BufferBytes(key))) == Some(b)
            <==> |b| == 19 + |key| && ByteIs(b, 0, 8) && Raw(b, 1, id) && Sized16(b, 17, key)
  {
    hide BufferBytes, Num16;
    var rest := if BufferBytes(key).Some? then BufferBytes(key).value else [];
    Tag(b, 8, id + rest);
    if |b| >= 17 {
      FrontRaw(b[1..], id, rest);
      Shifted(b, 1, id);
      SizedThen(b, 17, key, []);
      assert rest + [] == rest;
    }
  }

  /** Every server message is written just so, for the order its slots are iterated in, and nothing else is. */
  lemma MessageLayout(b: Bytes, m: ServerMessage, order: seq<UserId>)
    ensures MessageBytes(m, order) == Some(b) <==> MessageLaid(b, m, order)
  {
    hide U32, SlotsBytes, SlotsLaid, ListedBytes, ListedLaid, KeyListBytes, KeyListLaid, BufferBytes, ErrorBytes,
         ErrorLaid, Num16, Num32, Raw, IdLaid;
    match m
    case NoMessage =>
    case ErrorMessage(code, text) => ErrorLayout(b, code, text);
    case NewMeeting(ownerId, _) => NewMeetingLayout(b, ownerId, order);
    case MeetingCreated(s) => ListedLayout(b, 2, s.id, s.registered);
    case JoinMeeting(meetingId, userId) => JoinMeetingLayout(b, meetingId, userId);
    case MeetingReady(s) => ListedLayout(b, 4, s.id, s.registered);
    case NewSession(keys) => SessionRequestLayout(b, keys);
    case SessionCreated(s) => ListedLayout(b, 6, s.id, s.participants);
    case SessionReady(s) => ListedLayout(b, 7, s.id, s.participants);
    case SessionConnection(id, key) => ConnectionLayout(b, id, key);
    case SessionActive(s) => ListedLayout(b, 9, s.id, s.participants);
    case SessionTimeout(id) => IdLayout(b, 10, id);
    case CloseSession(id) => IdLayout(b, 11, id);
    case SessionFinished(id) => IdLayout(b, 12, id);
  }

  lemma SessionRequestLayout(b: Bytes, keys: seq<Key>)
    ensures Tagged(5, KeyListBytes(keys)) == Some(b) <==> ByteIs(b, 0, 5) && KeyListLaid(b[1..], keys)
  {
    hide KeyListBytes, KeyListLaid;
    Tag(b, 5, if KeyListBytes(keys).Some? then KeyListBytes(keys).value else []);
    if b != [] {
      KeyListLayout(b[1..], keys);
    }
  }
}
