// The encoders and decoders themselves: a writer that appends, a reader that advances a cursor, each
// method proved to write, or to read, what the functions of Wire say.
module Codec {
  import opened Basics
  import opened Wire

  /** Encoding succeeded just when there is an encoding, which then extends what had been written. */
  ghost predicate Wrote(was: Bytes, now: Bytes, ok: bool, b: Option<Bytes>) {
    && ok == b.Some?
    && (ok ==> now == was + b.value)
  }

  lemma {:induction false} SlotsBytesAppend(order: seq<UserId>, u: UserId)
    ensures SlotsBytes(order + [u]) == SlotsBytes(order) + u
  {
    if order == [] {
      assert [u][1..] == [];
    } else {
      assert (order + [u])[1..] == order[1..] + [u];
      SlotsBytesAppend(order[1..], u);
    }
  }

  lemma SlotsBytesNone(was: Bytes)
    ensures was + SlotsBytes([]) == was
  {}

  lemma MembersAppend(order: seq<UserId>, u: UserId)
    requires Distinct(order) && u !in Members(order)
    ensures Distinct(order + [u]) && Members(order + [u]) == Members(order) + {u}
  {
    forall i, j | 0 <= i < j < |order + [u]| ensures (order + [u])[i] != (order + [u])[j] {
      assert order[i] in Members(order);
    }
  }

  class Writer {
    var bytes: Bytes

    constructor ()
      ensures bytes == []
    {
      bytes := [];
    }

    method WriteBytes(b: Bytes)
      modifies this
      ensures bytes == old(bytes) + b
    {
      bytes := bytes + b;
    }

    method EncodeBuffer(buffer: Bytes) returns (ok: bool)
      modifies this
      ensures Wrote(old(bytes), bytes, ok, BufferBytes(buffer))
    {
      if |buffer| > MAX_BUFFER_SIZE {
        return false;
      }
      WriteBytes(U16(|buffer|));
      WriteBytes(buffer);
      Regroup(old(bytes), U16(|buffer|), buffer);
      return true;
    }

    method EncodePayload(length: nat, buffer: Bytes) returns (ok: bool)
      modifies this
      ensures Wrote(old(bytes), bytes, ok, PayloadBytes(length, buffer))
    {
      if length > MAX_BUFFER_SIZE {
        return false;
      }
      WriteBytes(U16(length));
      ok := EncodeBuffer(buffer);
      if ok {
        Regroup(old(bytes), U16(length), BufferBytes(buffer).value);
      }
    }

    method EncodeHandshake(h: HandshakeMessage) returns (ok: bool)
      modifies this
      ensures Wrote(old(bytes), bytes, ok, HandshakeBytes(h))
    {
      hide PayloadBytes;
      match h
      case NoHandshake => return false;
      case Initiator(len, buf) =>
        WriteBytes([HANDSHAKE_INITIATOR]);
        ok := EncodePayload(len, buf);
        if ok {
          Regroup(old(bytes), [HANDSHAKE_INITIATOR], PayloadBytes(len, buf).value);
        }
      case Responder(len, buf) =>
        WriteBytes([HANDSHAKE_RESPONDER]);
        ok := EncodePayload(len, buf);
        if ok {
          Regroup(old(bytes), [HANDSHAKE_RESPONDER], PayloadBytes(len, buf).value);
        }
    }

    /** The body of an error, behind its tag. A text too long for its 32-bit length is refused. */
    method EncodeError(code: StatusCode, text: Bytes) returns (ok: bool)
      modifies this
      ensures Wrote(old(bytes), bytes, ok, ErrorBytes(code, text))
    {
      hide U16, U32;
      if |text| >= 0x1_0000_0000 {
        return false;
      }
      WriteBytes([ERROR]);
      WriteBytes(U16(code));
      WriteBytes(U32(|text|) + text);
      Regroup(old(bytes) + [ERROR], U16(code), U32(|text|) + text);
      Regroup(old(bytes), [ERROR], U16(code) + (U32(|text|) + text));
      return true;
    }

    method EncodeTransparent(t: TransparentMessage) returns (ok: bool)
      modifies this
      ensures Wrote(old(bytes), bytes, ok, TransparentBytes(t))
    {
      hide HandshakeBytes, BufferBytes, ErrorBytes;
      match t
      case NoTransparent => return false;
      case TransparentError(code, text) => ok := EncodeError(code, text);
      case ServerHandshake(h) =>
        WriteBytes([HANDSHAKE_SERVER]);
        ok := EncodeHandshake(h);
        if ok {
          Regroup(old(bytes), [HANDSHAKE_SERVER], HandshakeBytes(h).value);
        }
      case PeerHandshake(key, h) =>
        WriteBytes([HANDSHAKE_PEER]);
        ok := EncodeBuffer(key);
        if ok {
          ok := EncodeHandshake(h);
          if ok {
            var k, b := BufferBytes(key).value, HandshakeBytes(h).value;
            Regroup(old(bytes) + [HANDSHAKE_PEER], k, b);
            Regroup(old(bytes), [HANDSHAKE_PEER], k + b);
          }
        }
    }

    method EncodeChunks(chunks: seq<Chunk>) returns (ok: bool)
      modifies this
      ensures Wrote(old(bytes), bytes, ok, ChunksBytes(chunks))
    {
      hide PayloadBytes;
      ghost var done: Bytes := [];
      assert bytes == old(bytes) + done && chunks[0..] == chunks;
      if ChunksBytes(chunks).Some? {
        assert done + ChunksBytes(chunks).value == ChunksBytes(chunks).value;
      }
      var i := 0;
      while i < |chunks|
        invariant i <= |chunks|
        invariant bytes == old(bytes) + done
        invariant ChunksBytes(chunks) == Both(Some(done), ChunksBytes(chunks[i..]))
      {
        ghost var b := PayloadBytes(chunks[i].length, chunks[i].contents);
        assert chunks[i..][1..] == chunks[i + 1..];
        ok := EncodePayload(chunks[i].length, chunks[i].contents);
        if !ok {
          return;
        }
        Regroup(old(bytes), done, b.value);
        if ChunksBytes(chunks[i + 1..]).Some? {
          Regroup(done, b.value, ChunksBytes(chunks[i + 1..]).value);
        }
        done := done + b.value;
        i := i + 1;
      }
      return true;
    }

    method EncodeEnvelope(e: SealedEnvelope) returns (ok: bool)
      modifies this
      ensures Wrote(old(bytes), bytes, ok, EnvelopeBytes(e))
    {
      hide U32, Bool, ChunksBytes;
      var tag, broadcast, count := [EncodingTag(e.encoding)], Bool(e.broadcast), U32(|e.chunks| % 0x1_0000_0000);
      WriteBytes(tag);
      WriteBytes(broadcast);
      WriteBytes(count);
      ok := EncodeChunks(e.chunks);
      if ok {
        var c := ChunksBytes(e.chunks).value;
        Regroup(old(bytes) + tag + broadcast, count, c);
        Regroup(old(bytes) + tag, broadcast, count + c);
        Regroup(old(bytes), tag, broadcast + (count + c));
      }
    }

    method EncodeOpaque(o: OpaqueMessage) returns (ok: bool)
      modifies this
      ensures Wrote(old(bytes), bytes, ok, OpaqueBytes(o))
    {
      hide EnvelopeBytes, BufferBytes, Bool;
      match o
      case NoOpaque => return false;
      case ServerEnvelope(e) =>
        WriteBytes([OPAQUE_SERVER]);
        ok := EncodeEnvelope(e);
        if ok {
          Regroup(old(bytes), [OPAQUE_SERVER], EnvelopeBytes(e).value);
        }
      case PeerMessage(key, id, e) =>
        WriteBytes([OPAQUE_PEER]);
        ok := EncodeBuffer(key);
        if !ok {
          return;
        }
        ghost var head := bytes;
        WriteBytes(Bool(id.Some?));
        if id.Some? {
          WriteBytes(id.value);
          Regroup(head, Bool(true), id.value);
        }
        assert bytes == head + SessionIdBytes(id);
        ok := EncodeEnvelope(e);
        if ok {
          var k, i, b := BufferBytes(key).value, SessionIdBytes(id), EnvelopeBytes(e).value;
          Regroup(old(bytes) + [OPAQUE_PEER] + k, i, b);
          Regroup(old(bytes) + [OPAQUE_PEER], k, i + b);
          Regroup(old(bytes), [OPAQUE_PEER], k + (i + b));
        }
    }

    method EncodePacket(p: Packet) returns (ok: bool)
      modifies this
      ensures Wrote(old(bytes), bytes, ok, PacketBytes(p))
    {
      hide TransparentBytes, OpaqueBytes, U16;
      WriteBytes(IDENTITY);
      WriteBytes(U16(VERSION));
      Regroup(old(bytes), IDENTITY, U16(VERSION));
      match p
      case NoPacket => return false;
      case TransparentPacket(t) =>
        WriteBytes([TRANSPARENT]);
        ok := EncodeTransparent(t);
        if ok {
          Regroup(old(bytes) + Preamble(), [TRANSPARENT], TransparentBytes(t).value);
          Regroup(old(bytes), Preamble(), [TRANSPARENT] + TransparentBytes(t).value);
        }
      case OpaquePacket(o) =>
        WriteBytes([OPAQUE]);
        ok := EncodeOpaque(o);
        if ok {
          Regroup(old(bytes) + Preamble(), [OPAQUE], OpaqueBytes(o).value);
          Regroup(old(bytes), Preamble(), [OPAQUE] + OpaqueBytes(o).value);
        }
    }

    method EncodeKeys(keys: seq<Key>) returns (ok: bool)
      modifies this
      ensures Wrote(old(bytes), bytes, ok, KeyListBytes(keys))
    {
      hide BufferBytes, U16;
      ghost var done := U16(|keys| % 0x1_0000);
      WriteBytes(U16(|keys| % 0x1_0000));
      var i := 0;
      while i < |keys|
        invariant i <= |keys|
        invariant bytes == old(bytes) + done
        invariant KeyListBytes(keys) == Both(Some(done), KeysBytes(keys[i..]))
      {
        ghost var b := BufferBytes(keys[i]);
        assert keys[i..][1..] == keys[i + 1..];
        ok := EncodeBuffer(keys[i]);
        if !ok {
          return;
        }
        Regroup(old(bytes), done, b.value);
        if KeysBytes(keys[i + 1..]).Some? {
          Regroup(done, b.value, KeysBytes(keys[i + 1..]).value);
        }
        done := done + b.value;
        i := i + 1;
      }
      return true;
    }

    /** Meetings and sessions are written alike: a tag, an identifier and a list of keys. */
    method EncodeListed(tag: Byte, id: Id, keys: seq<Key>) returns (ok: bool)
      modifies this
      ensures Wrote(old(bytes), bytes, ok, Tagged(tag, ListedBytes(id, keys)))
    {
      hide KeyListBytes;
      WriteBytes([tag]);
      WriteBytes(id);
      ok := EncodeKeys(keys);
      if ok {
        var k := KeyListBytes(keys).value;
        Regroup(old(bytes) + [tag], id, k);
        Regroup(old(bytes), [tag], id + k);
      }
    }

    /** The slots are written in whatever order the set is iterated in. */
    method EncodeSlots(slots: set<UserId>) returns (ghost order: seq<UserId>)
      modifies this
      ensures Distinct(order) && Members(order) == slots
      ensures bytes == old(bytes) + SlotsBytes(order)
    {
      hide SlotsBytes;
      order := [];
      var remaining := slots;
      assert bytes == old(bytes) + SlotsBytes(order) by {
        SlotsBytesNone(bytes);
      }
      while remaining != {}
        invariant Distinct(order)
        invariant Members(order) !! remaining && Members(order) + remaining == slots
        invariant bytes == old(bytes) + SlotsBytes(order)
        decreases |remaining|
      {
        var u :| u in remaining;
        WriteBytes(u);
        remaining := remaining - {u};
        SlotsBytesAppend(order, u);
        Regroup(old(bytes), SlotsBytes(order), u);
        MembersAppend(order, u);
        order := order + [u];
      }
    }

    method EncodeNewMeeting(ownerId: UserId, slots: set<UserId>) returns (ghost order: seq<UserId>)
      modifies this
      ensures Distinct(order) && Members(order) == slots
      ensures Wrote(old(bytes), bytes, true, MessageBytes(NewMeeting(ownerId, slots), order))
    {
      hide U32, SlotsBytes;
      var count := U32(|slots| % 0x1_0000_0000);
      WriteBytes([MEETING_NEW]);
      WriteBytes(ownerId);
      WriteBytes(count);
      order := EncodeSlots(slots);
      MembersCount(order);
      Regroup(old(bytes) + [MEETING_NEW] + ownerId, count, SlotsBytes(order));
      Regroup(old(bytes) + [MEETING_NEW], ownerId, count + SlotsBytes(order));
      Regroup(old(bytes), [MEETING_NEW], ownerId + (count + SlotsBytes(order)));
    }

    method EncodeMessage(m: ServerMessage) returns (ok: bool, ghost order: seq<UserId>)
      modifies this
      ensures SlotOrder(m, order)
      ensures Wrote(old(bytes), bytes, ok, MessageBytes(m, order))
    {
      hide ListedBytes, KeyListBytes, BufferBytes, ErrorBytes, SlotsBytes, U32;
      order, ok := [], true;
      match m
      case NoMessage => ok := false;
      case ErrorMessage(code, text) => ok := EncodeError(code, text);
      case NewMeeting(ownerId, slots) => order := EncodeNewMeeting(ownerId, slots);
      case MeetingCreated(s) => ok := EncodeListed(MEETING_CREATED, s.id, s.registered);
      case JoinMeeting(meetingId, userId) => WriteBytes([MEETING_JOIN] + (meetingId + userId));
      case MeetingReady(s) => ok := EncodeListed(MEETING_READY, s.id, s.registered);
      case NewSession(keys) =>
        WriteBytes([SESSION_NEW]);
        ok := EncodeKeys(keys);
        if ok {
          Regroup(old(bytes), [SESSION_NEW], KeyListBytes(keys).value);
        }
      case SessionConnection(id, key) =>
        WriteBytes([SESSION_CONNECTION]);
        WriteBytes(id);
        ok := EncodeBuffer(key);
        if ok {
          Regroup(old(bytes) + [SESSION_CONNECTION], id, BufferBytes(key).value);
          Regroup(old(bytes), [SESSION_CONNECTION], id + BufferBytes(key).value);
        }
      case SessionCreated(s) => ok := EncodeListed(SESSION_CREATED, s.id, s.participants);
      case SessionReady(s) => ok := EncodeListed(SESSION_READY, s.id, s.participants);
      case SessionActive(s) => ok := EncodeListed(SESSION_ACTIVE, s.id, s.participants);
      case SessionTimeout(id) => WriteBytes([SESSION_TIMEOUT] + id);
      case CloseSession(id) => WriteBytes([SESSION_CLOSE] + id);
      case SessionFinished(id) => WriteBytes([SESSION_FINISHED] + id);
    }
  }

  /** Reading yields what the parser says, and the cursor moves behind it. */
  ghost predicate Read<T>(now: Bytes, r: Option<T>, p: Parsed<T>) {
    match p
    case Bad => r.None?
    case Got(value, rest) => r == Some(value) && now == rest
  }

  /** Having read `done`, what remains to be read completes the whole. */
  ghost predicate Continues<T>(whole: Parsed<seq<T>>, done: seq<T>, remaining: Parsed<seq<T>>) {
    match remaining
    case Bad => whole.Bad?
    case Got(more, rest) => whole == Got(done + more, rest)
  }

  ghost predicate ContinuesSet<T>(whole: Parsed<set<T>>, done: set<T>, remaining: Parsed<set<T>>) {
    match remaining
    case Bad => whole.Bad?
    case Got(more, rest) => whole == Got(done + more, rest)
  }

  lemma StartReading<T>(whole: Parsed<seq<T>>)
    ensures Continues(whole, [], whole)
  {
    if whole.Got? {
      assert [] + whole.value == whole.value;
    }
  }

  lemma StopReading<T>(whole: Parsed<seq<T>>, done: seq<T>, rest: Bytes)
    requires Continues(whole, done, Got([], rest))
    ensures whole == Got(done, rest)
  {
    assert done + [] == done;
  }

  class Reader {
    const input: Bytes
    var pos: nat

    ghost predicate Valid()
      reads this
    {
      pos <= |input|
    }

    function Rest(): Bytes
      requires Valid()
      reads this
    {
      input[pos..]
    }

    constructor (input: Bytes)
      ensures Valid() && Rest() == input
    {
      this.input := input;
      pos := 0;
    }

    method ReadBytes(n: nat) returns (r: Option<Bytes>)
      requires Valid()
      modifies this
      ensures Valid() && Read(Rest(), r, GetN(old(Rest()), n))
    {
      if |input| - pos < n {
        return None;
      }
      r := Some(input[pos..pos + n]);
      assert input[pos..][..n] == input[pos..pos + n];
      assert input[pos..][n..] == input[pos + n..];
      pos := pos + n;
    }

    method ReadU8() returns (r: Option<Byte>)
      requires Valid()
      modifies this
      ensures Valid() && Read(Rest(), r, GetU8(old(Rest())))
    {
      var b := ReadBytes(1);
      r := if b.None? then None else Some(b.value[0]);
    }

    method ReadU16() returns (r: Option<nat>)
      requires Valid()
      modifies this
      ensures Valid() && Read(Rest(), r, GetU16(old(Rest())))
    {
      var b := ReadBytes(2);
      r := if b.None? then None else Some(b.value[0] as nat + 256 * (b.value[1] as nat));
    }

    method ReadU32() returns (r: Option<nat>)
      requires Valid()
      modifies this
      ensures Valid() && Read(Rest(), r, GetU32(old(Rest())))
    {
      hide GetU16;
      var lo := ReadU16();
      if lo.None? {
        return None;
      }
      var hi := ReadU16();
      r := if hi.None? then None else Some(lo.value + 0x1_0000 * hi.value);
    }

    method ReadBool() returns (r: Option<bool>)
      requires Valid()
      modifies this
      ensures Valid() && Read(Rest(), r, GetBool(old(Rest())))
    {
      var b := ReadU8();
      r := if b.None? then None else Some(b.value != 0);
    }

    method DecodeBuffer() returns (r: Option<Bytes>)
      requires Valid()
      modifies this
      ensures Valid() && Read(Rest(), r, GetBuffer(old(Rest())))
    {
      hide GetU16, GetN;
      var size := ReadU16();
      if size.None? {
        return None;
      }
      r := ReadBytes(size.value);
    }

    method DecodePayload() returns (r: Option<(nat, Bytes)>)
      requires Valid()
      modifies this
      ensures Valid() && Read(Rest(), r, GetPayload(old(Rest())))
    {
      hide GetU16, GetBuffer;
      var length := ReadU16();
      if length.None? {
        return None;
      }
      var buffer := DecodeBuffer();
      r := if buffer.None? then None else Some((length.value, buffer.value));
    }

    method DecodeHandshake() returns (r: Option<HandshakeMessage>)
      requires Valid()
      modifies this
      ensures Valid() && Read(Rest(), r, GetHandshake(old(Rest())))
    {
      hide GetU8, GetPayload;
      var tag := ReadU8();
      if tag.None? || (tag.value != HANDSHAKE_INITIATOR && tag.value != HANDSHAKE_RESPONDER) {
        return None;
      }
      var p := DecodePayload();
      if p.None? {
        return None;
      }
      var (len, buf) := p.value;
      r := Some(if tag.value == HANDSHAKE_INITIATOR then Initiator(len, buf) else Responder(len, buf));
    }

    method DecodeError() returns (r: Option<(StatusCode, Bytes)>)
      requires Valid()
      modifies this
      ensures Valid() && Read(Rest(), r, GetError(old(Rest())))
    {
      hide GetU16, GetU32, GetN;
      var code := ReadU16();
      if code.None? || code.value < 100 || code.value > 999 {
        return None;
      }
      var length := ReadU32();
      if length.None? || length.value > MAX_BUFFER_SIZE {
        return None;
      }
      var text := ReadBytes(length.value);
      r := if text.None? then None else Some((code.value, text.value));
    }

    method DecodeTransparent() returns (r: Option<TransparentMessage>)
      requires Valid()
      modifies this
      ensures Valid() && Read(Rest(), r, GetTransparent(old(Rest())))
    {
      hide GetU8, GetError, GetHandshake, GetBuffer;
      var tag := ReadU8();
      if tag == Some(ERROR) {
        var e := DecodeError();
        r := if e.None? then None else Some(TransparentError(e.value.0, e.value.1));
      } else if tag == Some(HANDSHAKE_SERVER) {
        var h := DecodeHandshake();
        r := if h.None? then None else Some(ServerHandshake(h.value));
      } else if tag == Some(HANDSHAKE_PEER) {
        var key := DecodeBuffer();
        if key.None? {
          return None;
        }
        var h := DecodeHandshake();
        r := if h.None? then None else Some(PeerHandshake(key.value, h.value));
      } else {
        r := None;
      }
    }

    method DecodeChunks(n: nat) returns (r: Option<seq<Chunk>>)
      requires Valid()
      modifies this
      ensures Valid() && Read(Rest(), r, GetChunks(old(Rest()), n))
    {
      hide GetPayload;
      var chunks := [];
      StartReading(GetChunks(Rest(), n));
      var remaining := n;
      while remaining > 0
        invariant Valid()
        invariant Continues(GetChunks(old(Rest()), n), chunks, GetChunks(Rest(), remaining))
      {
        var p := DecodePayload();
        if p.None? {
          return None;
        }
        ghost var more := GetChunks(Rest(), remaining - 1);
        var chunk := Chunk(p.value.0, p.value.1);
        assert more.Got? ==> chunks + ([chunk] + more.value) == (chunks + [chunk]) + more.value;
        chunks := chunks + [chunk];
        remaining := remaining - 1;
      }
      StopReading(GetChunks(old(Rest()), n), chunks, Rest());
      r := Some(chunks);
    }

    method DecodeEnvelope() returns (r: Option<SealedEnvelope>)
      requires Valid()
      modifies this
      ensures Valid() && Read(Rest(), r, GetEnvelope(old(Rest())))
    {
      hide GetU8, GetBool, GetU32, GetChunks;
      var tag := ReadU8();
      if tag.None? || (tag.value != ENCODING_BLOB && tag.value != ENCODING_JSON) {
        return None;
      }
      var broadcast := ReadBool();
      if broadcast.None? {
        return None;
      }
      var n := ReadU32();
      if n.None? {
        return None;
      }
      var chunks := DecodeChunks(n.value);
      if chunks.None? {
        return None;
      }
      r := Some(SealedEnvelope(if tag.value == ENCODING_BLOB then Blob else Json, chunks.value, broadcast.value));
    }

    method DecodeSessionId() returns (r: Option<Option<Id>>)
      requires Valid()
      modifies this
      ensures Valid() && Read(Rest(), r, GetSessionId(old(Rest())))
    {
      hide GetBool, GetN;
      var present := ReadBool();
      if present.None? {
        return None;
      }
      if !present.value {
        return Some(None);
      }
      var id := ReadId();
      r := if id.None? then None else Some(Some(id.value));
    }

    method ReadId() returns (r: Option<Id>)
      requires Valid()
      modifies this
      ensures Valid() && Read<Bytes>(Rest(), r, GetN(old(Rest()), 16))
    {
      var b := ReadBytes(16);
      r := if b.None? then None else Some(b.value);
    }

    method DecodeOpaque() returns (r: Option<OpaqueMessage>)
      requires Valid()
      modifies this
      ensures Valid() && Read(Rest(), r, GetOpaque(old(Rest())))
    {
      hide GetU8, GetEnvelope, GetBuffer, GetSessionId;
      var tag := ReadU8();
      if tag == Some(OPAQUE_SERVER) {
        var e := DecodeEnvelope();
        r := if e.None? then None else Some(ServerEnvelope(e.value));
      } else if tag == Some(OPAQUE_PEER) {
        var key := DecodeBuffer();
        if key.None? {
          return None;
        }
        var id := DecodeSessionId();
        if id.None? {
          return None;
        }
        var e := DecodeEnvelope();
        r := if e.None? then None else Some(PeerMessage(key.value, id.value, e.value));
      } else {
        r := None;
      }
    }

    method DecodePreamble() returns (ok: bool)
      requires Valid()
      modifies this
      ensures Valid() && Read(Rest(), if ok then Some(()) else None, GetPreamble(old(Rest())))
    {
      hide GetN, GetU16;
      var identity := ReadBytes(4);
      if identity != Some(IDENTITY) {
        return false;
      }
      var version := ReadU16();
      return version == Some(VERSION);
    }

    method DecodePacket() returns (r: Option<Packet>)
      requires Valid()
      modifies this
      ensures Valid() && Read(Rest(), r, GetPacket(old(Rest())))
    {
      hide GetPreamble, GetU8, GetTransparent, GetOpaque;
      var ok := DecodePreamble();
      if !ok {
        return None;
      }
      var tag := ReadU8();
      if tag == Some(TRANSPARENT) {
        var t := DecodeTransparent();
        r := if t.None? then None else Some(TransparentPacket(t.value));
      } else if tag == Some(OPAQUE) {
        var o := DecodeOpaque();
        r := if o.None? then None else Some(OpaquePacket(o.value));
      } else {
        r := None;
      }
    }

    method DecodeKeys() returns (r: Option<seq<Key>>)
      requires Valid()
      modifies this
      ensures Valid() && Read(Rest(), r, GetKeyList(old(Rest())))
    {
      hide GetU16, GetBuffer;
      var size := ReadU16();
      if size.None? {
        return None;
      }
      var keys := [];
      StartReading(GetKeys(Rest(), size.value));
      var remaining := size.value;
      while remaining > 0
        invariant Valid()
        invariant Continues(GetKeyList(old(Rest())), keys, GetKeys(Rest(), remaining))
      {
        var key := DecodeBuffer();
        if key.None? {
          return None;
        }
        ghost var more := GetKeys(Rest(), remaining - 1);
        assert more.Got? ==> keys + ([key.value] + more.value) == (keys + [key.value]) + more.value;
        keys := keys + [key.value];
        remaining := remaining - 1;
      }
      StopReading(GetKeyList(old(Rest())), keys, Rest());
      r := Some(keys);
    }

    method DecodeListed() returns (r: Option<(Id, seq<Key>)>)
      requires Valid()
      modifies this
      ensures Valid() && Read(Rest(), r, GetListed(old(Rest())))
    {
      hide GetN, GetKeyList;
      var id := ReadId();
      if id.None? {
        return None;
      }
      var keys := DecodeKeys();
      r := if keys.None? then None else Some((id.value, keys.value));
    }

    method DecodeNewMeeting() returns (r: Option<ServerMessage>)
      requires Valid()
      modifies this
      ensures Valid() && Read(Rest(), r, GetNewMeeting(old(Rest())))
    {
      hide GetU32;
      var ownerId := ReadBytes(32);
      if ownerId.None? {
        return None;
      }
      var n := ReadU32();
      if n.None? {
        return None;
      }
      ghost var start := Rest();
      var slots: set<UserId> := {};
      assert GetSlots(start, n.value).Got? ==> {} + GetSlots(start, n.value).value == GetSlots(start, n.value).value;
      var remaining := n.value;
      while remaining > 0
        invariant Valid()
        invariant ContinuesSet(GetSlots(start, n.value), slots, GetSlots(Rest(), remaining))
      {
        var b := ReadBytes(32);
        if b.None? {
          return None;
        }
        var slot: UserId := b.value;
        ghost var more := GetSlots(Rest(), remaining - 1);
        assert more.Got? ==> slots + ({slot} + more.value) == (slots + {slot}) + more.value;
        slots := slots + {slot};
        remaining := remaining - 1;
      }
      r := Some(NewMeeting(ownerId.value, slots));
    }

    method DecodeMessage() returns (r: Option<ServerMessage>)
      requires Valid()
      modifies this
      ensures Valid() && Read(Rest(), r, GetMessage(old(Rest())))
    {
      hide GetU8, GetError, GetKeyList, GetListed, GetBuffer, GetNewMeeting;
      r := None;
      var t := ReadU8();
      if t.None? {
        return;
      }
      var tag := t.value;
      if tag == ERROR {
        var e := DecodeError();
        r := if e.None? then None else Some(ErrorMessage(e.value.0, e.value.1));
      } else if tag == MEETING_NEW {
        r := DecodeNewMeeting();
      } else if tag == MEETING_JOIN {
        var meetingId := ReadId();
        if meetingId.Some? {
          var userId := ReadBytes(32);
          r := if userId.None? then None else Some(JoinMeeting(meetingId.value, userId.value));
        }
      } else if tag == SESSION_NEW {
        var keys := DecodeKeys();
        r := if keys.None? then None else Some(NewSession(keys.value));
      } else if tag == SESSION_CONNECTION {
        var id := ReadId();
        if id.Some? {
          var key := DecodeBuffer();
          r := if key.None? then None else Some(SessionConnection(id.value, key.value));
        }
      } else if tag == MEETING_CREATED || tag == MEETING_READY {
        var l := DecodeListed();
        if l.Some? {
          var meeting := MeetingState(l.value.0, l.value.1);
          r := Some(if tag == MEETING_CREATED then MeetingCreated(meeting) else MeetingReady(meeting));
        }
      } else if tag == SESSION_CREATED || tag == SESSION_READY || tag == SESSION_ACTIVE {
        var l := DecodeListed();
        if l.Some? {
          var session := Sessions.SessionState(l.value.0, l.value.1);
          r := Some(if tag == SESSION_CREATED then SessionCreated(session)
                    else if tag == SESSION_READY then SessionReady(session) else SessionActive(session));
        }
      } else if tag == SESSION_TIMEOUT || tag == SESSION_CLOSE || tag == SESSION_FINISHED {
        var id := ReadId();
        if id.Some? {
          r := Some(if tag == SESSION_TIMEOUT then SessionTimeout(id.value)
                    else if tag == SESSION_CLOSE then CloseSession(id.value) else SessionFinished(id.value));
        }
      }
    }
  }
}
