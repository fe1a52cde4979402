// The binary encoding, version 1, as functions: what each message is written as, and what reading
// makes of a byte string. Encoding yields None for an empty message and for one whose buffers are too
// long; reading yields Bad for input that is too short, has an unknown tag or a wrong preamble.
module Wire {
  import opened Basics
  import Sessions

  type Bytes = seq<Byte>

  type StatusCode = n: nat | 100 <= n <= 999 witness 500

  // ---------------------------------------------------------------------------
  // Messages.

  datatype HandshakeMessage =
    | NoHandshake
    | Initiator(len: nat, buf: Bytes)
    | Responder(len: nat, buf: Bytes)

  datatype TransparentMessage =
    | NoTransparent
    | TransparentError(code: StatusCode, text: Bytes)
    | ServerHandshake(handshake: HandshakeMessage)
    | PeerHandshake(key: Key, handshake: HandshakeMessage)

  datatype Encoding = NoEncoding | Blob | Json

  datatype Chunk = Chunk(length: nat, contents: Bytes)

  datatype SealedEnvelope = SealedEnvelope(encoding: Encoding, chunks: seq<Chunk>, broadcast: bool)

  datatype OpaqueMessage =
    | NoOpaque
    | ServerEnvelope(envelope: SealedEnvelope)
    | PeerMessage(key: Key, sessionId: Option<Id>, envelope: SealedEnvelope)

  /** Request and response messages have the same shape and the same encoding. */
  datatype Packet =
    | NoPacket
    | TransparentPacket(transparent: TransparentMessage)
    | OpaquePacket(opaqueMessage: OpaqueMessage)

  datatype MeetingState = MeetingState(id: Id, registered: seq<Key>)

  datatype ServerMessage =
    | NoMessage
    | ErrorMessage(code: StatusCode, text: Bytes)
    | NewMeeting(ownerId: UserId, slots: set<UserId>)
    | MeetingCreated(meeting: MeetingState)
    | JoinMeeting(meetingId: Id, userId: UserId)
    | MeetingReady(meeting: MeetingState)
    | NewSession(participantKeys: seq<Key>)
    | SessionConnection(sessionId: Id, peerKey: Key)
    | SessionCreated(session: Sessions.SessionState)
    | SessionReady(session: Sessions.SessionState)
    | SessionActive(session: Sessions.SessionState)
    | SessionTimeout(sessionId: Id)
    | CloseSession(sessionId: Id)
    | SessionFinished(sessionId: Id)

  // ---------------------------------------------------------------------------
  // Constants.

  const MAX_BUFFER_SIZE := 65535
  const IDENTITY: Bytes := [0x4D, 0x50, 0x43, 0x52]
  const VERSION := 1

  const NOOP: Byte := 0
  const ERROR: Byte := 255
  const HANDSHAKE_INITIATOR: Byte := 1
  const HANDSHAKE_RESPONDER: Byte := 2
  const HANDSHAKE_SERVER: Byte := 1
  const HANDSHAKE_PEER: Byte := 2
  const TRANSPARENT: Byte := 128
  const OPAQUE: Byte := 129
  const OPAQUE_SERVER: Byte := 1
  const OPAQUE_PEER: Byte := 2
  const MEETING_NEW: Byte := 1
  const MEETING_CREATED: Byte := 2
  const MEETING_JOIN: Byte := 3
  const MEETING_READY: Byte := 4
  const SESSION_NEW: Byte := 5
  const SESSION_CREATED: Byte := 6
  const SESSION_READY: Byte := 7
  const SESSION_CONNECTION: Byte := 8
  const SESSION_ACTIVE: Byte := 9
  const SESSION_TIMEOUT: Byte := 10
  const SESSION_CLOSE: Byte := 11
  const SESSION_FINISHED: Byte := 12
  const ENCODING_BLOB: Byte := 1
  const ENCODING_JSON: Byte := 2

  // ---------------------------------------------------------------------------
  // Primitives. Integers are little-endian.

  /** The result of reading a value off the front of a byte string. */
  datatype Parsed<+T> = Bad | Got(value: T, rest: Bytes)

  function U16(v: nat): (b: Bytes)
    requires v < 0x1_0000
    ensures |b| == 2
  {
    [(v % 256) as Byte, (v / 256) as Byte]
  }

  function U32(v: nat): (b: Bytes)
    requires v < 0x1_0000_0000
    ensures |b| == 4
  {
    U16(v % 0x1_0000) + U16(v / 0x1_0000)
  }

  function GetU8(s: Bytes): Parsed<Byte> {
    if s == [] then Bad else Got(s[0], s[1..])
  }

  function GetU16(s: Bytes): Parsed<nat> {
    if |s| < 2 then Bad else Got(s[0] as nat + 256 * (s[1] as nat), s[2..])
  }

  function GetU32(s: Bytes): Parsed<nat> {
    match GetU16(s)
    case Bad => Bad
    case Got(lo, s1) =>
      match GetU16(s1)
      case Bad => Bad
      case Got(hi, s2) => Got(lo + 0x1_0000 * hi, s2)
  }

  function GetN(s: Bytes, n: nat): Parsed<Bytes> {
    if |s| < n then Bad else Got(s[..n], s[n..])
  }

  function Bool(b: bool): Bytes {
    [if b then 1 else 0]
  }

  function GetBool(s: Bytes): Parsed<bool> {
    if s == [] then Bad else Got(s[0] != 0, s[1..])
  }

  /** A text is its bytes behind a 32-bit length. */
  function Text(t: Bytes): Option<Bytes> {
    if |t| < 0x1_0000_0000 then Some(U32(|t|) + t) else None
  }

  /** Readers are set up to refuse anything longer than the maximum buffer size. */
  function GetText(s: Bytes): Parsed<Bytes> {
    match GetU32(s)
    case Bad => Bad
    case Got(n, s1) => if n > MAX_BUFFER_SIZE then Bad else GetN(s1, n)
  }

  // ---------------------------------------------------------------------------
  // Sequencing.

  /** Both parts, if both could be encoded. */
  function Both(a: Option<Bytes>, b: Option<Bytes>): Option<Bytes> {
    if a.Some? && b.Some? then Some(a.value + b.value) else None
  }

  function Tagged(tag: Byte, b: Option<Bytes>): Option<Bytes> {
    Both(Some([tag]), b)
  }

  // ---------------------------------------------------------------------------
  // Buffers, handshakes and transparent messages.

  function BufferBytes(b: Bytes): Option<Bytes> {
    if |b| > MAX_BUFFER_SIZE then None else Some(U16(|b|) + b)
  }

  function GetBuffer(s: Bytes): Parsed<Bytes> {
    match GetU16(s)
    case Bad => Bad
    case Got(n, s1) => GetN(s1, n)
  }

  /** A buffer behind the length of its used part. */
  function PayloadBytes(len: nat, b: Bytes): Option<Bytes> {
    if len > MAX_BUFFER_SIZE then None else Both(Some(U16(len)), BufferBytes(b))
  }

  function GetPayload(s: Bytes): Parsed<(nat, Bytes)> {
    match GetU16(s)
    case Bad => Bad
    case Got(len, s1) =>
      match GetBuffer(s1)
      case Bad => Bad
      case Got(b, s2) => Got((len, b), s2)
  }

  function HandshakeBytes(h: HandshakeMessage): Option<Bytes> {
    match h
    case NoHandshake => None
    case Initiator(len, buf) => Tagged(HANDSHAKE_INITIATOR, PayloadBytes(len, buf))
    case Responder(len, buf) => Tagged(HANDSHAKE_RESPONDER, PayloadBytes(len, buf))
  }

  function GetHandshake(s: Bytes): Parsed<HandshakeMessage> {
    match GetU8(s)
    case Bad => Bad
    case Got(tag, s1) =>
      if tag != HANDSHAKE_INITIATOR && tag != HANDSHAKE_RESPONDER then Bad
      else
        match GetPayload(s1)
        case Bad => Bad
        case Got((len, buf), s2) =>
          Got(if tag == HANDSHAKE_INITIATOR then Initiator(len, buf) else Responder(len, buf), s2)
  }

  function ErrorBytes(code: StatusCode, text: Bytes): Option<Bytes> {
    Tagged(ERROR, Both(Some(U16(code)), Text(text)))
  }

  function GetError(s: Bytes): Parsed<(StatusCode, Bytes)> {
    match GetU16(s)
    case Bad => Bad
    case Got(code, s1) =>
      if code < 100 || code > 999 then Bad
      else
        match GetText(s1)
        case Bad => Bad
        case Got(text, s2) => Got((code, text), s2)
  }

  function TransparentBytes(t: TransparentMessage): Option<Bytes> {
    match t
    case NoTransparent => None
    case TransparentError(code, text) => ErrorBytes(code, text)
    case ServerHandshake(h) => Tagged(HANDSHAKE_SERVER, HandshakeBytes(h))
    case PeerHandshake(key, h) => Tagged(HANDSHAKE_PEER, Both(BufferBytes(key), HandshakeBytes(h)))
  }

  function GetTransparent(s: Bytes): Parsed<TransparentMessage> {
    match GetU8(s)
    case Bad => Bad
    case Got(tag, s1) =>
      if tag == ERROR then
        match GetError(s1)
        case Bad => Bad
        case Got((code, text), s2) => Got(TransparentError(code, text), s2)
      else if tag == HANDSHAKE_SERVER then
        match GetHandshake(s1)
        case Bad => Bad
        case Got(h, s2) => Got(ServerHandshake(h), s2)
      else if tag == HANDSHAKE_PEER then
        match GetBuffer(s1)
        case Bad => Bad
        case Got(key, s2) =>
          match GetHandshake(s2)
          case Bad => Bad
          case Got(h, s3) => Got(PeerHandshake(key, h), s3)
      else Bad
  }

  // ---------------------------------------------------------------------------
  // Envelopes and opaque messages.

  function ChunksBytes(chunks: seq<Chunk>): Option<Bytes> {
    if chunks == [] then Some([])
    else Both(PayloadBytes(chunks[0].length, chunks[0].contents), ChunksBytes(chunks[1..]))
  }

  function GetChunks(s: Bytes, n: nat): Parsed<seq<Chunk>> {
    if n == 0 then Got([], s)
    else
      match GetPayload(s)
      case Bad => Bad
      case Got((len, contents), s1) =>
        match GetChunks(s1, n - 1)
        case Bad => Bad
        case Got(chunks, s2) => Got([Chunk(len, contents)] + chunks, s2)
  }

  function EncodingTag(e: Encoding): Byte {
    match e
    case NoEncoding => NOOP
    case Blob => ENCODING_BLOB
    case Json => ENCODING_JSON
  }

  /** The number of chunks is cast to 32 bits. */
  function EnvelopeBytes(e: SealedEnvelope): Option<Bytes> {
    Tagged(EncodingTag(e.encoding),
           Both(Some(Bool(e.broadcast)), Both(Some(U32(|e.chunks| % 0x1_0000_0000)), ChunksBytes(e.chunks))))
  }

  function GetEnvelope(s: Bytes): Parsed<SealedEnvelope> {
    match GetU8(s)
    case Bad => Bad
    case Got(tag, s1) =>
      if tag != ENCODING_BLOB && tag != ENCODING_JSON then Bad
      else
        match GetBool(s1)
        case Bad => Bad
        case Got(broadcast, s2) =>
          match GetU32(s2)
          case Bad => Bad
          case Got(n, s3) =>
            match GetChunks(s3, n)
            case Bad => Bad
            case Got(chunks, s4) =>
              Got(SealedEnvelope(if tag == ENCODING_BLOB then Blob else Json, chunks, broadcast), s4)
  }

  function SessionIdBytes(id: Option<Id>): Bytes {
    match id
    case None => Bool(false)
    case Some(b) => Bool(true) + b
  }

  function GetSessionId(s: Bytes): Parsed<Option<Id>> {
    match GetBool(s)
    case Bad => Bad
    case Got(present, s1) =>
      if !present then Got(None, s1)
      else
        match GetN(s1, 16)
        case Bad => Bad
        case Got(id, s2) => Got(Some(id), s2)
  }

  function OpaqueBytes(o: OpaqueMessage): Option<Bytes> {
    match o
    case NoOpaque => None
    case ServerEnvelope(e) => Tagged(OPAQUE_SERVER, EnvelopeBytes(e))
    case PeerMessage(key, id, e) =>
      Tagged(OPAQUE_PEER, Both(BufferBytes(key), Both(Some(SessionIdBytes(id)), EnvelopeBytes(e))))
  }

  function GetOpaque(s: Bytes): Parsed<OpaqueMessage> {
    match GetU8(s)
    case Bad => Bad
    case Got(tag, s1) =>
      if tag == OPAQUE_SERVER then
        match GetEnvelope(s1)
        case Bad => Bad
        case Got(e, s2) => Got(ServerEnvelope(e), s2)
      else if tag == OPAQUE_PEER then
        match GetBuffer(s1)
        case Bad => Bad
        case Got(key, s2) =>
          match GetSessionId(s2)
          case Bad => Bad
          case Got(id, s3) =>
            match GetEnvelope(s3)
            case Bad => Bad
            case Got(e, s4) => Got(PeerMessage(key, id, e), s4)
      else Bad
  }

  // ---------------------------------------------------------------------------
  // Packets.

  function Preamble(): Bytes {
    IDENTITY + U16(VERSION)
  }

  function GetPreamble(s: Bytes): Parsed<()> {
    match GetN(s, 4)
    case Bad => Bad
    case Got(identity, s1) =>
      if identity != IDENTITY then Bad
      else
        match GetU16(s1)
        case Bad => Bad
        case Got(version, s2) => if version != VERSION then Bad else Got((), s2)
  }

  function PacketBytes(p: Packet): Option<Bytes> {
    Both(Some(Preamble()),
         match p
         case NoPacket => None
         case TransparentPacket(t) => Tagged(TRANSPARENT, TransparentBytes(t))
         case OpaquePacket(o) => Tagged(OPAQUE, OpaqueBytes(o)))
  }

  function GetPacket(s: Bytes): Parsed<Packet> {
    match GetPreamble(s)
    case Bad => Bad
    case Got(_, s1) =>
      match GetU8(s1)
      case Bad => Bad
      case Got(tag, s2) =>
        if tag == TRANSPARENT then
          match GetTransparent(s2)
          case Bad => Bad
          case Got(t, s3) => Got(TransparentPacket(t), s3)
        else if tag == OPAQUE then
          match GetOpaque(s2)
          case Bad => Bad
          case Got(o, s3) => Got(OpaquePacket(o), s3)
        else Bad
  }

  // ---------------------------------------------------------------------------
  // Server messages.

  function KeysBytes(keys: seq<Key>): Option<Bytes> {
    if keys == [] then Some([]) else Both(BufferBytes(keys[0]), KeysBytes(keys[1..]))
  }

  function GetKeys(s: Bytes, n: nat): Parsed<seq<Key>> {
    if n == 0 then Got([], s)
    else
      match GetBuffer(s)
      case Bad => Bad
      case Got(key, s1) =>
        match GetKeys(s1, n - 1)
        case Bad => Bad
        case Got(keys, s2) => Got([key] + keys, s2)
  }

  /** The number of keys is cast to 16 bits. */
  function KeyListBytes(keys: seq<Key>): Option<Bytes> {
    Both(Some(U16(|keys| % 0x1_0000)), KeysBytes(keys))
  }

  function GetKeyList(s: Bytes): Parsed<seq<Key>> {
    match GetU16(s)
    case Bad => Bad
    case Got(n, s1) => GetKeys(s1, n)
  }

  function SlotsBytes(order: seq<UserId>): Bytes {
    if order == [] then [] else order[0] + SlotsBytes(order[1..])
  }

  function GetSlots(s: Bytes, n: nat): Parsed<set<UserId>> {
    if n == 0 then Got({}, s)
    else
      match GetN(s, 32)
      case Bad => Bad
      case Got(id, s1) =>
        match GetSlots(s1, n - 1)
        case Bad => Bad
        case Got(slots, s2) => var u: UserId := id; Got({u} + slots, s2)
  }

  function ListedBytes(id: Id, keys: seq<Key>): Option<Bytes> {
    Both(Some(id), KeyListBytes(keys))
  }

  function GetListed(s: Bytes): Parsed<(Id, seq<Key>)> {
    match GetN(s, 16)
    case Bad => Bad
    case Got(id, s1) =>
      match GetKeyList(s1)
      case Bad => Bad
      case Got(keys, s2) => Got((id, keys), s2)
  }

  /** `order` is the order in which the slots of a new meeting are iterated. */
  function MessageBytes(m: ServerMessage, order: seq<UserId>): Option<Bytes> {
    match m
    case NoMessage => None
    case ErrorMessage(code, text) => ErrorBytes(code, text)
    case NewMeeting(ownerId, _) =>
      Tagged(MEETING_NEW, Some(ownerId + (U32(|order| % 0x1_0000_0000) + SlotsBytes(order))))
    case MeetingCreated(m) => Tagged(MEETING_CREATED, ListedBytes(m.id, m.registered))
    case JoinMeeting(meetingId, userId) => Tagged(MEETING_JOIN, Some(meetingId + userId))
    case MeetingReady(m) => Tagged(MEETING_READY, ListedBytes(m.id, m.registered))
    case NewSession(keys) => Tagged(SESSION_NEW, KeyListBytes(keys))
    case SessionConnection(id, key) => Tagged(SESSION_CONNECTION, Both(Some(id), BufferBytes(key)))
    case SessionCreated(s) => Tagged(SESSION_CREATED, ListedBytes(s.id, s.participants))
    case SessionReady(s) => Tagged(SESSION_READY, ListedBytes(s.id, s.participants))
    case SessionActive(s) => Tagged(SESSION_ACTIVE, ListedBytes(s.id, s.participants))
    case SessionTimeout(id) => Tagged(SESSION_TIMEOUT, Some(id))
    case CloseSession(id) => Tagged(SESSION_CLOSE, Some(id))
    case SessionFinished(id) => Tagged(SESSION_FINISHED, Some(id))
  }

  /** The orders in which the slots of a message may be iterated. */
  ghost predicate SlotOrder(m: ServerMessage, order: seq<UserId>) {
    m.NewMeeting? ==> Distinct(order) && m.slots == set u | u in order
  }

  function GetMessage(s: Bytes): Parsed<ServerMessage> {
    match GetU8(s)
    case Bad => Bad
    case Got(tag, s1) =>
      if tag == ERROR then
        match GetError(s1)
        case Bad => Bad
        case Got((code, text), s2) => Got(ErrorMessage(code, text), s2)
      else if tag == MEETING_NEW then GetNewMeeting(s1)
      else if tag == MEETING_JOIN then GetJoinMeeting(s1)
      else if tag == SESSION_NEW then
        match GetKeyList(s1)
        case Bad => Bad
        case Got(keys, s2) => Got(NewSession(keys), s2)
      else if tag == SESSION_CONNECTION then GetSessionConnection(s1)
      else if tag == MEETING_CREATED || tag == MEETING_READY then
        match GetListed(s1)
        case Bad => Bad
        case Got((id, keys), s2) =>
          var m := MeetingState(id, keys);
          Got(if tag == MEETING_CREATED then MeetingCreated(m) else MeetingReady(m), s2)
      else if tag == SESSION_CREATED || tag == SESSION_READY || tag == SESSION_ACTIVE then
        match GetListed(s1)
        case Bad => Bad
        case Got((id, keys), s2) =>
          var s := Sessions.SessionState(id, keys);
          Got(if tag == SESSION_CREATED then SessionCreated(s) else if tag == SESSION_READY then SessionReady(s)
              else SessionActive(s), s2)
      else if tag == SESSION_TIMEOUT || tag == SESSION_CLOSE || tag == SESSION_FINISHED then
        match GetN(s1, 16)
        case Bad => Bad
        case Got(id, s2) =>
          Got(if tag == SESSION_TIMEOUT then SessionTimeout(id) else if tag == SESSION_CLOSE then CloseSession(id)
              else SessionFinished(id), s2)
      else Bad
  }

  function GetNewMeeting(s: Bytes): Parsed<ServerMessage> {
    match GetN(s, 32)
    case Bad => Bad
    case Got(ownerId, s1) =>
      match GetU32(s1)
      case Bad => Bad
      case Got(n, s2) =>
        match GetSlots(s2, n)
        case Bad => Bad
        case Got(slots, s3) => Got(NewMeeting(ownerId, slots), s3)
  }

  function GetJoinMeeting(s: Bytes): Parsed<ServerMessage> {
    match GetN(s, 16)
    case Bad => Bad
    case Got(meetingId, s1) =>
      match GetN(s1, 32)
      case Bad => Bad
      case Got(userId, s2) => Got(JoinMeeting(meetingId, userId), s2)
  }

  function GetSessionConnection(s: Bytes): Parsed<ServerMessage> {
    match GetN(s, 16)
    case Bad => Bad
    case Got(id, s1) =>
      match GetBuffer(s1)
      case Bad => Bad
      case Got(key, s2) => Got(SessionConnection(id, key), s2)
  }
}
