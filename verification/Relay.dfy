// From a payload at one client to the same payload at another: sealing, encoding, the server's
// re-addressing, decoding and opening. Compression is an inverse pair and does not appear.
module Relay {
  import opened Basics
  import opened Wire
  import opened WireTheorems
  import opened Chunks

  /** What a client is asked to send to a peer. */
  datatype Mail = Mail(payload: Bytes, encoding: Encoding, broadcast: bool, session: Option<Id>)

  /** What the peer's client reports: a binary or a JSON message. */
  datatype Event = Event(peer: Key, message: Bytes, json: bool, session: Option<Id>)

  function EventOf(from: Key, mail: Mail): Event {
    Event(from, mail.payload, mail.encoding.Json?, mail.session)
  }

  function PeerPacket(key: Key, session: Option<Id>, envelope: SealedEnvelope): Packet {
    OpaquePacket(PeerMessage(key, session, envelope))
  }

  function Envelope(mail: Mail, chunks: seq<Chunk>): SealedEnvelope {
    SealedEnvelope(mail.encoding, chunks, mail.broadcast)
  }

  function SealedPacket(aead: Aead, secret: Secret, nonce: Nonce, key: Key, mail: Mail): Option<Packet> {
    match Split(aead, secret, nonce, mail.payload)
    case None => None
    case Some(chunks) => Some(PeerPacket(key, mail.session, Envelope(mail, chunks)))
  }

  /** The bytes of the request that carries a mail to the server. */
  function Posted(aead: Aead, secret: Secret, nonce: Nonce, dest: Key, mail: Mail): Option<Bytes> {
    match SealedPacket(aead, secret, nonce, dest, mail)
    case None => None
    case Some(packet) => PacketBytes(packet)
  }

  /** What the server looks at when relaying: the active connections and the sessions' participants. */
  datatype Tables = Tables(active: set<Key>, sessions: map<Id, set<Key>>)

  /** Why the server may refuse to relay, in the order it looks. */
  datatype RelayError =
    Undecodable | NotAPeerMessage | SessionNotFound | NotSessionParticipant | PeerNotFound | EncodeFailed

  function Objection(tables: Tables, dest: Key, session: Option<Id>): Option<RelayError> {
    if session.Some? && session.value !in tables.sessions then Some(SessionNotFound)
    else if session.Some? && dest !in tables.sessions[session.value] then Some(NotSessionParticipant)
    else if dest !in tables.active then Some(PeerNotFound)
    else None
  }

  predicate Admits(tables: Tables, dest: Key, session: Option<Id>) {
    Objection(tables, dest, session).None?
  }

  /** The server's step: decode, check, replace the receiver's key by the sender's, encode. */
  function Forwarded(tables: Tables, from: Key, request: Bytes): Result<(Key, Bytes), RelayError> {
    match GetPacket(request)
    case Bad => Err(Undecodable)
    case Got(OpaquePacket(PeerMessage(key, session, envelope)), _) =>
      if !Admits(tables, key, session) then Err(Objection(tables, key, session).value)
      else
        (match PacketBytes(PeerPacket(from, session, envelope))
         case None => Err(EncodeFailed)
         case Some(b) => Ok((key, b)))
    case Got(_, _) => Err(NotAPeerMessage)
  }

  /** What became of a response at the receiving client, and its nonce afterwards. */
  datatype Outcome = Outcome(event: Option<Event>, nonce: Nonce)

  function Opened(aead: Aead, secret: Secret, nonce: Nonce, key: Key, session: Option<Id>,
                  envelope: SealedEnvelope): Outcome {
    match Join(aead, secret, nonce, envelope.chunks)
    case JoinFailed(_, n) => Outcome(None, n)
    case Joined(payload, n) => Outcome(Some(Event(key, payload, envelope.encoding.Json?, session)), n)
  }

  /** The receiving client's step, on the channel it shares with `from`. */
  function Received(aead: Aead, secret: Secret, nonce: Nonce, from: Key, response: Bytes): Outcome {
    match GetPacket(response)
    case Got(OpaquePacket(PeerMessage(key, session, envelope)), _) =>
      if key != from then Outcome(None, nonce) else Opened(aead, secret, nonce, key, session, envelope)
    case _ => Outcome(None, nonce)
  }

  /** One mail, all the way. */
  function Relayed(aead: Aead, secret: Secret, sendNonce: Nonce, recvNonce: Nonce, from: Key, dest: Key,
                   tables: Tables, mail: Mail): Outcome {
    match Posted(aead, secret, sendNonce, dest, mail)
    case None => Outcome(None, recvNonce)
    case Some(request) =>
      match Forwarded(tables, from, request)
      case Err(_) => Outcome(None, recvNonce)
      case Ok((key, response)) =>
        if key != dest then Outcome(None, recvNonce) else Received(aead, secret, recvNonce, from, response)
  }

  /** What the server asks of a message, and what it says when that is not so. */
  lemma AdmissionRule(tables: Tables, dest: Key, session: Option<Id>)
    ensures Admits(tables, dest, session) <==>
            && dest in tables.active
            && (session.Some? ==> session.value in tables.sessions && dest in tables.sessions[session.value])
    ensures Objection(tables, dest, session) == Some(SessionNotFound) <==>
            session.Some? && session.value !in tables.sessions
    ensures Objection(tables, dest, session) == Some(NotSessionParticipant) <==>
            session.Some? && session.value in tables.sessions && dest !in tables.sessions[session.value]
    ensures Objection(tables, dest, session) == Some(PeerNotFound) <==>
            && dest !in tables.active
            && (session.Some? ==> session.value in tables.sessions && dest in tables.sessions[session.value])
  {}

  /** The request can be read, as a message from one client to another. */
  predicate IsPeerRequest(request: Bytes) {
    var r := GetPacket(request);
    r.Got? && r.value.OpaquePacket? && r.value.opaqueMessage.PeerMessage?
  }

  /** The receiver of a peer request is connected and, if a session is named, belongs to it. */
  predicate MayReach(tables: Tables, m: OpaqueMessage)
    requires m.PeerMessage?
  {
    && m.key in tables.active
    && (m.sessionId.Some? ==> m.sessionId.value in tables.sessions && m.key in tables.sessions[m.sessionId.value])
  }

  /**
   * What becomes of any request at all. It is passed on exactly when it is a peer message whose receiver
   * is connected and belongs to the session named, if any; the receiver then reads the same session and
   * envelope under the sender's key. In every other case the refusal says what was wrong first.
   */
  lemma ForwardingRule(tables: Tables, from: Key, request: Bytes)
    requires |from| <= MAX_BUFFER_SIZE
    ensures var r := Forwarded(tables, from, request);
            && (r == Err(Undecodable) <==> GetPacket(request).Bad?)
            && (r == Err(NotAPeerMessage) <==> GetPacket(request).Got? && !IsPeerRequest(request))
            && (r.Ok? <==> IsPeerRequest(request) && MayReach(tables, GetPacket(request).value.opaqueMessage))
            && (IsPeerRequest(request) ==>
                  var m := GetPacket(request).value.opaqueMessage;
                  && (r == Err(SessionNotFound) <==> m.sessionId.Some? && m.sessionId.value !in tables.sessions)
                  && (r == Err(NotSessionParticipant) <==>
                        && m.sessionId.Some? && m.sessionId.value in tables.sessions
                        && m.key !in tables.sessions[m.sessionId.value])
                  && (r == Err(PeerNotFound) <==>
                        && m.key !in tables.active
                        && (m.sessionId.Some? ==>
                              m.sessionId.value in tables.sessions && m.key in tables.sessions[m.sessionId.value]))
                  && (r.Ok? ==>
                        && r.value.0 == m.key
                        && GetPacket(r.value.1) == Got(PeerPacket(from, m.sessionId, m.envelope), [])))
  {
    hide PacketBytes, GetPacket, EnvelopeFits, Admits, Objection;
    if IsPeerRequest(request) {
      var m := GetPacket(request).value.opaqueMessage;
      AdmissionRule(tables, m.key, m.sessionId);
      DecodedPacketsFit(request);
      var packet := PeerPacket(from, m.sessionId, m.envelope);
      PacketRoundTrip(packet, []);
      assert PacketBytes(packet).value + [] == PacketBytes(packet).value;
    }
  }

  /** All that can go wrong with a mail is its encoding, its size, the keys' sizes and the nonces. */
  predicate MailFits(from: Key, dest: Key, nonce: Nonce, mail: Mail) {
    var count := (|mail.payload| + 65518) / 65519;
    && !mail.encoding.NoEncoding?
    && count < 0x1_0000_0000
    && nonce + count <= MAX_NONCE
    && |from| <= MAX_BUFFER_SIZE
    && |dest| <= MAX_BUFFER_SIZE
  }

  // ---------------------------------------------------------------------------
  // One hop.

  /** What a peer message is read as, whether or not it fits. */
  lemma PeerPacketReads(key: Key, session: Option<Id>, e: SealedEnvelope)
    requires PacketBytes(PeerPacket(key, session, e)).Some?
    ensures |key| <= MAX_BUFFER_SIZE && EnvelopeBytes(e).Some?
    ensures GetPacket(PacketBytes(PeerPacket(key, session, e)).value)
            == match GetEnvelope(EnvelopeBytes(e).value)
               case Bad => Bad
               case Got(read, rest) => Got(PeerPacket(key, session, read), rest)
  {
    hide EnvelopeBytes, GetEnvelope, SessionIdBytes, GetSessionId, GetBuffer, Preamble, GetPreamble, GetU8;
    var k, i, b := BufferBytes(key).value, SessionIdBytes(session), EnvelopeBytes(e).value;
    var body := [OPAQUE_PEER] + (k + (i + b));
    var bytes := Preamble() + ([OPAQUE] + body);
    assert bytes + [] == bytes && b + [] == b && body + [] == body;
    FramedBack(OPAQUE, body, []);
    TagBack(OPAQUE_PEER, k + (i + b), []);
    Regroup(k, i + b, []);
    BufferBack(key, (i + b) + []);
    Regroup(i, b, []);
    SessionIdBack(session, b + []);
  }

  /** The chunk count is read back as it was written: modulo 0x1_0000_0000. */
  lemma EnvelopeReads(e: SealedEnvelope)
    requires EnvelopeBytes(e).Some?
    ensures var r := GetEnvelope(EnvelopeBytes(e).value);
            && (e.encoding.NoEncoding? ==> r.Bad?)
            && (r.Got? ==> |r.value.chunks| == |e.chunks| % 0x1_0000_0000 && r.value.encoding == e.encoding)
  {
    hide GetU8, U32, GetU32, Bool, GetBool, ChunkFits, ChunksBytes, GetChunks;
    var n := |e.chunks| % 0x1_0000_0000;
    var c := ChunksBytes(e.chunks).value;
    var b := EnvelopeBytes(e).value;
    assert b + [] == b;
    EnvelopeHeadBack(EncodingTag(e.encoding), e.broadcast, n, c, []);
    ChunksRead(c + [], n);
  }

  /** A fitting packet, read from exactly its own bytes. */
  lemma PacketReads(p: Packet)
    requires PacketFits(p)
    ensures PacketBytes(p).Some? && GetPacket(PacketBytes(p).value) == Got(p, [])
  {
    hide PacketBytes, GetPacket, PacketFits;
    PacketRoundTrip(p, []);
    assert PacketBytes(p).value + [] == PacketBytes(p).value;
  }

  lemma EnvelopeOfSplitFits(aead: Aead, secret: Secret, nonce: Nonce, from: Key, dest: Key, mail: Mail)
    requires aead.Lawful() && MailFits(from, dest, nonce, mail)
    ensures Split(aead, secret, nonce, mail.payload).Some?
    ensures EnvelopeFits(Envelope(mail, Split(aead, secret, nonce, mail.payload).value))
  {
    hide Split, ChunkFits;
    SplitMakesFittingChunks(aead, secret, nonce, mail.payload);
  }

  lemma PostedIsForwarded(aead: Aead, secret: Secret, nonce: Nonce, from: Key, dest: Key, tables: Tables, mail: Mail)
    requires aead.Lawful() && MailFits(from, dest, nonce, mail)
    ensures Posted(aead, secret, nonce, dest, mail).Some? && Posted(aead, secret, nonce, from, mail).Some?
    ensures var r := Forwarded(tables, from, Posted(aead, secret, nonce, dest, mail).value);
            r == if Admits(tables, dest, mail.session) then Ok((dest, Posted(aead, secret, nonce, from, mail).value))
                 else Err(Objection(tables, dest, mail.session).value)
  {
    hide PacketBytes, GetPacket, Split, EnvelopeFits, Admits;
    EnvelopeOfSplitFits(aead, secret, nonce, from, dest, mail);
    var e := Envelope(mail, Split(aead, secret, nonce, mail.payload).value);
    PacketReads(PeerPacket(dest, mail.session, e));
    PacketReads(PeerPacket(from, mail.session, e));
  }

  lemma PostedIsReceived(aead: Aead, secret: Secret, nonce: Nonce, from: Key, dest: Key, mail: Mail)
    requires aead.Lawful() && MailFits(from, dest, nonce, mail) && Posted(aead, secret, nonce, from, mail).Some?
    ensures Received(aead, secret, nonce, from, Posted(aead, secret, nonce, from, mail).value)
            == Outcome(Some(EventOf(from, mail)), SplitNonce(nonce, mail.payload))
  {
    hide PacketBytes, GetPacket, Split, EnvelopeFits, Join, SplitNonce;
    EnvelopeOfSplitFits(aead, secret, nonce, from, dest, mail);
    var e := Envelope(mail, Split(aead, secret, nonce, mail.payload).value);
    PacketReads(PeerPacket(from, mail.session, e));
    JoinUndoesSplit(aead, secret, nonce, mail.payload);
  }

  /** A payload of 0x1_0000_0000 chunks or more arrives, if at all, cut short. */
  lemma WrappedMailIsCut(aead: Aead, secret: Secret, nonce: Nonce, recvNonce: Nonce, from: Key, dest: Key,
                         tables: Tables, mail: Mail)
    requires aead.Lawful() && (|mail.payload| + 65518) / 65519 >= 0x1_0000_0000
    ensures Relayed(aead, secret, nonce, recvNonce, from, dest, tables, mail).event != Some(EventOf(from, mail))
  {
    hide PacketBytes, GetPacket, Split, EnvelopeFits, Join, Admits, EnvelopeBytes, GetEnvelope;
    SplitMakesFittingChunks(aead, secret, nonce, mail.payload);
    if Posted(aead, secret, nonce, dest, mail).Some? {
      var chunks := Split(aead, secret, nonce, mail.payload).value;
      var e := Envelope(mail, chunks);
      PeerPacketReads(dest, mail.session, e);
      EnvelopeReads(e);
      if GetEnvelope(EnvelopeBytes(e).value).Got?
         && PacketBytes(PeerPacket(from, mail.session, GetEnvelope(EnvelopeBytes(e).value).value)).Some? {
        var read := GetEnvelope(EnvelopeBytes(e).value).value;
        PeerPacketReads(from, mail.session, read);
        EnvelopeReads(read);
        if GetEnvelope(EnvelopeBytes(read).value).Got? {
          var last := GetEnvelope(EnvelopeBytes(read).value).value;
          assert |last.chunks| < 0x1_0000_0000;
          JoinedLength(aead, secret, recvNonce, last.chunks);
        }
      }
    }
  }

  lemma NoEncodingIsRefused(aead: Aead, secret: Secret, nonce: Nonce, recvNonce: Nonce, from: Key, dest: Key,
                            tables: Tables, mail: Mail)
    requires mail.encoding.NoEncoding?
    ensures Relayed(aead, secret, nonce, recvNonce, from, dest, tables, mail) == Outcome(None, recvNonce)
  {
    hide PacketBytes, GetPacket, Split, Join, Admits, EnvelopeBytes, GetEnvelope, Received;
    if Posted(aead, secret, nonce, dest, mail).Some? {
      var e := Envelope(mail, Split(aead, secret, nonce, mail.payload).value);
      PeerPacketReads(dest, mail.session, e);
      EnvelopeReads(e);
    }
  }

  lemma LongKeysAreRefused(aead: Aead, secret: Secret, nonce: Nonce, recvNonce: Nonce, from: Key, dest: Key,
                           tables: Tables, mail: Mail)
    requires |from| > MAX_BUFFER_SIZE || |dest| > MAX_BUFFER_SIZE
    ensures Relayed(aead, secret, nonce, recvNonce, from, dest, tables, mail) == Outcome(None, recvNonce)
  {
    hide PacketBytes, GetPacket, Split, Join, Admits, EnvelopeBytes, GetEnvelope, Received;
    if Posted(aead, secret, nonce, dest, mail).Some? {
      var request := Posted(aead, secret, nonce, dest, mail).value;
      PeerPacketReads(dest, mail.session, Envelope(mail, Split(aead, secret, nonce, mail.payload).value));
      match GetPacket(request)
      case Got(OpaquePacket(PeerMessage(_, session, envelope)), _) =>
        if PacketBytes(PeerPacket(from, session, envelope)).Some? {
          PeerPacketReads(from, session, envelope);
        }
      case _ =>
    }
  }

  /**
   * End to end: a mail between clients with a matched channel, admitted by the server, arrives as it
   * was sent and leaves both nonces equal exactly when it fits.
   */
  lemma RelayIsFaithful(aead: Aead, secret: Secret, nonce: Nonce, from: Key, dest: Key, tables: Tables, mail: Mail)
    requires aead.Lawful() && Admits(tables, dest, mail.session)
    ensures Relayed(aead, secret, nonce, nonce, from, dest, tables, mail)
            == Outcome(Some(Event(from, mail.payload, mail.encoding.Json?, mail.session)),
                       SplitNonce(nonce, mail.payload))
            <==> MailFits(from, dest, nonce, mail)
  {
    hide PacketBytes, GetPacket, Split, SplitNonce, Join, Admits, Received, Posted, Forwarded;
    if MailFits(from, dest, nonce, mail) {
      PostedIsForwarded(aead, secret, nonce, from, dest, tables, mail);
      PostedIsReceived(aead, secret, nonce, from, dest, mail);
    } else if mail.encoding.NoEncoding? {
      NoEncodingIsRefused(aead, secret, nonce, nonce, from, dest, tables, mail);
    } else if |from| > MAX_BUFFER_SIZE || |dest| > MAX_BUFFER_SIZE {
      LongKeysAreRefused(aead, secret, nonce, nonce, from, dest, tables, mail);
    } else if (|mail.payload| + 65518) / 65519 >= 0x1_0000_0000 {
      WrappedMailIsCut(aead, secret, nonce, nonce, from, dest, tables, mail);
    } else {
      SpentNoncesPostNothing(aead, secret, nonce, dest, mail);
    }
  }

  lemma SpentNoncesPostNothing(aead: Aead, secret: Secret, nonce: Nonce, dest: Key, mail: Mail)
    requires aead.Lawful() && nonce + (|mail.payload| + 65518) / 65519 > MAX_NONCE
    ensures Posted(aead, secret, nonce, dest, mail) == None
  {
    hide PacketBytes, Split;
    SplitMakesFittingChunks(aead, secret, nonce, mail.payload);
  }

  // ---------------------------------------------------------------------------
  // A refused mail takes the channel with it.

  /** A sealed text opens under no other nonce. */
  ghost predicate Binding(aead: Aead, secret: Secret) {
    forall m: Nonce, n: Nonce, p: Bytes :: m != n ==> OpensOnlyAt(aead, secret, m, n, p)
  }

  ghost predicate OpensOnlyAt(aead: Aead, secret: Secret, m: Nonce, n: Nonce, p: Bytes) {
    aead.open(secret, n, aead.seal(secret, m, p)).None?
  }

  /** What arrives of a series of mails, each relayed before the next is sent. */
  function Deliveries(aead: Aead, secret: Secret, sendNonce: Nonce, recvNonce: Nonce, from: Key, dest: Key,
                      tables: Tables, mails: seq<Mail>): seq<Event>
    decreases |mails|
  {
    if mails == [] then []
    else
      var o := Relayed(aead, secret, sendNonce, recvNonce, from, dest, tables, mails[0]);
      (if o.event.None? then [] else [o.event.value])
      + Deliveries(aead, secret, SplitNonce(sendNonce, mails[0].payload), o.nonce, from, dest, tables, mails[1..])
  }

  lemma OutOfStepIsLost(aead: Aead, secret: Secret, sendNonce: Nonce, recvNonce: Nonce, from: Key, dest: Key,
                        tables: Tables, mail: Mail)
    requires aead.Lawful() && Binding(aead, secret) && recvNonce != sendNonce
    requires mail.payload != [] && MailFits(from, dest, sendNonce, mail)
    ensures Relayed(aead, secret, sendNonce, recvNonce, from, dest, tables, mail) == Outcome(None, recvNonce)
  {
    hide PacketBytes, GetPacket, EnvelopeFits, SplitNonce, Admits, Forwarded;
    PostedIsForwarded(aead, secret, sendNonce, from, dest, tables, mail);
    EnvelopeOfSplitFits(aead, secret, sendNonce, from, dest, mail);
    var chunks := Split(aead, secret, sendNonce, mail.payload).value;
    PacketReads(PeerPacket(from, mail.session, Envelope(mail, chunks)));
    var piece := mail.payload[..PieceSize(|mail.payload|)];
    assert chunks[0] == SealPiece(aead, secret, sendNonce, piece);
    assert chunks[0].contents[..chunks[0].length] == chunks[0].contents;
    assert OpensOnlyAt(aead, secret, sendNonce, recvNonce, piece);
  }

  /** A mail without payload has no chunks, and needs no nonce. */
  lemma EmptyMailArrives(aead: Aead, secret: Secret, sendNonce: Nonce, recvNonce: Nonce, from: Key, dest: Key,
                         tables: Tables, mail: Mail)
    requires aead.Lawful() && Admits(tables, dest, mail.session)
    requires mail.payload == [] && MailFits(from, dest, sendNonce, mail)
    ensures Relayed(aead, secret, sendNonce, recvNonce, from, dest, tables, mail)
            == Outcome(Some(EventOf(from, mail)), recvNonce)
  {
    hide PacketBytes, GetPacket, EnvelopeFits, Admits, Forwarded;
    PostedIsForwarded(aead, secret, sendNonce, from, dest, tables, mail);
    EnvelopeOfSplitFits(aead, secret, sendNonce, from, dest, mail);
    PacketReads(PeerPacket(from, mail.session, Envelope(mail, [])));
  }

  /** A fitting mail the server admits arrives exactly when it is empty or the two nonces are equal. */
  lemma ArrivesIffInStep(aead: Aead, secret: Secret, sendNonce: Nonce, recvNonce: Nonce, from: Key, dest: Key,
                         tables: Tables, mail: Mail)
    requires aead.Lawful() && Binding(aead, secret)
    requires MailFits(from, dest, sendNonce, mail) && Admits(tables, dest, mail.session)
    ensures Relayed(aead, secret, sendNonce, recvNonce, from, dest, tables, mail).event == Some(EventOf(from, mail))
            <==> mail.payload == [] || recvNonce == sendNonce
  {
    hide Relayed, Binding, MailFits, Admits;
    if mail.payload == [] {
      EmptyMailArrives(aead, secret, sendNonce, recvNonce, from, dest, tables, mail);
    } else if recvNonce == sendNonce {
      RelayIsFaithful(aead, secret, sendNonce, from, dest, tables, mail);
    } else {
      OutOfStepIsLost(aead, secret, sendNonce, recvNonce, from, dest, tables, mail);
    }
  }

  lemma LostOrUnfit(aead: Aead, secret: Secret, sendNonce: Nonce, recvNonce: Nonce, from: Key, dest: Key,
                    tables: Tables, mail: Mail)
    requires aead.Lawful() && Binding(aead, secret) && recvNonce < sendNonce
    requires mail.payload != [] && (|mail.payload| + 65518) / 65519 < 0x1_0000_0000
    ensures Relayed(aead, secret, sendNonce, recvNonce, from, dest, tables, mail) == Outcome(None, recvNonce)
  {
    hide PacketBytes, GetPacket, Split, SplitNonce, Join, Admits, Received, Posted, Forwarded, Binding;
    if MailFits(from, dest, sendNonce, mail) {
      OutOfStepIsLost(aead, secret, sendNonce, recvNonce, from, dest, tables, mail);
    } else if mail.encoding.NoEncoding? {
      NoEncodingIsRefused(aead, secret, sendNonce, recvNonce, from, dest, tables, mail);
    } else if |from| > MAX_BUFFER_SIZE || |dest| > MAX_BUFFER_SIZE {
      LongKeysAreRefused(aead, secret, sendNonce, recvNonce, from, dest, tables, mail);
    } else {
      SpentNoncesPostNothing(aead, secret, sendNonce, dest, mail);
    }
  }

  /**
   * The sender's nonce advances when it seals, before the server decides. Once the receiver is behind,
   * no later message with a payload gets through: the state of a channel after any refusal.
   */
  lemma {:induction false} OneRefusalEndsTheChannel(aead: Aead, secret: Secret, sendNonce: Nonce, recvNonce: Nonce,
                                                    from: Key, dest: Key,
                                                    tables: Tables, mails: seq<Mail>)
    requires aead.Lawful() && Binding(aead, secret) && recvNonce < sendNonce
    requires forall m <- mails :: m.payload != [] && (|m.payload| + 65518) / 65519 < 0x1_0000_0000
    ensures Deliveries(aead, secret, sendNonce, recvNonce, from, dest, tables, mails) == []
    decreases |mails|
  {
    hide Relayed, MailFits;
    if mails != [] {
      var mail := mails[0];
      LostOrUnfit(aead, secret, sendNonce, recvNonce, from, dest, tables, mail);
      OneRefusalEndsTheChannel(aead, secret, SplitNonce(sendNonce, mail.payload), recvNonce, from, dest, tables,
                               mails[1..]);
    }
  }

  /** From channels in step: a mail the server turns away silences everything behind it. */
  lemma RefusalSilences(aead: Aead, secret: Secret, nonce: Nonce, from: Key, dest: Key, refusing: Tables,
                        tables: Tables, mail: Mail, mails: seq<Mail>)
    requires aead.Lawful() && Binding(aead, secret)
    requires MailFits(from, dest, nonce, mail) && mail.payload != [] && !Admits(refusing, dest, mail.session)
    requires forall m <- mails :: m.payload != [] && (|m.payload| + 65518) / 65519 < 0x1_0000_0000
    ensures var o := Relayed(aead, secret, nonce, nonce, from, dest, refusing, mail);
            && o.event == None
            && Deliveries(aead, secret, SplitNonce(nonce, mail.payload), o.nonce, from, dest, tables, mails) == []
  {
    hide Admits, Posted, Forwarded, Received, Deliveries, Binding;
    PostedIsForwarded(aead, secret, nonce, from, dest, refusing, mail);
    PiecesIsCeiling(|mail.payload|);
    OneRefusalEndsTheChannel(aead, secret, SplitNonce(nonce, mail.payload), nonce, from, dest, tables, mails);
  }

  /** The next mail with a payload gets through exactly when the refused one had none. */
  lemma RefusalHarmlessIffEmpty(aead: Aead, secret: Secret, nonce: Nonce, from: Key, dest: Key, refusing: Tables,
                                tables: Tables, mail: Mail, next: Mail)
    requires aead.Lawful() && Binding(aead, secret)
    requires MailFits(from, dest, nonce, mail) && !Admits(refusing, dest, mail.session)
    requires next.payload != [] && Admits(tables, dest, next.session)
    requires MailFits(from, dest, SplitNonce(nonce, mail.payload), next)
    ensures var o := Relayed(aead, secret, nonce, nonce, from, dest, refusing, mail);
            Relayed(aead, secret, SplitNonce(nonce, mail.payload), o.nonce, from, dest, tables, next).event
              == Some(EventOf(from, next))
            <==> mail.payload == []
  {
    hide Admits, Posted, Forwarded, Received, Binding;
    PostedIsForwarded(aead, secret, nonce, from, dest, refusing, mail);
    PiecesIsCeiling(|mail.payload|);
    ArrivesIffInStep(aead, secret, SplitNonce(nonce, mail.payload), nonce, from, dest, tables, next);
  }

  // ---------------------------------------------------------------------------
  // Ciphers that meet these laws exist.

  /** A nonce in 16 bytes. */
  function NonceTag(nonce: nat): (tag: Bytes)
    ensures |tag| == TAGLEN
  {
    U32(nonce % 0x1_0000_0000) + (U32(nonce / 0x1_0000_0000 % 0x1_0000_0000) + seq(8, _ => 0))
  }

  lemma NonceTagTellsApart(m: Nonce, n: Nonce)
    requires NonceTag(m) == NonceTag(n)
    ensures m == n
  {
    hide U32, GetU32;
    var zeros: Bytes := seq(8, _ => 0);
    U32Back(m % 0x1_0000_0000, U32(m / 0x1_0000_0000) + zeros);
    U32Back(n % 0x1_0000_0000, U32(n / 0x1_0000_0000) + zeros);
    U32Back(m / 0x1_0000_0000, zeros);
    U32Back(n / 0x1_0000_0000, zeros);
  }

  function PlainSeal(secret: Secret, nonce: nat, p: Bytes): Bytes {
    p + NonceTag(nonce)
  }

  function PlainOpen(secret: Secret, nonce: nat, c: Bytes): Option<Bytes> {
    if |c| >= TAGLEN && c[|c| - TAGLEN..] == NonceTag(nonce) then Some(c[..|c| - TAGLEN]) else None
  }

  /** The text in the clear behind its nonce: no secrecy, but all that is assumed of a cipher here. */
  lemma LawfulBindingCipher(secret: Secret)
    ensures Aead(PlainSeal, PlainOpen).Lawful() && Binding(Aead(PlainSeal, PlainOpen), secret)
  {
    hide NonceTag;
    var aead := Aead(PlainSeal, PlainOpen);
    forall key, nonce, p ensures aead.Opens(key, nonce, p) {
      PlainTail(p, nonce);
    }
    forall m: Nonce, n: Nonce, p: Bytes | m != n ensures OpensOnlyAt(aead, secret, m, n, p) {
      PlainTail(p, m);
      if NonceTag(m) == NonceTag(n) {
        NonceTagTellsApart(m, n);
      }
    }
  }

  lemma PlainTail(p: Bytes, nonce: nat)
    ensures var c := p + NonceTag(nonce); c[|c| - TAGLEN..] == NonceTag(nonce) && c[..|c| - TAGLEN] == p
  {}
}
