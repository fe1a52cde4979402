// The client's side of relaying: the peer table, whose transport states are advanced in place, and the
// queue of requests to the server.
module Client {
  import opened Basics
  import opened Wire
  import opened Chunks
  import opened Relay

  datatype Peer = Handshaking | Connected(state: TransportState)

  datatype ClientError = UnknownPeer | NotTransportState | SealFailed | OpenFailed(error: JoinError)

  /** The sending side of a channel. */
  datatype Side = Side(aead: Aead, secret: Secret, nonce: Nonce)
  {
    function Seal(key: Key, mail: Mail): Option<Packet> {
      SealedPacket(aead, secret, nonce, key, mail)
    }

    function After(mail: Mail): Side {
      this.(nonce := SplitNonce(nonce, mail.payload))
    }
  }

  /** What a broadcast queues, how it leaves the channels, and whether it got to the end. */
  datatype Sent = Sent(packets: seq<Packet>, sides: map<Key, Side>, ok: bool)

  function Broadcast(sides: map<Key, Side>, recipients: seq<Key>, mail: Mail): Sent
    decreases |recipients|
  {
    if recipients == [] then Sent([], sides, true)
    else if recipients[0] !in sides then Sent([], sides, false)
    else
      var side := sides[recipients[0]];
      var next := sides[recipients[0] := side.After(mail)];
      match side.Seal(recipients[0], mail)
      case None => Sent([], next, false)
      case Some(packet) => Queued([packet], Broadcast(next, recipients[1..], mail))
  }

  function Queued(packets: seq<Packet>, sent: Sent): Sent {
    sent.(packets := packets + sent.packets)
  }

  lemma NothingQueued(sent: Sent)
    ensures Queued([], sent) == sent
  {
    assert [] + sent.packets == sent.packets;
  }

  lemma QueuedTwice(packets: seq<Packet>, packet: Packet, sent: Sent)
    ensures Queued(packets, Queued([packet], sent)) == Queued(packets + [packet], sent)
  {
    Regroup(packets, [packet], sent.packets);
  }

  /** The i-th recipient got its packet, sealed on its own channel, which advanced. */
  ghost predicate Got(sides: map<Key, Side>, sent: Sent, recipients: seq<Key>, mail: Mail, i: nat)
    requires i < |recipients|
  {
    && recipients[i] in sides && i < |sent.packets|
    && sides[recipients[i]].Seal(recipients[i], mail) == Some(sent.packets[i])
    && recipients[i] in sent.sides && sent.sides[recipients[i]] == sides[recipients[i]].After(mail)
  }

  /**
   * With distinct recipients, the first k of them get a packet each, sealed on their own channels, which
   * advance; the next, if any, is not connected or its nonces do not suffice, and no other channel changes.
   */
  lemma {:induction false} BroadcastReachesEach(sides: map<Key, Side>, recipients: seq<Key>, mail: Mail)
    returns (k: nat)
    requires Distinct(recipients)
    ensures var sent := Broadcast(sides, recipients, mail);
            && k <= |recipients| && |sent.packets| == k && (sent.ok <==> k == |recipients|)
            && (forall i: nat :: i < k ==> Got(sides, sent, recipients, mail, i))
            && (k < |recipients| && recipients[k] in sides ==> sides[recipients[k]].Seal(recipients[k], mail).None?)
            && sent.sides.Keys == sides.Keys
    ensures forall key <- sides :: key !in recipients ==> Broadcast(sides, recipients, mail).sides[key] == sides[key]
    ensures forall i: nat :: k < i < |recipients| && recipients[i] in sides ==>
              Broadcast(sides, recipients, mail).sides[recipients[i]] == sides[recipients[i]]
    decreases |recipients|
  {
    if recipients == [] || recipients[0] !in sides || sides[recipients[0]].Seal(recipients[0], mail).None? {
      k := 0;
    } else {
      hide SealedPacket, SplitNonce, Broadcast, Got;
      var first, tail := recipients[0], recipients[1..];
      var next := sides[first := sides[first].After(mail)];
      DistinctTail(recipients);
      var k1 := BroadcastReachesEach(next, tail, mail);
      k := k1 + 1;
      BroadcastFirst(sides, recipients, mail);
      forall i: nat | i < k ensures Got(sides, Broadcast(sides, recipients, mail), recipients, mail, i) {
        if i > 0 {
          assert Got(next, Broadcast(next, tail, mail), tail, mail, i - 1);
          GotLater(sides, recipients, mail, i);
        } else {
          GotFirst(sides, recipients, mail);
        }
      }
      forall i: nat | k < i < |recipients| && recipients[i] in sides
        ensures Broadcast(sides, recipients, mail).sides[recipients[i]] == sides[recipients[i]]
      {
        assert tail[i - 1] == recipients[i] && recipients[i] != first;
      }
    }
  }

  lemma DistinctTail(recipients: seq<Key>)
    requires Distinct(recipients) && recipients != []
    ensures Distinct(recipients[1..]) && recipients[0] !in recipients[1..]
  {
    var tail := recipients[1..];
    assert forall i, j :: 0 <= i < j < |tail| ==> tail[i] == recipients[i + 1] && tail[j] == recipients[j + 1];
    assert forall i :: 0 <= i < |tail| ==> tail[i] == recipients[i + 1] && tail[i] != recipients[0];
  }

  /** The first of several recipients. */
  lemma BroadcastFirst(sides: map<Key, Side>, recipients: seq<Key>, mail: Mail)
    requires recipients != [] && recipients[0] in sides && sides[recipients[0]].Seal(recipients[0], mail).Some?
    ensures var side := sides[recipients[0]];
            Broadcast(sides, recipients, mail)
            == Queued([side.Seal(recipients[0], mail).value],
                      Broadcast(sides[recipients[0] := side.After(mail)], recipients[1..], mail))
  {
    hide SealedPacket, SplitNonce;
  }

  lemma GotFirst(sides: map<Key, Side>, recipients: seq<Key>, mail: Mail)
    requires recipients != [] && recipients[0] in sides && sides[recipients[0]].Seal(recipients[0], mail).Some?
    requires recipients[0] !in recipients[1..]
    requires var next := sides[recipients[0] := sides[recipients[0]].After(mail)];
             var sent := Broadcast(next, recipients[1..], mail);
             && sent.sides.Keys == next.Keys
             && forall key <- next :: key !in recipients[1..] ==> sent.sides[key] == next[key]
    ensures Got(sides, Broadcast(sides, recipients, mail), recipients, mail, 0)
  {
    BroadcastFirst(sides, recipients, mail);
    hide SealedPacket, SplitNonce, Broadcast;
  }

  lemma GotLater(sides: map<Key, Side>, recipients: seq<Key>, mail: Mail, i: nat)
    requires 0 < i < |recipients| && recipients[0] in sides && sides[recipients[0]].Seal(recipients[0], mail).Some?
    requires recipients[0] !in recipients[1..]
    requires var next := sides[recipients[0] := sides[recipients[0]].After(mail)];
             Got(next, Broadcast(next, recipients[1..], mail), recipients[1..], mail, i - 1)
    ensures Got(sides, Broadcast(sides, recipients, mail), recipients, mail, i)
  {
    BroadcastFirst(sides, recipients, mail);
    hide SealedPacket, SplitNonce, Broadcast;
    assert recipients[1..][i - 1] == recipients[i];
  }

  class Client {
    var peers: map<Key, Peer>
    var outbound: seq<Packet>

    ghost predicate HasState(key: Key)
      reads this
    {
      key in peers && peers[key].Connected?
    }

    /** Every peer has a transport state of its own. */
    ghost predicate Valid()
      reads this
    {
      forall k, l :: HasState(k) && HasState(l) && k != l ==> peers[k].state != peers[l].state
    }

    ghost function States(): set<TransportState>
      reads this
    {
      set key | key in peers && peers[key].Connected? :: peers[key].state
    }

    /** The connected peers' sending sides. */
    ghost function Sides(): map<Key, Side>
      reads this, States()
    {
      map key | key in peers && peers[key].Connected? ::
        Side(peers[key].state.aead, peers[key].state.sendKey, peers[key].state.sendNonce)
    }

    constructor ()
      ensures Valid() && peers == map[] && outbound == []
    {
      peers, outbound := map[], [];
    }

    /** A request is queued exactly when the peer is connected and its nonces suffice. */
    method Relay(key: Key, mail: Mail) returns (r: Result<(), ClientError>)
      requires Valid()
      modifies this`outbound, if key in peers && peers[key].Connected? then {peers[key].state} else {}
      ensures key !in peers ==> r == Err(UnknownPeer) && outbound == old(outbound)
      ensures key in peers && peers[key].Handshaking? ==> r == Err(NotTransportState) && outbound == old(outbound)
      ensures HasState(key) ==>
                var t := peers[key].state;
                && t.recvNonce == old(t.recvNonce)
                && t.sendNonce == SplitNonce(old(t.sendNonce), mail.payload)
                && match SealedPacket(t.aead, t.sendKey, old(t.sendNonce), key, mail)
                   case None => r == Err(SealFailed) && outbound == old(outbound)
                   case Some(packet) => r == Ok(()) && outbound == old(outbound) + [packet]
    {
      if key !in peers {
        return Err(UnknownPeer);
      }
      match peers[key]
      case Handshaking => return Err(NotTransportState);
      case Connected(state) =>
        var chunks := state.SplitPayload(mail.payload);
        if chunks.None? {
          return Err(SealFailed);
        }
        outbound := outbound + [PeerPacket(key, mail.session, Envelope(mail, chunks.value))];
        return Ok(());
    }

    /** Relaying as one step of a broadcast. */
    method RelayNext(key: Key, mail: Mail) returns (r: Result<(), ClientError>)
      requires Valid()
      modifies this`outbound, States()
      ensures var before := old(Sides());
              if key !in before then r.Err? && outbound == old(outbound) && Sides() == before
              else
                && Sides() == before[key := before[key].After(mail)]
                && match before[key].Seal(key, mail)
                   case None => r.Err? && outbound == old(outbound)
                   case Some(packet) => r.Ok? && outbound == old(outbound) + [packet]
    {
      hide SealedPacket, SplitNonce;
      r := Relay(key, mail);
      ghost var before := old(Sides());
      forall k | k in before && k != key ensures Sides()[k] == before[k] {
        assert HasState(k);
      }
      assert Sides() == if key in before then before[key := before[key].After(mail)] else before;
    }

    /**
     * The payload goes to the recipients in turn, each sealed on its own channel, flagged as a
     * broadcast and tagged with the session; the first failure ends it. A recipient listed twice gets
     * it twice.
     */
    method RelayBroadcast(session: Id, recipients: seq<Key>, payload: Bytes, encoding: Encoding)
      returns (r: Result<(), ClientError>)
      requires Valid()
      modifies this`outbound, States()
      ensures var sent := Broadcast(old(Sides()), recipients, Mail(payload, encoding, true, Some(session)));
              && outbound == old(outbound) + sent.packets && Sides() == sent.sides && (r.Ok? <==> sent.ok)
    {
      hide SealedPacket, SplitNonce;
      var mail := Mail(payload, encoding, true, Some(session));
      ghost var before, sides, sent := outbound, Sides(), [];
      var i := 0;
      assert recipients[0..] == recipients;
      NothingQueued(Broadcast(sides, recipients, mail));
      while i < |recipients|
        invariant i <= |recipients|
        invariant outbound == before + sent
        invariant Broadcast(sides, recipients, mail) == Queued(sent, Broadcast(Sides(), recipients[i..], mail))
      {
        ghost var now := Sides();
        assert recipients[i..][1..] == recipients[i + 1..];
        r := RelayNext(recipients[i], mail);
        if r.Err? {
          assert sent + [] == sent;
          return;
        }
        ghost var packet := now[recipients[i]].Seal(recipients[i], mail).value;
        QueuedTwice(sent, packet, Broadcast(Sides(), recipients[i + 1..], mail));
        sent := sent + [packet];
        i := i + 1;
      }
      assert sent + [] == sent;
      r := Ok(());
    }

    /** A relayed message is opened on the channel shared with its sender. */
    method HandleRelayed(key: Key, session: Option<Id>, envelope: SealedEnvelope)
      returns (r: Result<Event, ClientError>)
      requires Valid()
      modifies if key in peers && peers[key].Connected? then {peers[key].state} else {}
      ensures key !in peers ==> r == Err(UnknownPeer)
      ensures key in peers && peers[key].Handshaking? ==> r == Err(NotTransportState)
      ensures HasState(key) ==>
                var t := peers[key].state;
                var o := Opened(t.aead, t.recvKey, old(t.recvNonce), key, session, envelope);
                && t.sendNonce == old(t.sendNonce)
                && t.recvNonce == o.nonce
                && (o.event.Some? ==> r == Ok(o.event.value))
                && (o.event.None? ==> r.Err?)
    {
      if key !in peers {
        return Err(UnknownPeer);
      }
      match peers[key]
      case Handshaking => return Err(NotTransportState);
      case Connected(state) =>
        var contents := state.JoinChunks(envelope.chunks);
        match contents
        case Err(e) => return Err(OpenFailed(e));
        case Ok(message) => return Ok(Event(key, message, envelope.encoding.Json?, session));
    }
  }
}
