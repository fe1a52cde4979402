// A whole conversation in one direction: sends, relays and deliveries interleaved at will over
// first-in-first-out hops.
module Stream {
  import opened Basics
  import opened Wire
  import opened Chunks
  import opened Relay

  /** What does not change: the cipher, the shared secret and the two ends. */
  datatype Channel = Channel(aead: Aead, secret: Secret, from: Key, dest: Key)

  datatype Link = Link(
    sendNonce: Nonce,
    recvNonce: Nonce,
    toServer: seq<Bytes>,
    toPeer: seq<Bytes>,
    sent: seq<Mail>,
    received: seq<Event>,
    failed: bool)

  datatype Action = Send(mail: Mail) | Forward(tables: Tables) | Deliver

  const FRESH := Link(0, 0, [], [], [], [], false)

  function Step(ch: Channel, link: Link, action: Action): Link {
    match action
    case Send(mail) =>
      (match Posted(ch.aead, ch.secret, link.sendNonce, ch.dest, mail)
       case None => link.(sendNonce := SplitNonce(link.sendNonce, mail.payload), failed := true)
       case Some(request) =>
         link.(sendNonce := SplitNonce(link.sendNonce, mail.payload), toServer := link.toServer + [request],
               sent := link.sent + [mail]))
    case Forward(tables) =>
      if link.toServer == [] then link
      else
        (match Forwarded(tables, ch.from, link.toServer[0])
         case Err(_) => link.(toServer := link.toServer[1..], failed := true)
         case Ok((key, response)) =>
           if key == ch.dest then link.(toServer := link.toServer[1..], toPeer := link.toPeer + [response])
           else link.(toServer := link.toServer[1..], failed := true))
    case Deliver =>
      if link.toPeer == [] then link
      else
        var o := Received(ch.aead, ch.secret, link.recvNonce, ch.from, link.toPeer[0]);
        if o.event.None? then link.(toPeer := link.toPeer[1..], recvNonce := o.nonce, failed := true)
        else link.(toPeer := link.toPeer[1..], recvNonce := o.nonce, received := link.received + [o.event.value])
  }

  function Run(ch: Channel, link: Link, actions: seq<Action>): Link
    decreases |actions|
  {
    if actions == [] then link else Run(ch, Step(ch, link, actions[0]), actions[1..])
  }

  /** Sends fit the channel, and the server admits the mail at the head of its queue. */
  predicate Admissible(ch: Channel, link: Link, action: Action) {
    match action
    case Send(mail) => MailFits(ch.from, ch.dest, link.sendNonce, mail)
    case Forward(tables) =>
      var k := |link.received| + |link.toPeer|;
      k < |link.sent| ==> Admits(tables, ch.dest, link.sent[k].session)
    case Deliver => true
  }

  predicate AllAdmissible(ch: Channel, link: Link, actions: seq<Action>)
    decreases |actions|
  {
    actions == [] || (Admissible(ch, link, actions[0]) && AllAdmissible(ch, Step(ch, link, actions[0]), actions[1..]))
  }

  // ---------------------------------------------------------------------------
  // The invariant.

  /** The nonce a side reaches by handling these mails from a fresh start. */
  function NonceAfter(mails: seq<Mail>): Nonce {
    if mails == [] then 0 else SplitNonce(NonceAfter(mails[..|mails| - 1]), mails[|mails| - 1].payload)
  }

  /** A packet in flight is the k-th mail, sealed from the nonce behind its predecessors. */
  ghost predicate Carries(ch: Channel, packet: Bytes, key: Key, sent: seq<Mail>, k: nat) {
    && k < |sent|
    && Posted(ch.aead, ch.secret, NonceAfter(sent[..k]), key, sent[k]) == Some(packet)
    && MailFits(ch.from, ch.dest, NonceAfter(sent[..k]), sent[k])
  }

  /** A queue carries consecutive mails, the first of them number `start`. */
  ghost predicate QueueCarries(ch: Channel, queue: seq<Bytes>, key: Key, sent: seq<Mail>, start: nat) {
    forall i: nat :: i < |queue| ==> Carries(ch, queue[i], key, sent, start + i)
  }

  ghost predicate AllReceived(from: Key, sent: seq<Mail>, received: seq<Event>) {
    |received| <= |sent| && forall i: nat :: i < |received| ==> received[i] == EventOf(from, sent[i])
  }

  ghost predicate LinkInv(ch: Channel, link: Link) {
    var r, p := |link.received|, |link.toPeer|;
    && !link.failed
    && |link.sent| == r + p + |link.toServer|
    && AllReceived(ch.from, link.sent, link.received)
    && QueueCarries(ch, link.toPeer, ch.from, link.sent, r)
    && QueueCarries(ch, link.toServer, ch.dest, link.sent, r + p)
    && link.sendNonce == NonceAfter(link.sent)
    && link.recvNonce == NonceAfter(link.sent[..r])
  }

  lemma CarriesStill(ch: Channel, packet: Bytes, key: Key, sent: seq<Mail>, k: nat, mail: Mail)
    requires Carries(ch, packet, key, sent, k)
    ensures Carries(ch, packet, key, sent + [mail], k)
  {
    hide Posted, MailFits, NonceAfter;
    assert (sent + [mail])[..k] == sent[..k];
  }

  lemma QueueCarriesStill(ch: Channel, queue: seq<Bytes>, key: Key, sent: seq<Mail>, start: nat, mail: Mail)
    requires QueueCarries(ch, queue, key, sent, start)
    ensures QueueCarries(ch, queue, key, sent + [mail], start)
  {
    hide Carries;
    forall i: nat | i < |queue| ensures Carries(ch, queue[i], key, sent + [mail], start + i) {
      CarriesStill(ch, queue[i], key, sent, start + i, mail);
    }
  }

  lemma QueueGrows(ch: Channel, queue: seq<Bytes>, key: Key, sent: seq<Mail>, start: nat, packet: Bytes)
    requires QueueCarries(ch, queue, key, sent, start) && Carries(ch, packet, key, sent, start + |queue|)
    ensures QueueCarries(ch, queue + [packet], key, sent, start)
  {
    hide Carries;
  }

  lemma QueueShrinks(ch: Channel, queue: seq<Bytes>, key: Key, sent: seq<Mail>, start: nat)
    requires queue != [] && QueueCarries(ch, queue, key, sent, start)
    ensures Carries(ch, queue[0], key, sent, start)
    ensures QueueCarries(ch, queue[1..], key, sent, start + 1)
  {
    hide Carries;
    assert Carries(ch, queue[0], key, sent, start + 0);
    forall i: nat | i < |queue[1..]| ensures Carries(ch, queue[1..][i], key, sent, start + 1 + i) {
      assert Carries(ch, queue[i + 1], key, sent, start + (i + 1));
    }
  }

  lemma NonceStep(mails: seq<Mail>, k: nat)
    requires k < |mails|
    ensures NonceAfter(mails[..k + 1]) == SplitNonce(NonceAfter(mails[..k]), mails[k].payload)
  {
    assert mails[..k + 1][..k] == mails[..k];
  }

  lemma SendKeeps(ch: Channel, link: Link, mail: Mail)
    requires ch.aead.Lawful() && LinkInv(ch, link) && Admissible(ch, link, Send(mail))
    ensures LinkInv(ch, Step(ch, link, Send(mail)))
  {
    hide Posted, QueueCarries, MailFits, SplitNonce, Forwarded;
    PostedIsForwarded(ch.aead, ch.secret, link.sendNonce, ch.from, ch.dest, Tables({}, map[]), mail);
    var next := Step(ch, link, Send(mail));
    var k := |link.sent|;
    assert next.sent[..k] == link.sent && next.sent[..k + 1] == next.sent;
    assert next.sent[..|link.received|] == link.sent[..|link.received|];
    NonceStep(next.sent, k);
    QueueCarriesStill(ch, link.toPeer, ch.from, link.sent, |link.received|, mail);
    QueueCarriesStill(ch, link.toServer, ch.dest, link.sent, |link.received| + |link.toPeer|, mail);
    QueueGrows(ch, link.toServer, ch.dest, next.sent, |link.received| + |link.toPeer|, next.toServer[|link.toServer|]);
  }

  lemma ForwardKeeps(ch: Channel, link: Link, tables: Tables)
    requires ch.aead.Lawful() && LinkInv(ch, link) && Admissible(ch, link, Forward(tables))
    ensures LinkInv(ch, Step(ch, link, Forward(tables)))
  {
    hide Posted, QueueCarries, MailFits, SplitNonce, Forwarded, NonceAfter, Admits, AllReceived;
    if link.toServer != [] {
      var k := |link.received| + |link.toPeer|;
      QueueShrinks(ch, link.toServer, ch.dest, link.sent, k);
      PostedIsForwarded(ch.aead, ch.secret, NonceAfter(link.sent[..k]), ch.from, ch.dest, tables, link.sent[k]);
      var response := Posted(ch.aead, ch.secret, NonceAfter(link.sent[..k]), ch.from, link.sent[k]).value;
      QueueGrows(ch, link.toPeer, ch.from, link.sent, |link.received|, response);
    }
  }

  lemma DeliverKeeps(ch: Channel, link: Link)
    requires ch.aead.Lawful() && LinkInv(ch, link)
    ensures LinkInv(ch, Step(ch, link, Deliver))
  {
    hide Posted, QueueCarries, MailFits, SplitNonce, Received, NonceAfter;
    if link.toPeer != [] {
      var r := |link.received|;
      QueueShrinks(ch, link.toPeer, ch.from, link.sent, r);
      PostedIsReceived(ch.aead, ch.secret, link.recvNonce, ch.from, ch.dest, link.sent[r]);
      NonceStep(link.sent, r);
    }
  }

  lemma {:induction false} RunKeepsInv(ch: Channel, link: Link, actions: seq<Action>)
    requires ch.aead.Lawful() && LinkInv(ch, link) && AllAdmissible(ch, link, actions)
    ensures LinkInv(ch, Run(ch, link, actions))
    decreases |actions|
  {
    hide LinkInv, Step, Admissible;
    if actions != [] {
      match actions[0] {
        case Send(mail) => SendKeeps(ch, link, mail);
        case Forward(tables) => ForwardKeeps(ch, link, tables);
        case Deliver => DeliverKeeps(ch, link);
      }
      RunKeepsInv(ch, Step(ch, link, actions[0]), actions[1..]);
    }
  }

  /**
   * In every admissible run nothing fails, what has arrived is what was sent, in order and unaltered,
   * and once nothing is in flight everything has arrived and the two nonces are equal.
   */
  lemma StreamArrivesInOrder(ch: Channel, actions: seq<Action>)
    requires ch.aead.Lawful() && AllAdmissible(ch, FRESH, actions)
    ensures var link := Run(ch, FRESH, actions);
            && !link.failed
            && |link.received| <= |link.sent|
            && (forall i: nat :: i < |link.received| ==>
                  var mail := link.sent[i];
                  link.received[i] == Event(ch.from, mail.payload, mail.encoding.Json?, mail.session))
            && (link.toServer == [] && link.toPeer == [] ==>
                |link.received| == |link.sent| && link.recvNonce == link.sendNonce)
  {
    hide Step, Admissible, Run, AllAdmissible, Carries;
    assert LinkInv(ch, FRESH);
    RunKeepsInv(ch, FRESH, actions);
    var link := Run(ch, FRESH, actions);
    assert link.sent[..|link.sent|] == link.sent;
  }
}
