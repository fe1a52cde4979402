// Session establishment and the protocol run after it, together: every client takes its events from one
// queue, first for its session handler and, from SessionActive on, for its bridge. What a bridge sends is
// sealed for its receiver with the transport the two agreed on. The round engine's links are the session
// messages between two clients on their way through the server.
module Conversation {
  import opened Basics
  import opened Rounds
  import opened Bridge
  import opened LockStep
  import opened Wire
  import opened Chunks
  import opened Sealing
  import RN = RoundNetwork
  import Mesh

  /** How round messages become the payloads of session messages, and back. */
  datatype Format<!B> = Format(write: RoundMsg<B> -> Bytes, read: Bytes -> Option<RoundMsg<B>>)

  ghost predicate Lawful<B(!new)>(format: Format<B>) {
    forall m: RoundMsg<B> :: format.read(format.write(m)) == Some(m)
  }

  /**
   * `secret` derives the key of one direction of a channel from the ephemeral keys of the initiator and the
   * responder; its last argument tells whether the initiator sends.
   */
  datatype System<!S, !B, !O> = System(
    p: Protocol<S, B, O>, format: Format<B>, aead: Aead, secret: (Mesh.Ephemeral, Mesh.Ephemeral, bool) -> Secret)

  type Nonces = map<nat, Nonce>

  /**
   * A client's bridge and, per peer, the nonces of its transport states. `stray`: it got a session message
   * when it was not running; `lost`: a message could not be sealed or opened.
   */
  datatype Party<S, B, O> = Party(
    bridge: BridgeState<S, B>, started: bool, outcome: Outcome<O>, stray: bool,
    sending: Nonces, receiving: Nonces, lost: bool)

  datatype Whole<S, B, O> = Whole(mesh: Mesh.World, parties: seq<Party<S, B, O>>)

  function InitialParty<S, B, O>(p: Protocol<S, B, O>, i: nat): Party<S, B, O>
    requires i < p.N()
  {
    Party(BridgeState(Some(p.init[i]), BufferState(FixedRounds(p.rounds, p.N() - 1), map[])),
          false, Pending, false, map[], map[], false)
  }

  function Initial<S, B, O>(sys: System<S, B, O>): Whole<S, B, O> {
    var p := sys.p;
    Whole(Mesh.Initial(p.N()), seq(p.N(), i requires 0 <= i < p.N() => InitialParty(p, i)))
  }

  predicate Sized<S, B, O>(sys: System<S, B, O>, c: Whole<S, B, O>) {
    && |c.parties| == sys.p.N()
    && |c.mesh.clients| == |c.mesh.up| == |c.mesh.down| == sys.p.N()
  }

  /** Clients say only what their bridges send. */
  predicate Enabled<S, B, O>(sys: System<S, B, O>, c: Whole<S, B, O>, a: Mesh.Action)
    requires Sized(sys, c)
  {
    !a.Say? && Mesh.Enabled(sys.p.N(), c.mesh, a)
  }

  // ---------------------------------------------------------------------------
  // Channels.

  /** A transport starts with both nonces at zero. */
  function At(nonces: Nonces, peer: nat): Nonce {
    if peer in nonces then nonces[peer] else 0
  }

  /** The key a client seals messages for a peer with; it has none before its handshake with that peer is done. */
  function SendKey<S, B, O>(sys: System<S, B, O>, c: Mesh.Client, peer: nat): Secret {
    if peer !in c.peers then []
    else
      match c.peers[peer]
      case Handshake(_) => []
      case Transport(own, other, initiator) =>
        if initiator then sys.secret(own, other, true) else sys.secret(other, own, false)
  }

  function ReceiveKey<S, B, O>(sys: System<S, B, O>, c: Mesh.Client, peer: nat): Secret {
    if peer !in c.peers then []
    else
      match c.peers[peer]
      case Handshake(_) => []
      case Transport(own, other, initiator) =>
        if initiator then sys.secret(own, other, false) else sys.secret(other, own, true)
  }

  /**
   * Each direction of a channel has a key of its own: both ends derive one from the initiator's and the
   * responder's ephemeral keys for what the initiator sends, and another for what the responder sends.
   */
  lemma ChannelKeys<S, B, O>(sys: System<S, B, O>, a: Mesh.Client, b: Mesh.Client, i: nat, j: nat)
    requires j in a.peers && i in b.peers && Mesh.Matched(a.peers[j], b.peers[i]) && a.peers[j].initiator
    ensures var e, f := a.peers[j].own, b.peers[i].own;
            && SendKey(sys, a, j) == ReceiveKey(sys, b, i) == sys.secret(e, f, true)
            && SendKey(sys, b, i) == ReceiveKey(sys, a, j) == sys.secret(e, f, false)
  {}

  /** Client i seals a message for its addressee and relays it, or fails to. */
  function TellOne<S, B, O>(sys: System<S, B, O>, w: Mesh.World, party: Party<S, B, O>, i: nat, send: Send<B>)
    : (r: (Mesh.World, Party<S, B, O>))
    requires i < |w.clients| == |w.up|
    ensures |r.0.clients| == |w.clients| == |r.0.up| && r.0.down == w.down && r.0.server == w.server
  {
    var peer := IndexOf(sys.p.session.participants, send.to);
    var m := sys.format.write(send.message);
    var nonce := At(party.sending, peer);
    var told := party.(sending := party.sending[peer := SplitNonce(nonce, m)]);
    if Mesh.TransportError(w.clients[i], peer).Some? then (w, party.(lost := true))
    else
      match Split(sys.aead, SendKey(sys, w.clients[i], peer), nonce, m)
      case None => (w, told.(lost := true))
      case Some(chunks) => (Mesh.SetClient(w, i, Mesh.Speak(w.clients[i], peer, chunks)), told)
  }

  /** Client i tells its messages in turn, up to the first it cannot. */
  function Tell<S, B, O>(sys: System<S, B, O>, w: Mesh.World, party: Party<S, B, O>, i: nat, sends: seq<Send<B>>)
    : (Mesh.World, Party<S, B, O>)
    requires i < |w.clients| == |w.up|
    decreases |sends|
  {
    if sends == [] || party.lost then (w, party)
    else
      var (w1, told) := TellOne(sys, w, party, i, sends[0]);
      Tell(sys, w1, told, i, sends[1..])
  }

  lemma {:induction false} TellSized<S, B, O>(sys: System<S, B, O>, w: Mesh.World, party: Party<S, B, O>, i: nat,
                                              sends: seq<Send<B>>)
    requires i < |w.clients| == |w.up|
    ensures var t := Tell(sys, w, party, i, sends).0;
            |t.clients| == |w.clients| == |t.up| && t.down == w.down && t.server == w.server
    decreases |sends|
  {
    hide TellOne;
    if sends != [] {
      var (w1, told) := TellOne(sys, w, party, i, sends[0]);
      TellSized(sys, w1, told, i, sends[1..]);
    }
  }

  /** What the bridge of client i makes of a message, opened if it is a session message, and what it sends. */
  function React<S, B, O>(sys: System<S, B, O>, c: Mesh.Client, party: Party<S, B, O>, i: nat, m: Mesh.Response)
    : (Party<S, B, O>, seq<Send<B>>)
    requires sys.p.WellFormed() && i < sys.p.N()
  {
    var p := sys.p;
    match m
    case SessionActive =>
      if party.started then (party, [])
      else
        var step := Start(p.driver, p.session, p.KeyOf(i), party.bridge);
        (party.(bridge := step.state, started := true, outcome := step.outcome), step.sends)
    case ChatFrom(peer, sealed) =>
      (match Join(sys.aead, ReceiveKey(sys, c, peer), At(party.receiving, peer), sealed)
       case JoinFailed(_, nonce) => (party.(receiving := party.receiving[peer := nonce], lost := true), [])
       case Joined(payload, nonce) =>
         Hear(p, party.(receiving := party.receiving[peer := nonce]), i, sys.format.read(payload)))
    case _ => (party, [])
  }

  function Hear<S, B, O>(p: Protocol<S, B, O>, party: Party<S, B, O>, i: nat, m: Option<RoundMsg<B>>)
    : (Party<S, B, O>, seq<Send<B>>)
    requires p.WellFormed() && i < p.N()
  {
    if !party.started || !party.outcome.Pending? then (party.(stray := true), [])
    else
      var step := Handle(p.driver, p.session, p.KeyOf(i), party.bridge, JsonMessage(Some(p.session.id), m));
      (party.(bridge := step.state, outcome := step.outcome), step.sends)
  }

  function Act<S, B, O>(sys: System<S, B, O>, c: Whole<S, B, O>, a: Mesh.Action): (c': Whole<S, B, O>)
    requires sys.p.WellFormed() && Sized(sys, c) && Enabled(sys, c, a)
    ensures Sized(sys, c')
  {
    var w := Mesh.Apply(sys.p.N(), c.mesh, a);
    match a
    case ClientTake(i) =>
      var (party, sends) := React(sys, c.mesh.clients[i], c.parties[i], i, c.mesh.down[i][0]);
      TellSized(sys, w, party, i, sends);
      var (w', party') := Tell(sys, w, party, i, sends);
      Whole(w', c.parties[i := party'])
    case _ => Whole(w, c.parties)
  }

  function Exec<S, B, O>(sys: System<S, B, O>, actions: seq<Mesh.Action>): (r: Option<Whole<S, B, O>>)
    requires sys.p.WellFormed()
    ensures r.Some? ==> Sized(sys, r.value)
  {
    if actions == [] then Some(Initial(sys))
    else
      var last := |actions| - 1;
      match Exec(sys, actions[..last])
      case None => None
      case Some(c) => if Enabled(sys, c, actions[last]) then Some(Act(sys, c, actions[last])) else None
  }

  // ---------------------------------------------------------------------------
  // Links.

  /** Session messages for a peer in a request queue. */
  function ToPeer(q: seq<Mesh.Request>, peer: nat): seq<Mesh.Sealed> {
    if q == [] then []
    else (if q[0].Chat? && q[0].to == peer then [q[0].payload] else []) + ToPeer(q[1..], peer)
  }

  /** Session messages from a peer in a response queue. */
  function FromPeer(q: seq<Mesh.Response>, peer: nat): seq<Mesh.Sealed> {
    if q == [] then []
    else (if q[0].ChatFrom? && q[0].peer == peer then [q[0].payload] else []) + FromPeer(q[1..], peer)
  }

  /** What is on its way from client j to client i, oldest first. */
  function Link(w: Mesh.World, j: nat, i: nat): seq<Mesh.Sealed>
    requires j < |w.up| && i < |w.down|
  {
    FromPeer(w.down[i], j) + ToPeer(w.up[j], i)
  }

  function Written<B>(format: Format<B>, ms: seq<RoundMsg<B>>): (r: seq<Bytes>)
    ensures |r| == |ms|
    ensures forall k :: 0 <= k < |ms| ==> r[k] == format.write(ms[k])
  {
    seq(|ms|, k requires 0 <= k < |ms| => format.write(ms[k]))
  }

  /** The nonces of every channel suffice for what the lock-step execution sends over it. */
  ghost predicate NoncesSuffice<S, B, O>(sys: System<S, B, O>)
    requires sys.p.WellFormed()
  {
    forall j: nat, i: nat :: j < sys.p.N() && i < sys.p.N() && i != j ==>
      Volume(Written(sys.format, RN.Flight(sys.p, j, i, 0, sys.p.rounds))) <= MAX_NONCE
  }

  /** What the results about the whole assume of a system: a protocol under its contract, and lawful parts. */
  ghost predicate Sound<S(!new), B(!new), O>(sys: System<S, B, O>, eq: (S, S) -> bool) {
    RN.Contract(sys.p, eq) && Lawful(sys.format) && sys.aead.Lawful() && NoncesSuffice(sys)
  }

  /** The state of the round engine that a state of the whole amounts to. */
  ghost predicate PartyMatches<S, B, O>(c: Whole<S, B, O>, net: RN.Net<S, B, O>, i: nat)
    requires i < |c.parties| && i < |net| && i < |c.mesh.clients|
  {
    var x, nd := c.parties[i], net[i];
    && x.started == nd.started == c.mesh.clients[i].joined
    && x.bridge == nd.bridge && x.outcome == nd.outcome && !x.stray && !x.lost
  }

  /** The session messages in flight are the round messages of the link, sealed in step. */
  ghost predicate LinkMatches<S, B, O>(sys: System<S, B, O>, c: Whole<S, B, O>, net: RN.Net<S, B, O>, j: nat, i: nat)
    requires Sized(sys, c) && j < sys.p.N() && i < sys.p.N() && i < |net|
  {
    && j < |net[i].inbox|
    && InStep(sys.aead, SendKey(sys, c.mesh.clients[j], i), At(c.parties[i].receiving, j), At(c.parties[j].sending, i),
              Written(sys.format, net[i].inbox[j]), Link(c.mesh, j, i))
  }

  /** The sender's nonce is behind everything it has sent so far. */
  ghost predicate VolumeMatches<S, B, O>(sys: System<S, B, O>, c: Whole<S, B, O>, net: RN.Net<S, B, O>, j: nat, i: nat)
    requires sys.p.WellFormed() && j < |c.parties| && j < |net| && j < sys.p.N() && i < sys.p.N()
  {
    At(c.parties[j].sending, i) == Volume(Written(sys.format, RN.Flight(sys.p, j, i, 0, RN.Sent(sys.p, net[j]))))
  }

  ghost predicate Matches<S, B, O>(sys: System<S, B, O>, c: Whole<S, B, O>, net: RN.Net<S, B, O>)
    requires sys.p.WellFormed() && Sized(sys, c)
  {
    && |net| == sys.p.N()
    && (forall i :: 0 <= i < |net| ==> PartyMatches(c, net, i))
    && (forall i, j :: 0 <= i < |net| && 0 <= j < |net| ==> LinkMatches(sys, c, net, j, i))
    && (forall i, j :: 0 <= i < |net| && 0 <= j < |net| && i != j ==> VolumeMatches(sys, c, net, j, i))
  }
}
