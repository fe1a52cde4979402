// Establishing a session: clients shake hands pairwise through the relay and register each
// connection; the server announces the session ready, and active once all pairs are registered.
module Mesh {
  import opened Basics
  import Wire

  /** What a session message carries from one client to another: sealed chunks. */
  type Sealed = seq<Wire.Chunk>

  /** A fresh ephemeral key. */
  datatype Ephemeral = Ephemeral(owner: nat, serial: nat)

  /** A client's entry for a peer, named by its position in the session. */
  datatype PeerState =
    | Handshake(own: Ephemeral)
    | Transport(own: Ephemeral, other: Ephemeral, initiator: bool)

  /** Two transports decrypt each other's messages. */
  predicate Matched(a: PeerState, b: PeerState) {
    a.Transport? && b.Transport? && a.own == b.other && a.other == b.own && a.initiator != b.initiator
  }

  datatype Request =
    | Hello(to: nat, e: Ephemeral)                   // handshake, initiator
    | Answer(to: nat, e: Ephemeral, f: Ephemeral)    // handshake, responder
    | Register(peer: nat)                            // register a connection in the session
    | Chat(to: nat, payload: Sealed)              // a peer message tagged with the session

  datatype Response =
    | HelloFrom(peer: nat, e: Ephemeral)
    | AnswerFrom(peer: nat, e: Ephemeral, f: Ephemeral)
    | ChatFrom(peer: nat, payload: Sealed)
    | SessionCreated
    | SessionReady
    | SessionActive
    | SessionTimeout
    | ServerError

  datatype ClientError =
    | PeerAlreadyExists
    | PeerAlreadyExistsMaybeRace
    | PeerNotFound
    | NotHandshakeState
    | NotTransportState
    | HandshakeFailed
    | SessionUnknown          // the initiator unwraps a session it was not told about
    | ServerFailure

  /**
   * A client during session set-up. `session`: the handler holds the session; `joined`: it saw the
   * session become active; `dropped`: peer messages its session handler ignored.
   */
  datatype Client = Client(
    peers: map<nat, PeerState>, session: bool, joined: bool, serial: nat, dropped: nat, error: Option<ClientError>)

  // ---------------------------------------------------------------------------
  // What a client does, as functions. `own` is its position among n participants.

  function Fail(c: Client, e: ClientError): (Client, seq<Request>) {
    (c.(error := Some(e)), [])
  }

  function ConnectPeer(c: Client, own: nat, peer: nat): (Client, seq<Request>) {
    if peer in c.peers then Fail(c, PeerAlreadyExists)
    else
      var e := Ephemeral(own, c.serial);
      (c.(peers := c.peers[peer := Handshake(e)], serial := c.serial + 1), [Hello(peer, e)])
  }

  /** Handshakes with the peers from `next` on, stopping at the first error. */
  function ConnectFrom(c: Client, own: nat, next: nat, n: nat): (Client, seq<Request>)
    decreases n - next
  {
    if next >= n then (c, [])
    else
      var (c1, sent) := ConnectPeer(c, own, next);
      if c1.error.Some? then (c1, sent)
      else
        var (c2, more) := ConnectFrom(c1, own, next + 1, n);
        (c2, sent + more)
  }

  /** Handshaking goes on for as long as nothing fails, and forgets nobody. */
  lemma {:induction false} ConnectFromKeeps(c: Client, own: nat, next: nat, n: nat)
    ensures var r := ConnectFrom(c, own, next, n).0;
            && r.joined == c.joined && r.session == c.session && c.peers.Keys <= r.peers.Keys
            && (r.error.None? ==> forall k :: next <= k < n ==> k in r.peers)
    decreases n - next
  {
    if next < n {
      var c1 := ConnectPeer(c, own, next).0;
      if c1.error.None? {
        ConnectFromKeeps(c1, own, next + 1, n);
      }
    }
  }

  /** The session handler's reaction to a completed handshake. Participant 0 is the initiator. */
  function PeerConnected(c: Client, own: nat, peer: nat, n: nat): (Client, seq<Request>) {
    if c.joined then (c, [])
    else if c.session then (c, if own < peer < n then [Register(peer)] else [])
    else if own == 0 then Fail(c, SessionUnknown)
    else (c, [])
  }

  function OnHello(c: Client, own: nat, peer: nat, e: Ephemeral, n: nat): (Client, seq<Request>) {
    if peer in c.peers then Fail(c, PeerAlreadyExistsMaybeRace)
    else
      var f := Ephemeral(own, c.serial);
      var c1 := c.(peers := c.peers[peer := Transport(f, e, false)], serial := c.serial + 1);
      var (c2, more) := PeerConnected(c1, own, peer, n);
      (c2, [Answer(peer, e, f)] + more)
  }

  function OnAnswer(c: Client, own: nat, peer: nat, e: Ephemeral, f: Ephemeral, n: nat): (Client, seq<Request>) {
    if peer !in c.peers then Fail(c, PeerNotFound)
    else
      var without := c.(peers := c.peers - {peer});
      match c.peers[peer]
      case Transport(_, _, _) => Fail(without, NotHandshakeState)
      case Handshake(own') =>
        if own' != e then Fail(without, HandshakeFailed)
        else PeerConnected(without.(peers := without.peers[peer := Transport(e, f, true)]), own, peer, n)
  }

  function OnReady(c: Client, own: nat, n: nat): (Client, seq<Request>) {
    ConnectFrom(if own == 0 then c else c.(session := true), own, own + 1, n)
  }

  /** The entry for a peer allows messages to be encrypted and decrypted. */
  function TransportError(c: Client, peer: nat): Option<ClientError> {
    if peer !in c.peers then Some(PeerNotFound)
    else if c.peers[peer].Handshake? then Some(NotTransportState)
    else None
  }

  function OnChat(c: Client, peer: nat): (Client, seq<Request>) {
    var e := TransportError(c, peer);
    if e.Some? then Fail(c, e.value)
    else if c.joined then (c, [])
    else (c.(dropped := c.dropped + 1), [])
  }

  function Speak(c: Client, peer: nat, payload: Sealed): (Client, seq<Request>) {
    var e := TransportError(c, peer);
    if e.Some? then Fail(c, e.value) else (c, [Chat(peer, payload)])
  }

  function ClientStep(c: Client, own: nat, n: nat, r: Response): (Client, seq<Request>) {
    match r
    case HelloFrom(peer, e) => OnHello(c, own, peer, e, n)
    case AnswerFrom(peer, e, f) => OnAnswer(c, own, peer, e, f, n)
    case ChatFrom(peer, _) => OnChat(c, peer)
    case SessionCreated => (if own == 0 then c.(session := true) else c, [])
    case SessionReady => if c.joined then (c, []) else OnReady(c, own, n)
    case SessionActive => (c.(joined := true), [])
    case SessionTimeout => (c, [])
    case ServerError => Fail(c, ServerFailure)
  }

  // ---------------------------------------------------------------------------
  // The client object: its event loop and session handler.

  class SessionClient {
    const own: nat
    const n: nat
    var peers: map<nat, PeerState>
    var session: bool
    var joined: bool
    var serial: nat
    var dropped: nat
    var error: Option<ClientError>
    var outbound: seq<Request>

    function State(): Client
      reads this
    {
      Client(peers, session, joined, serial, dropped, error)
    }

    constructor (own: nat, n: nat)
      ensures this.own == own && this.n == n
      ensures State() == Client(map[], false, false, 0, 0, None) && outbound == []
    {
      this.own := own;
      this.n := n;
      peers, session, joined, serial, dropped, error, outbound := map[], false, false, 0, 0, None, [];
    }

    method Connect(peer: nat)
      modifies this
      ensures State() == ConnectPeer(old(State()), own, peer).0
      ensures outbound == old(outbound) + ConnectPeer(old(State()), own, peer).1
      ensures peer in old(peers) ==>
                error == Some(PeerAlreadyExists) && peers == old(peers) && outbound == old(outbound)
      ensures peer !in old(peers) ==>
                var e := Ephemeral(own, old(serial));
                && peers == old(peers)[peer := Handshake(e)] && serial == old(serial) + 1
                && outbound == old(outbound) + [Hello(peer, e)] && error == old(error)
    {
      if peer in peers {
        error := Some(PeerAlreadyExists);
        return;
      }
      var e := Ephemeral(own, serial);
      serial := serial + 1;
      peers := peers[peer := Handshake(e)];
      outbound := outbound + [Hello(peer, e)];
    }

    /** Handshakes with every participant after this one. */
    method ConnectForward()
      requires error.None?
      modifies this
      ensures State() == ConnectFrom(old(State()), own, own + 1, n).0
      ensures outbound == old(outbound) + ConnectFrom(old(State()), own, own + 1, n).1
      ensures joined == old(joined) && session == old(session) && old(peers).Keys <= peers.Keys
      ensures error.None? ==> forall k :: own < k < n ==> k in peers
    {
      var peer := own + 1;
      ConnectFromKeeps(State(), own, peer, n);
      ghost var sent: seq<Request> := [];
      while peer < n
        invariant peer >= own + 1 && error.None? && outbound == old(outbound) + sent
        invariant ConnectFrom(old(State()), own, own + 1, n).0 == ConnectFrom(State(), own, peer, n).0
        invariant ConnectFrom(old(State()), own, own + 1, n).1 == sent + ConnectFrom(State(), own, peer, n).1
      {
        ghost var (c1, more) := ConnectPeer(State(), own, peer);
        ghost var rest := ConnectFrom(c1, own, peer + 1, n).1;
        Connect(peer);
        assert sent + (more + rest) == (sent + more) + rest;
        sent := sent + more;
        if error.Some? {
          return;
        }
        peer := peer + 1;
      }
    }

    method OnPeerConnected(peer: nat)
      modifies this
      ensures State() == PeerConnected(old(State()), own, peer, n).0
      ensures outbound == old(outbound) + PeerConnected(old(State()), own, peer, n).1
      ensures peers == old(peers)
      ensures outbound == old(outbound) + if session && !joined && own < peer < n then [Register(peer)] else []
      ensures error == if !session && !joined && own == 0 then Some(SessionUnknown) else old(error)
    {
      if joined {
        return;
      }
      if session {
        if own < peer < n {
          outbound := outbound + [Register(peer)];
        }
      } else if own == 0 {
        error := Some(SessionUnknown);
      }
    }

    method HandshakeResponder(peer: nat, e: Ephemeral)
      modifies this
      ensures State() == OnHello(old(State()), own, peer, e, n).0
      ensures outbound == old(outbound) + OnHello(old(State()), own, peer, e, n).1
      ensures peer in old(peers) ==>
                error == Some(PeerAlreadyExistsMaybeRace) && peers == old(peers) && outbound == old(outbound)
      ensures peer !in old(peers) ==>
                var f := Ephemeral(own, old(serial));
                && peers == old(peers)[peer := Transport(f, e, false)] && serial == old(serial) + 1
                && old(outbound) + [Answer(peer, e, f)] <= outbound
    {
      if peer in peers {
        error := Some(PeerAlreadyExistsMaybeRace);
        return;
      }
      var f := Ephemeral(own, serial);
      serial := serial + 1;
      peers := peers[peer := Transport(f, e, false)];
      outbound := outbound + [Answer(peer, e, f)];
      OnPeerConnected(peer);
    }

    method HandshakeAck(peer: nat, e: Ephemeral, f: Ephemeral)
      modifies this
      ensures State() == OnAnswer(old(State()), own, peer, e, f, n).0
      ensures outbound == old(outbound) + OnAnswer(old(State()), own, peer, e, f, n).1
      ensures peer !in old(peers) ==>
                error == Some(PeerNotFound) && peers == old(peers) && outbound == old(outbound)
      ensures peer in old(peers) ==>
                var awaited := old(peers)[peer] == Handshake(e);
                && peers == (if awaited then old(peers)[peer := Transport(e, f, true)] else old(peers) - {peer})
                && (!awaited ==>
                      && outbound == old(outbound)
                      && error == Some(if old(peers)[peer].Transport? then NotHandshakeState else HandshakeFailed))
    {
      if peer !in peers {
        error := Some(PeerNotFound);
        return;
      }
      var entry := peers[peer];
      peers := peers - {peer};
      if entry.Transport? {
        error := Some(NotHandshakeState);
        return;
      }
      if entry.own != e {
        error := Some(HandshakeFailed);
        return;
      }
      peers := peers[peer := Transport(e, f, true)];
      OnPeerConnected(peer);
    }

    /** One message from the server: the event loop, then the session handler. */
    method HandleResponse(r: Response)
      requires error.None?
      modifies this
      ensures State() == ClientStep(old(State()), own, n, r).0
      ensures outbound == old(outbound) + ClientStep(old(State()), own, n, r).1
      ensures joined == (old(joined) || r.SessionActive?)
      ensures session == (old(session) || (if own == 0 then r.SessionCreated? else r.SessionReady? && !old(joined)))
      ensures r.ServerError? ==> error == Some(ServerFailure)
      ensures r.ChatFrom? ==>
                && peers == old(peers) && outbound == old(outbound)
                && error == (if r.peer !in peers then Some(PeerNotFound)
                             else if peers[r.peer].Handshake? then Some(NotTransportState) else None)
                && dropped == old(dropped) + if error.None? && !joined then 1 else 0
    {
      match r
      case HelloFrom(peer, e) => HandshakeResponder(peer, e);
      case AnswerFrom(peer, e, f) => HandshakeAck(peer, e, f);
      case ChatFrom(peer, _) =>
        if peer !in peers {
          error := Some(PeerNotFound);
        } else if peers[peer].Handshake? {
          error := Some(NotTransportState);
        } else if !joined {
          dropped := dropped + 1;
        }
      case SessionCreated =>
        if own == 0 {
          session := true;
        }
      case SessionReady =>
        if !joined {
          if own != 0 {
            session := true;
          }
          ConnectForward();
        }
      case SessionActive => joined := true;
      case SessionTimeout =>
      case ServerError => error := Some(ServerFailure);
    }
  }

  // ---------------------------------------------------------------------------
  // Clients, queues and server together.

  /**
   * The server's side of one session. `replied`: the reply to the creating request was queued;
   * `gaveUp`: a watcher waited too long for the participants or their connections; `readySent`,
   * `activeSent`, `timeoutSent`: how far the broadcasts, in session order, have got.
   */
  datatype Server = Server(
    online: set<nat>, replied: bool, gaveUp: bool,
    readySent: nat, activeSent: nat, timeoutSent: nat, connections: set<(nat, nat)>)

  /** `up[i]` and `down[i]` are the first-in first-out queues from and to client i. */
  datatype World = World(clients: seq<Client>, up: seq<seq<Request>>, down: seq<seq<Response>>, server: Server)

  datatype Action =
    | GoOnline(i: nat)          // a participant completes its handshake with the server
    | ReplyCreated              // the server answers the creating request
    | NotifyReady               // next step of the SessionReady broadcast
    | NotifyActive              // next step of the SessionActive broadcast
    | GiveUp                    // the watcher of the session finds its time over
    | NotifyTimeout             // next step of the SessionTimeout broadcast
    | ServerTake(i: nat)        // the server handles client i's oldest request
    | ClientTake(i: nat)        // client i handles its oldest message
    | Say(i: nat, to: nat, payload: Sealed)   // a joined client sends a session message

  function FreshClient(): Client {
    Client(map[], false, false, 0, 0, None)
  }

  function Initial(n: nat): World {
    World(seq(n, _ => FreshClient()), seq(n, _ => []), seq(n, _ => []), Server({0}, false, false, 0, 0, 0, {}))
  }

  predicate AllLinked(n: nat, connections: set<(nat, nat)>) {
    forall i, j :: 0 <= i < n && 0 <= j < n && i != j ==> (i, j) in connections || (j, i) in connections
  }

  predicate AllOnline(n: nat, online: set<nat>) {
    forall i :: 0 <= i < n ==> i in online
  }

  predicate Enabled(n: nat, w: World, a: Action)
    requires |w.clients| == |w.up| == |w.down| == n
  {
    match a
    case GoOnline(i) => i < n && i !in w.server.online
    case ReplyCreated => n > 0 && !w.server.replied
    // the broadcast starts once all participants were seen to be connected
    case NotifyReady =>
      !w.server.gaveUp && w.server.readySent < n && (w.server.readySent == 0 ==> AllOnline(n, w.server.online))
    // the watcher for activity starts after the ready broadcast and waits for all pairs
    case NotifyActive =>
      && !w.server.gaveUp && w.server.readySent == n && w.server.activeSent < n
      && (w.server.activeSent == 0 ==> AllLinked(n, w.server.connections))
    // a watcher gives up only on finding what it waits for still missing
    case GiveUp =>
      && !w.server.gaveUp
      && (|| (w.server.readySent == 0 && !AllOnline(n, w.server.online))
          || (w.server.readySent == n && w.server.activeSent == 0 && !AllLinked(n, w.server.connections)))
    case NotifyTimeout => w.server.gaveUp && w.server.timeoutSent < n
    // a socket's requests are handled one at a time, so the initiator's wait for the reply to its
    // creating request; a session message needs the lock the active broadcast holds
    case ServerTake(i) =>
      && i < n && w.up[i] != [] && (i == 0 ==> w.server.replied)
      && (w.up[i][0].Chat? ==> w.server.activeSent == 0 || w.server.activeSent == n)
    case ClientTake(i) => i < n && w.down[i] != [] && w.clients[i].error.None?
    case Say(i, to, _) => i < n && to < n && i != to && w.clients[i].joined && w.clients[i].error.None?
  }

  function Push(w: World, i: nat, r: Response): World
    requires i < |w.down|
  {
    w.(down := w.down[i := w.down[i] + [r]])
  }

  /** Only connected participants are told that the time is over. */
  function PushOnline(w: World, i: nat): World
    requires i < |w.down|
  {
    if i in w.server.online then Push(w, i, SessionTimeout) else w
  }

  /** Relays to a connected peer; an unknown one is an error for the sender. */
  function Relay(w: World, i: nat, to: nat, r: Response): World
    requires i < |w.down|
  {
    if to in w.server.online && to < |w.down| then Push(w, to, r) else Push(w, i, ServerError)
  }

  function Serve(w: World, i: nat): World
    requires i < |w.up| == |w.down| && w.up[i] != []
  {
    var w1 := w.(up := w.up[i := w.up[i][1..]]);
    match w.up[i][0]
    case Hello(to, e) => Relay(w1, i, to, HelloFrom(i, e))
    case Answer(to, e, f) => Relay(w1, i, to, AnswerFrom(i, e, f))
    case Chat(to, payload) => Relay(w1, i, to, ChatFrom(i, payload))
    case Register(peer) => w1.(server := w1.server.(connections := w1.server.connections + {(i, peer)}))
  }

  function SetClient(w: World, i: nat, step: (Client, seq<Request>)): World
    requires i < |w.clients| == |w.up|
  {
    w.(clients := w.clients[i := step.0], up := w.up[i := w.up[i] + step.1])
  }

  function Apply(n: nat, w: World, a: Action): (w': World)
    requires |w.clients| == |w.up| == |w.down| == n && Enabled(n, w, a)
    ensures |w'.clients| == |w'.up| == |w'.down| == n
  {
    match a
    case GoOnline(i) => w.(server := w.server.(online := w.server.online + {i}))
    case ReplyCreated => Push(w.(server := w.server.(replied := true)), 0, SessionCreated)
    case NotifyReady =>
      Push(w.(server := w.server.(readySent := w.server.readySent + 1)), w.server.readySent, SessionReady)
    case NotifyActive =>
      Push(w.(server := w.server.(activeSent := w.server.activeSent + 1)), w.server.activeSent, SessionActive)
    case GiveUp => w.(server := w.server.(gaveUp := true))
    case NotifyTimeout =>
      PushOnline(w.(server := w.server.(timeoutSent := w.server.timeoutSent + 1)), w.server.timeoutSent)
    case ServerTake(i) => Serve(w, i)
    case ClientTake(i) =>
      SetClient(w.(down := w.down[i := w.down[i][1..]]), i, ClientStep(w.clients[i], i, n, w.down[i][0]))
    case Say(i, to, payload) => SetClient(w, i, Speak(w.clients[i], to, payload))
  }

  function Exec(n: nat, actions: seq<Action>): Option<World>
    ensures Exec(n, actions).Some? ==>
            |Exec(n, actions).value.clients| == |Exec(n, actions).value.up| == |Exec(n, actions).value.down| == n
  {
    if actions == [] then Some(Initial(n))
    else
      var last := |actions| - 1;
      match Exec(n, actions[..last])
      case None => None
      case Some(w) => if Enabled(n, w, actions[last]) then Some(Apply(n, w, actions[last])) else None
  }
}
