// The invariant of session establishment: every pair of participants is in one phase of a single
// handshake, and the queues hold exactly the messages of that phase.
module MeshInvariant {
  import opened Basics
  import opened Mesh

  // ---------------------------------------------------------------------------
  // What queues say about one peer.

  predicate Concerns(m: Request, peer: nat) {
    match m
    case Hello(to, _) => to == peer
    case Answer(to, _, _) => to == peer
    case Register(p) => p == peer
    case Chat(_, _) => false
  }

  function About(q: seq<Request>, peer: nat): seq<Request> {
    if q == [] then [] else (if Concerns(q[0], peer) then [q[0]] else []) + About(q[1..], peer)
  }

  predicate ComesFrom(m: Response, peer: nat) {
    match m
    case HelloFrom(p, _) => p == peer
    case AnswerFrom(p, _, _) => p == peer
    case _ => false
  }

  function From(q: seq<Response>, peer: nat): seq<Response> {
    if q == [] then [] else (if ComesFrom(q[0], peer) then [q[0]] else []) + From(q[1..], peer)
  }

  function Own(m: Response, peer: nat): seq<Response> {
    if ComesFrom(m, peer) then [m] else []
  }

  lemma FromStep(m: Response, q: seq<Response>, peer: nat)
    ensures From([m] + q, peer) == Own(m, peer) + From(q, peer)
  {
    assert ([m] + q)[1..] == q;
  }

  function OwnRequest(m: Request, peer: nat): seq<Request> {
    if Concerns(m, peer) then [m] else []
  }

  lemma AboutStep(m: Request, q: seq<Request>, peer: nat)
    ensures About([m] + q, peer) == OwnRequest(m, peer) + About(q, peer)
  {
    assert ([m] + q)[1..] == q;
  }

  lemma {:induction false} AboutConcat(a: seq<Request>, b: seq<Request>, peer: nat)
    ensures About(a + b, peer) == About(a, peer) + About(b, peer)
  {
    if a == [] {
      assert a + b == b;
    } else {
      hide Concerns, About, OwnRequest;
      var rest := a[1..];
      assert a == [a[0]] + rest && a + b == [a[0]] + (rest + b);
      AboutStep(a[0], rest, peer);
      AboutStep(a[0], rest + b, peer);
      AboutConcat(rest, b, peer);
      Regroup(OwnRequest(a[0], peer), About(rest, peer), About(b, peer));
    }
  }

  lemma {:induction false} FromAppend(a: seq<Response>, m: Response, peer: nat)
    ensures From(a + [m], peer) == From(a, peer) + if ComesFrom(m, peer) then [m] else []
  {
    if a == [] {
      assert [] + [m] == [m] + [];
      FromStep(m, [], peer);
    } else {
      hide ComesFrom, From, Own;
      var rest := a[1..];
      assert a == [a[0]] + rest && a + [m] == [a[0]] + (rest + [m]);
      FromStep(a[0], rest, peer);
      FromStep(a[0], rest + [m], peer);
      FromAppend(rest, m, peer);
      Regroup(Own(a[0], peer), From(rest, peer), if ComesFrom(m, peer) then [m] else []);
    }
  }

  function Count(q: seq<Response>, m: Response): nat {
    if q == [] then 0 else (if q[0] == m then 1 else 0) + Count(q[1..], m)
  }

  lemma {:induction false} CountAppend(a: seq<Response>, x: Response, m: Response)
    ensures Count(a + [x], m) == Count(a, m) + if x == m then 1 else 0
  {
    if a == [] {
      assert a + [x] == [x];
    } else {
      assert (a + [x])[0] == a[0] && (a + [x])[1..] == a[1..] + [x];
      CountAppend(a[1..], x, m);
    }
  }

  /** Orders of arrival that matter: a message of the second kind only after one of the first. */
  datatype Order = ActiveAfterReady | AnswerAfterCreated | ChatAfterActive

  predicate IsFirst(o: Order, m: Response) {
    match o
    case ActiveAfterReady => m == SessionReady
    case AnswerAfterCreated => m == SessionCreated
    case ChatAfterActive => m == SessionActive
  }

  predicate IsSecond(o: Order, m: Response) {
    match o
    case ActiveAfterReady => m == SessionActive
    case AnswerAfterCreated => m.AnswerFrom?
    case ChatAfterActive => m.ChatFrom?
  }

  /** Whatever of the second kind the queue holds comes behind one of the first kind. */
  predicate Ordered(o: Order, q: seq<Response>) {
    q == [] || IsFirst(o, q[0]) || (!IsSecond(o, q[0]) && Ordered(o, q[1..]))
  }

  predicate Holds(o: Order, q: seq<Response>) {
    exists k :: 0 <= k < |q| && IsFirst(o, q[k])
  }

  lemma {:induction false} OrderedAppend(o: Order, q: seq<Response>, m: Response)
    requires Ordered(o, q) && (IsSecond(o, m) ==> Holds(o, q))
    ensures Ordered(o, q + [m])
  {
    if q != [] && !IsFirst(o, q[0]) {
      assert (q + [m])[0] == q[0] && (q + [m])[1..] == q[1..] + [m];
      if Holds(o, q) {
        var k :| 0 <= k < |q| && IsFirst(o, q[k]);
        assert IsFirst(o, q[1..][k - 1]);
      }
      OrderedAppend(o, q[1..], m);
    }
  }

  lemma HoldsAppend(o: Order, q: seq<Response>, m: Response)
    ensures Holds(o, q + [m]) <==> Holds(o, q) || IsFirst(o, m)
  {
    if Holds(o, q) {
      var k :| 0 <= k < |q| && IsFirst(o, q[k]);
      assert (q + [m])[k] == q[k];
    }
    if IsFirst(o, m) {
      assert (q + [m])[|q|] == m;
    }
  }

  /** Taking the head of an ordered queue: it is not a premature message of the second kind. */
  lemma OrderedTail(o: Order, q: seq<Response>)
    requires q != [] && Ordered(o, q)
    ensures !IsSecond(o, q[0])
    ensures !IsFirst(o, q[0]) ==> Ordered(o, q[1..])
    ensures !IsFirst(o, q[0]) ==> (Holds(o, q[1..]) <==> Holds(o, q))
  {
    if Holds(o, q) && !IsFirst(o, q[0]) {
      var k :| 0 <= k < |q| && IsFirst(o, q[k]);
      assert q[1..][k - 1] == q[k];
    }
  }

  lemma HoldsTail(o: Order, q: seq<Response>)
    requires q != []
    ensures Holds(o, q[1..]) ==> Holds(o, q)
  {
    if Holds(o, q[1..]) {
      var k :| 0 <= k < |q[1..]| && IsFirst(o, q[1..][k]);
      assert q[k + 1] == q[1..][k];
    }
  }

  // ---------------------------------------------------------------------------
  // Phases of the one handshake of a pair.

  datatype Phase =
    | Idle
    | HelloUp(e: Ephemeral)
    | HelloDown(e: Ephemeral)
    | AnswerUp(e: Ephemeral, f: Ephemeral)
    | AnswerDown(e: Ephemeral, f: Ephemeral)
    | Registering(e: Ephemeral, f: Ephemeral)
    | Registered(e: Ephemeral, f: Ephemeral)

  /** Everything in the world that concerns the pair of an earlier participant a and a later one b. */
  datatype PairView = PairView(
    a: Option<PeerState>, b: Option<PeerState>,
    upA: seq<Request>, downB: seq<Response>, upB: seq<Request>, downA: seq<Response>,
    edge: bool, back: bool)

  function Entry(c: Client, peer: nat): Option<PeerState> {
    if peer in c.peers then Some(c.peers[peer]) else None
  }

  predicate Sized(n: nat, w: World) {
    |w.clients| == |w.up| == |w.down| == n
  }

  function ViewOf(w: World, i: nat, j: nat): PairView
    requires i < |w.clients| == |w.up| == |w.down| && j < |w.clients|
  {
    PairView(Entry(w.clients[i], j), Entry(w.clients[j], i),
             About(w.up[i], j), From(w.down[j], i), About(w.up[j], i), From(w.down[i], j),
             (i, j) in w.server.connections, (j, i) in w.server.connections)
  }

  function Expected(p: Phase, i: nat, j: nat): PairView {
    match p
    case Idle => PairView(None, None, [], [], [], [], false, false)
    case HelloUp(e) => PairView(Some(Handshake(e)), None, [Hello(j, e)], [], [], [], false, false)
    case HelloDown(e) => PairView(Some(Handshake(e)), None, [], [HelloFrom(i, e)], [], [], false, false)
    case AnswerUp(e, f) => PairView(Some(Handshake(e)), Some(Transport(f, e, false)), [], [], [Answer(i, e, f)], [],
                                    false, false)
    case AnswerDown(e, f) => PairView(Some(Handshake(e)), Some(Transport(f, e, false)), [], [], [],
                                      [AnswerFrom(j, e, f)], false, false)
    case Registering(e, f) => PairView(Some(Transport(e, f, true)), Some(Transport(f, e, false)), [Register(j)], [],
                                       [], [], false, false)
    case Registered(e, f) => PairView(Some(Transport(e, f, true)), Some(Transport(f, e, false)), [], [], [], [], true,
                                      false)
  }

  /** History: the phase of each pair, and who has handled the ready notification. */
  datatype Aux = Aux(phase: map<(nat, nat), Phase>, met: set<nat>)

  function PhaseOf(x: Aux, i: nat, j: nat): Phase {
    if (i, j) in x.phase then x.phase[(i, j)] else Idle
  }

  ghost predicate PairInv(w: World, x: Aux, i: nat, j: nat)
    requires i < |w.clients| == |w.up| == |w.down| && j < |w.clients|
  {
    && ViewOf(w, i, j) == Expected(PhaseOf(x, i, j), i, j)
    && (i in x.met <==> !PhaseOf(x, i, j).Idle?)
    && (i == 0 && !w.server.replied ==> PhaseOf(x, i, j).Idle? || PhaseOf(x, i, j).HelloUp?)
    && (w.server.activeSent > 0 ==> PhaseOf(x, i, j).Registered?)
  }

  predicate ValidRequest(n: nat, own: nat, m: Request) {
    var to := match m case Hello(t, _) => t case Answer(t, _, _) => t case Register(t) => t case Chat(t, _) => t;
    to < n && to != own
  }

  predicate ValidResponse(n: nat, own: nat, m: Response) {
    match m
    case HelloFrom(p, _) => p < n && p != own
    case AnswerFrom(p, _, _) => p < n && p != own
    case ChatFrom(p, _) => p < n && p != own
    case ServerError => false
    case _ => true
  }

  /** What one client, its queues and the broadcasts know of each other. */
  ghost predicate LocalInv(n: nat, i: nat, c: Client, up: seq<Request>, down: seq<Response>, s: Server, met: bool) {
    && c.error.None? && c.dropped == 0
    && (forall k :: 0 <= k < |up| ==> ValidRequest(n, i, up[k]) && (up[k].Chat? ==> s.activeSent > 0))
    && (forall k :: 0 <= k < |down| ==> ValidResponse(n, i, down[k]) && (down[k].ChatFrom? ==> s.activeSent == n))
    // the ready notification
    && (met ==> i < s.readySent)
    && Count(down, SessionReady) == (if i < s.readySent && !met then 1 else 0)
    && (!met ==> !c.joined && Ordered(ActiveAfterReady, down))
    && (i > 0 ==> (c.session <==> met))
    // the reply to the creating request
    && (i == 0 && (c.session || Holds(AnswerAfterCreated, down)) ==> s.replied)
    && (i == 0 && !c.session ==> Ordered(AnswerAfterCreated, down) && (s.replied ==> Holds(AnswerAfterCreated, down)))
    // the active notification
    && (c.joined ==> i < s.activeSent)
    && (Holds(ChatAfterActive, down) ==> i < s.activeSent)
    && (!c.joined ==> Ordered(ChatAfterActive, down) && (i < s.activeSent ==> Holds(ChatAfterActive, down)))
  }

  ghost predicate ServerInv(n: nat, s: Server) {
    && s.readySent <= n && s.activeSent <= n
    && (s.readySent > 0 ==> AllOnline(n, s.online))
    && (s.activeSent > 0 ==> s.readySent == n)
    && (s.gaveUp ==> n > 0 && s.activeSent == 0 && (s.readySent == 0 || s.readySent == n))
    && (forall e :: e in s.connections ==> e.0 < n && e.1 < n && e.0 != e.1)
  }

  ghost predicate WorldInv(n: nat, w: World, x: Aux) {
    && Sized(n, w)
    && ServerInv(n, w.server)
    && (forall i :: 0 <= i < n ==> LocalInv(n, i, w.clients[i], w.up[i], w.down[i], w.server, i in x.met))
    && (forall i, j :: 0 <= i < j < n ==> PairInv(w, x, i, j))
  }

  lemma InitialInv(n: nat)
    ensures WorldInv(n, Initial(n), Aux(map[], {}))
  {
  }

  // ---------------------------------------------------------------------------
  // Queue steps seen by one client.

  /** Appending a relayed message or a notification to a client's queue. */
  lemma PushKeepsLocal(n: nat, i: nat, c: Client, up: seq<Request>, down: seq<Response>, s: Server, met: bool,
                       m: Response)
    requires LocalInv(n, i, c, up, down, s, met)
    requires ValidResponse(n, i, m) && (m.HelloFrom? || m.AnswerFrom? || m.ChatFrom? || m.SessionTimeout?)
    requires m.ChatFrom? ==> s.activeSent == n && i < n
    requires m.AnswerFrom? && i == 0 ==> s.replied
    ensures LocalInv(n, i, c, up, down + [m], s, met)
  {
    CountAppend(down, m, SessionReady);
    HoldsAppend(ChatAfterActive, down, m);
    HoldsAppend(AnswerAfterCreated, down, m);
    if !met {
      OrderedAppend(ActiveAfterReady, down, m);
    }
    if i == 0 && !c.session {
      OrderedAppend(AnswerAfterCreated, down, m);
    }
    if !c.joined {
      OrderedAppend(ChatAfterActive, down, m);
    }
  }

  lemma CreatedKeepsLocal(n: nat, c: Client, up: seq<Request>, down: seq<Response>, s: Server, met: bool)
    requires LocalInv(n, 0, c, up, down, s, met)
    ensures LocalInv(n, 0, c, up, down + [SessionCreated], s.(replied := true), met)
  {
    CountAppend(down, SessionCreated, SessionReady);
    HoldsAppend(ChatAfterActive, down, SessionCreated);
    HoldsAppend(AnswerAfterCreated, down, SessionCreated);
    if !met {
      OrderedAppend(ActiveAfterReady, down, SessionCreated);
    }
    if !c.session {
      OrderedAppend(AnswerAfterCreated, down, SessionCreated);
    }
    if !c.joined {
      OrderedAppend(ChatAfterActive, down, SessionCreated);
    }
  }

  lemma ReadyKeepsLocal(n: nat, i: nat, c: Client, up: seq<Request>, down: seq<Response>, s: Server, met: bool)
    requires LocalInv(n, i, c, up, down, s, met) && i == s.readySent
    ensures LocalInv(n, i, c, up, down + [SessionReady], s.(readySent := i + 1), met)
  {
    CountAppend(down, SessionReady, SessionReady);
    HoldsAppend(ChatAfterActive, down, SessionReady);
    HoldsAppend(AnswerAfterCreated, down, SessionReady);
    OrderedAppend(ActiveAfterReady, down, SessionReady);
    if i == 0 && !c.session {
      OrderedAppend(AnswerAfterCreated, down, SessionReady);
    }
    if !c.joined {
      OrderedAppend(ChatAfterActive, down, SessionReady);
    }
  }

  lemma {:induction false} CountedIsHeld(q: seq<Response>)
    requires Count(q, SessionReady) > 0
    ensures Holds(ActiveAfterReady, q)
  {
    if q[0] == SessionReady {
      assert IsFirst(ActiveAfterReady, q[0]);
    } else {
      CountedIsHeld(q[1..]);
      HoldsTail(ActiveAfterReady, q);
    }
  }

  lemma ActiveKeepsLocal(n: nat, i: nat, c: Client, up: seq<Request>, down: seq<Response>, s: Server, met: bool)
    requires LocalInv(n, i, c, up, down, s, met) && i == s.activeSent < n && s.readySent == n
    ensures LocalInv(n, i, c, up, down + [SessionActive], s.(activeSent := i + 1), met)
  {
    CountAppend(down, SessionActive, SessionReady);
    HoldsAppend(ChatAfterActive, down, SessionActive);
    HoldsAppend(AnswerAfterCreated, down, SessionActive);
    OrderedAppend(ChatAfterActive, down, SessionActive);
    if !met {
      CountedIsHeld(down);
      OrderedAppend(ActiveAfterReady, down, SessionActive);
    }
    if i == 0 && !c.session {
      OrderedAppend(AnswerAfterCreated, down, SessionActive);
    }
  }

  /** Removing the head of a client's queue when it is neither notification nor reply. */
  lemma PopKeepsLocal(n: nat, i: nat, c: Client, up: seq<Request>, down: seq<Response>, s: Server, met: bool)
    requires LocalInv(n, i, c, up, down, s, met) && down != []
    ensures down[0].HelloFrom? || down[0].AnswerFrom? || down[0].ChatFrom? || down[0].SessionTimeout? ==>
              LocalInv(n, i, c, up, down[1..], s, met)
    ensures down[0].SessionCreated? ==> LocalInv(n, i, if i == 0 then c.(session := true) else c, up, down[1..], s, met)
    ensures down[0].SessionReady? ==> !met && i < s.readySent
    ensures down[0].SessionReady? ==> LocalInv(n, i, if i == 0 then c else c.(session := true), up, down[1..], s, true)
    ensures down[0].SessionActive? ==> LocalInv(n, i, c.(joined := true), up, down[1..], s, met)
    ensures down[0].ChatFrom? ==> c.joined
    ensures down[0].AnswerFrom? && i == 0 ==> c.session
  {
    var tail := down[1..];
    HoldsTail(ChatAfterActive, down);
    HoldsTail(AnswerAfterCreated, down);
    if !met {
      OrderedTail(ActiveAfterReady, down);
    }
    if i == 0 && !c.session {
      OrderedTail(AnswerAfterCreated, down);
    }
    if !c.joined {
      OrderedTail(ChatAfterActive, down);
    }
    if down[0].SessionActive? {
      assert IsFirst(ChatAfterActive, down[0]);
      assert Holds(ChatAfterActive, down);
    }
    if down[0].SessionCreated? {
      assert IsFirst(AnswerAfterCreated, down[0]);
      assert Holds(AnswerAfterCreated, down);
    }
    assert Count(down, SessionReady) == (if down[0] == SessionReady then 1 else 0) + Count(tail, SessionReady);
    assert forall k :: 0 <= k < |tail| ==> tail[k] == down[k + 1];
  }

  // ---------------------------------------------------------------------------
  // Steps of the server.

  lemma OnlineKeeps(n: nat, w: World, x: Aux, i: nat)
    requires WorldInv(n, w, x) && Enabled(n, w, GoOnline(i))
    ensures WorldInv(n, Apply(n, w, GoOnline(i)), x)
  {
    hide Expected, Count, About, From;
    var w' := Apply(n, w, GoOnline(i));
    forall k | 0 <= k < n
      ensures LocalInv(n, k, w'.clients[k], w'.up[k], w'.down[k], w'.server, k in x.met)
    {
      assert LocalInv(n, k, w.clients[k], w.up[k], w.down[k], w.server, k in x.met);
    }
    forall a, b | 0 <= a < b < n
      ensures PairInv(w', x, a, b)
    {
      assert PairInv(w, x, a, b);
      assert ViewOf(w', a, b) == ViewOf(w, a, b);
    }
  }

  /** A broadcast step: one notification on one queue, and the broadcast's own progress. */
  lemma NotifyKeeps(n: nat, w: World, x: Aux, i: nat, m: Response, s: Server)
    requires WorldInv(n, w, x) && i < n
    requires m.SessionCreated? || m.SessionReady? || m.SessionActive? || m.SessionTimeout?
    requires ServerInv(n, s) && s.connections == w.server.connections
    requires w.server.replied ==> s.replied
    requires s.activeSent > 0 ==> forall a, b :: 0 <= a < b < n ==> PhaseOf(x, a, b).Registered?
    requires LocalInv(n, i, w.clients[i], w.up[i], w.down[i] + [m], s, i in x.met)
    requires forall k :: 0 <= k < n && k != i ==> LocalInv(n, k, w.clients[k], w.up[k], w.down[k], s, k in x.met)
    ensures WorldInv(n, Push(w.(server := s), i, m), x)
  {
    hide Expected, Count, About, From, LocalInv;
    var w' := Push(w.(server := s), i, m);
    forall k | 0 <= k < n
      ensures LocalInv(n, k, w'.clients[k], w'.up[k], w'.down[k], w'.server, k in x.met)
    {
      assert k != i ==> w'.down[k] == w.down[k];
    }
    forall a, b | 0 <= a < b < n
      ensures PairInv(w', x, a, b)
    {
      assert PairInv(w, x, a, b);
      FromAppend(w.down[i], m, a);
      FromAppend(w.down[i], m, b);
      assert ViewOf(w', a, b) == ViewOf(w, a, b);
    }
  }

  lemma ReplyKeeps(n: nat, w: World, x: Aux)
    requires WorldInv(n, w, x) && Enabled(n, w, ReplyCreated)
    ensures WorldInv(n, Apply(n, w, ReplyCreated), x)
  {
    hide Expected, Count, About, From;
    var s := w.server.(replied := true);
    CreatedKeepsLocal(n, w.clients[0], w.up[0], w.down[0], w.server, 0 in x.met);
    forall k | 0 < k < n
      ensures LocalInv(n, k, w.clients[k], w.up[k], w.down[k], s, k in x.met)
    {
      assert LocalInv(n, k, w.clients[k], w.up[k], w.down[k], w.server, k in x.met);
    }
    forall a, b | s.activeSent > 0 && 0 <= a < b < n
      ensures PhaseOf(x, a, b).Registered?
    {
      assert PairInv(w, x, a, b);
    }
    NotifyKeeps(n, w, x, 0, SessionCreated, s);
  }

  lemma ReadyKeeps(n: nat, w: World, x: Aux)
    requires WorldInv(n, w, x) && Enabled(n, w, NotifyReady)
    ensures WorldInv(n, Apply(n, w, NotifyReady), x)
  {
    hide Expected, Count, About, From, Ordered, Holds;
    var i := w.server.readySent;
    var s := w.server.(readySent := i + 1);
    ReadyKeepsLocal(n, i, w.clients[i], w.up[i], w.down[i], w.server, i in x.met);
    forall k | 0 <= k < n && k != i
      ensures LocalInv(n, k, w.clients[k], w.up[k], w.down[k], s, k in x.met)
    {
      assert LocalInv(n, k, w.clients[k], w.up[k], w.down[k], w.server, k in x.met);
    }
    NotifyKeeps(n, w, x, i, SessionReady, s);
  }

  /** Giving up and telling so changes nothing that anyone else looks at. */
  lemma QuitServerKeeps(n: nat, w: World, x: Aux, s: Server)
    requires WorldInv(n, w, x) && ServerInv(n, s)
    requires s == w.server.(gaveUp := s.gaveUp, timeoutSent := s.timeoutSent)
    ensures WorldInv(n, w.(server := s), x)
  {
    hide Expected, Count, About, From, Ordered, Holds;
    var w' := w.(server := s);
    forall k | 0 <= k < n
      ensures LocalInv(n, k, w'.clients[k], w'.up[k], w'.down[k], s, k in x.met)
    {
      assert LocalInv(n, k, w.clients[k], w.up[k], w.down[k], w.server, k in x.met);
    }
    forall a, b | 0 <= a < b < n
      ensures PairInv(w', x, a, b)
    {
      assert PairInv(w, x, a, b);
      assert ViewOf(w', a, b) == ViewOf(w, a, b);
    }
  }

  lemma QuitKeeps(n: nat, w: World, x: Aux)
    requires WorldInv(n, w, x) && Enabled(n, w, GiveUp)
    ensures WorldInv(n, Apply(n, w, GiveUp), x)
  {
    assert ServerInv(n, w.server);
    hide WorldInv;
    QuitServerKeeps(n, w, x, w.server.(gaveUp := true));
  }

  lemma TimeoutKeeps(n: nat, w: World, x: Aux)
    requires WorldInv(n, w, x) && Enabled(n, w, NotifyTimeout)
    ensures WorldInv(n, Apply(n, w, NotifyTimeout), x)
  {
    hide Expected, Count, About, From, Ordered, Holds, LocalInv;
    var i := w.server.timeoutSent;
    var s := w.server.(timeoutSent := i + 1);
    QuitServerKeeps(n, w, x, s);
    if i in w.server.online {
      PushKeepsLocal(n, i, w.clients[i], w.up[i], w.down[i], s, i in x.met, SessionTimeout);
      NotifyKeeps(n, w, x, i, SessionTimeout, s);
    }
  }

  /** An edge is registered only in the last phase, and never the wrong way round. */
  lemma EdgeMeansRegistered(n: nat, w: World, x: Aux, i: nat, j: nat)
    requires WorldInv(n, w, x) && i < j < n
    ensures (i, j) in w.server.connections <==> PhaseOf(x, i, j).Registered?
    ensures (j, i) !in w.server.connections
  {
    assert PairInv(w, x, i, j);
    assert ViewOf(w, i, j).edge == Expected(PhaseOf(x, i, j), i, j).edge;
    assert ViewOf(w, i, j).back == Expected(PhaseOf(x, i, j), i, j).back;
  }

  lemma AllRegistered(n: nat, w: World, x: Aux)
    requires WorldInv(n, w, x) && Enabled(n, w, NotifyActive)
    ensures forall a, b :: 0 <= a < b < n ==> PhaseOf(x, a, b).Registered?
  {
    hide Expected, LocalInv;
    forall a, b | 0 <= a < b < n
      ensures PhaseOf(x, a, b).Registered?
    {
      assert PairInv(w, x, a, b);
      EdgeMeansRegistered(n, w, x, a, b);
    }
  }

  lemma ActiveKeeps(n: nat, w: World, x: Aux)
    requires WorldInv(n, w, x) && Enabled(n, w, NotifyActive)
    ensures WorldInv(n, Apply(n, w, NotifyActive), x)
  {
    hide Expected, Count, About, From, Ordered, Holds;
    var i := w.server.activeSent;
    var s := w.server.(activeSent := i + 1);
    ActiveKeepsLocal(n, i, w.clients[i], w.up[i], w.down[i], w.server, i in x.met);
    forall k | 0 <= k < n && k != i
      ensures LocalInv(n, k, w.clients[k], w.up[k], w.down[k], s, k in x.met)
    {
      assert LocalInv(n, k, w.clients[k], w.up[k], w.down[k], w.server, k in x.met);
    }
    AllRegistered(n, w, x);
    NotifyKeeps(n, w, x, i, SessionActive, s);
  }

  lemma HeadIsValid(n: nat, w: World, x: Aux, i: nat)
    requires WorldInv(n, w, x) && i < n && w.up[i] != []
    ensures ValidRequest(n, i, w.up[i][0]) && (w.up[i][0].Chat? ==> w.server.activeSent > 0)
  {
    hide Count, Ordered, Holds;
    assert LocalInv(n, i, w.clients[i], w.up[i], w.down[i], w.server, i in x.met);
  }

  lemma MetMeansReady(n: nat, w: World, x: Aux, i: nat)
    requires WorldInv(n, w, x) && i < n && i in x.met
    ensures w.server.readySent > 0
  {
    hide Count, Ordered, Holds;
    assert LocalInv(n, i, w.clients[i], w.up[i], w.down[i], w.server, i in x.met);
  }

  /** What the head of a client's request queue can be. */
  lemma HeadRequest(n: nat, w: World, x: Aux, i: nat)
    requires WorldInv(n, w, x) && i < n && w.up[i] != []
    ensures ValidRequest(n, i, w.up[i][0])
    ensures match w.up[i][0]
            case Hello(j, e) => i < j && PhaseOf(x, i, j) == HelloUp(e)
            case Answer(j, e, f) => j < i && PhaseOf(x, j, i) == AnswerUp(e, f)
            case Register(j) => i < j && PhaseOf(x, i, j).Registering?
            case Chat(_, _) => w.server.activeSent > 0
    ensures !w.up[i][0].Chat? ==> w.server.readySent > 0
  {
    hide From, LocalInv;
    HeadIsValid(n, w, x, i);
    var m := w.up[i][0];
    if !m.Chat? {
      var j := match m case Hello(t, _) => t case Answer(t, _, _) => t case Register(t) => t;
      assert About(w.up[i], j)[0] == m;
      var a, b := if i < j then i else j, if i < j then j else i;
      assert PairInv(w, x, a, b);
      assert About(w.up[i], j) == if i < j then ViewOf(w, a, b).upA else ViewOf(w, a, b).upB;
      assert a in x.met;
      MetMeansReady(n, w, x, a);
    }
  }

  /** The server removes the head of one request queue and appends to one response queue. */
  lemma RelayViews(n: nat, w: World, i: nat, j: nat, m: Response, a: nat, b: nat)
    requires Sized(n, w) && i < n && j < n && w.up[i] != [] && a < b < n
    requires Concerns(w.up[i][0], j) && ComesFrom(m, i)
    ensures var w' := Push(w.(up := w.up[i := w.up[i][1..]]), j, m);
            var v, v' := ViewOf(w, a, b), ViewOf(w', a, b);
            && (a == i && b == j ==> v.upA == [w.up[i][0]] + v'.upA && v' == v.(upA := v'.upA, downB := v.downB + [m]))
            && (a == j && b == i ==> v.upB == [w.up[i][0]] + v'.upB && v' == v.(upB := v'.upB, downA := v.downA + [m]))
            && (!(a == i && b == j) && !(a == j && b == i) ==> v' == v)
  {
    hide From;
    FromAppend(w.down[j], m, a);
    FromAppend(w.down[j], m, b);
  }

  lemma RelayKeepsLocals(n: nat, w: World, x: Aux, i: nat, j: nat, m: Response)
    requires WorldInv(n, w, x) && i < n && j < n && w.up[i] != []
    requires ValidResponse(n, j, m) && (m.HelloFrom? || m.AnswerFrom? || m.ChatFrom?)
    requires m.ChatFrom? ==> w.server.activeSent == n
    requires m.AnswerFrom? && j == 0 ==> w.server.replied
    ensures var w' := Push(w.(up := w.up[i := w.up[i][1..]]), j, m);
            forall k :: 0 <= k < n ==> LocalInv(n, k, w'.clients[k], w'.up[k], w'.down[k], w'.server, k in x.met)
  {
    hide Count, Ordered, Holds;
    var w' := Push(w.(up := w.up[i := w.up[i][1..]]), j, m);
    forall k | 0 <= k < n
      ensures LocalInv(n, k, w'.clients[k], w'.up[k], w'.down[k], w'.server, k in x.met)
    {
      assert LocalInv(n, k, w.clients[k], w.up[k], w.down[k], w.server, k in x.met);
      if k == j {
        PushKeepsLocal(n, k, w.clients[k], w.up[k], w.down[k], w.server, k in x.met, m);
      }
    }
  }

  function SetPhase(x: Aux, i: nat, j: nat, p: Phase): Aux {
    x.(phase := x.phase[(i, j) := p])
  }

  lemma ServeHello(n: nat, w: World, x: Aux, i: nat) returns (x': Aux)
    requires WorldInv(n, w, x) && Enabled(n, w, ServerTake(i)) && w.up[i][0].Hello?
    ensures WorldInv(n, Serve(w, i), x')
  {
    hide Count, About, From, Ordered, Holds;
    HeadRequest(n, w, x, i);
    var j, e := w.up[i][0].to, w.up[i][0].e;
    var m := HelloFrom(i, e);
    x' := SetPhase(x, i, j, HelloDown(e));
    var w' := Serve(w, i);
    assert w' == Push(w.(up := w.up[i := w.up[i][1..]]), j, m);
    RelayKeepsLocals(n, w, x, i, j, m);
    forall a, b | 0 <= a < b < n
      ensures PairInv(w', x', a, b)
    {
      RelayViews(n, w, i, j, m, a, b);
      assert PairInv(w, x, a, b);
    }
  }

  lemma ServeAnswer(n: nat, w: World, x: Aux, i: nat) returns (x': Aux)
    requires WorldInv(n, w, x) && Enabled(n, w, ServerTake(i)) && w.up[i][0].Answer?
    ensures WorldInv(n, Serve(w, i), x')
  {
    hide Count, About, From, Ordered, Holds;
    HeadRequest(n, w, x, i);
    var j, e, f := w.up[i][0].to, w.up[i][0].e, w.up[i][0].f;
    var m := AnswerFrom(i, e, f);
    x' := SetPhase(x, j, i, AnswerDown(e, f));
    var w' := Serve(w, i);
    assert w' == Push(w.(up := w.up[i := w.up[i][1..]]), j, m);
    assert PairInv(w, x, j, i);
    RelayKeepsLocals(n, w, x, i, j, m);
    forall a, b | 0 <= a < b < n
      ensures PairInv(w', x', a, b)
    {
      RelayViews(n, w, i, j, m, a, b);
      assert PairInv(w, x, a, b);
    }
  }

  lemma RegisterViews(n: nat, w: World, i: nat, j: nat, a: nat, b: nat)
    requires Sized(n, w) && i < n && j < n && w.up[i] != [] && w.up[i][0] == Register(j) && a < b < n && i < j
    ensures var v, v' := ViewOf(w, a, b), ViewOf(Serve(w, i), a, b);
            if a == i && b == j then v.upA == [Register(j)] + v'.upA && v' == v.(upA := v'.upA, edge := true)
            else v' == v
  {
    hide From;
  }

  lemma RegisterKeepsLocals(n: nat, w: World, x: Aux, i: nat)
    requires WorldInv(n, w, x) && i < n && w.up[i] != [] && w.up[i][0].Register?
    ensures var w' := Serve(w, i);
            forall k :: 0 <= k < n ==> LocalInv(n, k, w'.clients[k], w'.up[k], w'.down[k], w'.server, k in x.met)
  {
    hide Count, Ordered, Holds;
    var w' := Serve(w, i);
    forall k | 0 <= k < n
      ensures LocalInv(n, k, w'.clients[k], w'.up[k], w'.down[k], w'.server, k in x.met)
    {
      assert LocalInv(n, k, w.clients[k], w.up[k], w.down[k], w.server, k in x.met);
    }
  }

  lemma ServeRegister(n: nat, w: World, x: Aux, i: nat) returns (x': Aux)
    requires WorldInv(n, w, x) && Enabled(n, w, ServerTake(i)) && w.up[i][0].Register?
    ensures WorldInv(n, Serve(w, i), x')
  {
    hide Count, About, From, Ordered, Holds, LocalInv;
    HeadRequest(n, w, x, i);
    var j := w.up[i][0].peer;
    var p := PhaseOf(x, i, j);
    x' := SetPhase(x, i, j, Registered(p.e, p.f));
    RegisterKeepsLocals(n, w, x, i);
    var w' := Serve(w, i);
    forall a, b | 0 <= a < b < n
      ensures PairInv(w', x', a, b)
    {
      RegisterViews(n, w, i, j, a, b);
      assert PairInv(w, x, a, b);
    }
  }

  lemma ServeChat(n: nat, w: World, x: Aux, i: nat)
    requires WorldInv(n, w, x) && Enabled(n, w, ServerTake(i)) && w.up[i][0].Chat?
    ensures WorldInv(n, Serve(w, i), x)
  {
    hide Count, Ordered, Holds, Expected;
    HeadRequest(n, w, x, i);
    var j := w.up[i][0].to;
    var m := ChatFrom(i, w.up[i][0].payload);
    var w' := Serve(w, i);
    assert w' == Push(w.(up := w.up[i := w.up[i][1..]]), j, m);
    RelayKeepsLocals(n, w, x, i, j, m);
    forall a, b | 0 <= a < b < n
      ensures PairInv(w', x, a, b)
    {
      FromAppend(w.down[j], m, a);
      FromAppend(w.down[j], m, b);
      assert PairInv(w, x, a, b);
      assert ViewOf(w', a, b) == ViewOf(w, a, b);
    }
  }

  // ---------------------------------------------------------------------------
  // Steps of a client.

  /** What the head of a client's response queue can be. */
  lemma HeadResponse(n: nat, w: World, x: Aux, i: nat)
    requires WorldInv(n, w, x) && i < n && w.down[i] != []
    ensures ValidResponse(n, i, w.down[i][0])
    ensures match w.down[i][0]
            case HelloFrom(j, e) => j < i && PhaseOf(x, j, i) == HelloDown(e)
            case AnswerFrom(j, e, f) => i < j && PhaseOf(x, i, j) == AnswerDown(e, f)
            case ChatFrom(_, _) => w.server.activeSent == n
            case _ => true
  {
    hide Count, About;
    var m := w.down[i][0];
    assert LocalInv(n, i, w.clients[i], w.up[i], w.down[i], w.server, i in x.met);
    if m.HelloFrom? || m.AnswerFrom? {
      var j := m.peer;
      assert From(w.down[i], j)[0] == m;
      var a, b := if i < j then i else j, if i < j then j else i;
      assert PairInv(w, x, a, b);
      assert ViewOf(w, a, b) == Expected(PhaseOf(x, a, b), a, b);
    }
  }

  /** A client's step as a change of the world. */
  function ClientWorld(w: World, i: nat, c: Client, sent: seq<Request>): World
    requires i < |w.clients| == |w.up| == |w.down| && w.down[i] != []
  {
    w.(clients := w.clients[i := c], up := w.up[i := w.up[i] + sent], down := w.down[i := w.down[i][1..]])
  }

  /** The views of the pairs after client i took its head and sent some requests. */
  lemma ClientViews(n: nat, w: World, i: nat, c: Client, sent: seq<Request>, a: nat, b: nat)
    requires Sized(n, w) && i < n && w.down[i] != [] && a < b < n
    ensures var w' := ClientWorld(w, i, c, sent);
            var v, v' := ViewOf(w, a, b), ViewOf(w', a, b);
            var head := w.down[i][0];
            && (a == i ==>
                  && v' == v.(a := Entry(c, b), upA := v.upA + About(sent, b), downA := v'.downA)
                  && v.downA == (if ComesFrom(head, b) then [head] else []) + v'.downA)
            && (b == i ==>
                  && v' == v.(b := Entry(c, a), upB := v.upB + About(sent, a), downB := v'.downB)
                  && v.downB == (if ComesFrom(head, a) then [head] else []) + v'.downB)
            && (a != i && b != i ==> v' == v)
  {
    AboutConcat(w.up[i], sent, a);
    AboutConcat(w.up[i], sent, b);
  }

  /** The other clients notice nothing, and neither does the server. */
  lemma ClientKeepsLocals(n: nat, w: World, x: Aux, i: nat, c: Client, sent: seq<Request>, met: set<nat>)
    requires WorldInv(n, w, x) && i < n && w.down[i] != []
    requires met == x.met || met == x.met + {i}
    requires forall k :: 0 <= k < |sent| ==> ValidRequest(n, i, sent[k]) && !sent[k].Chat?
    requires LocalInv(n, i, c, w.up[i], w.down[i][1..], w.server, i in met)
    ensures var w' := ClientWorld(w, i, c, sent);
            forall k :: 0 <= k < n ==> LocalInv(n, k, w'.clients[k], w'.up[k], w'.down[k], w'.server, k in met)
  {
    hide Count, Ordered, Holds;
    var w' := ClientWorld(w, i, c, sent);
    forall k | 0 <= k < n
      ensures LocalInv(n, k, w'.clients[k], w'.up[k], w'.down[k], w'.server, k in met)
    {
      assert LocalInv(n, k, w.clients[k], w.up[k], w.down[k], w.server, k in x.met);
    }
  }

  /** LocalInv looks at a client's flags only, not at its peer table. */
  lemma LocalIgnoresPeers(n: nat, i: nat, c: Client, c': Client, up: seq<Request>, down: seq<Response>, s: Server,
                          met: bool)
    requires LocalInv(n, i, c, up, down, s, met)
    requires c' == c.(peers := c'.peers, serial := c'.serial)
    ensures LocalInv(n, i, c', up, down, s, met)
  {
  }

  lemma ApplyIsClientWorld(n: nat, w: World, i: nat, c: Client, sent: seq<Request>)
    requires Sized(n, w) && Enabled(n, w, ClientTake(i))
    requires ClientStep(w.clients[i], i, n, w.down[i][0]) == (c, sent)
    ensures Apply(n, w, ClientTake(i)) == ClientWorld(w, i, c, sent)
  {
    hide ClientStep;
  }

  lemma LocalOf(n: nat, w: World, x: Aux, i: nat)
    requires WorldInv(n, w, x) && i < n
    ensures LocalInv(n, i, w.clients[i], w.up[i], w.down[i], w.server, i in x.met)
    ensures w.clients[i].joined ==> w.server.activeSent > 0
    ensures i > 0 ==> (w.clients[i].session <==> i in x.met)
    ensures w.clients[i].error.None?
  {
    hide Count, Ordered, Holds;
  }

  /** The responder's step: the entry was absent, and no registration is due from the later participant. */
  lemma TakeHello(n: nat, w: World, x: Aux, i: nat) returns (x': Aux)
    requires WorldInv(n, w, x) && Enabled(n, w, ClientTake(i)) && w.down[i][0].HelloFrom?
    ensures WorldInv(n, Apply(n, w, ClientTake(i)), x')
  {
    hide Count, About, From, Ordered, Holds, LocalInv;
    HeadResponse(n, w, x, i);
    LocalOf(n, w, x, i);
    var c, j, e := w.clients[i], w.down[i][0].peer, w.down[i][0].e;
    var f := Ephemeral(i, c.serial);
    x' := SetPhase(x, j, i, AnswerUp(e, f));
    assert PairInv(w, x, j, i);
    assert ViewOf(w, j, i).b == None;
    var c' := c.(peers := c.peers[j := Transport(f, e, false)], serial := c.serial + 1);
    var sent := [Answer(j, e, f)];
    assert ClientStep(c, i, n, w.down[i][0]) == (c', sent) by {
      assert sent + [] == sent;
    }
    PopKeepsLocal(n, i, c, w.up[i], w.down[i], w.server, i in x.met);
    LocalIgnoresPeers(n, i, c, c', w.up[i], w.down[i][1..], w.server, i in x.met);
    HandshakeStep(n, w, x, i, c', sent, j, i, AnswerUp(e, f));
  }

  /** The initiator's step: the entry awaits exactly this answer, and the registration goes out. */
  lemma TakeAnswer(n: nat, w: World, x: Aux, i: nat) returns (x': Aux)
    requires WorldInv(n, w, x) && Enabled(n, w, ClientTake(i)) && w.down[i][0].AnswerFrom?
    ensures WorldInv(n, Apply(n, w, ClientTake(i)), x')
  {
    hide Count, About, From, Ordered, Holds, LocalInv;
    HeadResponse(n, w, x, i);
    LocalOf(n, w, x, i);
    var c, j := w.clients[i], w.down[i][0].peer;
    var e, f := w.down[i][0].e, w.down[i][0].f;
    x' := SetPhase(x, i, j, Registering(e, f));
    assert PairInv(w, x, i, j);
    assert ViewOf(w, i, j).a == Some(Handshake(e));
    PopKeepsLocal(n, i, c, w.up[i], w.down[i], w.server, i in x.met);
    var without := c.peers - {j};
    var c' := c.(peers := without[j := Transport(e, f, true)]);
    var sent := [Register(j)];
    assert ClientStep(c, i, n, w.down[i][0]) == (c', sent);
    LocalIgnoresPeers(n, i, c, c', w.up[i], w.down[i][1..], w.server, i in x.met);
    HandshakeStep(n, w, x, i, c', sent, i, j, Registering(e, f));
  }

  /** A client's handshake step moves one pair to its next phase and leaves the others alone. */
  lemma HandshakeStep(n: nat, w: World, x: Aux, i: nat, c': Client, sent: seq<Request>, a: nat, b: nat, p: Phase)
    requires WorldInv(n, w, x) && Enabled(n, w, ClientTake(i)) && a < b < n && (a == i || b == i)
    requires ClientStep(w.clients[i], i, n, w.down[i][0]) == (c', sent)
    requires LocalInv(n, i, c', w.up[i], w.down[i][1..], w.server, i in x.met)
    requires |sent| == 1 && ValidRequest(n, i, sent[0]) && !sent[0].Chat?
    requires var other := if a == i then b else a;
             && Concerns(sent[0], other) && ComesFrom(w.down[i][0], other)
             && forall k :: 0 <= k < n && k != other ==> Entry(c', k) == Entry(w.clients[i], k)
    requires var v, old' := Expected(p, a, b), Expected(PhaseOf(x, a, b), a, b);
             if a == i then old'.downA == [w.down[i][0]]
                            && v == old'.(a := Entry(c', b), upA := old'.upA + sent, downA := [])
             else old'.downB == [w.down[i][0]] && v == old'.(b := Entry(c', a), upB := old'.upB + sent, downB := [])
    requires !p.Idle? && !PhaseOf(x, a, b).Idle? && w.server.activeSent == 0 && (a == 0 ==> w.server.replied)
    ensures WorldInv(n, Apply(n, w, ClientTake(i)), SetPhase(x, a, b, p))
  {
    hide Count, About, From, Ordered, Holds, LocalInv, ClientStep, Expected, Entry;
    var x' := SetPhase(x, a, b, p);
    ApplyIsClientWorld(n, w, i, c', sent);
    ClientKeepsLocals(n, w, x, i, c', sent, x.met);
    var w' := ClientWorld(w, i, c', sent);
    forall y, z | 0 <= y < z < n
      ensures PairInv(w', x', y, z)
    {
      ClientViews(n, w, i, c', sent, y, z);
      AboutOne(sent[0], y);
      AboutOne(sent[0], z);
      assert sent == [sent[0]];
      assert PairInv(w, x, y, z);
    }
  }

  lemma AboutOne(m: Request, k: nat)
    ensures About([m], k) == if Concerns(m, k) then [m] else []
  {
    assert [m][1..] == [];
  }

  /** What is sent to later participants, seen from participant k. */
  ghost predicate Greets(c: Client, c': Client, sent: seq<Request>, own: nat, next: nat, n: nat, k: nat) {
    if next <= k < n then
      Entry(c', k) == Some(Handshake(Ephemeral(own, c.serial + (k - next))))
      && About(sent, k) == [Hello(k, Ephemeral(own, c.serial + (k - next)))]
    else
      Entry(c', k) == Entry(c, k) && About(sent, k) == []
  }

  /** Handshakes with all later peers: no error, and requests to valid peers only. */
  lemma {:induction false} ConnectAll(c: Client, own: nat, next: nat, n: nat)
    requires own < next && c.error.None?
    requires forall k :: next <= k < n ==> k !in c.peers
    ensures var (c', sent) := ConnectFrom(c, own, next, n);
            && c' == c.(peers := c'.peers, serial := c'.serial)
            && (forall k :: 0 <= k < |sent| ==> ValidRequest(n, own, sent[k]) && !sent[k].Chat?)
    decreases n - next
  {
    if next < n {
      ConnectAll(ConnectPeer(c, own, next).0, own, next + 1, n);
    }
  }

  /** One entry and one greeting each. */
  lemma {:induction false} ConnectGreets(c: Client, own: nat, next: nat, n: nat, k: nat)
    requires own < next && c.error.None?
    requires forall k :: next <= k < n ==> k !in c.peers
    ensures Greets(c, ConnectFrom(c, own, next, n).0, ConnectFrom(c, own, next, n).1, own, next, n, k)
    decreases n - next
  {
    if next < n {
      var (c1, hello) := ConnectPeer(c, own, next);
      ConnectGreets(c1, own, next + 1, n, k);
      AboutConcat(hello, ConnectFrom(c1, own, next + 1, n).1, k);
      AboutOne(Hello(next, Ephemeral(own, c.serial)), k);
    }
  }

  function Greeting(own: nat, serial: nat, k: nat): Ephemeral
    requires own < k
  {
    Ephemeral(own, serial + (k - (own + 1)))
  }

  /** The phases after participant i greeted everyone after it. */
  function Greeted(x: Aux, n: nat, i: nat, serial: nat): (x': Aux)
    ensures x'.met == x.met + {i}
    ensures forall a, b :: 0 <= a < b < n ==>
              PhaseOf(x', a, b) == if a == i then HelloUp(Greeting(i, serial, b)) else PhaseOf(x, a, b)
  {
    Aux(map a: nat, b: nat | a < n && b < n && a < b ::
          (a, b) := if a == i then HelloUp(Greeting(i, serial, b)) else PhaseOf(x, a, b),
        x.met + {i})
  }

  lemma ReadyPair(n: nat, w: World, x: Aux, i: nat, c': Client, sent: seq<Request>, next: nat, a: nat, b: nat)
    requires WorldInv(n, w, x) && i < n && w.down[i] != [] && w.down[i][0].SessionReady? && i !in x.met && a < b < n
    requires next == i + 1 && forall k :: 0 <= k < n ==> Greets(w.clients[i], c', sent, i, next, n, k)
    ensures PairInv(ClientWorld(w, i, c', sent), Greeted(x, n, i, w.clients[i].serial), a, b)
  {
    hide Count, About, From, LocalInv, Entry;
    ClientViews(n, w, i, c', sent, a, b);
    assert PairInv(w, x, a, b);
    assert Greets(w.clients[i], c', sent, i, next, n, a) && Greets(w.clients[i], c', sent, i, next, n, b);
    var w' := ClientWorld(w, i, c', sent);
    assert w'.server == w.server;
  }

  /** Handling the ready notification: greetings to all later participants, none of whom is known yet. */
  lemma TakeReady(n: nat, w: World, x: Aux, i: nat) returns (x': Aux)
    requires WorldInv(n, w, x) && Enabled(n, w, ClientTake(i)) && w.down[i][0].SessionReady?
    ensures WorldInv(n, Apply(n, w, ClientTake(i)), x')
  {
    hide Count, About, From, Ordered, Holds, LocalInv, Greeted, Expected, ConnectFrom;
    LocalOf(n, w, x, i);
    var c := w.clients[i];
    PopKeepsLocal(n, i, c, w.up[i], w.down[i], w.server, i in x.met);
    NotMetNotJoined(n, w, x, i);
    var c0 := if i == 0 then c else c.(session := true);
    forall k | i < k < n
      ensures k !in c.peers
    {
      IdleMeansUnknown(n, w, x, i, k);
    }
    var next := i + 1;
    ConnectAll(c0, i, next, n);
    var (c', sent) := ConnectFrom(c0, i, next, n);
    forall k | 0 <= k < n
      ensures Greets(c, c', sent, i, next, n, k)
    {
      ConnectGreets(c0, i, next, n, k);
    }
    x' := Greeted(x, n, i, c.serial);
    ApplyIsClientWorld(n, w, i, c', sent);
    LocalIgnoresPeers(n, i, c0, c', w.up[i], w.down[i][1..], w.server, true);
    ClientKeepsLocals(n, w, x, i, c', sent, x'.met);
    forall a, b | 0 <= a < b < n
      ensures PairInv(ClientWorld(w, i, c', sent), x', a, b)
    {
      ReadyPair(n, w, x, i, c', sent, next, a, b);
    }
  }

  lemma IdleMeansUnknown(n: nat, w: World, x: Aux, i: nat, k: nat)
    requires WorldInv(n, w, x) && i < k < n && i !in x.met
    ensures k !in w.clients[i].peers
  {
    hide Count, About, From, LocalInv;
    assert PairInv(w, x, i, k);
    assert ViewOf(w, i, k).a == None;
  }

  lemma NotMetNotJoined(n: nat, w: World, x: Aux, i: nat)
    requires WorldInv(n, w, x) && i < n && i !in x.met
    ensures !w.clients[i].joined
  {
    hide Count, Ordered, Holds;
    assert LocalInv(n, i, w.clients[i], w.up[i], w.down[i], w.server, i in x.met);
  }

  /** Steps that change flags only. */
  lemma TakeQuiet(n: nat, w: World, x: Aux, i: nat, c': Client)
    requires WorldInv(n, w, x) && Enabled(n, w, ClientTake(i))
    requires var m := w.down[i][0]; m.SessionCreated? || m.SessionActive? || m.ChatFrom? || m.SessionTimeout?
    requires ClientStep(w.clients[i], i, n, w.down[i][0]) == (c', []) && c'.peers == w.clients[i].peers
    requires LocalInv(n, i, c', w.up[i], w.down[i][1..], w.server, i in x.met)
    ensures WorldInv(n, Apply(n, w, ClientTake(i)), x)
  {
    hide Count, From, Ordered, Holds, LocalInv, ClientStep, Expected;
    ApplyIsClientWorld(n, w, i, c', []);
    ClientKeepsLocals(n, w, x, i, c', [], x.met);
    var w' := ClientWorld(w, i, c', []);
    forall a, b | 0 <= a < b < n
      ensures PairInv(w', x, a, b)
    {
      ClientViews(n, w, i, c', [], a, b);
      assert PairInv(w, x, a, b);
      assert ViewOf(w', a, b) == ViewOf(w, a, b);
    }
  }

  /** Once the active broadcast has begun every entry is a transport. */
  lemma ActiveMeansTransport(n: nat, w: World, x: Aux, i: nat, j: nat)
    requires WorldInv(n, w, x) && i < n && j < n && i != j && w.server.activeSent > 0
    ensures TransportError(w.clients[i], j).None?
  {
    hide About, From, LocalInv;
    var a, b := if i < j then i else j, if i < j then j else i;
    assert PairInv(w, x, a, b);
    assert ViewOf(w, a, b) == Expected(PhaseOf(x, a, b), a, b);
    assert Entry(w.clients[i], j) == if i < j then ViewOf(w, a, b).a else ViewOf(w, a, b).b;
  }

  lemma ClientTakeKeeps(n: nat, w: World, x: Aux, i: nat) returns (x': Aux)
    requires WorldInv(n, w, x) && Enabled(n, w, ClientTake(i))
    ensures WorldInv(n, Apply(n, w, ClientTake(i)), x')
  {
    hide Count, About, From, Ordered, Holds, LocalInv, Expected;
    LocalOf(n, w, x, i);
    HeadResponse(n, w, x, i);
    var c, m := w.clients[i], w.down[i][0];
    PopKeepsLocal(n, i, c, w.up[i], w.down[i], w.server, i in x.met);
    match m {
      case HelloFrom(_, _) => x' := TakeHello(n, w, x, i);
      case AnswerFrom(_, _, _) => x' := TakeAnswer(n, w, x, i);
      case SessionReady => x' := TakeReady(n, w, x, i);
      case SessionCreated => x' := x; TakeQuiet(n, w, x, i, if i == 0 then c.(session := true) else c);
      case SessionActive => x' := x; TakeQuiet(n, w, x, i, c.(joined := true));
      case SessionTimeout => x' := x; TakeQuiet(n, w, x, i, c);
      case ChatFrom(j, _) =>
        x' := x;
        ActiveMeansTransport(n, w, x, i, j);
        TakeQuiet(n, w, x, i, c);
    }
  }

  lemma SayKeeps(n: nat, w: World, x: Aux, i: nat, j: nat, payload: Sealed)
    requires WorldInv(n, w, x) && Enabled(n, w, Say(i, j, payload))
    ensures WorldInv(n, Apply(n, w, Say(i, j, payload)), x)
  {
    hide Count, From, Ordered, Holds, Expected;
    LocalOf(n, w, x, i);
    ActiveMeansTransport(n, w, x, i, j);
    var w' := Apply(n, w, Say(i, j, payload));
    assert w' == w.(up := w.up[i := w.up[i] + [Chat(j, payload)]]);
    forall k | 0 <= k < n
      ensures LocalInv(n, k, w'.clients[k], w'.up[k], w'.down[k], w'.server, k in x.met)
    {
      assert LocalInv(n, k, w.clients[k], w.up[k], w.down[k], w.server, k in x.met);
    }
    forall a, b | 0 <= a < b < n
      ensures PairInv(w', x, a, b)
    {
      assert PairInv(w, x, a, b);
      AboutConcat(w.up[i], [Chat(j, payload)], a);
      AboutConcat(w.up[i], [Chat(j, payload)], b);
      assert [Chat(j, payload)][1..] == [];
      assert ViewOf(w', a, b) == ViewOf(w, a, b);
    }
  }

  lemma ApplyKeeps(n: nat, w: World, x: Aux, action: Action) returns (x': Aux)
    requires WorldInv(n, w, x) && Enabled(n, w, action)
    ensures WorldInv(n, Apply(n, w, action), x')
  {
    assert Sized(n, w);
    hide WorldInv;
    x' := x;
    match action {
      case GoOnline(i) => OnlineKeeps(n, w, x, i);
      case ReplyCreated => ReplyKeeps(n, w, x);
      case NotifyReady => ReadyKeeps(n, w, x);
      case NotifyActive => ActiveKeeps(n, w, x);
      case GiveUp => QuitKeeps(n, w, x);
      case NotifyTimeout => TimeoutKeeps(n, w, x);
      case ServerTake(i) =>
        match w.up[i][0] {
          case Hello(_, _) => x' := ServeHello(n, w, x, i);
          case Answer(_, _, _) => x' := ServeAnswer(n, w, x, i);
          case Register(_) => x' := ServeRegister(n, w, x, i);
          case Chat(_, _) => ServeChat(n, w, x, i);
        }
      case ClientTake(i) => x' := ClientTakeKeeps(n, w, x, i);
      case Say(i, j, payload) => SayKeeps(n, w, x, i, j, payload);
    }
  }

  /** The invariant holds after every sequence of steps. */
  lemma {:induction false} EveryRunKeepsInv(n: nat, actions: seq<Action>) returns (x: Aux)
    requires Exec(n, actions).Some?
    ensures WorldInv(n, Exec(n, actions).value, x)
  {
    hide WorldInv, Apply;
    if actions == [] {
      InitialInv(n);
      x := Aux(map[], {});
    } else {
      var last := |actions| - 1;
      x := EveryRunKeepsInv(n, actions[..last]);
      x := ApplyKeeps(n, Exec(n, actions[..last]).value, x, actions[last]);
    }
  }
}
