// What holds of every run of session establishment.
module MeshTheorems {
  import opened Basics
  import Sessions
  import opened Mesh
  import opened MeshInvariant

  /**
   * No reachable state has a client error: no handshake race, no unexpected answer, no message for
   * an unknown peer, no completed handshake before the initiator knows its session. And no session
   * message ever reaches a client that has not yet seen its session become active.
   */
  lemma NoClientEverFails(n: nat, actions: seq<Action>, i: nat)
    requires Exec(n, actions).Some? && i < n
    ensures Exec(n, actions).value.clients[i].error == None
    ensures Exec(n, actions).value.clients[i].dropped == 0
  {
    var x := EveryRunKeepsInv(n, actions);
    var w := Exec(n, actions).value;
    assert LocalInv(n, i, w.clients[i], w.up[i], w.down[i], w.server, i in x.met);
  }

  predicate PairMatched(w: World, i: nat, j: nat)
    requires i < |w.clients| && j < |w.clients|
  {
    && j in w.clients[i].peers && i in w.clients[j].peers
    && Matched(w.clients[i].peers[j], w.clients[j].peers[i])
  }

  lemma RegisteredPhase(n: nat, w: World, x: Aux, i: nat, j: nat)
    requires WorldInv(n, w, x) && i < j < n && PhaseOf(x, i, j).Registered?
    ensures PairMatched(w, i, j) && PairMatched(w, j, i)
  {
    hide LocalInv, About, From;
    assert PairInv(w, x, i, j);
    var v := ViewOf(w, i, j);
    assert v.a.Some? && v.b.Some?;
  }

  /** A registered edge runs from an earlier to a later participant and both ends hold matching transports. */
  lemma RegisteredMeansMatched(n: nat, actions: seq<Action>, i: nat, j: nat)
    requires Exec(n, actions).Some? && i < n && j < n && i != j
    requires (i, j) in Exec(n, actions).value.server.connections
    ensures i < j && PairMatched(Exec(n, actions).value, i, j) && PairMatched(Exec(n, actions).value, j, i)
  {
    hide Exec, LocalInv, About, From;
    var x := EveryRunKeepsInv(n, actions);
    var w := Exec(n, actions).value;
    if i < j {
      EdgeMeansRegistered(n, w, x, i, j);
      RegisteredPhase(n, w, x, i, j);
    } else {
      EdgeMeansRegistered(n, w, x, j, i);
    }
  }

  /** Once the session is announced active to anyone, every pair is connected and can exchange messages. */
  lemma ActiveMeansConnected(n: nat, actions: seq<Action>, i: nat, j: nat, payload: Sealed)
    requires Exec(n, actions).Some? && i < n && j < n && i != j
    requires Exec(n, actions).value.server.activeSent > 0
    ensures PairMatched(Exec(n, actions).value, i, j)
    ensures Speak(Exec(n, actions).value.clients[i], j, payload)
            == (Exec(n, actions).value.clients[i], [Chat(j, payload)])
  {
    hide Exec, LocalInv, About, From;
    var x := EveryRunKeepsInv(n, actions);
    var w := Exec(n, actions).value;
    var a, b := if i < j then i else j, if i < j then j else i;
    assert PairInv(w, x, a, b);
    RegisteredPhase(n, w, x, a, b);
  }

  /** A session message queued for a client that has not joined is queued behind its SessionActive. */
  lemma ActiveComesFirst(n: nat, actions: seq<Action>, i: nat, k: nat)
    requires Exec(n, actions).Some? && i < n
    requires var w := Exec(n, actions).value; k < |w.down[i]| && w.down[i][k].ChatFrom? && !w.clients[i].joined
    ensures exists h :: 0 <= h < k && Exec(n, actions).value.down[i][h] == SessionActive
  {
    var x := EveryRunKeepsInv(n, actions);
    var w := Exec(n, actions).value;
    assert LocalInv(n, i, w.clients[i], w.up[i], w.down[i], w.server, i in x.met);
    var h := FirstBefore(ChatAfterActive, w.down[i], k);
  }

  lemma {:induction false} FirstBefore(o: Order, q: seq<Response>, k: nat) returns (h: nat)
    requires Ordered(o, q) && k < |q| && IsSecond(o, q[k]) && !IsFirst(o, q[k])
    ensures h < k && IsFirst(o, q[h])
  {
    if IsFirst(o, q[0]) {
      h := 0;
    } else {
      h := FirstBefore(o, q[1..], k - 1);
      h := h + 1;
    }
  }

  // ---------------------------------------------------------------------------
  // Where set-up comes to rest.

  /** Nothing is left to do but talk, or to give up. */
  ghost predicate SetUpRests(n: nat, w: World)
    requires Sized(n, w)
  {
    forall a :: Enabled(n, w, a) ==> a.Say? || a.GiveUp?
  }

  lemma RestingQueues(n: nat, w: World, x: Aux, i: nat)
    requires WorldInv(n, w, x) && SetUpRests(n, w) && i < n
    ensures w.down[i] == [] && w.up[i] == []
    ensures w.server.readySent == n || (w.server.gaveUp && w.server.readySent == 0)
    ensures i in x.met <==> w.server.readySent == n
  {
    hide Ordered;
    assert LocalInv(n, i, w.clients[i], w.up[i], w.down[i], w.server, i in x.met);
    assert !Enabled(n, w, ClientTake(i));
    assert !Enabled(n, w, ReplyCreated) && !Enabled(n, w, NotifyReady) && !Enabled(n, w, NotifyActive);
    forall k | 0 <= k < n
      ensures k in w.server.online
    {
      assert !Enabled(n, w, GoOnline(k));
    }
    assert Count([], SessionReady) == 0;
    assert !Enabled(n, w, ServerTake(i));
  }

  /** The edges that session set-up registers. */
  function ForwardEdges(n: nat): set<(nat, nat)> {
    set i: nat, j: nat | i < n && j < n && i < j :: (i, j)
  }

  /** Only forward edges are ever registered. */
  lemma OnlyForwardEdges(n: nat, w: World, x: Aux)
    requires WorldInv(n, w, x)
    ensures w.server.connections <= ForwardEdges(n)
  {
    hide LocalInv, Expected;
    forall e | e in w.server.connections
      ensures e in ForwardEdges(n)
    {
      if e.1 < e.0 {
        EdgeMeansRegistered(n, w, x, e.1, e.0);
      }
    }
  }

  /** Every pair of participants is registered. */
  lemma RestingEdges(n: nat, w: World, x: Aux)
    requires WorldInv(n, w, x) && SetUpRests(n, w) && w.server.readySent == n
    ensures w.server.connections == ForwardEdges(n)
  {
    hide SetUpRests, WorldInv, PhaseOf;
    OnlyForwardEdges(n, w, x);
    forall i, j | 0 <= i < j < n
      ensures (i, j) in w.server.connections
    {
      RestingPair(n, w, x, i, j);
      EdgeMeansRegistered(n, w, x, i, j);
    }
    assert ForwardEdges(n) <= w.server.connections;
  }

  /** When a watcher gave up before all participants were there, none is registered with any other. */
  lemma NoEdgesBeforeReady(n: nat, w: World, x: Aux)
    requires WorldInv(n, w, x) && SetUpRests(n, w) && w.server.readySent == 0 < n
    ensures w.server.connections == {}
  {
    hide SetUpRests, LocalInv, PairInv;
    forall e: (nat, nat) | e.0 < n && e.1 < n && e.0 != e.1
      ensures e !in w.server.connections
    {
      NoEdgeYet(n, w, x, if e.0 < e.1 then e.0 else e.1, if e.0 < e.1 then e.1 else e.0);
    }
  }

  lemma NoEdgeYet(n: nat, w: World, x: Aux, i: nat, j: nat)
    requires WorldInv(n, w, x) && SetUpRests(n, w) && w.server.readySent == 0 && i < j < n
    ensures (i, j) !in w.server.connections && (j, i) !in w.server.connections
  {
    hide SetUpRests, LocalInv, About, From, Expected;
    RestingQueues(n, w, x, i);
    EdgeMeansRegistered(n, w, x, i, j);
    assert PairInv(w, x, i, j);
  }

  /** Every participant has seen the session become active. */
  predicate AllJoined(w: World) {
    forall i :: 0 <= i < |w.clients| ==> w.clients[i].joined
  }

  predicate NobodyJoined(w: World) {
    forall i :: 0 <= i < |w.clients| ==> !w.clients[i].joined
  }

  lemma RestingJoined(n: nat, w: World, x: Aux)
    requires WorldInv(n, w, x) && SetUpRests(n, w) && !w.server.gaveUp && w.server.connections == ForwardEdges(n)
    ensures AllJoined(w)
  {
    hide About, From, Ordered, ForwardEdges;
    assert !Enabled(n, w, NotifyActive);
    forall i | 0 <= i < n
      ensures w.clients[i].joined
    {
      RestingQueues(n, w, x, i);
      assert AllLinked(n, w.server.connections) by {
        ForwardEdgesLink(n);
      }
      assert LocalInv(n, i, w.clients[i], w.up[i], w.down[i], w.server, i in x.met);
      assert !Holds(ChatAfterActive, []);
    }
  }

  lemma ForwardEdgesLink(n: nat)
    ensures AllLinked(n, ForwardEdges(n))
  {}

  lemma NotBoth(w: World)
    requires w.clients != [] && NobodyJoined(w)
    ensures !AllJoined(w)
  {
    assert !w.clients[0].joined;
  }

  /** Once a watcher gave up nobody has joined: the session becomes active for all, or times out for all. */
  lemma GivingUpExcludesJoining(n: nat, actions: seq<Action>)
    requires Exec(n, actions).Some? && Exec(n, actions).value.server.gaveUp
    ensures NobodyJoined(Exec(n, actions).value) && Exec(n, actions).value.server.activeSent == 0
  {
    hide Exec;
    var x := EveryRunKeepsInv(n, actions);
    var w := Exec(n, actions).value;
    forall i | 0 <= i < n ensures !w.clients[i].joined {
      LocalOf(n, w, x, i);
    }
  }

  /**
   * No registration is lost. Session set-up comes to rest with exactly the forward edges registered and
   * every participant having seen the session become active, or else a watcher gave up: then nobody
   * has joined, everyone has been told so, and there are no edges or all of them, depending on whether
   * that watcher was waiting for the participants or for their connections.
   */
  lemma SetUpRestsOnlyWhenActive(n: nat, actions: seq<Action>)
    requires Exec(n, actions).Some? && SetUpRests(n, Exec(n, actions).value)
    ensures var w := Exec(n, actions).value;
            if w.server.gaveUp then
              && NobodyJoined(w) && w.server.timeoutSent >= n
              && w.server.connections == if w.server.readySent == 0 then {} else ForwardEdges(n)
            else w.server.connections == ForwardEdges(n) && AllJoined(w)
  {
    hide Exec, WorldInv, AllJoined, NobodyJoined, ForwardEdges;
    var x := EveryRunKeepsInv(n, actions);
    var w := Exec(n, actions).value;
    if w.server.gaveUp {
      GivingUpExcludesJoining(n, actions);
      assert !Enabled(n, w, NotifyTimeout);
      assert n > 0 && (w.server.readySent == 0 || w.server.readySent == n) by {
        GaveUpWhen(n, w, x);
      }
      if w.server.readySent == 0 {
        NoEdgesBeforeReady(n, w, x);
      } else {
        RestingEdges(n, w, x);
      }
    } else {
      if n > 0 {
        RestingQueues(n, w, x, 0);
      } else {
        ReadySentIsBounded(n, w, x);
      }
      RestingEdges(n, w, x);
      RestingJoined(n, w, x);
    }
  }

  lemma GaveUpWhen(n: nat, w: World, x: Aux)
    requires WorldInv(n, w, x) && w.server.gaveUp
    ensures n > 0 && w.server.activeSent == 0 && (w.server.readySent == 0 || w.server.readySent == n)
  {}

  lemma ReadySentIsBounded(n: nat, w: World, x: Aux)
    requires WorldInv(n, w, x)
    ensures w.server.readySent <= n
  {}

  /** In terms of public keys, what is registered at rest is what each participant's snapshot asks of it. */
  lemma ForwardEdgesAreDue(s: Sessions.SessionState, a: nat, b: nat)
    requires Distinct(s.participants) && a < |s.participants| && b < |s.participants|
    ensures (a, b) in ForwardEdges(|s.participants|) <==> (s.participants[a], s.participants[b]) in Sessions.DueEdges(s)
  {
    Sessions.DueEdgeIsOrderedPair(s, a, b);
  }

  lemma RestingPair(n: nat, w: World, x: Aux, i: nat, j: nat)
    requires WorldInv(n, w, x) && SetUpRests(n, w) && i < j < n && w.server.readySent == n
    ensures PhaseOf(x, i, j).Registered?
  {
    hide LocalInv;
    RestingQueues(n, w, x, i);
    RestingQueues(n, w, x, j);
    assert PairInv(w, x, i, j);
    assert ViewOf(w, i, j) == Expected(PhaseOf(x, i, j), i, j);
  }

  /** Edges between positions, as edges between the keys at these positions. */
  function KeyEdges(s: Sessions.SessionState, connections: set<(nat, nat)>): set<Sessions.Edge>
    requires forall e <- connections :: e.0 < |s.participants| && e.1 < |s.participants|
  {
    set e <- connections :: (s.participants[e.0], s.participants[e.1])
  }

  lemma KeyEdgeIs(s: Sessions.SessionState, connections: set<(nat, nat)>, i: nat, j: nat)
    requires Distinct(s.participants) && i < |s.participants| && j < |s.participants|
    requires forall e <- connections :: e.0 < |s.participants| && e.1 < |s.participants|
    ensures (s.participants[i], s.participants[j]) in KeyEdges(s, connections) <==> (i, j) in connections
  {
    if (s.participants[i], s.participants[j]) in KeyEdges(s, connections) {
      var e :| e in connections && s.participants[e.0] == s.participants[i] && s.participants[e.1] == s.participants[j];
      assert e == (i, j);
    }
  }

  /** What the active watcher waits for is the completeness that the session's own test computes. */
  lemma AllLinkedIsComplete(s: Sessions.SessionState, connections: set<(nat, nat)>)
    requires Distinct(s.participants)
    requires forall e <- connections :: e.0 < |s.participants| && e.1 < |s.participants|
    ensures AllLinked(|s.participants|, connections) <==>
            Sessions.Complete(Sessions.KeySet(s.participants), KeyEdges(s, connections))
  {
    var p, edges := s.participants, KeyEdges(s, connections);
    hide KeyEdges;
    if AllLinked(|p|, connections) {
      forall a, b | a in Sessions.KeySet(p) && b in Sessions.KeySet(p) && a != b ensures Sessions.Linked(edges, a, b) {
        var i :| 0 <= i < |p| && p[i] == a;
        var j :| 0 <= j < |p| && p[j] == b;
        KeyEdgeIs(s, connections, i, j);
        KeyEdgeIs(s, connections, j, i);
      }
    }
    if Sessions.Complete(Sessions.KeySet(p), edges) {
      forall i, j | 0 <= i < |p| && 0 <= j < |p| && i != j ensures (i, j) in connections || (j, i) in connections {
        assert Sessions.Linked(edges, p[i], p[j]);
        KeyEdgeIs(s, connections, i, j);
        KeyEdgeIs(s, connections, j, i);
      }
    }
  }
}
