// What each step does to the session messages on their way between two clients.
module ConversationLinks {
  import opened Basics
  import opened Conversation
  import M = Mesh
  import MI = MeshInvariant

  // ---------------------------------------------------------------------------
  // Queues.

  lemma {:induction false} ToPeerConcat(a: seq<M.Request>, b: seq<M.Request>, peer: nat)
    ensures ToPeer(a + b, peer) == ToPeer(a, peer) + ToPeer(b, peer)
  {
    if a == [] {
      assert a + b == b;
    } else {
      var head := if a[0].Chat? && a[0].to == peer then [a[0].payload] else [];
      assert (a + b)[0] == a[0] && (a + b)[1..] == a[1..] + b;
      ToPeerConcat(a[1..], b, peer);
      Regroup(head, ToPeer(a[1..], peer), ToPeer(b, peer));
    }
  }

  lemma {:induction false} FromPeerAppend(a: seq<M.Response>, m: M.Response, peer: nat)
    ensures FromPeer(a + [m], peer) == FromPeer(a, peer) + if m.ChatFrom? && m.peer == peer then [m.payload] else []
  {
    var last := if m.ChatFrom? && m.peer == peer then [m.payload] else [];
    if a == [] {
      assert a + [m] == [m] && [m][1..] == [];
      assert [] + last == last + [];
    } else {
      var head := if a[0].ChatFrom? && a[0].peer == peer then [a[0].payload] else [];
      assert (a + [m])[0] == a[0] && (a + [m])[1..] == a[1..] + [m];
      FromPeerAppend(a[1..], m, peer);
      Regroup(head, FromPeer(a[1..], peer), last);
    }
  }

  ghost predicate NoChats(q: seq<M.Request>) {
    forall k :: 0 <= k < |q| ==> !q[k].Chat?
  }

  lemma {:induction false} NoChatsToPeer(q: seq<M.Request>, peer: nat)
    requires NoChats(q)
    ensures ToPeer(q, peer) == []
  {
    if q != [] {
      NoChatsToPeer(q[1..], peer);
    }
  }

  lemma {:induction false} ConnectSaysNothing(c: M.Client, own: nat, next: nat, n: nat)
    ensures NoChats(M.ConnectFrom(c, own, next, n).1) && M.ConnectFrom(c, own, next, n).0.joined == c.joined
    decreases n - next
  {
    if next < n {
      var (c1, sent) := M.ConnectPeer(c, own, next);
      if c1.error.None? {
        ConnectSaysNothing(c1, own, next + 1, n);
      }
    }
  }

  /** Handling a message says nothing, and only SessionActive makes a client join. */
  lemma ClientSaysNothing(c: M.Client, own: nat, n: nat, r: M.Response)
    ensures NoChats(M.ClientStep(c, own, n, r).1)
    ensures M.ClientStep(c, own, n, r).0.joined == (c.joined || r.SessionActive?)
  {
    hide M.ConnectFrom;
    ConnectSaysNothing(if own == 0 then c else c.(session := true), own, own + 1, n);
  }

  lemma JoinedAfter(n: nat, w: M.World, a: M.Action, k: nat)
    requires |w.clients| == |w.up| == |w.down| == n && M.Enabled(n, w, a) && k < n
    ensures M.Apply(n, w, a).clients[k].joined
            == (w.clients[k].joined || (a == M.ClientTake(k) && w.down[k][0].SessionActive?))
  {
    hide M.ClientStep;
    match a
    case ClientTake(i) => ClientSaysNothing(w.clients[i], i, n, w.down[i][0]);
    case _ =>
  }

  // ---------------------------------------------------------------------------
  // The server.

  lemma PushLink(w: M.World, k: nat, r: M.Response, j: nat, i: nat)
    requires j < |w.up| && i < |w.down| && k < |w.down| && !r.ChatFrom?
    ensures Link(M.Push(w, k, r), j, i) == Link(w, j, i)
  {
    FromPeerAppend(w.down[k], r, j);
  }

  /** Relaying moves a session message along its link; nothing else the server does touches one. */
  lemma ServeLink(n: nat, w: M.World, x: MI.Aux, k: nat, j: nat, i: nat)
    requires MI.WorldInv(n, w, x) && k < n && w.up[k] != [] && i < n && j < n
    ensures Link(M.Serve(w, k), j, i) == Link(w, j, i)
  {
    hide MI.LocalInv, MI.About, MI.From;
    var m := w.up[k][0];
    var w1 := w.(up := w.up[k := w.up[k][1..]]);
    MI.HeadRequest(n, w, x, k);
    if m.Chat? {
      var r := M.ChatFrom(k, m.payload);
      assert M.Serve(w, k) == M.Push(w1, m.to, r);
      FromPeerAppend(w.down[m.to], r, j);
      if j == k && i == m.to {
        Regroup(FromPeer(w.down[i], j), [m.payload], ToPeer(w.up[k][1..], i));
      }
    } else {
      assert Link(w1, j, i) == Link(w, j, i);
      ServeQuiet(w, k, j, i);
    }
  }

  lemma ServeQuiet(w: M.World, k: nat, j: nat, i: nat)
    requires |w.up| == |w.down| && k < |w.up| && w.up[k] != [] && !w.up[k][0].Chat? && i < |w.up| && j < |w.up|
    ensures Link(M.Serve(w, k), j, i) == Link(w.(up := w.up[k := w.up[k][1..]]), j, i)
  {
    var w1 := w.(up := w.up[k := w.up[k][1..]]);
    match w.up[k][0]
    case Hello(t, e) => RelayQuiet(w1, k, t, M.HelloFrom(k, e), j, i);
    case Answer(t, e, f) => RelayQuiet(w1, k, t, M.AnswerFrom(k, e, f), j, i);
    case Register(_) =>
  }

  lemma RelayQuiet(w: M.World, k: nat, t: nat, r: M.Response, j: nat, i: nat)
    requires |w.up| == |w.down| && k < |w.up| && !r.ChatFrom? && i < |w.up| && j < |w.up|
    ensures Link(M.Relay(w, k, t, r), j, i) == Link(w, j, i)
  {
    hide Link;
    if t in w.server.online && t < |w.down| {
      PushLink(w, t, r, j, i);
    } else {
      PushLink(w, k, M.ServerError, j, i);
    }
  }

  // ---------------------------------------------------------------------------
  // The clients.

  /** Taking a session message takes the oldest of its link, taking anything else leaves the links alone. */
  lemma TakeLink(n: nat, w: M.World, k: nat, j: nat, i: nat)
    requires |w.clients| == |w.up| == |w.down| == n && M.Enabled(n, w, M.ClientTake(k)) && i < n && j < n
    ensures var m, w' := w.down[k][0], M.Apply(n, w, M.ClientTake(k));
            Link(w, j, i) == (if m.ChatFrom? && i == k && m.peer == j then [m.payload] else []) + Link(w', j, i)
  {
    hide M.ClientStep;
    var m := w.down[k][0];
    var step := M.ClientStep(w.clients[k], k, n, m);
    ClientSaysNothing(w.clients[k], k, n, m);
    NoChatsToPeer(step.1, i);
    ToPeerConcat(w.up[k], step.1, i);
    var w' := M.Apply(n, w, M.ClientTake(k));
    assert ToPeer(w'.up[j], i) == ToPeer(w.up[j], i);
    var head := if m.ChatFrom? && i == k && m.peer == j then [m.payload] else [];
    assert FromPeer(w.down[i], j) == head + FromPeer(w'.down[i], j);
    Regroup(head, FromPeer(w'.down[i], j), ToPeer(w.up[j], i));
  }

  /** Steps that are neither takes nor words leave the links alone. */
  lemma OtherLink(n: nat, w: M.World, x: MI.Aux, a: M.Action, j: nat, i: nat)
    requires MI.WorldInv(n, w, x) && |w.clients| == |w.up| == |w.down| == n
    requires M.Enabled(n, w, a) && !a.Say? && !a.ClientTake? && i < n && j < n
    ensures Link(M.Apply(n, w, a), j, i) == Link(w, j, i)
  {
    hide Link, MI.WorldInv, M.Serve, M.Push;
    var s := w.server;
    match a
    case GoOnline(_) => ServerOnly(w, s.(online := s.online + {a.i}), j, i);
    case ReplyCreated =>
      ServerOnly(w, s.(replied := true), j, i);
      PushLink(w.(server := s.(replied := true)), 0, M.SessionCreated, j, i);
    case NotifyReady =>
      ServerOnly(w, s.(readySent := s.readySent + 1), j, i);
      PushLink(w.(server := s.(readySent := s.readySent + 1)), s.readySent, M.SessionReady, j, i);
    case NotifyActive =>
      ServerOnly(w, s.(activeSent := s.activeSent + 1), j, i);
      PushLink(w.(server := s.(activeSent := s.activeSent + 1)), s.activeSent, M.SessionActive, j, i);
    case GiveUp => ServerOnly(w, s.(gaveUp := true), j, i);
    case NotifyTimeout =>
      var w1 := w.(server := s.(timeoutSent := s.timeoutSent + 1));
      ServerOnly(w, w1.server, j, i);
      PushLink(w1, s.timeoutSent, M.SessionTimeout, j, i);
    case ServerTake(k) => ServeLink(n, w, x, k, j, i);
  }

  lemma ServerOnly(w: M.World, s: M.Server, j: nat, i: nat)
    requires j < |w.up| && i < |w.down|
    ensures Link(w.(server := s), j, i) == Link(w, j, i)
  {}

  /** Saying something puts it at the end of its link. */
  lemma SayLink(w: M.World, k: nat, peer: nat, payload: M.Sealed, j: nat, i: nat)
    requires |w.clients| == |w.up| == |w.down| && k < |w.up| && i < |w.up| && j < |w.up|
    ensures var w' := M.SetClient(w, k, (w.clients[k], [M.Chat(peer, payload)]));
            Link(w', j, i) == Link(w, j, i) + if j == k && i == peer then [payload] else []
  {
    var said := [M.Chat(peer, payload)];
    ToPeerConcat(w.up[k], said, i);
    assert said[1..] == [];
    var last := if i == peer then [payload] else [];
    assert last + [] == last;
    if j == k {
      Regroup(FromPeer(w.down[i], j), ToPeer(w.up[k], i), last);
    }
  }
}
