// Sessions: what the server keeps about one, and the snapshot it sends to participants.
module Sessions {
  import opened Basics

  /** The number of participants a session snapshot can carry: its count is a 16-bit field. */
  const MAX_PARTICIPANTS := 0xFFFF

  /** The snapshot sent to every participant; its order numbers the parties from one. */
  datatype SessionState = SessionState(id: Id, participants: seq<Key>) {

    function PartyNumber(key: Key): (r: Option<nat>)
      requires |participants| <= MAX_PARTICIPANTS
      ensures r.Some? <==> key in participants
      ensures r.Some? ==> 1 <= r.value <= |participants| && participants[r.value - 1] == key
    {
      var i := IndexOf(participants, key);
      if i < |participants| then Some(i + 1)
      else
        assert participants[..i] == participants;
        None
    }

    function PeerKey(number: nat): (r: Option<Key>) {
      if 1 <= number <= |participants| then Some(participants[number - 1]) else None
    }

    /** The peers this participant initiates a handshake with: everyone after it. */
    function Connections(own: Key): (r: seq<Key>) {
      var i := IndexOf(participants, own);
      if i < |participants| then participants[i + 1..] else []
    }

    /** Everyone but this participant, in session order. */
    function Recipients(own: Key): (r: seq<Key>) {
      Others(participants, own)
    }
  }

  function Others(keys: seq<Key>, own: Key): (r: seq<Key>)
    ensures forall k :: k in r <==> k in keys && k != own
  {
    if keys == [] then []
    else (if keys[0] == own then [] else [keys[0]]) + Others(keys[1..], own)
  }

  /** Party numbers and keys translate into each other. */
  lemma PartyNumberInvertsPeerKey(s: SessionState, number: nat)
    requires Distinct(s.participants) && |s.participants| <= MAX_PARTICIPANTS
    requires 1 <= number <= |s.participants|
    ensures s.PeerKey(number).Some?
    ensures s.PartyNumber(s.PeerKey(number).value) == Some(number)
  {
    IndexOfDistinct(s.participants, number - 1);
  }

  // ---------------------------------------------------------------------------
  // Which edges the participants register, and when that makes a session active.

  type Edge = (Key, Key)

  predicate Linked(connections: set<Edge>, a: Key, b: Key) {
    (a, b) in connections || (b, a) in connections
  }

  /** The undirected connection graph is complete on the given keys. */
  predicate Complete(keys: set<Key>, connections: set<Edge>) {
    forall a, b :: a in keys && b in keys && a != b ==> Linked(connections, a, b)
  }

  /** Every edge (own key, peer) that some participant is due to register. */
  function DueEdges(s: SessionState): set<Edge> {
    set a, b | a in s.participants && b in s.Connections(a) :: (a, b)
  }

  function KeySet(keys: seq<Key>): set<Key> {
    set k | k in keys
  }

  lemma DueEdgeIsOrderedPair(s: SessionState, i: nat, j: nat)
    requires Distinct(s.participants) && i < |s.participants| && j < |s.participants|
    ensures (s.participants[i], s.participants[j]) in DueEdges(s) <==> i < j
  {
    var p := s.participants;
    IndexOfDistinct(p, i);
    assert s.Connections(p[i]) == p[i + 1..];
    if i < j {
      assert p[i + 1..][j - i - 1] == p[j];
    } else {
      var later := p[i + 1..];
      forall k | 0 <= k < |later|
        ensures later[k] != p[j]
      {
        assert later[k] == p[i + 1 + k];
      }
    }
  }

  /** Two distinct participants have exactly one due edge between them: one initiator a pair. */
  lemma DueEdgesCoverEachPairOnce(s: SessionState, a: Key, b: Key)
    requires Distinct(s.participants)
    requires a in s.participants && b in s.participants && a != b
    ensures (a, b) in DueEdges(s) <==> (b, a) !in DueEdges(s)
  {
    var i :| 0 <= i < |s.participants| && s.participants[i] == a;
    var j :| 0 <= j < |s.participants| && s.participants[j] == b;
    DueEdgeIsOrderedPair(s, i, j);
    DueEdgeIsOrderedPair(s, j, i);
  }

  /** Registering exactly the due edges completes the graph, and every one of them is needed. */
  lemma DueEdgesAreNeeded(s: SessionState, connections: set<Edge>)
    requires Distinct(s.participants)
    requires connections <= DueEdges(s)
    ensures Complete(KeySet(s.participants), connections) <==> connections == DueEdges(s)
  {
    if connections == DueEdges(s) {
      forall a, b | a in KeySet(s.participants) && b in KeySet(s.participants) && a != b
        ensures Linked(connections, a, b)
      {
        DueEdgesCoverEachPairOnce(s, a, b);
      }
    }
    if Complete(KeySet(s.participants), connections) {
      forall e | e in DueEdges(s)
        ensures e in connections
      {
        var a, b := e.0, e.1;
        var i := IndexOf(s.participants, a);
        assert b in s.participants[i + 1..];
        var k :| 0 <= k < |s.participants[i + 1..]| && s.participants[i + 1..][k] == b;
        assert s.participants[i + 1 + k] == b && a == s.participants[i];
        assert Linked(connections, a, b);
        DueEdgesCoverEachPairOnce(s, a, b);
      }
    }
  }

  /** The edges of a list of participants, first row first. */
  function EdgesOf(keys: seq<Key>): set<Edge> {
    if keys == [] then {} else FirstRow(keys) + EdgesOf(keys[1..])
  }

  function FirstRow(keys: seq<Key>): set<Edge>
    requires keys != []
  {
    set b | b in keys[1..] :: (keys[0], b)
  }

  lemma {:induction false} FirstRowSize(a: Key, rest: seq<Key>)
    requires Distinct(rest)
    ensures |FirstRow([a] + rest)| == |rest|
    decreases |rest|
  {
    var keys := [a] + rest;
    assert keys[1..] == rest;
    if rest == [] {
      assert FirstRow(keys) == {};
    } else {
      var init := rest[..|rest| - 1];
      var b := rest[|rest| - 1];
      FirstRowSize(a, init);
      assert ([a] + init)[1..] == init && rest == init + [b];
      assert b !in init;
      assert FirstRow(keys) == FirstRow([a] + init) + {(a, b)};
    }
  }

  lemma {:induction false} EdgesOfMember(keys: seq<Key>, i: nat, j: nat)
    requires Distinct(keys) && i < j < |keys|
    ensures (keys[i], keys[j]) in EdgesOf(keys)
  {
    if i == 0 {
      assert keys[1..][j - 1] == keys[j];
    } else {
      EdgesOfMember(keys[1..], i - 1, j - 1);
    }
  }

  lemma {:induction false} EdgesOfOrdered(keys: seq<Key>, e: Edge)
    requires Distinct(keys) && e in EdgesOf(keys)
    ensures exists i, j :: 0 <= i < j < |keys| && keys[i] == e.0 && keys[j] == e.1
  {
    if e in FirstRow(keys) {
      var k :| 0 <= k < |keys[1..]| && keys[1..][k] == e.1;
      assert keys[0] == e.0 && keys[k + 1] == e.1;
    } else {
      EdgesOfOrdered(keys[1..], e);
      var i, j :| 0 <= i < j < |keys[1..]| && keys[1..][i] == e.0 && keys[1..][j] == e.1;
      assert keys[i + 1] == e.0 && keys[j + 1] == e.1;
    }
  }

  lemma TriangleStep(m: nat)
    ensures m + m * (m - 1) / 2 == (m + 1) * m / 2
  {
    assert (m + 1) * m == m * (m - 1) + 2 * m;
  }

  lemma FirstRowIsNew(keys: seq<Key>)
    requires Distinct(keys) && keys != []
    ensures FirstRow(keys) !! EdgesOf(keys[1..])
  {
    var rest := keys[1..];
    forall e | e in EdgesOf(rest)
      ensures e !in FirstRow(keys)
    {
      EdgesOfOrdered(rest, e);
      assert e.0 in rest;
    }
  }

  lemma EdgesOfGrows(keys: seq<Key>)
    requires Distinct(keys) && keys != []
    ensures |EdgesOf(keys)| == |keys| - 1 + |EdgesOf(keys[1..])|
  {
    hide FirstRow;
    var rest := keys[1..];
    assert keys == [keys[0]] + rest;
    FirstRowSize(keys[0], rest);
    FirstRowIsNew(keys);
    assert |EdgesOf(keys)| == |FirstRow(keys)| + |EdgesOf(rest)|;
  }

  lemma {:induction false} EdgesOfSize(keys: seq<Key>)
    requires Distinct(keys)
    ensures |EdgesOf(keys)| == |keys| * (|keys| - 1) / 2
  {
    if keys == [] {
      assert EdgesOf(keys) == {};
    } else {
      hide EdgesOf;
      EdgesOfSize(keys[1..]);
      EdgesOfGrows(keys);
      TriangleStep(|keys| - 1);
    }
  }

  lemma OrderedPairIsDue(s: SessionState, e: Edge)
    requires Distinct(s.participants) && e in EdgesOf(s.participants)
    ensures e in DueEdges(s)
  {
    hide EdgesOf, DueEdges;
    var p := s.participants;
    EdgesOfOrdered(p, e);
    var i, j :| 0 <= i < j < |p| && p[i] == e.0 && p[j] == e.1;
    DueEdgeIsOrderedPair(s, i, j);
  }

  lemma DueEdgeIsLater(s: SessionState, e: Edge)
    requires e in DueEdges(s)
    ensures e in EdgesOf(s.participants) || !Distinct(s.participants)
  {
    hide EdgesOf;
    if Distinct(s.participants) {
      var p := s.participants;
      var i := IndexOf(p, e.0);
      var later := p[i + 1..];
      var k :| 0 <= k < |later| && later[k] == e.1;
      assert p[i + 1 + k] == e.1;
      EdgesOfMember(p, i, i + 1 + k);
    }
  }

  lemma DueEdgesAreEdgesOf(s: SessionState, e: Edge)
    requires Distinct(s.participants)
    ensures e in DueEdges(s) <==> e in EdgesOf(s.participants)
  {
    hide EdgesOf, DueEdges;
    if e in EdgesOf(s.participants) {
      OrderedPairIsDue(s, e);
    }
    if e in DueEdges(s) {
      DueEdgeIsLater(s, e);
    }
  }

  /** n participants register n(n-1)/2 edges. */
  lemma DueEdgesCount(s: SessionState)
    requires Distinct(s.participants)
    ensures |DueEdges(s)| == |s.participants| * (|s.participants| - 1) / 2
  {
    forall e
      ensures e in DueEdges(s) <==> e in EdgesOf(s.participants)
    {
      DueEdgesAreEdgesOf(s, e);
    }
    assert DueEdges(s) == EdgesOf(s.participants);
    EdgesOfSize(s.participants);
  }

  // ---------------------------------------------------------------------------
  // The server's record of a session.

  class Session {
    const ownerKey: Key
    const participantKeys: set<Key>
    var connections: set<Edge>
    /** When the session was last used, so that stale ones can be purged. */
    var lastAccess: nat

    constructor (ownerKey: Key, participantKeys: seq<Key>, now: nat)
      ensures this.ownerKey == ownerKey
      ensures this.participantKeys == KeySet(participantKeys)
      ensures connections == {} && lastAccess == now
    {
      this.ownerKey := ownerKey;
      this.participantKeys := set k | k in participantKeys;
      this.connections := {};
      this.lastAccess := now;
    }

    method Touch(now: nat)
      modifies this`lastAccess
      ensures lastAccess == now
    {
      lastAccess := now;
    }

    predicate Expired(timeout: nat, now: nat)
      reads this
    {
      lastAccess + timeout < now
    }

    ghost function Members(): set<Key> {
      {ownerKey} + participantKeys
    }

    /** The owner first, then the other participants in the iteration order of a hash set. */
    method PublicKeys() returns (keys: seq<Key>)
      ensures |keys| >= 1 && keys[0] == ownerKey
      ensures KeySet(keys) == Members()
    {
      keys := [ownerKey];
      var rest := participantKeys;
      while rest != {}
        invariant rest <= participantKeys
        invariant |keys| >= 1 && keys[0] == ownerKey
        invariant KeySet(keys) == {ownerKey} + (participantKeys - rest)
        decreases |rest|
      {
        var k :| k in rest;
        rest := rest - {k};
        assert KeySet(keys + [k]) == KeySet(keys) + {k};
        keys := keys + [k];
      }
    }

    method RegisterConnection(peer: Key, other: Key)
      modifies this`connections
      ensures connections == old(connections) + {(peer, other)}
    {
      connections := connections + {(peer, other)};
    }

    method CheckConnection(peer: Key, all: seq<Key>) returns (linked: bool)
      ensures linked <==> forall k :: k in all && k != peer ==> Linked(connections, peer, k)
    {
      for i := 0 to |all|
        invariant forall j :: 0 <= j < i && all[j] != peer ==> Linked(connections, peer, all[j])
      {
        if all[i] == peer {
          continue;
        }
        var left := (peer, all[i]) in connections;
        var right := (all[i], peer) in connections;
        if !(left || right) {
          assert all[i] in all && !Linked(connections, peer, all[i]);
          return false;
        }
      }
      linked := true;
    }

    /** Active exactly when the undirected connection graph is complete on the members. */
    method IsActive() returns (active: bool)
      ensures active <==> Complete(Members(), connections)
    {
      var all := PublicKeys();
      for i := 0 to |all|
        invariant forall j, k :: 0 <= j < i && k in all && k != all[j] ==> Linked(connections, all[j], k)
      {
        var linked := CheckConnection(all[i], all);
        if !linked {
          var k :| k in all && k != all[i] && !Linked(connections, all[i], k);
          assert all[i] in KeySet(all) && k in KeySet(all);
          return false;
        }
      }
      forall a, b | a in Members() && b in Members() && a != b
        ensures Linked(connections, a, b)
      {
        assert a in KeySet(all) && b in KeySet(all);
      }
      active := true;
    }
  }
}
