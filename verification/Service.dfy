// The server's session service, updated in place: every request and every watcher's wake-up does
// exactly its step of the session life cycle.
module Service {
  import opened Basics
  import opened Sessions
  import opened Lifecycle
  import opened Wire
  import Codec
  import Relay

  /** One notification: who gets it, for which session, and what it says. */
  type Note = (Key, Id, Broadcast)

  /**
   * A broadcast reaches the participants that are connected, in session order, up to the first whose
   * socket is broken.
   */
  function NotesFor(participants: seq<Key>, online: set<Key>, broken: set<Key>, id: Id,
                    b: Broadcast): (notes: seq<Note>) {
    if participants == [] then []
    else if participants[0] !in online then NotesFor(participants[1..], online, broken, id, b)
    else if participants[0] in broken then []
    else [(participants[0], id, b)] + NotesFor(participants[1..], online, broken, id, b)
  }

  /** Only connected participants are reached, and all of them unless one of their sockets is broken. */
  lemma {:induction false} NotesReachAllOnline(participants: seq<Key>, online: set<Key>, broken: set<Key>, id: Id,
                                               b: Broadcast, key: Key)
    ensures (key, id, b) in NotesFor(participants, online, broken, id, b) ==>
            key in participants && key in online && key !in broken
    ensures (forall k <- participants :: k in online ==> k !in broken) && key in participants && key in online
            ==> (key, id, b) in NotesFor(participants, online, broken, id, b)
  {
    if participants != [] {
      NotesReachAllOnline(participants[1..], online, broken, id, b, key);
      assert participants == [participants[0]] + participants[1..];
    }
  }

  ghost predicate Increasing(at: seq<nat>) {
    forall i, j :: 0 <= i < j < |at| ==> at[i] < at[j]
  }

  /**
   * The participants at the positions `at` are notified, in that order and once each: those connected, up
   * to the first, at position k, that is connected but cannot be sent to.
   */
  lemma {:induction false} NotesAreInOrder(participants: seq<Key>, online: set<Key>, broken: set<Key>, id: Id,
                                           b: Broadcast)
    returns (k: nat, at: seq<nat>)
    ensures k <= |participants| && (k < |participants| ==> participants[k] in online && participants[k] in broken)
    ensures forall i: nat :: i < k && participants[i] in online ==> participants[i] !in broken
    ensures Increasing(at) && forall i: nat :: i in at <==> i < k && participants[i] in online
    ensures var notes := NotesFor(participants, online, broken, id, b);
            |notes| == |at| && forall a :: 0 <= a < |at| ==> at[a] < k && notes[a] == (participants[at[a]], id, b)
  {
    if participants == [] || (participants[0] in online && participants[0] in broken) {
      k, at := 0, [];
    } else {
      hide Increasing, Later, NotesFor;
      var tail := participants[1..];
      var k1, at1 := NotesAreInOrder(tail, online, broken, id, b);
      k, at := k1 + 1, Later(at1, participants[0] in online);
      LaterPositions(at1, participants[0] in online);
      forall i: nat ensures i in at <==> i < k && participants[i] in online {
        PositionLater(participants, online, at1, k1, i);
      }
      forall i: nat | i < k && participants[i] in online ensures participants[i] !in broken {
        assert i > 0 ==> tail[i - 1] == participants[i];
      }
      FirstNote(participants, online, broken, id, b, at1, k1);
    }
  }

  /** Positions in the rest of a list as positions in the list, behind the first if that is wanted. */
  function Later(at: seq<nat>, first: bool): seq<nat> {
    (if first then [0] else []) + seq(|at|, a requires 0 <= a < |at| => at[a] + 1)
  }

  lemma LaterPositions(at: seq<nat>, first: bool)
    requires Increasing(at)
    ensures Increasing(Later(at, first))
    ensures forall i: nat :: i in Later(at, first) <==> if i == 0 then first else i - 1 in at
  {
    var later := seq(|at|, a requires 0 <= a < |at| => at[a] + 1);
    forall i: nat ensures i in later <==> i > 0 && i - 1 in at {
      if i > 0 && i - 1 in at {
        var a :| 0 <= a < |at| && at[a] == i - 1;
        assert later[a] == i;
      }
    }
  }

  lemma PositionLater(participants: seq<Key>, online: set<Key>, at: seq<nat>, k: nat, i: nat)
    requires participants != [] && k < |participants| && Increasing(at)
    requires forall j: nat :: j in at <==> j < k && participants[1..][j] in online
    ensures i in Later(at, participants[0] in online) <==> i < k + 1 && participants[i] in online
  {
    hide Later;
    LaterPositions(at, participants[0] in online);
    if i > 0 {
      assert i - 1 in at <==> i - 1 < k && participants[1..][i - 1] in online;
    }
  }

  lemma FirstNote(participants: seq<Key>, online: set<Key>, broken: set<Key>, id: Id, b: Broadcast, at: seq<nat>,
                  k: nat)
    requires participants != [] && !(participants[0] in online && participants[0] in broken) && k < |participants|
    requires var notes := NotesFor(participants[1..], online, broken, id, b);
             |notes| == |at| && forall a :: 0 <= a < |at| ==> at[a] < k && notes[a] == (participants[1..][at[a]], id, b)
    ensures var notes, all := NotesFor(participants, online, broken, id, b), Later(at, participants[0] in online);
            && |notes| == |all|
            && forall a :: 0 <= a < |all| ==> all[a] <= k && notes[a] == (participants[all[a]], id, b)
  {}

  class SessionService {
    var sessions: map<Id, Session>
    var closing: set<Id>
    var watchers: map<Id, Watcher>
    var online: set<Key>
    var outbox: seq<Note>
    ghost var log: seq<(Id, Broadcast)>

    /** No two sessions share a record. */
    ghost predicate Valid()
      reads this
    {
      forall i, j :: i in sessions && j in sessions && i != j ==> sessions[i] != sessions[j]
    }

    ghost function Records(): map<Id, Record>
      reads this, sessions.Values
    {
      map id | id in sessions :: Record(sessions[id].ownerKey, sessions[id].participantKeys, sessions[id].connections)
    }

    ghost function View(): State
      reads this, sessions.Values
    {
      State(Records(), closing, watchers, online, log)
    }

    constructor ()
      ensures Valid() && View() == EMPTY && outbox == []
    {
      sessions, closing, watchers, online, outbox, log := map[], {}, map[], {}, [], [];
    }

    method NewSession(id: Id, owner: Key, keys: seq<Key>, now: nat)
      requires Valid() && Enabled(View(), Action.NewSession(id, owner, keys))
      modifies this
      ensures Valid() && View() == Step(old(View()), Action.NewSession(id, owner, keys)) && outbox == old(outbox)
    {
      var session := new Session(owner, keys, now);
      sessions := sessions[id := session];
      watchers := watchers[id := Watcher([owner] + keys, WaitingReady)];
      assert Records() == old(Records())[id := Record(owner, KeySet(keys), {})];
    }

    method SessionConnection(id: Id, from: Key, peer: Key) returns (found: bool)
      requires Valid()
      modifies if id in sessions then {sessions[id]} else {}
      ensures id in sessions ==> sessions[id].lastAccess == old(sessions[id].lastAccess)
      ensures Valid() && View() == Step(old(View()), Register(id, from, peer))
      ensures found <==> id in sessions
    {
      found := id in sessions;
      if found {
        sessions[id].RegisterConnection(from, peer);
        ghost var was := old(Records())[id];
        assert Records() == old(Records())[id := was.(connections := was.connections + {(from, peer)})];
      }
    }

    method AcceptClose(id: Id, requester: Key) returns (accepted: bool)
      requires Valid()
      modifies this`closing
      ensures Valid() && View() == Step(old(View()), Action.AcceptClose(id, requester))
      ensures accepted <==> id in sessions && sessions[id].ownerKey == requester
    {
      accepted := id in sessions && sessions[id].ownerKey == requester;
      if accepted {
        closing := closing + {id};
      }
    }

    method CarryOutClose(id: Id)
      requires Valid() && id in closing
      modifies this`closing, this`sessions
      ensures Valid() && View() == Step(old(View()), Action.CarryOutClose(id))
    {
      sessions := sessions - {id};
      closing := closing - {id};
      assert Records() == old(Records()) - {id};
    }

    /** The sessions nobody used within the timeout. */
    method ExpiredKeys(timeout: nat, now: nat) returns (expired: set<Id>)
      ensures expired == set id <- sessions | sessions[id].lastAccess + timeout < now
    {
      expired := {};
      var left := sessions.Keys;
      while left != {}
        invariant left <= sessions.Keys
        invariant expired == set id <- sessions | id !in left && sessions[id].lastAccess + timeout < now
        decreases |left|
      {
        var id :| id in left;
        left := left - {id};
        if sessions[id].Expired(timeout, now) {
          expired := expired + {id};
        }
      }
    }

    method RemoveSessions(ids: set<Id>)
      modifies this`sessions
      ensures sessions == old(sessions) - ids
    {
      var left := ids;
      while left != {}
        invariant left <= ids
        invariant sessions == old(sessions) - (ids - left)
        decreases |left|
      {
        var id :| id in left;
        sessions := sessions - {id};
        left := left - {id};
      }
      assert ids - {} == ids;
    }

    method PurgeExpired(timeout: nat, now: nat)
      requires Valid()
      modifies this`sessions
      ensures var expired := set id <- old(sessions) | old(sessions[id].lastAccess) + timeout < now;
              Valid() && sessions == old(sessions) - expired && View() == Step(old(View()), Purge(expired))
    {
      var expired := ExpiredKeys(timeout, now);
      RemoveSessions(expired);
      assert Records() == old(Records()) - expired;
    }

    method AllOnline(participants: seq<Key>) returns (all: bool)
      ensures all <==> KeySet(participants) <= online
    {
      for i := 0 to |participants|
        invariant forall j :: 0 <= j < i ==> participants[j] in online
      {
        if participants[i] !in online {
          assert participants[i] in KeySet(participants);
          return false;
        }
      }
      all := true;
    }

    ghost function Tables(): Relay.Tables
      reads this, sessions.Values
    {
      Relay.Tables(online, map id | id in sessions :: sessions[id].Members())
    }

    /** What speaks against relaying. A session that is named is touched, whatever comes of it. */
    method CheckRelay(id: Option<Id>, dest: Key, now: nat) returns (objection: Option<Relay.RelayError>)
      modifies (if id.Some? && id.value in sessions then {sessions[id.value]} else {})`lastAccess
      ensures objection == Relay.Objection(Tables(), dest, id)
      ensures objection.None? <==>
              dest in online && (id.Some? ==> id.value in sessions && dest in sessions[id.value].Members())
      ensures id.Some? && id.value in sessions ==> sessions[id.value].lastAccess == now
    {
      if id.Some? {
        if id.value !in sessions {
          return Some(Relay.SessionNotFound);
        }
        sessions[id.value].Touch(now);
        var keys := sessions[id.value].PublicKeys();
        assert dest in keys <==> dest in KeySet(keys);
        if dest !in keys {
          return Some(Relay.NotSessionParticipant);
        }
      }
      objection := if dest in online then None else Some(Relay.PeerNotFound);
    }

    /** A peer message: decode the request, check it, put the sender's key in, encode the response. */
    method RelayPeerMessage(from: Key, request: Bytes, now: nat) returns (r: Result<(Key, Bytes), Relay.RelayError>)
      modifies sessions.Values`lastAccess
      ensures r == Relay.Forwarded(Tables(), from, request)
      ensures Tables() == old(Tables()) && View() == old(View())
    {
      hide PacketBytes, GetPacket, Relay.Objection;
      var reader := new Codec.Reader(request);
      var packet := reader.DecodePacket();
      if packet.None? {
        return Err(Relay.Undecodable);
      }
      if !packet.value.OpaquePacket? || !packet.value.opaqueMessage.PeerMessage? {
        return Err(Relay.NotAPeerMessage);
      }
      var m := packet.value.opaqueMessage;
      var objection := CheckRelay(m.sessionId, m.key, now);
      assert Records() == old(Records()) && Tables() == old(Tables());
      if objection.Some? {
        return Err(objection.value);
      }
      var encoded := EncodeWhole(Relay.PeerPacket(from, m.sessionId, m.envelope));
      r := if encoded.None? then Err(Relay.EncodeFailed) else Ok((m.key, encoded.value));
    }

    method EncodeWhole(p: Packet) returns (b: Option<Bytes>)
      ensures b == PacketBytes(p)
    {
      hide PacketBytes;
      var writer := new Codec.Writer();
      var ok := writer.EncodePacket(p);
      if ok {
        assert [] + PacketBytes(p).value == PacketBytes(p).value;
      }
      b := if ok then Some(writer.bytes) else None;
    }

    /** A watcher looks at the state once. */
    method Wake(id: Id, late: bool)
      requires Valid() && Enabled(View(), Tick(id, late))
      modifies this`watchers
      ensures Valid() && View() == Step(old(View()), Tick(id, late))
    {
      hide Complete;
      var w := watchers[id];
      var phase := w.phase;
      if phase.WaitingReady? {
        var ready := AllOnline(w.participants);
        if ready {
          phase := TellingReady(online);
        } else if late {
          phase := TellingTimeout;
        }
      } else if id in sessions {
        var active := sessions[id].IsActive();
        if active {
          phase := TellingActive(sessions[id].connections);
        } else if late {
          phase := TellingTimeout;
        }
      } else {
        phase := Done;
      }
      watchers := watchers[id := w.(phase := phase)];
    }

    /**
     * A watcher broadcasts its decision: one notification to each participant that is connected, up to
     * the first that cannot be sent. Either way it goes on.
     */
    method Notify(id: Id, broken: set<Key>)
      requires Valid() && Enabled(View(), Tell(id))
      modifies this`watchers, this`outbox, this`log
      ensures Valid() && View() == Step(old(View()), Tell(id))
      ensures outbox == old(outbox) + NotesFor(old(watchers)[id].participants, online, broken, id,
                                               Said(old(watchers)[id].phase))
    {
      var w := watchers[id];
      var b := Said(w.phase);
      NotifyPeers(w.participants, broken, id, b);
      watchers := watchers[id := w.(phase := if w.phase.TellingReady? then WaitingActive else Done)];
      log := log + [(id, b)];
      assert Records() == old(Records());
    }

    method NotifyPeers(keys: seq<Key>, broken: set<Key>, id: Id, b: Broadcast)
      modifies this`outbox
      ensures outbox == old(outbox) + NotesFor(keys, online, broken, id, b)
    {
      ghost var sent: seq<Note> := [];
      var i := 0;
      assert keys[0..] == keys && sent + NotesFor(keys, online, broken, id, b) == NotesFor(keys, online, broken, id, b);
      while i < |keys|
        invariant i <= |keys|
        invariant outbox == old(outbox) + sent
        invariant NotesFor(keys, online, broken, id, b) == sent + NotesFor(keys[i..], online, broken, id, b)
      {
        assert keys[i..][1..] == keys[i + 1..];
        if keys[i] in online {
          if keys[i] in broken {
            assert sent + [] == sent;
            return;
          }
          Regroup(sent, [(keys[i], id, b)], NotesFor(keys[i + 1..], online, broken, id, b));
          outbox := outbox + [(keys[i], id, b)];
          sent := sent + [(keys[i], id, b)];
        }
        i := i + 1;
      }
      assert sent + [] == sent;
    }
  }
}
