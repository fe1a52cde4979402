// Each step of the whole is a step of the round engine as well, or concerns session establishment alone.
module ConversationSteps {
  import opened Basics
  import opened Rounds
  import opened Bridge
  import opened LockStep
  import opened Chunks
  import opened Sealing
  import opened Conversation
  import opened ConversationLinks
  import opened ConversationTelling
  import RN = RoundNetwork
  import M = Mesh
  import MI = MeshInvariant
  import MP = MeshProgress
  import MT = MeshTheorems

  // ---------------------------------------------------------------------------
  // One step of the whole is a step of the round engine, or none.

  /** After client i's bridge reacted, before what it sends is told. */
  ghost predicate Reacted<S, B, O>(sys: System<S, B, O>, c: Whole<S, B, O>, net: RN.Net<S, B, O>, i: nat,
                                   sends: seq<Send<B>>,
                                   sent: nat)
    requires sys.p.WellFormed() && Sized(sys, c) && i < sys.p.N() == |net|
  {
    && (forall k :: 0 <= k < |net| ==> PartyMatches(c, net, k))
    && (forall a, b :: 0 <= a < |net| && 0 <= b < |net| ==> LinkMatches(sys, c, net, a, b))
    && (forall a, b :: 0 <= a < |net| && 0 <= b < |net| && a != b && a != i ==> VolumeMatches(sys, c, net, a, b))
    && RN.Announces(sys.p, i, sends, sent, RN.Sent(sys.p, net[i]))
    && (forall b :: 0 <= b < |net| && b != i ==> VolumeWas(sys, c, i, b, sent))
  }

  ghost predicate VolumeWas<S, B, O>(sys: System<S, B, O>, c: Whole<S, B, O>, i: nat, b: nat, sent: nat)
    requires sys.p.WellFormed() && i < |c.parties| && i < sys.p.N() && b < sys.p.N()
  {
    At(c.parties[i].sending, b) == Volume(Written(sys.format, RN.Flight(sys.p, i, b, 0, sent)))
  }

  /** What an announcement sends to another party is what its link still lacks. */
  lemma AnnouncedVolume<S, B, O>(sys: System<S, B, O>, i: nat, b: nat, sends: seq<Send<B>>, sent: nat, sent': nat)
    requires sys.p.WellFormed() && i < sys.p.N() && b < sys.p.N() && RN.Announces(sys.p, i, sends, sent, sent')
    ensures Volume(Written(sys.format, RN.Flight(sys.p, i, b, 0, sent')))
            == Volume(Written(sys.format, RN.Flight(sys.p, i, b, 0, sent))) + Volume(Payloads(sys, sends, b))
  {
    hide Volume;
    var before, told := RN.Flight(sys.p, i, b, 0, sent), SentTo(sends, sys.p.KeyOf(b));
    NoneSealed(sys.aead, [], 0);
    if sent != sent' {
      assert RN.Flight(sys.p, i, b, 0, sent') == before + told;
      WrittenConcat(sys.format, before, told);
      VolumeConcat(Written(sys.format, before), Written(sys.format, told));
    }
  }

  lemma {:induction false} VolumeGrows<S, B, O>(sys: System<S, B, O>, i: nat, b: nat, lo: nat, hi: nat)
    requires sys.p.WellFormed() && i < sys.p.N() && b < sys.p.N() && lo <= hi
    ensures Volume(Written(sys.format, RN.Flight(sys.p, i, b, 0, lo)))
            <= Volume(Written(sys.format, RN.Flight(sys.p, i, b, 0, hi)))
    decreases hi
  {
    hide Volume, OnWire;
    if lo < hi {
      VolumeGrows(sys, i, b, lo, hi - 1);
      var before, last := RN.Flight(sys.p, i, b, 0, hi - 1), OnWire(sys.p, hi, i, b);
      WrittenConcat(sys.format, before, last);
      VolumeConcat(Written(sys.format, before), Written(sys.format, last));
    }
  }

  /** So the nonces suffice for it. */
  lemma AnnouncementsAffordable<S, B, O>(sys: System<S, B, O>, c: Whole<S, B, O>, net: RN.Net<S, B, O>, i: nat,
                                         sends: seq<Send<B>>, sent: nat)
    requires sys.p.WellFormed() && NoncesSuffice(sys) && Sized(sys, c) && i < sys.p.N() == |net|
    requires Reacted(sys, c, net, i, sends, sent) && sent <= sys.p.rounds && TellsTo(sys.p.session, sends, i)
    ensures Affords(sys, c.parties[i].sending, sends)
  {
    hide Volume, OnWire, PartyMatches, LinkMatches, Written;
    forall b: nat | b < sys.p.N() ensures At(c.parties[i].sending, b) + Volume(Payloads(sys, sends, b)) <= MAX_NONCE {
      if b == i {
        NothingToSelf(sys, sends, i);
      } else {
        assert VolumeWas(sys, c, i, b, sent);
        AnnouncedVolume(sys, i, b, sends, sent, RN.Sent(sys.p, net[i]));
        VolumeGrows(sys, i, b, RN.Sent(sys.p, net[i]), sys.p.rounds);
      }
    }
  }

  lemma {:induction false} NotAddressed<B>(sends: seq<Send<B>>, key: Key)
    requires forall k :: 0 <= k < |sends| ==> sends[k].to != key
    ensures SentTo(sends, key) == []
  {
    if sends != [] {
      NotAddressed(sends[1..], key);
    }
  }

  lemma NothingToSelf<S, B, O>(sys: System<S, B, O>, sends: seq<Send<B>>, i: nat)
    requires sys.p.WellFormed() && i < sys.p.N() && TellsTo(sys.p.session, sends, i)
    ensures Payloads(sys, sends, i) == [] && Volume(Payloads(sys, sends, i)) == 0
  {
    NotAddressed(sends, sys.p.KeyOf(i));
  }

  /** After client i's bridge reacted and its sends were told and posted. */
  lemma ReactionMatches<S, B, O>(sys: System<S, B, O>, c: Whole<S, B, O>, t: M.World, party: Party<S, B, O>,
                                 net: RN.Net<S, B, O>, i: nat, sends: seq<Send<B>>, sent: nat)
    requires sys.p.WellFormed() && Sized(sys, c) && i < sys.p.N() == |net| && Reacted(sys, c, net, i, sends, sent)
    requires |net[i].inbox| == |net| && Sized(sys, Whole(t, c.parties)) && Affords(sys, c.parties[i].sending, sends)
    requires party == c.parties[i].(sending := party.sending)
    requires forall k :: 0 <= k < |net| ==> t.clients[k] == c.mesh.clients[k]
    requires forall b :: 0 <= b < |net| ==> NoncesTold(sys, c.parties[i].sending, party.sending, sends, b)
    requires forall a, b :: 0 <= a < |net| && 0 <= b < |net| ==>
             LinksTold(sys, c.mesh, t, c.parties[i].sending, i, sends, a, b)
    ensures Matches(sys, Whole(t, c.parties[i := party]), RN.Post(sys.p, net, i, sends))
  {
    hide Link, SentTo, InStep, SealAll, Volume, At, SendKey, RN.Flight, Written, PartyMatches, LinkMatches,
         VolumeMatches, VolumeWas;
    var net' := RN.Post(sys.p, net, i, sends);
    var c' := Whole(t, c.parties[i := party]);
    forall k | 0 <= k < |net| ensures PartyMatches(c', net', k) {
      assert PartyMatches(c, net, k);
      PartyPosted(c, c', net, net', i, k, SentTo(sends, sys.p.KeyOf(k)));
    }
    forall a, b | 0 <= a < |net| && 0 <= b < |net| ensures LinkMatches(sys, c', net', a, b) {
      assert LinkMatches(sys, c, net, a, b) && LinkMatches(sys, c, net, i, b);
      assert LinksTold(sys, c.mesh, t, c.parties[i].sending, i, sends, a, b);
      assert NoncesTold(sys, c.parties[i].sending, party.sending, sends, b);
      LinkPosted(sys, c, c', net, net', i, sends, a, b);
    }
    forall a, b | 0 <= a < |net| && 0 <= b < |net| && a != b ensures VolumeMatches(sys, c', net', a, b) {
      if a == i {
        assert NoncesTold(sys, c.parties[i].sending, party.sending, sends, b) && VolumeWas(sys, c, i, b, sent);
        VolumePosted(sys, c, c', net, net', i, sends, b, sent);
      } else {
        assert VolumeMatches(sys, c, net, a, b);
        VolumeElsewhere(sys, c, c', net, net', a, b, i, SentTo(sends, sys.p.KeyOf(a)));
      }
    }
  }

  lemma PartyPosted<S, B, O>(c: Whole<S, B, O>, c': Whole<S, B, O>, net: RN.Net<S, B, O>, net': RN.Net<S, B, O>,
                             i: nat, k: nat, ms: seq<RoundMsg<B>>)
    requires |c.parties| == |c'.parties| == |net| == |net'| == |c.mesh.clients| == |c'.mesh.clients| && k < |net|
    requires PartyMatches(c, net, k) && net'[k] == RN.PostTo(net[k], i, ms) && c'.mesh.clients[k] == c.mesh.clients[k]
    requires c'.parties[k] == c.parties[k].(sending := c'.parties[k].sending)
    ensures PartyMatches(c', net', k)
  {}

  lemma VolumePosted<S, B, O>(sys: System<S, B, O>, c: Whole<S, B, O>, c': Whole<S, B, O>, net: RN.Net<S, B, O>,
                              net': RN.Net<S, B, O>,
                              i: nat, sends: seq<Send<B>>, b: nat, sent: nat)
    requires sys.p.WellFormed() && i < sys.p.N() == |net| == |net'| == |c.parties| == |c'.parties| && b < |net|
    requires VolumeWas(sys, c, i, b, sent) && NoncesTold(sys, c.parties[i].sending, c'.parties[i].sending, sends, b)
    requires RN.Announces(sys.p, i, sends, sent, RN.Sent(sys.p, net[i]))
    requires net'[i] == RN.PostTo(net[i], i, SentTo(sends, sys.p.KeyOf(i)))
    ensures VolumeMatches(sys, c', net', i, b)
  {
    hide Volume, Written, RN.Flight, At, RN.Announces;
    AnnouncedVolume(sys, i, b, sends, sent, RN.Sent(sys.p, net[i]));
  }

  lemma VolumeElsewhere<S, B, O>(sys: System<S, B, O>, c: Whole<S, B, O>, c': Whole<S, B, O>, net: RN.Net<S, B, O>,
                                 net': RN.Net<S, B, O>,
                                 a: nat, b: nat, i: nat, ms: seq<RoundMsg<B>>)
    requires sys.p.WellFormed() && a < sys.p.N() == |net| == |net'| == |c.parties| == |c'.parties| && b < |net|
    requires VolumeMatches(sys, c, net, a, b) && c'.parties[a] == c.parties[a] && net'[a] == RN.PostTo(net[a], i, ms)
    ensures VolumeMatches(sys, c', net', a, b)
  {
    hide Volume, Written, RN.Flight;
  }

  lemma LinkPosted<S, B, O>(sys: System<S, B, O>, c: Whole<S, B, O>, c': Whole<S, B, O>, net: RN.Net<S, B, O>,
                            net': RN.Net<S, B, O>,
                            i: nat, sends: seq<Send<B>>, a: nat, b: nat)
    requires sys.p.WellFormed() && Sized(sys, c) && Sized(sys, c') && i < sys.p.N() == |net| == |net'| && a < |net|
             && b < |net|
    requires LinkMatches(sys, c, net, a, b) && LinkMatches(sys, c, net, i, b)
    requires net'[b] == RN.PostTo(net[b], i, SentTo(sends, sys.p.KeyOf(b)))
    requires Affords(sys, c.parties[i].sending, sends)
    requires LinksTold(sys, c.mesh, c'.mesh, c.parties[i].sending, i, sends, a, b)
    requires NoncesTold(sys, c.parties[i].sending, c'.parties[i].sending, sends, b)
    requires c'.mesh.clients[a] == c.mesh.clients[a] && c'.parties[b].receiving == c.parties[b].receiving
    requires a != i ==> c'.parties[a].sending == c.parties[a].sending
    ensures LinkMatches(sys, c', net', a, b)
  {
    hide Link, InStep, SealAll, SendKey, At, Volume;
    var posted := SentTo(sends, sys.p.KeyOf(b));
    if a == i {
      WrittenConcat(sys.format, net[b].inbox[i], posted);
      InStepGrows(sys.aead, SendKey(sys, c.mesh.clients[i], b), At(c.parties[b].receiving, i),
                  At(c.parties[i].sending, b),
                  Written(sys.format, net[b].inbox[i]), Link(c.mesh, i, b), Payloads(sys, sends, b));
    } else {
      assert Link(c.mesh, a, b) + [] == Link(c.mesh, a, b);
    }
  }

  /** Nobody sends to itself, by the invariant of the state it leads to. */
  lemma NeverToSelf<S(!new), B(!new), O>(p: Protocol<S, B, O>, eq: (S, S) -> bool, net1: RN.Net<S, B, O>, i: nat,
                                         sends: seq<Send<B>>)
    requires p.WellFormed() && |net1| == p.N() && i < p.N() && |net1[i].inbox| == p.N()
    requires RN.NetInv(p, eq, RN.Post(p, net1, i, sends))
    requires ToParticipants(p.session, sends)
    ensures TellsTo(p.session, sends, i)
  {
    hide RN.NodeInv, SentTo;
    var net' := RN.Post(p, net1, i, sends);
    assert RN.LinkInv(p, i, RN.Sent(p, net'[i]), i, net'[i]);
    assert net'[i] == RN.PostTo(net1[i], i, SentTo(sends, p.KeyOf(i)));
    NoneToKey(sends, p.KeyOf(i));
  }

  /** A party that has been given something is running: once complete, nothing more comes. */
  lemma FilledMeansRunning<S(!new), B(!new), O>(p: Protocol<S, B, O>, eq: (S, S) -> bool, net: RN.Net<S, B, O>,
                                                j: nat, i: nat)
    requires RN.Contract(p, eq) && RN.NetInv(p, eq, net) && i < p.N() && j < p.N() && net[i].started
             && net[i].inbox[j] != []
    ensures RN.Running(net[i]) && i != j
  {
    hide Healthy, Indifferent, RN.BufferInv, RN.HandedInv, TurnOf, OutputOf;
    assert RN.NodeInv(p, eq, i, net[i]) && RN.LinkInv(p, j, RN.Sent(p, net[j]), i, net[i])
           && RN.NodeInv(p, eq, j, net[j]);
  }

  lemma SentIsBounded<S(!new), B(!new), O>(p: Protocol<S, B, O>, eq: (S, S) -> bool, net: RN.Net<S, B, O>, i: nat)
    requires p.WellFormed() && RN.NetInv(p, eq, net) && i < p.N()
    ensures RN.Sent(p, net[i]) <= p.rounds
  {
    assert RN.NodeInv(p, eq, i, net[i]);
  }

  lemma InboxSized<S(!new), B(!new), O>(p: Protocol<S, B, O>, eq: (S, S) -> bool, net: RN.Net<S, B, O>, i: nat)
    requires p.WellFormed() && RN.NetInv(p, eq, net) && i < p.N()
    ensures |net| == p.N() && |net[i].inbox| == |net[i].received| == p.N()
  {
    assert RN.NodeInv(p, eq, i, net[i]);
  }

  /** Taking SessionActive or a session message leaves all transports alone. */
  lemma TakeKeepsPeers(n: nat, w: M.World, i: nat, k: nat)
    requires |w.clients| == |w.up| == |w.down| == n && M.Enabled(n, w, M.ClientTake(i)) && k < n
    requires w.down[i][0].SessionActive? || w.down[i][0].ChatFrom?
    ensures M.Apply(n, w, M.ClientTake(i)).clients[k].peers == w.clients[k].peers
  {}

  lemma KeyKept<S, B, O>(sys: System<S, B, O>, c: M.Client, c': M.Client, peer: nat)
    requires c'.peers == c.peers
    ensures SendKey(sys, c', peer) == SendKey(sys, c, peer)
  {}

  /** The reaction itself, before anything is told: one node of the round engine has moved. */
  lemma OthersReacted<S, B, O>(sys: System<S, B, O>, c: Whole<S, B, O>, c1: Whole<S, B, O>, net: RN.Net<S, B, O>,
                               net1: RN.Net<S, B, O>, i: nat, party: Party<S, B, O>, nd: RN.Node<S, B, O>,
                               sends: seq<Send<B>>)
    requires sys.p.WellFormed() && Sized(sys, c) && Matches(sys, c, net) && Enabled(sys, c, M.ClientTake(i))
    requires c.mesh.down[i][0].SessionActive? || c.mesh.down[i][0].ChatFrom?
    requires c1 == Whole(M.Apply(sys.p.N(), c.mesh, M.ClientTake(i)), c.parties[i := party]) && net1 == net[i := nd]
    requires PartyMatches(c1, net1, i) && forall a :: 0 <= a < |net| ==> LinkMatches(sys, c1, net1, a, i)
    requires party.sending == c.parties[i].sending && |nd.inbox| == |net|
    requires RN.Announces(sys.p, i, sends, RN.Sent(sys.p, net[i]), RN.Sent(sys.p, nd))
    ensures Reacted(sys, c1, net1, i, sends, RN.Sent(sys.p, net[i]))
  {
    hide Link, M.ClientStep, InStep, SendKey, At, Volume, Written, RN.Flight, RN.Announces, RN.Sent, M.Apply;
    var n := sys.p.N();
    forall k | 0 <= k < n ensures PartyMatches(c1, net1, k) {
      if k != i {
        assert PartyMatches(c, net, k);
        JoinedAfter(n, c.mesh, M.ClientTake(i), k);
      }
    }
    forall a, b | 0 <= a < n && 0 <= b < n ensures LinkMatches(sys, c1, net1, a, b) {
      if b != i {
        assert LinkMatches(sys, c, net, a, b);
        LinkElsewhere(sys, c, c1, net, net1, i, a, b);
      }
    }
    forall a, b | 0 <= a < n && 0 <= b < n && a != b && a != i ensures VolumeMatches(sys, c1, net1, a, b) {
      assert VolumeMatches(sys, c, net, a, b);
    }
    forall b | 0 <= b < n && b != i ensures VolumeWas(sys, c1, i, b, RN.Sent(sys.p, net[i])) {
      assert VolumeMatches(sys, c, net, i, b);
    }
  }

  /** A link whose oldest message is not what was taken. */
  lemma LinkElsewhere<S, B, O>(sys: System<S, B, O>, c: Whole<S, B, O>, c1: Whole<S, B, O>, net: RN.Net<S, B, O>,
                               net1: RN.Net<S, B, O>,
                               i: nat, a: nat, b: nat)
    requires sys.p.WellFormed() && Sized(sys, c) && Sized(sys, c1) && Enabled(sys, c, M.ClientTake(i))
             && a < sys.p.N() && b < sys.p.N()
    requires c.mesh.down[i][0].SessionActive? || c.mesh.down[i][0].ChatFrom?
    requires c1.mesh == M.Apply(sys.p.N(), c.mesh, M.ClientTake(i)) && |net| == |net1| == sys.p.N()
    requires LinkMatches(sys, c, net, a, b) && a < |net1[b].inbox| && net1[b].inbox[a] == net[b].inbox[a]
    requires At(c1.parties[b].receiving, a) == At(c.parties[b].receiving, a)
             && c1.parties[a].sending == c.parties[a].sending
    requires b == i && c.mesh.down[i][0].ChatFrom? ==> c.mesh.down[i][0].peer != a
    ensures LinkMatches(sys, c1, net1, a, b)
  {
    hide Link, M.ClientStep, InStep, SendKey, At, Written, M.Apply;
    var n := sys.p.N();
    TakeKeepsPeers(n, c.mesh, i, a);
    KeyKept(sys, c.mesh.clients[a], c1.mesh.clients[a], b);
    TakeLink(n, c.mesh, i, a, b);
    assert [] + Link(c1.mesh, a, b) == Link(c1.mesh, a, b);
  }

  /** What remains of a step once the client has reacted: its sends are told, and posted in the round engine. */
  lemma TellAndPost<S(!new), B(!new), O>(sys: System<S, B, O>, eq: (S, S) -> bool, c: Whole<S, B, O>, i: nat,
                                         ma: seq<M.Action>,
                                         net: RN.Net<S, B, O>, party: Party<S, B, O>, nd: RN.Node<S, B, O>,
                                         sends: seq<Send<B>>)
    returns (ma': seq<M.Action>)
    requires Sound(sys, eq) && Sized(sys, c) && Matches(sys, c, net) && M.Exec(sys.p.N(), ma) == Some(c.mesh)
    requires Enabled(sys, c, M.ClientTake(i)) && (c.mesh.down[i][0].SessionActive? || c.mesh.down[i][0].ChatFrom?)
    requires React(sys, c.mesh.clients[i], c.parties[i], i, c.mesh.down[i][0]) == (party, sends)
    requires Reacted(sys, Whole(M.Apply(sys.p.N(), c.mesh, M.ClientTake(i)), c.parties[i := party]), net[i := nd], i,
                     sends,
                     RN.Sent(sys.p, net[i]))
    requires RN.NetInv(sys.p, eq, net) && RN.NetInv(sys.p, eq, RN.Post(sys.p, net[i := nd], i, sends))
    requires ToParticipants(sys.p.session, sends) && |nd.inbox| == |net| == sys.p.N() && !party.lost
    requires M.Apply(sys.p.N(), c.mesh, M.ClientTake(i)).clients[i].joined
    ensures M.Exec(sys.p.N(), ma') == Some(Act(sys, c, M.ClientTake(i)).mesh)
    ensures Matches(sys, Act(sys, c, M.ClientTake(i)), RN.Post(sys.p, net[i := nd], i, sends))
  {
    hide Healthy, Indifferent, NoncesSuffice, React, M.Apply, RN.NetInv, RN.Post, Tell, RN.Sent, Reacted, Affords,
         Matches, NoncesTold, LinksTold;
    var p, n := sys.p, sys.p.N();
    var w1 := M.Apply(n, c.mesh, M.ClientTake(i));
    var c1, net1 := Whole(w1, c.parties[i := party]), net[i := nd];
    NeverToSelf(p, eq, net1, i, sends);
    SentIsBounded(p, eq, net, i);
    AnnouncementsAffordable(sys, c1, net1, i, sends, RN.Sent(p, net[i]));
    assert (ma + [M.ClientTake(i)])[..|ma|] == ma;
    ma' := TellRuns(sys, ma + [M.ClientTake(i)], party, i, sends);
    var (t, party') := Tell(sys, w1, party, i, sends);
    ReactionMatches(sys, c1, t, party', net1, i, sends, RN.Sent(p, net[i]));
    assert c1.parties[i := party'] == c.parties[i := party'];
    assert Act(sys, c, M.ClientTake(i)) == Whole(t, c.parties[i := party']);
  }

  /** SessionActive starts the client's bridge. */
  lemma ActivationMatches<S(!new), B(!new), O>(sys: System<S, B, O>, eq: (S, S) -> bool, c: Whole<S, B, O>, i: nat,
                                               ma: seq<M.Action>, ra: seq<RN.Action>)
    returns (ma': seq<M.Action>, ra': seq<RN.Action>)
    requires Sound(sys, eq) && Sized(sys, c)
    requires M.Exec(sys.p.N(), ma) == Some(c.mesh) && RN.Exec(sys.p, ra).Some?
             && Matches(sys, c, RN.Exec(sys.p, ra).value)
    requires Enabled(sys, c, M.ClientTake(i)) && c.mesh.down[i][0].SessionActive? && !c.parties[i].started
    ensures M.Exec(sys.p.N(), ma') == Some(Act(sys, c, M.ClientTake(i)).mesh)
    ensures RN.Exec(sys.p, ra').Some? && Matches(sys, Act(sys, c, M.ClientTake(i)), RN.Exec(sys.p, ra').value)
    ensures |ra'| == |ra| + 1
  {
    hide Link, Healthy, Indifferent, NoncesSuffice, M.ClientStep, M.Apply, M.Exec, RN.Exec, RN.Apply, RN.Launch, React,
         RN.NetInv, RN.Post, InStep, RN.Announces, RN.Sent, VolumeMatches, Reacted;
    var p, n, net := sys.p, sys.p.N(), RN.Exec(sys.p, ra).value;
    assert PartyMatches(c, net, i);
    ra' := ra + [RN.StartParty(i)];
    RoundStep(p, eq, ra, RN.StartParty(i));
    LaunchAnnounces(p, eq, net, i);
    LaunchApplies(p, net, i);
    var (nd, sends) := RN.Launch(p, i, net[i]);
    InboxSized(p, eq, net, i);
    LaunchToParticipants(p, net, i);
    StartIsLaunch(sys, c.mesh.clients[i], c.parties[i], net, i);
    var party := c.parties[i].(bridge := nd.bridge, started := true, outcome := nd.outcome);
    var c1, net1 := Whole(M.Apply(n, c.mesh, M.ClientTake(i)), c.parties[i := party]), net[i := nd];
    JoinedAfter(n, c.mesh, M.ClientTake(i), i);
    assert PartyMatches(c1, net1, i);
    forall a | 0 <= a < n ensures LinkMatches(sys, c1, net1, a, i) {
      assert LinkMatches(sys, c, net, a, i);
      LinkElsewhere(sys, c, c1, net, net1, i, a, i);
    }
    OthersReacted(sys, c, c1, net, net1, i, party, nd, sends);
    ma' := TellAndPost(sys, eq, c, i, ma, net, party, nd, sends);
  }

  /** One more step of the round engine. */
  lemma RoundStep<S(!new), B(!new), O>(p: Protocol<S, B, O>, eq: (S, S) -> bool, ra: seq<RN.Action>, a: RN.Action)
    requires RN.Contract(p, eq) && RN.Exec(p, ra).Some? && RN.Enabled(p, RN.Exec(p, ra).value, a)
    ensures RN.Exec(p, ra + [a]) == Some(RN.Apply(p, RN.Exec(p, ra).value, a))
    ensures RN.NetInv(p, eq, RN.Exec(p, ra).value) && RN.NetInv(p, eq, RN.Apply(p, RN.Exec(p, ra).value, a))
  {
    hide Healthy, Indifferent, RN.NetInv, RN.Apply, RN.Enabled;
    RN.EveryRunKeepsInv(p, eq, ra);
    assert (ra + [a])[..|ra|] == ra;
    RN.ApplyKeeps(p, eq, RN.Exec(p, ra).value, a);
  }

  /** Reacting to SessionActive is the round engine's start. */
  lemma StartIsLaunch<S, B, O>(sys: System<S, B, O>, c: M.Client, party: Party<S, B, O>, net: RN.Net<S, B, O>, i: nat)
    requires sys.p.WellFormed() && |net| == sys.p.N() && i < sys.p.N()
    requires !party.started && party.bridge == net[i].bridge
    ensures var (nd, sends) := RN.Launch(sys.p, i, net[i]);
            && React(sys, c, party, i, M.SessionActive)
               == (party.(bridge := nd.bridge, started := true, outcome := nd.outcome), sends)
            && nd.started
  {
    hide Start;
  }

  lemma LaunchToParticipants<S, B, O>(p: Protocol<S, B, O>, net: RN.Net<S, B, O>, i: nat)
    requires p.WellFormed() && |net| == p.N() && i < p.N()
    ensures ToParticipants(p.session, RN.Launch(p, i, net[i]).1)
  {
    hide Start;
    StartToParticipants(p.driver, p.session, p.KeyOf(i), net[i].bridge);
  }

  lemma LaunchApplies<S, B, O>(p: Protocol<S, B, O>, net: RN.Net<S, B, O>, i: nat)
    requires p.WellFormed() && |net| == p.N() && RN.Enabled(p, net, RN.StartParty(i))
    ensures var (nd, sends) := RN.Launch(p, i, net[i]);
            RN.Apply(p, net, RN.StartParty(i)) == RN.Post(p, net[i := nd], i, sends)
  {
    hide RN.Launch, RN.Post;
  }

  lemma TakeApplies<S, B, O>(p: Protocol<S, B, O>, net: RN.Net<S, B, O>, j: nat, i: nat)
    requires p.WellFormed() && |net| == p.N() && RN.Enabled(p, net, RN.Deliver(j, i))
    ensures var (nd, sends) := RN.Take(p, i, net[i], j);
            RN.Apply(p, net, RN.Deliver(j, i)) == RN.Post(p, net[i := nd], i, sends)
  {
    hide RN.Take, RN.Post;
  }

  lemma LaunchAnnounces<S(!new), B(!new), O>(p: Protocol<S, B, O>, eq: (S, S) -> bool, net: RN.Net<S, B, O>, i: nat)
    requires RN.Contract(p, eq) && RN.NetInv(p, eq, net) && i < p.N() && !net[i].started
    ensures var (nd, sends) := RN.Launch(p, i, net[i]);
            RN.Announces(p, i, sends, RN.Sent(p, net[i]), RN.Sent(p, nd)) && nd.inbox == net[i].inbox
  {
    hide Healthy, Indifferent, RN.Launch, RN.Announces, RN.Sent;
    assert RN.NodeInv(p, eq, i, net[i]);
    RN.LaunchKeeps(p, eq, i, net[i]);
  }

  lemma TakeAnnounces<S(!new), B(!new), O>(p: Protocol<S, B, O>, eq: (S, S) -> bool, net: RN.Net<S, B, O>, j: nat,
                                           i: nat)
    requires RN.Contract(p, eq) && RN.NetInv(p, eq, net) && |net| == p.N() && RN.Enabled(p, net, RN.Deliver(j, i))
    ensures var (nd, sends) := RN.Take(p, i, net[i], j);
            RN.Announces(p, i, sends, RN.Sent(p, net[i]), RN.Sent(p, nd))
            && nd.inbox == net[i].inbox[j := net[i].inbox[j][1..]]
  {
    hide Healthy, Indifferent, RN.Announces, Handle;
    SentIsBounded(p, eq, net, j);
    assert RN.NodeInv(p, eq, i, net[i]) && RN.LinkInv(p, j, RN.Sent(p, net[j]), i, net[i]);
    hide RN.Sent;
    RN.TakeKeeps(p, eq, i, net[i], j, RN.Sent(p, net[j]));
  }

  /** The two ends of a channel seal and open with the same key. */
  lemma KeysAgree<S, B, O>(sys: System<S, B, O>, ma: seq<M.Action>, i: nat, j: nat)
    requires M.Exec(sys.p.N(), ma).Some? && i < sys.p.N() && j < sys.p.N() && i != j
    requires M.Exec(sys.p.N(), ma).value.server.activeSent > 0
    ensures var w := M.Exec(sys.p.N(), ma).value; ReceiveKey(sys, w.clients[i], j) == SendKey(sys, w.clients[j], i)
  {
    hide M.Exec;
    MT.ActiveMeansConnected(sys.p.N(), ma, i, j, []);
  }

  /** The oldest message of a link opens, and to what the round engine has on that link. */
  lemma OldestMatches<S(!new), B(!new), O>(sys: System<S, B, O>, c: Whole<S, B, O>, net: RN.Net<S, B, O>,
                                           ma: seq<M.Action>, i: nat)
    requires sys.p.WellFormed() && Lawful(sys.format) && sys.aead.Lawful() && Sized(sys, c) && Matches(sys, c, net)
    requires M.Exec(sys.p.N(), ma) == Some(c.mesh) && Enabled(sys, c, M.ClientTake(i)) && c.mesh.down[i][0].ChatFrom?
    requires c.mesh.server.activeSent > 0 && c.mesh.down[i][0].peer < sys.p.N() && c.mesh.down[i][0].peer != i
    requires |net[i].inbox| == |net|
    ensures var j, party, c1 := c.mesh.down[i][0].peer, c.parties[i], M.Apply(sys.p.N(), c.mesh, M.ClientTake(i));
            var inbox, old' := net[i].inbox[j], At(party.receiving, j);
            && inbox != [] && old' + Pieces(|sys.format.write(inbox[0])|) <= MAX_NONCE
            && var new' := old' + Pieces(|sys.format.write(inbox[0])|);
            && React(sys, c.mesh.clients[i], party, i, c.mesh.down[i][0])
               == Hear(sys.p, party.(receiving := party.receiving[j := new']), i, Some(inbox[0]))
            && InStep(sys.aead, SendKey(sys, c1.clients[j], i), new', At(c.parties[j].sending, i),
                      Written(sys.format, inbox[1..]), Link(c1, j, i))
  {
    hide M.ClientStep, M.Apply, InStep, SendKey, ReceiveKey, Hear, Link, M.Exec;
    var n, j, sealed := sys.p.N(), c.mesh.down[i][0].peer, c.mesh.down[i][0].payload;
    var c1 := M.Apply(n, c.mesh, M.ClientTake(i));
    assert LinkMatches(sys, c, net, j, i);
    var inbox, ms, link := net[i].inbox[j], Written(sys.format, net[i].inbox[j]), Link(c.mesh, j, i);
    TakeLink(n, c.mesh, i, j, i);
    assert link[0] == sealed && link[1..] == Link(c1, j, i);
    KeysAgree(sys, ma, i, j);
    OldestOpens(sys.aead, SendKey(sys, c.mesh.clients[j], i), At(c.parties[i].receiving, j),
                At(c.parties[j].sending, i), ms, link);
    TakeKeepsPeers(n, c.mesh, i, j);
    KeyKept(sys, c.mesh.clients[j], c1.clients[j], i);
    assert ms[1..] == Written(sys.format, inbox[1..]);
  }

  /** Hearing a message is the round engine's taking it. */
  lemma HearIsTake<S, B, O>(p: Protocol<S, B, O>, party: Party<S, B, O>, net: RN.Net<S, B, O>, j: nat, i: nat)
    requires p.WellFormed() && |net| == p.N() && RN.Enabled(p, net, RN.Deliver(j, i))
    requires party.started && party.bridge == net[i].bridge && party.outcome == net[i].outcome
    ensures var (nd, sends) := RN.Take(p, i, net[i], j);
            && Hear(p, party, i, Some(net[i].inbox[j][0]))
               == (party.(bridge := nd.bridge, outcome := nd.outcome), sends)
            && nd.started
  {
    hide Handle;
  }

  /** A session message is a delivery. */
  lemma DeliveryMatches<S(!new), B(!new), O>(sys: System<S, B, O>, eq: (S, S) -> bool, c: Whole<S, B, O>, i: nat,
                                             ma: seq<M.Action>, ra: seq<RN.Action>)
    returns (ma': seq<M.Action>, ra': seq<RN.Action>)
    requires Sound(sys, eq) && Sized(sys, c)
    requires M.Exec(sys.p.N(), ma) == Some(c.mesh) && RN.Exec(sys.p, ra).Some?
             && Matches(sys, c, RN.Exec(sys.p, ra).value)
    requires Enabled(sys, c, M.ClientTake(i)) && c.mesh.down[i][0].ChatFrom?
    ensures M.Exec(sys.p.N(), ma') == Some(Act(sys, c, M.ClientTake(i)).mesh)
    ensures RN.Exec(sys.p, ra').Some? && Matches(sys, Act(sys, c, M.ClientTake(i)), RN.Exec(sys.p, ra').value)
    ensures |ra'| == |ra| + 1
  {
    hide Link, Healthy, Indifferent, NoncesSuffice, M.ClientStep, M.Apply, M.Exec, RN.Exec, Handle, RN.NetInv, RN.Post,
         RN.Take, RN.Apply, InStep, RN.Announces, RN.Sent, VolumeMatches, Reacted, RN.Running, React, Hear;
    var p, n, net := sys.p, sys.p.N(), RN.Exec(sys.p, ra).value;
    var j := c.mesh.down[i][0].peer;
    ChatMeansJoined(n, ma, i);
    assert PartyMatches(c, net, i);
    RN.EveryRunKeepsInv(p, eq, ra);
    InboxSized(p, eq, net, i);
    OldestMatches(sys, c, net, ma, i);
    FilledMeansRunning(p, eq, net, j, i);
    ra' := ra + [RN.Deliver(j, i)];
    RoundStep(p, eq, ra, RN.Deliver(j, i));
    TakeAnnounces(p, eq, net, j, i);
    TakeApplies(p, net, j, i);
    var (nd, sends) := RN.Take(p, i, net[i], j);
    var new' := At(c.parties[i].receiving, j) + Pieces(|sys.format.write(net[i].inbox[j][0])|);
    var heard := c.parties[i].(receiving := c.parties[i].receiving[j := new']);
    HearIsTake(p, heard, net, j, i);
    var party := heard.(bridge := nd.bridge, outcome := nd.outcome);
    HearToParticipants(p, heard, i, Some(net[i].inbox[j][0]));
    var c1, net1 := Whole(M.Apply(n, c.mesh, M.ClientTake(i)), c.parties[i := party]), net[i := nd];
    JoinedAfter(n, c.mesh, M.ClientTake(i), i);
    assert PartyMatches(c1, net1, i);
    forall a | 0 <= a < n ensures LinkMatches(sys, c1, net1, a, i) {
      if a != j {
        assert LinkMatches(sys, c, net, a, i);
        LinkElsewhere(sys, c, c1, net, net1, i, a, i);
      }
    }
    OthersReacted(sys, c, c1, net, net1, i, party, nd, sends);
    ma' := TellAndPost(sys, eq, c, i, ma, net, party, nd, sends);
  }

  lemma HearToParticipants<S, B, O>(p: Protocol<S, B, O>, party: Party<S, B, O>, i: nat, m: Option<RoundMsg<B>>)
    requires p.WellFormed() && i < p.N()
    ensures ToParticipants(p.session, Hear(p, party, i, m).1)
  {
    HandleToParticipants(p.driver, p.session, p.KeyOf(i), party.bridge, JsonMessage(Some(p.session.id), m));
  }

  lemma ChatMeansJoined(n: nat, ma: seq<M.Action>, i: nat)
    requires M.Exec(n, ma).Some? && i < n
    requires var w := M.Exec(n, ma).value; w.down[i] != [] && w.down[i][0].ChatFrom?
    ensures var w := M.Exec(n, ma).value;
            w.clients[i].joined && w.server.activeSent > 0 && w.down[i][0].peer < n && w.down[i][0].peer != i
  {
    hide MI.PairInv, MI.Count, MI.Ordered, MI.Holds;
    var x := MI.EveryRunKeepsInv(n, ma);
    var w := M.Exec(n, ma).value;
    MI.LocalOf(n, w, x, i);
    assert MI.LocalInv(n, i, w.clients[i], w.up[i], w.down[i], w.server, i in x.met);
    MI.PopKeepsLocal(n, i, w.clients[i], w.up[i], w.down[i], w.server, i in x.met);
  }

  // ---------------------------------------------------------------------------
  // Steps that concern session establishment alone.

  /** Once the session is announced active no transport changes. */
  lemma PeersFixed(n: nat, w: M.World, x: MI.Aux, a: M.Action, k: nat)
    requires MI.WorldInv(n, w, x) && M.Enabled(n, w, a) && !a.Say? && w.server.activeSent > 0 && k < n
    ensures M.Apply(n, w, a).clients[k].peers == w.clients[k].peers
  {
    assert |w.clients| == |w.up| == |w.down| == n;
    hide MI.WorldInv, M.ClientStep, M.AllOnline, M.AllLinked;
    match a
    case ClientTake(i) =>
      if k == i {
        TakerKeepsPeers(n, w, x, k);
      }
    case ServerTake(i) =>
    case _ =>
  }

  lemma TakerKeepsPeers(n: nat, w: M.World, x: MI.Aux, k: nat)
    requires MI.WorldInv(n, w, x) && k < n && w.server.activeSent > 0
    requires |w.clients| == |w.up| == |w.down| == n && M.Enabled(n, w, M.ClientTake(k))
    ensures M.ClientStep(w.clients[k], k, n, w.down[k][0]).0.peers == w.clients[k].peers
  {
    hide MI.WorldInv;
    var m := w.down[k][0];
    MI.HeadResponse(n, w, x, k);
    if m.HelloFrom? || m.AnswerFrom? {
      RegisteredNow(n, w, x, if k < m.peer then k else m.peer, if k < m.peer then m.peer else k);
    } else if m.SessionReady? && k + 1 < n {
      RegisteredNow(n, w, x, k, k + 1);
      ReadyMeansNotMet(n, w, x, k);
    }
  }

  lemma RegisteredNow(n: nat, w: M.World, x: MI.Aux, i: nat, j: nat)
    requires MI.WorldInv(n, w, x) && w.server.activeSent > 0 && i < j < n
    ensures MI.PhaseOf(x, i, j).Registered? && i in x.met
  {
    hide MI.LocalInv, MI.ViewOf, MI.Expected;
    assert MI.PairInv(w, x, i, j);
  }

  lemma ReadyMeansNotMet(n: nat, w: M.World, x: MI.Aux, k: nat)
    requires MI.WorldInv(n, w, x) && k < n && w.down[k] != [] && w.down[k][0].SessionReady?
    ensures k !in x.met
  {
    MI.LocalOf(n, w, x, k);
    hide MI.WorldInv;
    MI.PopKeepsLocal(n, k, w.clients[k], w.up[k], w.down[k], w.server, k in x.met);
  }

  /** Only a client that has joined has session messages on their way. */
  lemma SenderJoined<S(!new), B(!new), O>(sys: System<S, B, O>, eq: (S, S) -> bool, c: Whole<S, B, O>,
                                          net: RN.Net<S, B, O>, x: MI.Aux, j: nat, i: nat)
    requires sys.p.WellFormed() && Sized(sys, c) && Matches(sys, c, net) && RN.NetInv(sys.p, eq, net)
    requires MI.WorldInv(sys.p.N(), c.mesh, x) && i < sys.p.N() && j < sys.p.N() && j < |net[i].inbox|
             && net[i].inbox[j] != []
    ensures c.mesh.server.activeSent > 0
  {
    hide MI.LocalInv, MI.PairInv, LinkMatches, VolumeMatches, RN.NodeInv;
    assert RN.LinkInv(sys.p, j, RN.Sent(sys.p, net[j]), i, net[i]);
    assert PartyMatches(c, net, j);
    MI.LocalOf(sys.p.N(), c.mesh, x, j);
  }

  lemma QuietLink<S(!new), B(!new), O>(sys: System<S, B, O>, eq: (S, S) -> bool, c: Whole<S, B, O>, a: M.Action,
                                       net: RN.Net<S, B, O>, x: MI.Aux,
                                       j: nat, i: nat)
    requires sys.p.WellFormed() && Sized(sys, c) && Matches(sys, c, net) && RN.NetInv(sys.p, eq, net)
             && Enabled(sys, c, a)
    requires MI.WorldInv(sys.p.N(), c.mesh, x) && i < sys.p.N() && j < sys.p.N()
    requires a.ClientTake? ==> !c.mesh.down[a.i][0].ChatFrom?
    ensures LinkMatches(sys, Whole(M.Apply(sys.p.N(), c.mesh, a), c.parties), net, j, i)
  {
    hide Link, M.Apply, MI.WorldInv, RN.NetInv, SendKey, PartyMatches, VolumeMatches;
    var n := sys.p.N();
    var w := M.Apply(n, c.mesh, a);
    assert LinkMatches(sys, c, net, j, i);
    if a.ClientTake? {
      TakeLink(n, c.mesh, a.i, j, i);
      assert [] + Link(w, j, i) == Link(w, j, i);
    } else {
      OtherLink(n, c.mesh, x, a, j, i);
    }
    if net[i].inbox[j] != [] {
      SenderJoined(sys, eq, c, net, x, j, i);
      PeersFixed(n, c.mesh, x, a, j);
      KeyKept(sys, c.mesh.clients[j], w.clients[j], i);
    }
  }

  lemma QuietMatches<S(!new), B(!new), O>(sys: System<S, B, O>, eq: (S, S) -> bool, c: Whole<S, B, O>, a: M.Action,
                                          ma: seq<M.Action>,
                                          net: RN.Net<S, B, O>)
    requires sys.p.WellFormed() && Sized(sys, c) && M.Exec(sys.p.N(), ma) == Some(c.mesh) && Matches(sys, c, net)
             && Enabled(sys, c, a)
    requires RN.NetInv(sys.p, eq, net)
    requires a.ClientTake? ==>
               !c.mesh.down[a.i][0].ChatFrom? && (c.mesh.down[a.i][0].SessionActive? ==> c.parties[a.i].started)
    ensures Act(sys, c, a) == Whole(M.Apply(sys.p.N(), c.mesh, a), c.parties)
    ensures Matches(sys, Act(sys, c, a), net)
  {
    hide Link, M.Apply, MI.WorldInv, RN.NetInv, InStep;
    var n := sys.p.N();
    var x := MI.EveryRunKeepsInv(n, ma);
    var w := M.Apply(n, c.mesh, a);
    if a.ClientTake? {
      assert React(sys, c.mesh.clients[a.i], c.parties[a.i], a.i, c.mesh.down[a.i][0]) == (c.parties[a.i], []);
      assert c.parties[a.i := c.parties[a.i]] == c.parties;
    }
    assert Act(sys, c, a) == Whole(w, c.parties);
    forall k | 0 <= k < n ensures PartyMatches(Whole(w, c.parties), net, k) {
      assert PartyMatches(c, net, k);
      JoinedAfter(n, c.mesh, a, k);
    }
    forall j, i | 0 <= j < n && 0 <= i < n ensures LinkMatches(sys, Whole(w, c.parties), net, j, i) {
      QuietLink(sys, eq, c, a, net, x, j, i);
    }
    forall j, i | 0 <= j < n && 0 <= i < n && i != j ensures VolumeMatches(sys, Whole(w, c.parties), net, j, i) {
      assert VolumeMatches(sys, c, net, j, i);
    }
  }

  /** Such a step uses up some of what session establishment had left to do. */
  lemma QuietStep<S(!new), B(!new), O>(sys: System<S, B, O>, eq: (S, S) -> bool, c: Whole<S, B, O>, a: M.Action,
                                       ma: seq<M.Action>, net: RN.Net<S, B, O>)
    requires sys.p.WellFormed() && Sized(sys, c) && M.Exec(sys.p.N(), ma) == Some(c.mesh) && Matches(sys, c, net)
    requires Enabled(sys, c, a) && RN.NetInv(sys.p, eq, net)
    requires a.ClientTake? ==>
               !c.mesh.down[a.i][0].ChatFrom? && (c.mesh.down[a.i][0].SessionActive? ==> c.parties[a.i].started)
    ensures M.Exec(sys.p.N(), ma + [a]) == Some(Act(sys, c, a).mesh) && Matches(sys, Act(sys, c, a), net)
    ensures MP.Potential(sys.p.N(), Act(sys, c, a).mesh) < MP.Potential(sys.p.N(), c.mesh)
  {
    hide Matches, Act, M.Apply, MP.Potential, RN.NetInv;
    assert (ma + [a])[..|ma|] == ma;
    QuietMatches(sys, eq, c, a, ma, net);
    MP.StepLoad(sys.p.N(), c.mesh, a);
  }

  /**
   * A step of the whole is a step of the round engine as well, or else uses up some of what session
   * establishment had left to do.
   */
  lemma StepMatches<S(!new), B(!new), O>(sys: System<S, B, O>, eq: (S, S) -> bool, c: Whole<S, B, O>, a: M.Action,
                                         ma: seq<M.Action>, ra: seq<RN.Action>)
    returns (ma': seq<M.Action>, ra': seq<RN.Action>)
    requires Sound(sys, eq) && Sized(sys, c)
    requires M.Exec(sys.p.N(), ma) == Some(c.mesh) && RN.Exec(sys.p, ra).Some?
             && Matches(sys, c, RN.Exec(sys.p, ra).value)
    requires Enabled(sys, c, a)
    ensures M.Exec(sys.p.N(), ma') == Some(Act(sys, c, a).mesh)
    ensures RN.Exec(sys.p, ra').Some? && Matches(sys, Act(sys, c, a), RN.Exec(sys.p, ra').value)
    ensures || |ra'| == |ra| + 1
            || (ra' == ra && MP.Potential(sys.p.N(), Act(sys, c, a).mesh) < MP.Potential(sys.p.N(), c.mesh))
  {
    hide Matches, Act, M.Apply, MP.Potential, M.Exec, RN.Exec, Healthy, Indifferent, NoncesSuffice, RN.NetInv;
    if a.ClientTake? && c.mesh.down[a.i][0].ChatFrom? {
      ma', ra' := DeliveryMatches(sys, eq, c, a.i, ma, ra);
    } else if a.ClientTake? && c.mesh.down[a.i][0].SessionActive? && !c.parties[a.i].started {
      ma', ra' := ActivationMatches(sys, eq, c, a.i, ma, ra);
    } else {
      ma', ra' := ma + [a], ra;
      RN.EveryRunKeepsInv(sys.p, eq, ra);
      QuietStep(sys, eq, c, a, ma, RN.Exec(sys.p, ra).value);
    }
  }
}
