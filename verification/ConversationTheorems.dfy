// The whole carries out both machines: every run of it is a run of session establishment and, at the
// same time, a run of the round engine whose links are the clients' sealed session messages in flight.
module ConversationTheorems {
  import opened Basics
  import opened Bridge
  import opened LockStep
  import opened Chunks
  import opened Sealing
  import opened Conversation
  import opened ConversationSteps
  import RN = RoundNetwork
  import RT = RoundTheorems
  import M = Mesh
  import MI = MeshInvariant
  import MP = MeshProgress
  import MT = MeshTheorems

  // ---------------------------------------------------------------------------
  // What holds of every run.

  lemma InitialMatches<S, B, O>(sys: System<S, B, O>)
    requires sys.p.WellFormed()
    ensures Matches(sys, Initial(sys), RN.Initial(sys.p))
  {}

  lemma {:induction false} EveryRunMatches<S(!new), B(!new), O>(sys: System<S, B, O>, eq: (S, S) -> bool,
                                                                actions: seq<M.Action>)
    returns (ma: seq<M.Action>, ra: seq<RN.Action>)
    requires Sound(sys, eq) && Exec(sys, actions).Some?
    ensures M.Exec(sys.p.N(), ma) == Some(Exec(sys, actions).value.mesh)
    ensures RN.Exec(sys.p, ra).Some? && Matches(sys, Exec(sys, actions).value, RN.Exec(sys.p, ra).value)
  {
    hide Matches, Act, Enabled, Healthy, Indifferent;
    if actions == [] {
      ma, ra := [], [];
      InitialMatches(sys);
    } else {
      var last := |actions| - 1;
      ma, ra := EveryRunMatches(sys, eq, actions[..last]);
      ma, ra := StepMatches(sys, eq, Exec(sys, actions[..last]).value, actions[last], ma, ra);
    }
  }

  /** Some run leads from the start to this state. */
  ghost predicate Reached<S, B, O>(sys: System<S, B, O>, c: Whole<S, B, O>)
    requires sys.p.WellFormed()
  {
    exists actions :: Exec(sys, actions) == Some(c)
  }

  /**
   * In every state reached by the whole the parties' bridges are in a state the round engine reaches, and
   * the session messages between any two clients are, in order, the messages on its link.
   */
  lemma WholeCarriesOutTheProtocol<S(!new), B(!new), O>(sys: System<S, B, O>, eq: (S, S) -> bool, c: Whole<S, B, O>)
    returns (net: RN.Net<S, B, O>)
    requires Sound(sys, eq) && Reached(sys, c)
    ensures Sized(sys, c) && RN.Reached(sys.p, net) && Matches(sys, c, net)
  {
    hide Matches, Exec, Healthy, Indifferent, RN.Exec;
    var actions :| Exec(sys, actions) == Some(c);
    var ma, ra := EveryRunMatches(sys, eq, actions);
    IsReached(sys.p, ra);
    net := RN.Exec(sys.p, ra).value;
  }

  /** No client and no bridge ever fails, nothing is dropped or comes astray, and an output is the lock-step one. */
  lemma NothingGoesWrong<S(!new), B(!new), O>(sys: System<S, B, O>, eq: (S, S) -> bool, c: Whole<S, B, O>, i: nat)
    requires Sound(sys, eq) && Reached(sys, c) && Sized(sys, c) && i < sys.p.N()
    ensures c.mesh.clients[i].error.None? && c.mesh.clients[i].dropped == 0
    ensures !c.parties[i].stray && !c.parties[i].lost && !c.parties[i].outcome.Failed?
    ensures c.parties[i].outcome.Complete? ==> Ok(c.parties[i].outcome.output) == OutputOf(sys.p, i)
  {
    hide Exec, Healthy, Indifferent, RN.Reached, OutputOf, RT.BatchOfRound, RN.Mirrors, RN.Exec, M.Exec;
    var actions :| Exec(sys, actions) == Some(c);
    var ma, ra := EveryRunMatches(sys, eq, actions);
    MT.NoClientEverFails(sys.p.N(), ma, i);
    var net := RN.Exec(sys.p, ra).value;
    IsReached(sys.p, ra);
    RT.RunMirrorsLockStep(sys.p, eq, net, i);
    assert PartyMatches(c, net, i);
  }

  /**
   * Every channel is in step, whatever else is going on: the oldest session message on its way from one
   * party to another opens with the receiver's key and nonce, to a round message, and when none is on
   * its way the nonces of the two ends are equal.
   */
  lemma SessionMessagesOpen<S(!new), B(!new), O>(sys: System<S, B, O>, eq: (S, S) -> bool, c: Whole<S, B, O>, j: nat,
                                                 i: nat)
    requires Sound(sys, eq) && Reached(sys, c) && Sized(sys, c) && i < sys.p.N() && j < sys.p.N() && i != j
    ensures var link, receiving := Link(c.mesh, j, i), At(c.parties[i].receiving, j);
            if link == [] then receiving == At(c.parties[j].sending, i)
            else
              var joined := Join(sys.aead, ReceiveKey(sys, c.mesh.clients[i], j), receiving, link[0]);
              joined.Joined? && sys.format.read(joined.payload).Some?
  {
    hide Exec, Healthy, Indifferent, RN.Exec, M.Exec, Link, ReceiveKey, SendKey, At, Matches, RN.NetInv, MI.WorldInv;
    var actions :| Exec(sys, actions) == Some(c);
    var ma, ra := EveryRunMatches(sys, eq, actions);
    var net := RN.Exec(sys.p, ra).value;
    RN.EveryRunKeepsInv(sys.p, eq, ra);
    InboxSized(sys.p, eq, net, i);
    LinkOf(sys, c, net, j, i);
    if Link(c.mesh, j, i) != [] {
      var x := MI.EveryRunKeepsInv(sys.p.N(), ma);
      SenderJoined(sys, eq, c, net, x, j, i);
      KeysAgree(sys, ma, i, j);
      OldestOpens(sys.aead, SendKey(sys, c.mesh.clients[j], i), At(c.parties[i].receiving, j),
                  At(c.parties[j].sending, i),
                  Written(sys.format, net[i].inbox[j]), Link(c.mesh, j, i));
    }
  }

  lemma LinkOf<S, B, O>(sys: System<S, B, O>, c: Whole<S, B, O>, net: RN.Net<S, B, O>, j: nat, i: nat)
    requires sys.p.WellFormed() && Sized(sys, c) && Matches(sys, c, net) && i < |net| && j < |net|
             && |net[i].inbox| == |net|
    ensures InStep(sys.aead, SendKey(sys, c.mesh.clients[j], i), At(c.parties[i].receiving, j),
                   At(c.parties[j].sending, i),
                   Written(sys.format, net[i].inbox[j]), Link(c.mesh, j, i))
  {
    assert LinkMatches(sys, c, net, j, i);
  }

  lemma IsReached<S, B, O>(p: Protocol<S, B, O>, ra: seq<RN.Action>)
    requires p.WellFormed() && RN.Exec(p, ra).Some?
    ensures RN.Reached(p, RN.Exec(p, ra).value)
  {}

  /** Nothing is left to do but give up. */
  ghost predicate Rests<S, B, O>(sys: System<S, B, O>, c: Whole<S, B, O>)
    requires Sized(sys, c)
  {
    forall a :: Enabled(sys, c, a) ==> a.GiveUp?
  }

  predicate AllDone<S, B, O>(c: Whole<S, B, O>) {
    forall i :: 0 <= i < |c.parties| ==> c.parties[i].outcome.Complete?
  }

  predicate NobodyStarted<S, B, O>(c: Whole<S, B, O>) {
    forall i :: 0 <= i < |c.parties| ==> !c.parties[i].started && c.parties[i].outcome.Pending?
  }

  lemma NotStartedIsPending<S(!new), B(!new), O>(p: Protocol<S, B, O>, eq: (S, S) -> bool, net: RN.Net<S, B, O>, i: nat)
    requires p.WellFormed() && RN.NetInv(p, eq, net) && i < p.N() == |net| && !net[i].started
    ensures net[i].outcome.Pending?
  {
    assert RN.NodeInv(p, eq, i, net[i]);
  }

  /** Once a watcher gave up no party has started: there is no run of the protocol that only some are in. */
  lemma GivingUpExcludesStarting<S(!new), B(!new), O>(sys: System<S, B, O>, eq: (S, S) -> bool, c: Whole<S, B, O>)
    requires Sound(sys, eq) && Reached(sys, c) && Sized(sys, c)
    requires c.mesh.server.gaveUp
    ensures NobodyStarted(c)
  {
    hide Exec, M.Exec, RN.Exec, Healthy, Indifferent, RN.NetInv, LinkMatches;
    var actions :| Exec(sys, actions) == Some(c);
    var ma, ra := EveryRunMatches(sys, eq, actions);
    MT.GivingUpExcludesJoining(sys.p.N(), ma);
    var net := RN.Exec(sys.p, ra).value;
    RN.EveryRunKeepsInv(sys.p, eq, ra);
    forall i | 0 <= i < sys.p.N() ensures !c.parties[i].started && c.parties[i].outcome.Pending? {
      assert PartyMatches(c, net, i);
      NotStartedIsPending(sys.p, eq, net, i);
    }
  }

  /** A party that has started and has nothing coming. */
  ghost predicate Idle<S, B, O>(nd: RN.Node<S, B, O>) {
    nd.started && forall j :: 0 <= j < |nd.inbox| ==> nd.inbox[j] == []
  }

  lemma IdleIsQuiescent<S, B, O>(p: Protocol<S, B, O>, net: RN.Net<S, B, O>)
    requires forall i :: 0 <= i < |net| ==> Idle(net[i])
    ensures RT.Quiescent(p, net)
  {
    hide Idle;
    forall a: RN.Action ensures !RN.Enabled(p, net, a) {
      match a
      case StartParty(i) => IdleNode(net, i);
      case Deliver(j, i) => IdleNode(net, i);
    }
  }

  lemma IdleNode<S, B, O>(net: RN.Net<S, B, O>, i: nat)
    requires forall k :: 0 <= k < |net| ==> Idle(net[k])
    ensures i < |net| ==> net[i].started && forall j :: 0 <= j < |net[i].inbox| ==> net[i].inbox[j] == []
  {
    assert i < |net| ==> Idle(net[i]);
  }

  lemma EmptyLinks<S, B, O>(sys: System<S, B, O>, c: Whole<S, B, O>, net: RN.Net<S, B, O>, i: nat)
    requires sys.p.WellFormed() && Sized(sys, c) && Matches(sys, c, net) && i < |net| && |net[i].inbox| == |net|
    requires c.mesh.clients[i].joined && c.mesh.down[i] == []
    requires forall j :: 0 <= j < |net| ==> c.mesh.up[j] == []
    ensures Idle(net[i])
  {
    assert PartyMatches(c, net, i);
    forall j | 0 <= j < |net| ensures net[i].inbox[j] == [] {
      assert LinkMatches(sys, c, net, j, i);
    }
  }

  lemma RestIsIdle<S(!new), B(!new), O>(sys: System<S, B, O>, eq: (S, S) -> bool, c: Whole<S, B, O>,
                                        ma: seq<M.Action>, ra: seq<RN.Action>)
    requires Sound(sys, eq) && Sized(sys, c) && Rests(sys, c) && M.Exec(sys.p.N(), ma) == Some(c.mesh)
    requires RN.Exec(sys.p, ra).Some? && Matches(sys, c, RN.Exec(sys.p, ra).value) && !c.mesh.server.gaveUp
    ensures forall i :: 0 <= i < sys.p.N() ==> Idle(RN.Exec(sys.p, ra).value[i])
  {
    hide Healthy, Indifferent, Matches, M.Enabled, MI.WorldInv, RN.NetInv, RN.Exec, M.Exec, Idle, Link;
    var n, net := sys.p.N(), RN.Exec(sys.p, ra).value;
    var x := MI.EveryRunKeepsInv(n, ma);
    forall a | M.Enabled(n, c.mesh, a) ensures a.Say? || a.GiveUp? {
      assert Enabled(sys, c, a) || a.Say?;
    }
    MT.SetUpRestsOnlyWhenActive(n, ma);
    RN.EveryRunKeepsInv(sys.p, eq, ra);
    forall j | 0 <= j < n ensures c.mesh.up[j] == [] && c.mesh.down[j] == [] {
      MT.RestingQueues(n, c.mesh, x, j);
    }
    forall i | 0 <= i < n ensures Idle(net[i]) {
      InboxSized(sys.p, eq, net, i);
      EmptyLinks(sys, c, net, i);
    }
  }

  lemma RestMeansDone<S(!new), B(!new), O>(sys: System<S, B, O>, eq: (S, S) -> bool, c: Whole<S, B, O>)
    requires Sound(sys, eq) && Reached(sys, c) && sys.p.N() >= 2
    requires Sized(sys, c) && Rests(sys, c) && !c.mesh.server.gaveUp
    ensures AllDone(c)
  {
    hide Exec, M.Exec, RN.Exec, Healthy, Indifferent, RN.Reached, Idle, Rests, RT.Quiescent, Link;
    var actions :| Exec(sys, actions) == Some(c);
    var ma, ra := EveryRunMatches(sys, eq, actions);
    var net := RN.Exec(sys.p, ra).value;
    RestIsIdle(sys, eq, c, ma, ra);
    IdleIsQuiescent(sys.p, net);
    IsReached(sys.p, ra);
    RT.RestMeansComplete(sys.p, eq, net);
    forall i | 0 <= i < sys.p.N() ensures c.parties[i].outcome.Complete? {
      assert PartyMatches(c, net, i);
    }
  }

  /**
   * With two or more parties, nothing is left to do only once every party has its output, or a watcher
   * gave up and none has even started.
   */
  lemma RestMeansAllOrNothing<S(!new), B(!new), O>(sys: System<S, B, O>, eq: (S, S) -> bool, c: Whole<S, B, O>)
    requires Sound(sys, eq) && Reached(sys, c) && sys.p.N() >= 2
    requires Sized(sys, c) && Rests(sys, c)
    ensures if c.mesh.server.gaveUp then NobodyStarted(c) else AllDone(c)
  {
    hide Healthy, Indifferent, Reached, Rests, AllDone, NobodyStarted;
    if c.mesh.server.gaveUp {
      GivingUpExcludesStarting(sys, eq, c);
    } else {
      RestMeansDone(sys, eq, c);
    }
  }

  lemma GaveUpAfter<S, B, O>(sys: System<S, B, O>, c: Whole<S, B, O>, a: M.Action)
    requires sys.p.WellFormed() && Sized(sys, c) && Enabled(sys, c, a)
    ensures Act(sys, c, a).mesh.server.gaveUp == (c.mesh.server.gaveUp || a.GiveUp?)
  {
    hide M.Apply, React, Tell;
    MP.GaveUpAfter(sys.p.N(), c.mesh, a);
    if a.ClientTake? {
      var (party, sends) := React(sys, c.mesh.clients[a.i], c.parties[a.i], a.i, c.mesh.down[a.i][0]);
      TellSized(sys, M.Apply(sys.p.N(), c.mesh, a), party, a.i, sends);
    }
  }

  lemma {:induction false} BringWholeToRest<S(!new), B(!new), O>(sys: System<S, B, O>, eq: (S, S) -> bool,
                                                                 actions: seq<M.Action>, ma: seq<M.Action>,
                                                                 ra: seq<RN.Action>)
    returns (more: seq<M.Action>)
    requires Sound(sys, eq) && Exec(sys, actions).Some? && sys.p.N() > 0
    requires M.Exec(sys.p.N(), ma) == Some(Exec(sys, actions).value.mesh)
    requires RN.Exec(sys.p, ra).Some? && Matches(sys, Exec(sys, actions).value, RN.Exec(sys.p, ra).value)
    ensures Exec(sys, actions + more).Some? && Rests(sys, Exec(sys, actions + more).value)
    ensures Exec(sys, actions + more).value.mesh.server.gaveUp == Exec(sys, actions).value.mesh.server.gaveUp
    decreases RT.MostSteps(sys.p) - |ra|, MP.Potential(sys.p.N(), Exec(sys, actions).value.mesh)
  {
    var c := Exec(sys, actions).value;
    if Rests(sys, c) {
      more := [];
      assert actions + more == actions;
    } else {
      hide Healthy, Indifferent, Matches, Act, Enabled, MP.Potential, RT.MostSteps, RN.Exec, M.Exec;
      var a :| Enabled(sys, c, a) && !a.GiveUp?;
      GaveUpAfter(sys, c, a);
      assert (actions + [a])[..|actions|] == actions;
      var ma', ra' := StepMatches(sys, eq, c, a, ma, ra);
      RT.RunsEnd(sys.p, eq, ra');
      var rest := BringWholeToRest(sys, eq, actions + [a], ma', ra');
      more := [a] + rest;
      Regroup(actions, [a], rest);
    }
  }

  lemma WholeIsReached<S, B, O>(sys: System<S, B, O>, actions: seq<M.Action>)
    requires sys.p.WellFormed() && Exec(sys, actions).Some?
    ensures Reached(sys, Exec(sys, actions).value)
  {}

  /** Every party holds the output the lock-step execution gives it. */
  ghost predicate HasOutput<S, B, O>(sys: System<S, B, O>, c: Whole<S, B, O>, i: nat)
    requires sys.p.WellFormed() && i < |c.parties| == sys.p.N()
  {
    OutputOf(sys.p, i).Ok? && c.parties[i].outcome == Complete(OutputOf(sys.p, i).value)
  }

  /**
   * From wherever a run has got, unless a watcher gave up, session establishment and protocol together
   * can be completed, and then every party holds the output the lock-step execution gives it.
   */
  lemma EveryRunCanComplete<S(!new), B(!new), O>(sys: System<S, B, O>, eq: (S, S) -> bool, actions: seq<M.Action>)
    returns (more: seq<M.Action>)
    requires Sound(sys, eq) && Exec(sys, actions).Some? && sys.p.N() >= 2
    requires !Exec(sys, actions).value.mesh.server.gaveUp
    ensures Exec(sys, actions + more).Some? && AllHaveOutputs(sys, Exec(sys, actions + more).value)
  {
    hide Exec, Healthy, Indifferent, Matches, OutputOf, RN.Exec, M.Exec, Reached;
    var ma, ra := EveryRunMatches(sys, eq, actions);
    more := BringWholeToRest(sys, eq, actions, ma, ra);
    var c := Exec(sys, actions + more).value;
    WholeIsReached(sys, actions + more);
    RestMeansDone(sys, eq, c);
    forall i | 0 <= i < sys.p.N() ensures HasOutput(sys, c, i) {
      NothingGoesWrong(sys, eq, c, i);
    }
  }

  ghost predicate AllHaveOutputs<S, B, O>(sys: System<S, B, O>, c: Whole<S, B, O>)
    requires sys.p.WellFormed() && Sized(sys, c)
  {
    forall i :: 0 <= i < sys.p.N() ==> HasOutput(sys, c, i)
  }

  /** Some continuation of a run gives every party its lock-step output. */
  ghost predicate CanComplete<S, B, O>(sys: System<S, B, O>, actions: seq<M.Action>)
    requires sys.p.WellFormed()
  {
    exists more :: Exec(sys, actions + more).Some? && AllHaveOutputs(sys, Exec(sys, actions + more).value)
  }

  lemma {:induction false} GivenUpForGood<S, B, O>(sys: System<S, B, O>, actions: seq<M.Action>, more: seq<M.Action>)
    requires sys.p.WellFormed() && Exec(sys, actions + more).Some?
    ensures Exec(sys, actions).Some?
    ensures Exec(sys, actions).value.mesh.server.gaveUp ==> Exec(sys, actions + more).value.mesh.server.gaveUp
    decreases |more|
  {
    hide Act, Enabled;
    if more == [] {
      assert actions + more == actions;
    } else {
      var last := |more| - 1;
      assert (actions + more)[..|actions| + last] == actions + more[..last];
      GivenUpForGood(sys, actions, more[..last]);
      GaveUpAfter(sys, Exec(sys, actions + more[..last]).value, more[last]);
    }
  }

  lemma StartedOrNot<S, B, O>(sys: System<S, B, O>, c: Whole<S, B, O>)
    requires sys.p.WellFormed() && Sized(sys, c) && sys.p.N() > 0 && NobodyStarted(c)
    ensures !AllHaveOutputs(sys, c)
  {
    assert c.parties[0].outcome.Pending?;
    assert !HasOutput(sys, c, 0);
  }

  /** A run of session establishment and protocol can be completed exactly as long as no watcher has given up. */
  lemma RunCompletesIff<S(!new), B(!new), O>(sys: System<S, B, O>, eq: (S, S) -> bool, actions: seq<M.Action>)
    requires Sound(sys, eq) && Exec(sys, actions).Some? && sys.p.N() >= 2
    ensures CanComplete(sys, actions) <==> !Exec(sys, actions).value.mesh.server.gaveUp
  {
    hide Exec, Healthy, Indifferent, Reached, AllHaveOutputs, NobodyStarted;
    if !Exec(sys, actions).value.mesh.server.gaveUp {
      var more := EveryRunCanComplete(sys, eq, actions);
      assert Exec(sys, actions + more).Some?;
    } else if CanComplete(sys, actions) {
      var more :| Exec(sys, actions + more).Some? && AllHaveOutputs(sys, Exec(sys, actions + more).value);
      GivenUpForGood(sys, actions, more);
      WholeIsReached(sys, actions + more);
      GivingUpExcludesStarting(sys, eq, Exec(sys, actions + more).value);
      StartedOrNot(sys, Exec(sys, actions + more).value);
    }
  }
}
