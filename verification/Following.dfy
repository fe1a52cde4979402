// What waiting for a driver comes to: a bridge that is given the messages a party gets in a run of the
// network, in the order it gets them there, ends up where that party ends up.
module Following {
  import opened Basics
  import opened Sessions
  import opened Bridge
  import opened LockStep
  import opened RoundNetwork
  import RT = RoundTheorems

  /** The messages that party i takes in a run, as its client's event stream. */
  function ArrivalsAt<S, B, O>(p: Protocol<S, B, O>, actions: seq<Action>, i: nat): seq<Arrival<B>>
    requires p.WellFormed() && Exec(p, actions).Some?
  {
    if actions == [] then []
    else
      var last := |actions| - 1;
      var before, a := Exec(p, actions[..last]).value, actions[last];
      ArrivalsAt(p, actions[..last], i)
      + if a.Deliver? && a.i == i
        then [Arrival(Ok(JsonMessage(Some(p.session.id), Some(before[i].inbox[a.j][0]))), {})] else []
  }

  /** What the bridge of party i does at its start. */
  function FirstStep<S, B, O>(p: Protocol<S, B, O>, i: nat): Step<S, B, O>
    requires p.WellFormed() && i < p.N()
  {
    Transmit(Start(p.driver, p.session, p.KeyOf(i), InitialNode(p, i).bridge), {})
  }

  lemma AllReachable<S, B, O>(step: Step<S, B, O>)
    ensures Transmit(step, {}) == step
  {}

  /** A party that has not started is as it was. */
  lemma {:induction false} NotStarted<S, B, O>(p: Protocol<S, B, O>, actions: seq<Action>, i: nat)
    requires p.WellFormed() && Exec(p, actions).Some? && i < p.N() && !Exec(p, actions).value[i].started
    ensures ArrivalsAt(p, actions, i) == []
    ensures var nd := Exec(p, actions).value[i];
            nd.bridge == InitialNode(p, i).bridge && nd.outcome == InitialNode(p, i).outcome
  {
    if actions != [] {
      hide Launch, Take, SentTo;
      NotStarted(p, actions[..|actions| - 1], i);
    }
  }

  /** A trace over one arrival more is one over the arrivals before, and perhaps one step. */
  lemma TraceBefore<S, B, O>(d: Driver<S, B, O>, session: SessionState, own: Key, first: Step<S, B, O>,
                             arrivals: seq<Arrival<B>>, a: Arrival<B>, trace: seq<Step<S, B, O>>)
    requires IsTrace(d, session, own, first, arrivals + [a], trace)
    ensures var last := trace[|trace| - 1];
            if |trace| <= |arrivals| + 1 then IsTrace(d, session, own, first, arrivals, trace) && !last.outcome.Pending?
            else
              var before := trace[..|trace| - 1];
              && IsTrace(d, session, own, first, arrivals, before)
              && last == AfterArrival(d, session, own, before[|before| - 1], a)
  {
    hide AfterArrival;
    assert forall i :: 0 <= i < |arrivals| ==> (arrivals + [a])[i] == arrivals[i];
  }

  /** Posting changes nothing but inboxes. */
  lemma PostKeepsBridge<S, B, O>(p: Protocol<S, B, O>, net: Net<S, B, O>, from: nat, sends: seq<Send<B>>, k: nat)
    requires p.WellFormed() && k < |net| == p.N()
    ensures var nd := Post(p, net, from, sends)[k];
            nd.bridge == net[k].bridge && nd.outcome == net[k].outcome && nd.started == net[k].started
  {
    hide SentTo;
  }

  /** What a step of the network does to one party. */
  lemma StepAt<S, B, O>(p: Protocol<S, B, O>, net: Net<S, B, O>, a: Action, i: nat)
    requires p.WellFormed() && i < |net| == p.N() && Enabled(p, net, a)
    ensures var nd := Apply(p, net, a)[i];
            match a
            case StartParty(k) =>
              if k == i then nd.bridge == Launch(p, i, net[i]).0.bridge && nd.outcome == Launch(p, i, net[i]).0.outcome
              else nd.bridge == net[i].bridge && nd.outcome == net[i].outcome && nd.started == net[i].started
            case Deliver(j, k) =>
              if k == i then nd.bridge == Take(p, i, net[i], j).0.bridge
              && nd.outcome == Take(p, i, net[i], j).0.outcome
              else nd.bridge == net[i].bridge && nd.outcome == net[i].outcome && nd.started == net[i].started
  {
    hide Post, Launch, Take;
    match a
    case StartParty(k) =>
      var (nd, sends) := Launch(p, k, net[k]);
      PostKeepsBridge(p, net[k := nd], k, sends, i);
    case Deliver(j, k) =>
      var (nd, sends) := Take(p, k, net[k], j);
      PostKeepsBridge(p, net[k := nd], k, sends, i);
  }

  ghost predicate EndsLike<S, B, O>(step: Step<S, B, O>, nd: Node<S, B, O>) {
    step.state == nd.bridge && step.outcome == nd.outcome
  }

  /** Taking a message is what the next arrival makes of the bridge. */
  lemma TakeFollows<S, B, O>(p: Protocol<S, B, O>, net: Net<S, B, O>, j: nat, i: nat, step: Step<S, B, O>)
    requires p.WellFormed() && i < |net| == p.N() && Enabled(p, net, Deliver(j, i)) && EndsLike(step, net[i])
    ensures var a := Arrival(Ok(JsonMessage(Some(p.session.id), Some(net[i].inbox[j][0]))), {});
            EndsLike(AfterArrival(p.driver, p.session, p.KeyOf(i), step, a), Take(p, i, net[i], j).0)
  {
    hide Handle;
    var event := JsonMessage(Some(p.session.id), Some(net[i].inbox[j][0]));
    AllReachable(Handle(p.driver, p.session, p.KeyOf(i), net[i].bridge, event));
  }

  lemma LaunchFollows<S, B, O>(p: Protocol<S, B, O>, nd: Node<S, B, O>, i: nat)
    requires p.WellFormed() && i < p.N() && nd.bridge == InitialNode(p, i).bridge
    ensures EndsLike(FirstStep(p, i), Launch(p, i, nd).0)
  {
    hide Start;
    AllReachable(Start(p.driver, p.session, p.KeyOf(i), nd.bridge));
  }

  /** Whatever handles these arrivals after its start ends like this node. */
  ghost predicate AllEndLike<S(!new), B(!new), O(!new)>(p: Protocol<S, B, O>, i: nat, arrivals: seq<Arrival<B>>,
                                                        nd: Node<S, B, O>)
    requires p.WellFormed() && i < p.N()
  {
    forall trace :: IsTrace(p.driver, p.session, p.KeyOf(i), FirstStep(p, i), arrivals, trace) ==> EndLike(trace, nd)
  }

  ghost predicate EndLike<S, B, O>(trace: seq<Step<S, B, O>>, nd: Node<S, B, O>) {
    trace != [] && EndsLike(trace[|trace| - 1], nd)
  }

  lemma AfterStart<S(!new), B(!new), O(!new)>(p: Protocol<S, B, O>, i: nat, nd: Node<S, B, O>, nd': Node<S, B, O>)
    requires p.WellFormed() && i < p.N() && nd.bridge == InitialNode(p, i).bridge
    requires nd'.bridge == Launch(p, i, nd).0.bridge && nd'.outcome == Launch(p, i, nd).0.outcome
    ensures AllEndLike(p, i, [], nd')
  {
    hide FirstStep, Launch, AfterArrival;
    LaunchFollows(p, nd, i);
  }

  lemma AfterDelivery<S(!new), B(!new), O(!new)>(p: Protocol<S, B, O>, net: Net<S, B, O>, j: nat, i: nat,
                                                 arrivals: seq<Arrival<B>>,
                               nd': Node<S, B, O>)
    requires p.WellFormed() && i < |net| == p.N() && Enabled(p, net, Deliver(j, i))
             && AllEndLike(p, i, arrivals, net[i])
    requires nd'.bridge == Take(p, i, net[i], j).0.bridge && nd'.outcome == Take(p, i, net[i], j).0.outcome
    ensures AllEndLike(p, i, arrivals + [Arrival(Ok(JsonMessage(Some(p.session.id), Some(net[i].inbox[j][0]))), {})],
                       nd')
  {
    var d, session, own, first := p.driver, p.session, p.KeyOf(i), FirstStep(p, i);
    var a := Arrival(Ok(JsonMessage(Some(session.id), Some(net[i].inbox[j][0]))), {});
    hide IsTrace, FirstStep, Take, AfterArrival, EndsLike;
    forall trace | IsTrace(d, session, own, first, arrivals + [a], trace) ensures EndLike(trace, nd') {
      TraceBefore(d, session, own, first, arrivals, a, trace);
      TraceIsSome(d, session, own, first, arrivals + [a], trace);
      if |trace| <= |arrivals| + 1 {
        assert EndLike(trace, net[i]);
        PendingEnd(trace[|trace| - 1], net[i]);
      } else {
        var prefix := trace[..|trace| - 1];
        assert EndLike(prefix, net[i]);
        TakeFollows(p, net, j, i, prefix[|prefix| - 1]);
        SameEnd(trace[|trace| - 1], Take(p, i, net[i], j).0, nd');
      }
    }
  }

  lemma Elsewhere<S(!new), B(!new), O(!new)>(p: Protocol<S, B, O>, i: nat, arrivals: seq<Arrival<B>>,
                                             nd: Node<S, B, O>, nd': Node<S, B, O>)
    requires p.WellFormed() && i < p.N() && AllEndLike(p, i, arrivals, nd)
    requires nd'.bridge == nd.bridge && nd'.outcome == nd.outcome
    ensures AllEndLike(p, i, arrivals, nd')
  {
    hide IsTrace, FirstStep;
  }

  /**
   * A bridge that starts and is then given, one after the other, the messages its party takes in a run of
   * the network is in that party's state at the end, and tells its caller what came of it.
   */
  lemma {:induction false} RunIsFollowed<S(!new), B(!new), O(!new)>(p: Protocol<S, B, O>, actions: seq<Action>, i: nat)
    requires p.WellFormed() && Exec(p, actions).Some? && i < p.N() && Exec(p, actions).value[i].started
    ensures AllEndLike(p, i, ArrivalsAt(p, actions, i), Exec(p, actions).value[i])
    decreases |actions|
  {
    if actions != [] {
      hide Apply, AllEndLike, Launch, Take;
      var before, a := actions[..|actions| - 1], actions[|actions| - 1];
      var net := Exec(p, before).value;
      StepAt(p, net, a, i);
      if a == StartParty(i) {
        NotStarted(p, before, i);
        AfterStart(p, i, net[i], Apply(p, net, a)[i]);
      } else if a.Deliver? && a.i == i {
        RunIsFollowed(p, before, i);
        AfterDelivery(p, net, a.j, i, ArrivalsAt(p, before, i), Apply(p, net, a)[i]);
      } else {
        assert ArrivalsAt(p, actions, i) == ArrivalsAt(p, before, i);
        RunIsFollowed(p, before, i);
        Elsewhere(p, i, ArrivalsAt(p, before, i), net[i], Apply(p, net, a)[i]);
      }
    }
  }

  lemma TraceIsSome<S, B, O>(d: Driver<S, B, O>, session: SessionState, own: Key, first: Step<S, B, O>,
                             arrivals: seq<Arrival<B>>, trace: seq<Step<S, B, O>>)
    requires IsTrace(d, session, own, first, arrivals, trace)
    ensures trace != []
  {}

  lemma SameEnd<S, B, O>(step: Step<S, B, O>, nd: Node<S, B, O>, nd': Node<S, B, O>)
    requires EndsLike(step, nd) && nd'.bridge == nd.bridge && nd'.outcome == nd.outcome
    ensures EndsLike(step, nd')
  {}

  lemma PendingEnd<S, B, O>(step: Step<S, B, O>, nd: Node<S, B, O>)
    requires EndsLike(step, nd)
    ensures step.outcome == nd.outcome
  {}

  /** So once its party is complete in the network, waiting ends with the lock-step output. */
  lemma WaitingEndsInLockStep<S(!new), B(!new), O(!new)>(p: Protocol<S, B, O>, eq: (S, S) -> bool,
                                                         actions: seq<Action>, i: nat,
                                                   trace: seq<Step<S, B, O>>)
    requires Contract(p, eq) && Exec(p, actions).Some? && i < p.N() && Exec(p, actions).value[i].outcome.Complete?
    requires IsTrace(p.driver, p.session, p.KeyOf(i), FirstStep(p, i), ArrivalsAt(p, actions, i), trace)
    ensures trace != [] && OutputOf(p, i).Ok? && trace[|trace| - 1].outcome == Complete(OutputOf(p, i).value)
  {
    hide Exec, Healthy, Indifferent, OutputOf, IsTrace, FirstStep, RT.BatchOfRound, Mirrors, NetInv;
    var net := Exec(p, actions).value;
    CompleteHasStarted(p, eq, actions, i);
    RunIsFollowed(p, actions, i);
    assert EndLike(trace, net[i]);
    assert Reached(p, net);
    RT.RunMirrorsLockStep(p, eq, net, i);
  }

  lemma CompleteHasStarted<S(!new), B(!new), O>(p: Protocol<S, B, O>, eq: (S, S) -> bool, actions: seq<Action>, i: nat)
    requires Contract(p, eq) && Exec(p, actions).Some? && i < p.N() && Exec(p, actions).value[i].outcome.Complete?
    ensures Exec(p, actions).value[i].started && OutputOf(p, i).Ok?
  {
    hide Exec, Healthy, Indifferent, OutputOf, BufferInv, HandedInv;
    EveryRunKeepsInv(p, eq, actions);
    assert NodeInv(p, eq, i, Exec(p, actions).value[i]);
  }
}
