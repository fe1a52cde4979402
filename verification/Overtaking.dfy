// Why the links must be first-in first-out: a run in which a message overtakes another hands a driver
// the second round before the first.
module Overtaking {
  import opened Basics
  import opened Rounds
  import opened Bridge
  import opened LockStep
  import opened RoundNetwork
  import opened RoundTheorems

  /** A link whose second message has overtaken its first. */
  function Overtaken<T>(q: seq<T>): seq<T>
    requires |q| >= 2
  {
    [q[1], q[0]] + q[2..]
  }

  /** What the invariant says of a party by how much it has received. */
  lemma Progress<S(!new), B(!new), O>(p: Protocol<S, B, O>, eq: (S, S) -> bool, net: Net<S, B, O>, i: nat, j: nat)
    requires Contract(p, eq) && NetInv(p, eq, net) && p.N() == 2 && i < 2 && j == 1 - i && p.rounds >= 2
    ensures |net[i].received| == 2 && |net[i].handed| == net[i].received[j]
    ensures |net[i].inbox| == 2 && net[i].inbox[j] == Flight(p, j, i, net[i].received[j], Sent(p, net[j]))
    ensures net[i].started && |net[i].handed| < p.rounds ==> Running(net[i]) && net[i].bridge.driver.Some?
    ensures forall r: RoundNumber :: net[i].bridge.buffer.Batch(r) == []
    ensures net[i].bridge.buffer.expected == FixedRounds(p.rounds, 1)
  {
    hide Healthy, Indifferent, TurnOf, OnWire, Row, Gather, Flight, BatchInv;
    assert NodeInv(p, eq, i, net[i]) && LinkInv(p, j, Sent(p, net[j]), i, net[i]);
    var nd := net[i];
    assert AllReceived(nd.received, i, nd.received[j]);
    forall r: RoundNumber ensures nd.bridge.buffer.Batch(r) == [] {
      if nd.bridge.buffer.Batch(r) != [] {
        BufferedRounds(p, eq, net, i, r);
      }
    }
  }

  /** Both parties have started and the second has taken the first's opening message. */
  function Opening(): seq<Action> {
    [StartParty(0), StartParty(1), Deliver(0, 1)]
  }

  lemma OpeningRuns<S(!new), B(!new), O>(p: Protocol<S, B, O>, eq: (S, S) -> bool)
    requires Contract(p, eq) && p.N() == 2 && p.rounds >= 2
    ensures Exec(p, Opening()).Some?
    ensures var net := Exec(p, Opening()).value;
            NetInv(p, eq, net) && net[0].started && net[1].started && net[0].received == [0, 0]
            && net[1].received == [1, 0]
  {
    hide Healthy, Indifferent, Apply, NetInv;
    var a := Opening();
    assert a[..2][..1] == [StartParty(0)] && a[..2] == [StartParty(0), StartParty(1)] && a[..1][..0] == [];
    var net0 := Initial(p);
    InitialInv(p, eq);
    assert Exec(p, []) == Some(net0);
    var net1 := Apply(p, net0, a[0]);
    assert Exec(p, a[..1]) == Some(net1);
    StartStep(p, eq, net0, 0);
    var net2 := Apply(p, net1, a[1]);
    assert a[..2][..1] == a[..1];
    assert Exec(p, a[..2]) == Some(net2);
    StartStep(p, eq, net1, 1);
    Progress(p, eq, net2, 1, 0);
    Progress(p, eq, net2, 0, 1);
    WireCarriesOne(p, 1, 0, 1);
    OneOnTheWay(p, net2);
    var net3 := Apply(p, net2, a[2]);
    assert Exec(p, a) == Some(net3);
    ApplyKeeps(p, eq, net2, a[2]);
    forall k: nat | k < 2 ensures net3[k].received == (if k == 1 then [1, 0] else [0, 0]) && net3[k].started {
      ApplyReceived(p, net2, a[2], k);
      ApplyStarted(p, net2, a[2], k);
    }
  }

  lemma OneOnTheWay<S, B, O>(p: Protocol<S, B, O>, net: Net<S, B, O>)
    requires p.WellFormed() && p.N() == 2 && |net| == 2 && p.rounds >= 2 && net[0].started && net[0].handed == []
    requires |OnWire(p, 1, 0, 1)| == 1
    ensures Flight(p, 0, 1, 0, Sent(p, net[0])) != []
  {
    hide OnWire;
    assert Flight(p, 0, 1, 0, 1) == Flight(p, 0, 1, 0, 0) + OnWire(p, 1, 0, 1);
  }

  lemma StartStep<S(!new), B(!new), O>(p: Protocol<S, B, O>, eq: (S, S) -> bool, net: Net<S, B, O>, i: nat)
    requires Contract(p, eq) && NetInv(p, eq, net) && p.N() == 2 && i < 2
    requires forall k: nat :: k < 2 ==> net[k].received == [0, 0] && net[k].started == (k < i)
    ensures Enabled(p, net, StartParty(i))
    ensures var net' := Apply(p, net, StartParty(i));
            && NetInv(p, eq, net')
            && forall k: nat :: k < 2 ==> net'[k].received == [0, 0] && net'[k].started == (k <= i)
  {
    hide Healthy, Indifferent, Apply, NodeInv, LinkInv;
    ApplyKeeps(p, eq, net, StartParty(i));
    forall k: nat | k < 2
      ensures Apply(p, net, StartParty(i))[k].received == [0, 0] && Apply(p, net, StartParty(i))[k].started == (k <= i)
    {
      ApplyReceived(p, net, StartParty(i), k);
      ApplyStarted(p, net, StartParty(i), k);
    }
  }

  /**
   * Any protocol of two parties and several rounds reaches a state with the peer's first two messages on
   * one link and nothing handed over. Taken in order the first comes first; should the second overtake
   * it, the driver is handed the second round and nothing of the first.
   */
  lemma OvertakingSkipsARound<S(!new), B(!new), O>(p: Protocol<S, B, O>, eq: (S, S) -> bool) returns (net: Net<S, B, O>)
    requires Contract(p, eq) && p.N() == 2 && p.rounds >= 2
    ensures Reached(p, net) && |net| == 2 && net[0].handed == [] && |net[0].inbox| == |net[0].received| == 2
    ensures |net[0].inbox[1]| == 2 && net[0].inbox[1][0].round == 1 && net[0].inbox[1][1].round == 2
    ensures Take(p, 0, net[0], 1).0.handed == [[net[0].inbox[1][0].ToMsg()]]
    ensures var link := net[0].inbox[1 := Overtaken(net[0].inbox[1])];
            Take(p, 0, net[0].(inbox := link), 1).0.handed == [[net[0].inbox[1][1].ToMsg()]]
  {
    hide Healthy, Indifferent, Exec, Advance, NetInv, TurnOf;
    OpeningRuns(p, eq);
    net := Exec(p, Opening()).value;
    assert Reached(p, net);
    Progress(p, eq, net, 0, 1);
    Progress(p, eq, net, 1, 0);
    TwoOnTheWay(p, net);
    var nd, q := net[0], net[0].inbox[1];
    FirstFullRoundIsHandedOver(p.driver, p.session, p.KeyOf(0), nd.bridge, p.rounds, q[0]);
    FirstFullRoundIsHandedOver(p.driver, p.session, p.KeyOf(0), nd.bridge, p.rounds, q[1]);
  }

  lemma TwoOnTheWay<S(!new), B(!new), O>(p: Protocol<S, B, O>, net: Net<S, B, O>)
    requires p.WellFormed() && Healthy(p) && p.N() == 2 && |net| == 2 && p.rounds >= 2
    requires net[1].started && |net[1].handed| == 1
    ensures var q := Flight(p, 1, 0, 0, Sent(p, net[1])); |q| == 2 && q[0].round == 1 && q[1].round == 2
  {
    hide OnWire, Healthy;
    WireCarriesOne(p, 1, 1, 0);
    WireCarriesOne(p, 2, 1, 0);
    var a, b := OnWire(p, 1, 1, 0), OnWire(p, 2, 1, 0);
    assert Flight(p, 1, 0, 0, 0) == [];
    assert Flight(p, 1, 0, 0, 1) == [] + a;
    assert Flight(p, 1, 0, 0, 2) == Flight(p, 1, 0, 0, 1) + b;
    assert a[0] in a && b[0] in b;
  }
}
