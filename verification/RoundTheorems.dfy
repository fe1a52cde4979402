// What holds of every run of the round engine.
module RoundTheorems {
  import opened Basics
  import opened Rounds
  import opened Bridge
  import opened LockStep
  import opened RoundNetwork

  /** A batch of round r for party i: the lock-step messages in some order, one from each other party. */
  ghost predicate BatchOfRound<S, B, O>(p: Protocol<S, B, O>, i: nat, batch: seq<Msg<B>>, r: nat)
    requires p.WellFormed() && i < p.N() && r > 0
  {
    && multiset(batch) == multiset(Inbox(p, r, i))
    && |batch| == p.N() - 1
    && forall j :: 0 <= j < p.N() && j != i ==> OneFrom(batch, j)
  }

  ghost predicate OneFrom<B>(batch: seq<Msg<B>>, j: nat) {
    exists a :: 0 <= a < |batch| && batch[a].sender == j + 1
  }

  lemma {:induction false} GatherHasEach<B>(row: seq<seq<Msg<B>>>, i: nat, j: nat, m: nat)
    requires j < m <= |row| && SingleRow(row, i) && j != i
    ensures OneFrom(Gather(row, m), j)
    ensures |Gather(row, m)| == OthersBelow(i, m)
    decreases m
  {
    var before, last := Gather(row, m - 1), row[m - 1];
    assert SingleFrom(last, i, m - 1);
    if m - 1 == j {
      GatherSize(row, i, m - 1);
      assert (before + last)[|before|] == last[0];
    } else {
      GatherHasEach(row, i, j, m - 1);
      var a :| 0 <= a < |before| && before[a].sender == j + 1;
      assert (before + last)[a] == before[a];
    }
  }

  lemma {:induction false} GatherSize<B>(row: seq<seq<Msg<B>>>, i: nat, m: nat)
    requires m <= |row| && SingleRow(row, i)
    ensures |Gather(row, m)| == OthersBelow(i, m)
  {
    if m > 0 {
      GatherSize(row, i, m - 1);
      assert SingleFrom(row[m - 1], i, m - 1);
    }
  }

  lemma PermutedBatch<S(!new), B(!new), O>(p: Protocol<S, B, O>, i: nat, batch: seq<Msg<B>>, r: nat)
    requires p.WellFormed() && Healthy(p) && i < p.N() && 1 <= r <= p.rounds
    requires multiset(batch) == multiset(Inbox(p, r, i))
    ensures BatchOfRound(p, i, batch, r)
  {
    var row, inbox := Row(p, r, i), Inbox(p, r, i);
    RowIsSingle(p, r, i);
    GatherSize(row, i, p.N());
    assert |multiset(batch)| == |batch| && |multiset(inbox)| == |inbox|;
    forall j | 0 <= j < p.N() && j != i
      ensures OneFrom(batch, j)
    {
      GatherHasEach(row, i, j, p.N());
      var a :| 0 <= a < |inbox| && inbox[a].sender == j + 1;
      assert inbox[a] in multiset(batch);
    }
  }

  /**
   * In every run a driver is handed the rounds in order, each complete, its state is the one the
   * lock-step execution gives it, and it never fails.
   */
  lemma RunMirrorsLockStep<S(!new), B(!new), O>(p: Protocol<S, B, O>, eq: (S, S) -> bool, net: Net<S, B, O>, i: nat)
    requires Contract(p, eq) && Reached(p, net) && i < p.N()
    ensures |net| == p.N()
    ensures var nd := net[i];
            && |nd.handed| <= p.rounds
            && (forall r :: 0 <= r < |nd.handed| ==> BatchOfRound(p, i, nd.handed[r], r + 1))
            && (nd.started ==> Mirrors(p, eq, i, |nd.handed|, nd.bridge.driver, nd.outcome))
            && !nd.outcome.Failed?
            && (nd.outcome.Complete? ==> Ok(nd.outcome.output) == OutputOf(p, i))
  {
    hide Healthy, Indifferent, TurnOf, OnWire, Row, Gather, Inbox, BatchOfRound, Reached, OutputOf;
    ReachedInv(p, eq, net);
    var nd := net[i];
    assert NodeInv(p, eq, i, nd);
    HandedBatches(p, i, nd.handed);
  }

  lemma HandedBatches<S(!new), B(!new), O>(p: Protocol<S, B, O>, i: nat, handed: seq<seq<Msg<B>>>)
    requires p.WellFormed() && Healthy(p) && i < p.N() && |handed| <= p.rounds && HandedInv(p, i, handed)
    ensures forall r :: 0 <= r < |handed| ==> BatchOfRound(p, i, handed[r], r + 1)
  {
    hide Healthy, TurnOf, OnWire, Row, Gather, BatchOfRound, Inbox;
    forall r | 0 <= r < |handed|
      ensures BatchOfRound(p, i, handed[r], r + 1)
    {
      PermutedBatch(p, i, handed[r], r + 1);
    }
  }

  /** Neither a party's output nor what it is handed in a round depends on the interleaving. */
  lemma InterleavingDoesNotMatter<S(!new), B(!new), O>(p: Protocol<S, B, O>, eq: (S, S) -> bool, a: Net<S, B, O>,
                                                       b: Net<S, B, O>, i: nat)
    requires Contract(p, eq) && Reached(p, a) && Reached(p, b) && i < p.N() == |a| == |b|
    ensures var x, y := a[i], b[i];
            && (x.outcome.Complete? && y.outcome.Complete? ==> x.outcome == y.outcome)
            && (forall r :: 0 <= r < |x.handed| && r < |y.handed| ==> multiset(x.handed[r]) == multiset(y.handed[r]))
  {
    hide Healthy, Indifferent, TurnOf, OnWire, Row, Gather, Reached, Mirrors, OutputOf;
    RunMirrorsLockStep(p, eq, a, i);
    RunMirrorsLockStep(p, eq, b, i);
    var x, y := a[i], b[i];
    forall r | 0 <= r < |x.handed| && r < |y.handed|
      ensures multiset(x.handed[r]) == multiset(y.handed[r])
    {
      assert BatchOfRound(p, i, x.handed[r], r + 1) && BatchOfRound(p, i, y.handed[r], r + 1);
    }
  }

  lemma ReceivedBounds<S(!new), B(!new), O>(p: Protocol<S, B, O>, eq: (S, S) -> bool, net: Net<S, B, O>, i: nat, j: nat)
    requires p.WellFormed() && NetInv(p, eq, net) && i < p.N() && j < p.N() && i != j
    ensures |net[i].handed| <= net[i].received[j] <= Sent(p, net[j]) <= |net[j].handed| + 1
    ensures Sent(p, net[j]) <= p.rounds
  {
    hide TurnOf, OnWire, Row, Gather, Arrived;
    assert NodeInv(p, eq, i, net[i]);
    assert LinkInv(p, j, Sent(p, net[j]), i, net[i]);
    assert NodeInv(p, eq, j, net[j]);
  }

  /**
   * Lock step: no two parties are more than one round apart, a buffer holds messages only of the
   * round being collected and the one after it, never as many as complete a round, so the test
   * `count == expected` is never passed over.
   */
  lemma NeverMoreThanOneRoundApart<S(!new), B(!new), O>(p: Protocol<S, B, O>, eq: (S, S) -> bool, net: Net<S, B, O>,
                                                        i: nat, j: nat)
    requires Contract(p, eq) && Reached(p, net) && i < p.N() == |net| && j < p.N()
    ensures && |net[i].handed| <= |net[j].handed| + 1
            && forall r: RoundNumber :: net[i].bridge.buffer.Batch(r) != [] ==>
                 |net[i].handed| < r <= |net[i].handed| + 2 && |net[i].bridge.buffer.Batch(r)| < p.N() - 1
  {
    hide Healthy, Indifferent, TurnOf, OnWire, Row, Gather, Reached, Mirrors, OutputOf;
    ReachedInv(p, eq, net);
    if i != j {
      ReceivedBounds(p, eq, net, i, j);
    }
    forall r: RoundNumber | net[i].bridge.buffer.Batch(r) != []
      ensures |net[i].handed| < r <= |net[i].handed| + 2 && |net[i].bridge.buffer.Batch(r)| < p.N() - 1
    {
      BufferedRounds(p, eq, net, i, r);
    }
  }

  lemma BufferedRounds<S(!new), B(!new), O>(p: Protocol<S, B, O>, eq: (S, S) -> bool, net: Net<S, B, O>, i: nat,
                                            r: RoundNumber)
    requires Contract(p, eq) && NetInv(p, eq, net) && i < p.N() && net[i].bridge.buffer.Batch(r) != []
    ensures |net[i].handed| < r <= |net[i].handed| + 2 && |net[i].bridge.buffer.Batch(r)| < p.N() - 1
  {
    hide Healthy, Indifferent, TurnOf, OnWire, Gather, Mirrors;
    var nd := net[i];
    var k := |nd.handed|;
    assert NodeInv(p, eq, i, nd);
    var row := Row(p, r, i);
    var arrived := Arrived(row, r, nd.received, p.N());
    RowIsSingle(p, r, i);
    assert BatchInv(p, i, nd.bridge.buffer, nd.received, r);
    assert |multiset(nd.bridge.buffer.Batch(r))| == |nd.bridge.buffer.Batch(r)| && |multiset(arrived)| == |arrived|;
    ArrivedBound(row, r, i, nd.received, p.N());
    ArrivedSome(row, r, nd.received, p.N());
    var j :| 0 <= j < p.N() && nd.received[j] >= r;
    ReceivedBounds(p, eq, net, i, j);
    // some party is a whole round behind, and no party is more than one round ahead of it
    var late :| 0 <= late < |nd.received| && late != i && nd.received[late] < k + 1;
    ReceivedBounds(p, eq, net, j, i);
    ArrivedShort(row, r, i, nd.received, late, p.N());
  }

  lemma {:induction false} ArrivedSome<T>(row: seq<seq<T>>, r: nat, received: seq<nat>, m: nat)
    requires m <= |row| == |received| && Arrived(row, r, received, m) != []
    ensures exists j :: 0 <= j < m && received[j] >= r
  {
    if received[m - 1] < r {
      assert Arrived(row, r, received, m) == Arrived(row, r, received, m - 1);
      ArrivedSome(row, r, received, m - 1);
    }
  }

  // ---------------------------------------------------------------------------
  // Progress and termination.

  ghost predicate AllComplete<S, B, O>(net: Net<S, B, O>) {
    forall i :: 0 <= i < |net| ==> net[i].outcome.Complete?
  }

  ghost predicate Quiescent<S, B, O>(p: Protocol<S, B, O>, net: Net<S, B, O>) {
    forall a :: !Enabled(p, net, a)
  }

  /** The party furthest behind. */
  lemma {:induction false} SlowestParty<S, B, O>(net: Net<S, B, O>) returns (i: nat)
    requires net != []
    ensures i < |net| && forall j :: 0 <= j < |net| ==> |net[i].handed| <= |net[j].handed|
  {
    if |net| == 1 {
      i := 0;
    } else {
      i := SlowestParty(net[1..]);
      i := i + 1;
      if |net[0].handed| < |net[i].handed| {
        forall j | 0 <= j < |net|
          ensures |net[0].handed| <= |net[j].handed|
        {
          if j > 0 {
            assert net[j] == net[1..][j - 1];
          }
        }
        i := 0;
      } else {
        forall j | 0 <= j < |net|
          ensures |net[i].handed| <= |net[j].handed|
        {
          if j > 0 {
            assert net[j] == net[1..][j - 1];
          }
        }
      }
    }
  }

  /** While some party is unfinished the slowest one can start or take a message. */
  lemma SlowestCanMove<S(!new), B(!new), O>(p: Protocol<S, B, O>, eq: (S, S) -> bool, net: Net<S, B, O>, i: nat)
    returns (a: Action)
    requires Contract(p, eq) && NetInv(p, eq, net) && p.N() >= 2 && i < p.N()
    requires forall j :: 0 <= j < |net| ==> |net[i].handed| <= |net[j].handed|
    requires |net[i].handed| < p.rounds
    ensures Enabled(p, net, a)
  {
    hide Healthy, Indifferent, TurnOf, OnWire, Row, Gather, Arrived, OutputOf;
    assert NodeInv(p, eq, i, net[i]);
    var j :| 0 <= j < p.N() && j != i && net[i].received[j] < |net[i].handed| + 1;
    assert NodeInv(p, eq, j, net[j]);
    if !net[i].started {
      a := StartParty(i);
    } else if !net[j].started {
      a := StartParty(j);
    } else {
      a := Deliver(j, i);
      assert LinkInv(p, j, Sent(p, net[j]), i, net[i]);
      FlightNotEmpty(p, j, i, net[i].received[j], Sent(p, net[j]));
    }
  }

  lemma FlightNotEmpty<S(!new), B(!new), O>(p: Protocol<S, B, O>, j: nat, i: nat, lo: nat, hi: nat)
    requires p.WellFormed() && Healthy(p) && i < p.N() && j < p.N() && i != j && lo < hi <= p.rounds
    ensures Flight(p, j, i, lo, hi) != []
  {
    WireCarriesOne(p, hi, j, i);
  }

  /** With two or more parties a run can only come to rest once every party has its output. */
  lemma RestMeansComplete<S(!new), B(!new), O>(p: Protocol<S, B, O>, eq: (S, S) -> bool, net: Net<S, B, O>)
    requires Contract(p, eq) && Reached(p, net) && p.N() >= 2
    ensures Quiescent(p, net) <==> AllComplete(net)
  {
    hide Healthy, Indifferent, TurnOf, OnWire, Row, Gather, Arrived, OutputOf, Reached;
    ReachedInv(p, eq, net);
    var i := SlowestParty(net);
    if |net[i].handed| < p.rounds {
      var a := SlowestCanMove(p, eq, net, i);
      assert NodeInv(p, eq, i, net[i]);
      assert !net[i].outcome.Complete?;
    } else {
      forall j | 0 <= j < p.N()
        ensures net[j].started && net[j].outcome.Complete?
      {
        assert NodeInv(p, eq, j, net[j]);
      }
    }
  }

  /** A party alone in its session starts, waits for nothing and never finishes. */
  lemma AloneNeverCompletes<S(!new), B(!new), O>(p: Protocol<S, B, O>, eq: (S, S) -> bool, actions: seq<Action>)
    requires Contract(p, eq) && Exec(p, actions).Some? && p.N() == 1
    ensures !Exec(p, actions).value[0].outcome.Complete?
    ensures |actions| <= 1
  {
    if actions != [] {
      var last := |actions| - 1;
      AloneNeverCompletes(p, eq, actions[..last]);
      EveryRunKeepsInv(p, eq, actions[..last]);
      EveryRunKeepsInv(p, eq, actions);
      AloneStep(p, eq, actions);
    }
  }

  lemma AloneStep<S(!new), B(!new), O>(p: Protocol<S, B, O>, eq: (S, S) -> bool, actions: seq<Action>)
    requires Contract(p, eq) && Exec(p, actions).Some? && p.N() == 1 && actions != []
    requires |actions| <= 2
    ensures |actions| == 1 && actions[0] == StartParty(0) && !Exec(p, actions).value[0].outcome.Complete?
  {
    hide Healthy, Indifferent, TurnOf, OnWire, Row, Gather, Arrived, OutputOf;
    var first := actions[..1];
    assert first[..0] == [];
    assert Exec(p, []) == Some(Initial(p));
    if |actions| == 1 {
      assert actions == first;
    } else {
      assert actions[..1] == first;
    }
    assert Exec(p, first).Some?;
    EveryRunKeepsInv(p, eq, first);
    var net := Exec(p, first).value;
    assert NodeInv(p, eq, 0, net[0]) && LinkInv(p, 0, Sent(p, net[0]), 0, net[0]);
    assert Enabled(p, Initial(p), first[0]);
    assert first[0] == StartParty(0);
    assert net[0].handed == [];
  }

  function Sum(s: seq<nat>): nat {
    if s == [] then 0 else Sum(s[..|s| - 1]) + s[|s| - 1]
  }

  lemma {:induction false} SumUpdate(s: seq<nat>, k: nat, x: nat)
    requires k < |s|
    ensures Sum(s[k := x]) + s[k] == Sum(s) + x
  {
    var last := |s| - 1;
    if k == last {
      assert s[k := x][..last] == s[..last];
    } else {
      SumUpdate(s[..last], k, x);
      assert s[k := x][..last] == s[..last][k := x];
    }
  }

  function Deliveries<S, B, O>(net: Net<S, B, O>): nat {
    if net == [] then 0 else Deliveries(net[..|net| - 1]) + Sum(net[|net| - 1].received)
  }

  function CountDeliveries(actions: seq<Action>): nat {
    if actions == [] then 0
    else CountDeliveries(actions[..|actions| - 1]) + if actions[|actions| - 1].Deliver? then 1 else 0
  }

  lemma {:induction false} DeliveriesCongruent<S, B, O>(a: Net<S, B, O>, b: Net<S, B, O>)
    requires |a| == |b| && forall k :: 0 <= k < |a| ==> a[k].received == b[k].received
    ensures Deliveries(a) == Deliveries(b)
  {
    if a != [] {
      DeliveriesCongruent(a[..|a| - 1], b[..|b| - 1]);
    }
  }

  lemma {:induction false} DeliveriesUpdate<S, B, O>(a: Net<S, B, O>, b: Net<S, B, O>, i: nat, j: nat)
    requires |a| == |b| && i < |a| && j < |a[i].received|
    requires forall k :: 0 <= k < |a| && k != i ==> a[k].received == b[k].received
    requires b[i].received == a[i].received[j := a[i].received[j] + 1]
    ensures Deliveries(b) == Deliveries(a) + 1
  {
    var last := |a| - 1;
    if i == last {
      DeliveriesCongruent(a[..last], b[..last]);
      SumUpdate(a[i].received, j, a[i].received[j] + 1);
    } else {
      DeliveriesUpdate(a[..last], b[..last], i, j);
    }
  }

  lemma {:induction false} InitialDeliveries<S, B, O>(p: Protocol<S, B, O>, m: nat)
    requires m <= p.N()
    ensures Deliveries(Initial(p)[..m]) == 0
  {
    if m > 0 {
      InitialDeliveries(p, m - 1);
      assert Initial(p)[..m][..m - 1] == Initial(p)[..m - 1];
      ZeroSum(p.N());
    }
  }

  lemma {:induction false} ZeroSum(n: nat)
    ensures Sum(seq<nat>(n, _ => 0)) == 0
  {
    if n > 0 {
      ZeroSum(n - 1);
      assert seq<nat>(n, _ => 0)[..n - 1] == seq<nat>(n - 1, _ => 0);
    }
  }

  lemma ApplyReceived<S, B, O>(p: Protocol<S, B, O>, net: Net<S, B, O>, a: Action, k: nat)
    requires p.WellFormed() && |net| == p.N() && Enabled(p, net, a) && k < p.N()
    ensures Apply(p, net, a)[k].received ==
            if a.Deliver? && a.i == k then net[k].received[a.j := net[k].received[a.j] + 1] else net[k].received
  {
    hide Handle, Start, SentTo, Running;
  }

  lemma ApplyStarted<S, B, O>(p: Protocol<S, B, O>, net: Net<S, B, O>, a: Action, k: nat)
    requires p.WellFormed() && |net| == p.N() && Enabled(p, net, a) && k < p.N()
    ensures Apply(p, net, a)[k].started == (net[k].started || a == StartParty(k))
  {
    hide Handle, Start, SentTo;
  }

  lemma ApplyCounts<S, B, O>(p: Protocol<S, B, O>, net: Net<S, B, O>, a: Action)
    requires p.WellFormed() && |net| == p.N() && Enabled(p, net, a)
    ensures Deliveries(Apply(p, net, a)) == Deliveries(net) + if a.Deliver? then 1 else 0
  {
    hide Take, Launch, Post, Sum, Deliveries, Running;
    var net' := Apply(p, net, a);
    forall k | 0 <= k < p.N()
      ensures net'[k].received == if a.Deliver? && a.i == k then net[k].received[a.j := net[k].received[a.j] + 1]
              else net[k].received
    {
      ApplyReceived(p, net, a, k);
    }
    match a {
      case StartParty(i) => DeliveriesCongruent(net, net');
      case Deliver(j, i) => DeliveriesUpdate(net, net', i, j);
    }
  }

  /** The history counts exactly the deliveries of the run. */
  lemma {:induction false} DeliveriesAreCounted<S(!new), B(!new), O>(p: Protocol<S, B, O>, actions: seq<Action>)
    requires p.WellFormed() && Exec(p, actions).Some?
    ensures Deliveries(Exec(p, actions).value) == CountDeliveries(actions)
  {
    hide Apply, Enabled, Deliveries;
    if actions == [] {
      InitialDeliveries(p, p.N());
      assert Initial(p)[..p.N()] == Initial(p);
    } else {
      var last := |actions| - 1;
      DeliveriesAreCounted(p, actions[..last]);
      ApplyCounts(p, Exec(p, actions[..last]).value, actions[last]);
    }
  }

  /** What a party's row of counters adds up to when all rounds arrived. */
  function Budget(i: nat, rounds: nat, m: nat): nat {
    if m == 0 then 0 else Budget(i, rounds, m - 1) + if m - 1 == i then 0 else rounds
  }

  lemma {:induction false} BudgetTotal(i: nat, rounds: nat, m: nat)
    ensures Budget(i, rounds, m) == rounds * OthersBelow(i, m)
  {
    if m > 0 {
      BudgetTotal(i, rounds, m - 1);
      if m - 1 != i {
        TimesStep(OthersBelow(i, m), rounds);
      }
    }
  }

  lemma {:induction false} RowTotal(received: seq<nat>, i: nat, rounds: nat, m: nat)
    requires m <= |received| && i < |received| && received[i] == 0
    requires forall j :: 0 <= j < |received| ==> received[j] <= rounds
    ensures Sum(received[..m]) <= Budget(i, rounds, m)
    ensures AllReceived(received, i, rounds) ==> Sum(received[..m]) == Budget(i, rounds, m)
  {
    if m > 0 {
      RowTotal(received, i, rounds, m - 1);
      assert received[..m][..m - 1] == received[..m - 1];
    }
  }

  lemma TimesStep(m: nat, c: int)
    requires m > 0
    ensures m * c == (m - 1) * c + c
  {
  }

  lemma {:induction false} NetTotal<S, B, O>(net: Net<S, B, O>, m: nat, c: int)
    requires m <= |net|
    requires forall i :: 0 <= i < |net| ==> Sum(net[i].received) <= c
    ensures Deliveries(net[..m]) <= m * c
    ensures (forall i :: 0 <= i < |net| ==> Sum(net[i].received) == c) ==> Deliveries(net[..m]) == m * c
  {
    if m > 0 {
      NetTotal(net, m - 1, c);
      assert net[..m][..m - 1] == net[..m - 1];
      TimesStep(m, c);
    }
  }

  lemma NodeTotal<S(!new), B(!new), O>(p: Protocol<S, B, O>, eq: (S, S) -> bool, net: Net<S, B, O>, i: nat)
    requires p.WellFormed() && NetInv(p, eq, net) && i < p.N()
    ensures Sum(net[i].received) <= p.rounds * (p.N() - 1)
    ensures net[i].outcome.Complete? ==> Sum(net[i].received) == p.rounds * (p.N() - 1)
  {
    hide TurnOf, OnWire, Row, Gather, Arrived, OutputOf;
    var received := net[i].received;
    assert NodeInv(p, eq, i, net[i]);
    forall j | 0 <= j < p.N()
      ensures received[j] <= p.rounds
    {
      if j != i {
        ReceivedBounds(p, eq, net, i, j);
      }
    }
    assert received[..p.N()] == received;
    RowTotal(received, i, p.rounds, p.N());
    BudgetTotal(i, p.rounds, p.N());
  }

  /** Every run makes at most rounds * n * (n - 1) deliveries, and exactly that many once all complete. */
  lemma DeliveriesBound<S(!new), B(!new), O>(p: Protocol<S, B, O>, eq: (S, S) -> bool, actions: seq<Action>)
    requires Contract(p, eq) && Exec(p, actions).Some?
    ensures CountDeliveries(actions) <= p.N() * (p.rounds * (p.N() - 1))
    ensures AllComplete(Exec(p, actions).value) ==> CountDeliveries(actions) == p.N() * (p.rounds * (p.N() - 1))
  {
    hide Healthy, Indifferent, NodeInv, LinkInv, Exec, Sum, Deliveries;
    EveryRunKeepsInv(p, eq, actions);
    DeliveriesAreCounted(p, actions);
    var net := Exec(p, actions).value;
    forall i | 0 <= i < p.N()
      ensures Sum(net[i].received) <= p.rounds * (p.N() - 1)
      ensures net[i].outcome.Complete? ==> Sum(net[i].received) == p.rounds * (p.N() - 1)
    {
      NodeTotal(p, eq, net, i);
    }
    NetTotal(net, p.N(), p.rounds * (p.N() - 1));
    assert net[..p.N()] == net;
  }

  // ---------------------------------------------------------------------------
  // The length of a run.

  function Started<S, B, O>(net: Net<S, B, O>): set<nat> {
    set i: nat | i < |net| && net[i].started
  }

  lemma {:induction false} StartsAreCounted<S, B, O>(p: Protocol<S, B, O>, actions: seq<Action>)
    requires p.WellFormed() && Exec(p, actions).Some?
    ensures |actions| == CountDeliveries(actions) + |Started(Exec(p, actions).value)|
  {
    hide Apply, Enabled;
    if actions == [] {
      assert Started(Initial(p)) == {};
    } else {
      var last := |actions| - 1;
      StartsAreCounted(p, actions[..last]);
      StartedStep(p, Exec(p, actions[..last]).value, actions[last]);
    }
  }

  lemma StartedStep<S, B, O>(p: Protocol<S, B, O>, net: Net<S, B, O>, a: Action)
    requires p.WellFormed() && |net| == p.N() && Enabled(p, net, a)
    ensures |Started(Apply(p, net, a))| == |Started(net)| + if a.Deliver? then 0 else 1
  {
    hide Apply;
    var net' := Apply(p, net, a);
    forall k: nat | k < |net| ensures net'[k].started == (net[k].started || a == StartParty(k)) {
      ApplyStarted(p, net, a, k);
    }
    if a.Deliver? {
      assert Started(net') == Started(net);
    } else {
      assert Started(net') == Started(net) + {a.i};
    }
  }

  /** The most steps a run of the protocol can take. */
  function MostSteps<S, B, O>(p: Protocol<S, B, O>): nat
    requires p.N() > 0
  {
    p.N() * (p.rounds * (p.N() - 1)) + p.N()
  }

  lemma RunsEnd<S(!new), B(!new), O>(p: Protocol<S, B, O>, eq: (S, S) -> bool, actions: seq<Action>)
    requires Contract(p, eq) && Exec(p, actions).Some? && p.N() > 0
    ensures |actions| <= MostSteps(p)
  {
    hide Healthy, Indifferent, Exec;
    DeliveriesBound(p, eq, actions);
    StartsAreCounted(p, actions);
    BelowCount(Started(Exec(p, actions).value), p.N());
  }
}
