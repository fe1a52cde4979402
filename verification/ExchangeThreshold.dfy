// The exchange of key indices for any threshold: a signer goes on as soon as it has heard from as many
// others as the threshold says, and from whom is a matter of timing.
module ExchangeThreshold {
  import opened Basics
  import opened Sessions
  import opened Rounds
  import opened Bridge
  import opened LockStep
  import opened RoundNetwork
  import opened Participants
  import RT = RoundTheorems

  type Party = Node<ExchangeState, nat, seq<nat>>
  type Parties = Net<ExchangeState, nat, seq<nat>>

  /** A party whose only round expects as many messages as the threshold. */
  function InitialParty(session: SessionState, keys: seq<nat>, t: nat, i: nat): Party
    requires |keys| <= 0xFFFF && i < |keys|
  {
    var nd := InitialNode(Exchange(session, keys), i);
    nd.(bridge := nd.bridge.(buffer := BufferState(FixedRounds(1, t), map[])))
  }

  /** A run of the exchange with the given threshold. */
  function ExecWith(session: SessionState, keys: seq<nat>, t: nat, actions: seq<Action>): (r: Option<Parties>)
    requires ExchangeSetup(session, keys)
    ensures r.Some? ==> |r.value| == |keys|
  {
    var p := Exchange(session, keys);
    if actions == [] then Some(seq(|keys|, i requires 0 <= i < |keys| => InitialParty(session, keys, t, i)))
    else
      var last := |actions| - 1;
      match ExecWith(session, keys, t, actions[..last])
      case None => None
      case Some(net) => if Enabled(p, net, actions[last]) then Some(Apply(p, net, actions[last])) else None
  }

  /** With a threshold one less than the number of signers this is the network of the round engine. */
  lemma {:induction false} FullThresholdIsTheEngine(session: SessionState, keys: seq<nat>, actions: seq<Action>)
    requires ExchangeSetup(session, keys) && keys != []
    ensures ExecWith(session, keys, |keys| - 1, actions) == Exec(Exchange(session, keys), actions)
  {
    var t := |keys| - 1;
    if actions == [] {
      var p, net := Exchange(session, keys), ExecWith(session, keys, t, []).value;
      assert forall i :: 0 <= i < |keys| ==> net[i] == InitialNode(p, i);
      assert net == Initial(p);
    } else {
      hide Apply, Enabled;
      FullThresholdIsTheEngine(session, keys, actions[..|actions| - 1]);
    }
  }

  // ---------------------------------------------------------------------------
  // What every run keeps.

  /** The senders whose messages signer i has taken, in order. */
  function TookBy(actions: seq<Action>, i: nat): seq<nat> {
    if actions == [] then []
    else
      var last := |actions| - 1;
      TookBy(actions[..last], i) + if actions[last].Deliver? && actions[last].i == i then [actions[last].j] else []
  }

  /** Others, each at most once. */
  ghost predicate FromOthers(n: nat, i: nat, took: seq<nat>) {
    Distinct(took) && forall a :: 0 <= a < |took| ==> took[a] < n && took[a] != i
  }

  function KeysOf(keys: seq<nat>, took: seq<nat>): (r: seq<nat>)
    requires forall a :: 0 <= a < |took| ==> took[a] < |keys|
    ensures |r| == |took| && forall a :: 0 <= a < |took| ==> r[a] == keys[took[a]]
  {
    seq(|took|, a requires 0 <= a < |took| => keys[took[a]])
  }

  function MessagesOf(keys: seq<nat>, took: seq<nat>): (r: seq<Msg<nat>>)
    requires forall a :: 0 <= a < |took| ==> took[a] < |keys|
    ensures |r| == |took| && forall a :: 0 <= a < |took| ==> r[a] == Msg(took[a] + 1, None, keys[took[a]])
  {
    seq(|took|, a requires 0 <= a < |took| => Msg(took[a] + 1, None, keys[took[a]]))
  }

  /** The key indices signer i holds: its own, and those it took. */
  function Held(keys: seq<nat>, i: nat, took: seq<nat>): seq<nat>
    requires i < |keys| && forall a :: 0 <= a < |took| ==> took[a] < |keys|
  {
    [keys[i]] + KeysOf(keys, took)
  }

  ghost predicate BufferHolds(b: BufferState<Msg<nat>>, t: nat, ms: seq<Msg<nat>>) {
    b.expected == FixedRounds(1, t) && b.messages == if ms == [] then map[] else map[1 := ms]
  }

  /** Signer i, having taken the messages of `took`. */
  ghost predicate PartyIs(session: SessionState, keys: seq<nat>, t: nat, nd: Party, i: nat, took: seq<nat>)
    requires |keys| <= 0xFFFF && i < |keys| && FromOthers(|keys|, i, took)
  {
    if !nd.started then nd == InitialParty(session, keys, t, i).(inbox := nd.inbox) && took == []
    else
      match nd.outcome
      case Pending =>
        && nd.bridge.driver == Some(ExchangeState(i + 1, [keys[i]], keys[i]))
        && BufferHolds(nd.bridge.buffer, t, MessagesOf(keys, took))
        && (t == 0 || |took| < t)
      case Complete(list) => t > 0 && |took| == t && list == Sort(Held(keys, i, took))
      case Failed(_) => false
  }

  /** What signer j has for signer i is its one message, until that is taken. */
  ghost predicate LinkIs(keys: seq<nat>, net: Parties, i: nat, j: nat, taken: bool)
    requires |keys| <= 0xFFFF && i < |net| == |keys| && j < |keys|
  {
    j < |net[i].inbox|
    && net[i].inbox[j] == if net[j].started && j != i && !taken then [RoundMsg(1, j + 1, None, keys[j])] else []
  }

  ghost predicate ExchangeInv(session: SessionState, keys: seq<nat>, t: nat, net: Parties, i: nat, took: seq<nat>)
    requires |keys| <= 0xFFFF && i < |net| == |keys|
  {
    && FromOthers(|keys|, i, took)
    && |net[i].inbox| == |net[i].received| == |keys|
    && PartyIs(session, keys, t, net[i], i, took)
    && (forall j :: 0 <= j < |keys| ==> LinkIs(keys, net, i, j, j in took))
    && (forall j <- took :: j < |keys| && net[j].started)
  }

  ghost predicate AllInv(session: SessionState, keys: seq<nat>, t: nat, net: Parties, actions: seq<Action>)
    requires |keys| <= 0xFFFF && |net| == |keys|
  {
    forall i :: 0 <= i < |keys| ==> ExchangeInv(session, keys, t, net, i, TookBy(actions, i))
  }

  lemma PostNothing<S, B, O>(p: Protocol<S, B, O>, net: Net<S, B, O>, i: nat)
    requires p.WellFormed() && |net| == p.N()
    ensures Post(p, net, i, []) == net
  {
    var net' := Post(p, net, i, []);
    forall k | 0 <= k < |net| ensures net'[k] == net[k] {
      assert i < |net[k].inbox| ==> net[k].inbox[i] + [] == net[k].inbox[i];
    }
  }

  /** Starting announces the own key index to everyone else. */
  lemma StartAnnounces(session: SessionState, keys: seq<nat>, t: nat, net: Parties, i: nat)
    requires ExchangeSetup(session, keys) && i < |net| == |keys| && !net[i].started
    requires PartyIs(session, keys, t, net[i], i, [])
    ensures var p := Exchange(session, keys);
            var (nd, sends) := Launch(p, i, net[i]);
            && nd == net[i].(started := true)
            && sends == ToAll(session.Recipients(session.participants[i]), RoundMsg(1, i + 1, None, keys[i]))
  {
    var p := Exchange(session, keys);
    var s := ExchangeState(i + 1, [keys[i]], keys[i]);
    var m: RoundMsg<nat> := RoundMsg(1, i + 1, None, keys[i]);
    assert ProceedKey(s) == Ok((s, [m]));
  }

  /** What one party sees of another's start. */
  lemma StartReaches(session: SessionState, keys: seq<nat>, t: nat, net: Parties, i: nat, k: nat)
    requires ExchangeSetup(session, keys) && i < |net| == |keys| && k < |keys| && !net[i].started
    requires PartyIs(session, keys, t, net[i], i, []) && i < |net[k].inbox|
    ensures Enabled(Exchange(session, keys), net, StartParty(i))
    ensures var nd := if k == i then net[i].(started := true) else net[k];
            var more := if k == i then [] else [RoundMsg(1, i + 1, None, keys[i])];
            Apply(Exchange(session, keys), net, StartParty(i))[k] == nd.(inbox := nd.inbox[i := nd.inbox[i] + more])
  {
    hide Launch, ToAll, Others, PartyIs;
    StartAnnounces(session, keys, t, net, i);
    var m: RoundMsg<nat> := RoundMsg(1, i + 1, None, keys[i]);
    BroadcastReaches(session.participants, session.participants[i], m, session.participants[k]);
    if k != i {
      assert session.participants[k] != session.participants[i];
    }
  }

  lemma StartHere(session: SessionState, keys: seq<nat>, t: nat, net: Parties, net': Parties, i: nat)
    requires ExchangeSetup(session, keys) && i < |net| == |net'| == |keys| && !net[i].started
    requires ExchangeInv(session, keys, t, net, i, []) && net'[i] == net[i].(started := true)
    requires forall l :: 0 <= l < |keys| ==> net'[l].started == (net[l].started || l == i)
    ensures ExchangeInv(session, keys, t, net', i, [])
  {
    forall l | 0 <= l < |keys| ensures LinkIs(keys, net', i, l, l in []) {
      assert LinkIs(keys, net, i, l, l in []);
    }
  }

  lemma StartThere(session: SessionState, keys: seq<nat>, t: nat, net: Parties, net': Parties, i: nat, k: nat,
                   took: seq<nat>)
    requires ExchangeSetup(session, keys) && i < |net| == |net'| == |keys| && !net[i].started && k < |keys| && k != i
    requires ExchangeInv(session, keys, t, net, k, took)
    requires net'[k] == net[k].(inbox := net[k].inbox[i := net[k].inbox[i] + [RoundMsg(1, i + 1, None, keys[i])]])
    requires forall l :: 0 <= l < |keys| ==> net'[l].started == (net[l].started || l == i)
    ensures ExchangeInv(session, keys, t, net', k, took)
  {
    hide Sort, BufferHolds;
    assert i !in took;
    forall l | 0 <= l < |keys| ensures LinkIs(keys, net', k, l, l in took) {
      assert LinkIs(keys, net, k, l, l in took);
      var m: RoundMsg<nat> := RoundMsg(1, i + 1, None, keys[i]);
      assert [] + [m] == [m];
    }
  }

  lemma StartKeeps(session: SessionState, keys: seq<nat>, t: nat, net: Parties, actions: seq<Action>, i: nat, k: nat)
    requires ExchangeSetup(session, keys) && |net| == |keys| && AllInv(session, keys, t, net, actions) && k < |keys|
    requires Enabled(Exchange(session, keys), net, StartParty(i))
    ensures ExchangeInv(session, keys, t, Apply(Exchange(session, keys), net, StartParty(i)), k, TookBy(actions, k))
  {
    hide Apply, PartyIs;
    assert ExchangeInv(session, keys, t, net, i, TookBy(actions, i));
    NotStartedTookNothing(session, keys, t, net[i], i, TookBy(actions, i));
    var net' := Apply(Exchange(session, keys), net, StartParty(i));
    forall l | 0 <= l < |keys| ensures net'[l].started == (net[l].started || l == i) {
      assert ExchangeInv(session, keys, t, net, l, TookBy(actions, l));
      StartReaches(session, keys, t, net, i, l);
    }
    assert ExchangeInv(session, keys, t, net, k, TookBy(actions, k));
    StartReaches(session, keys, t, net, i, k);
    if k == i {
      assert net[i].inbox[i] + [] == net[i].inbox[i];
      StartHere(session, keys, t, net, net', i);
    } else {
      StartThere(session, keys, t, net, net', i, k, TookBy(actions, k));
    }
  }

  lemma NotStartedTookNothing(session: SessionState, keys: seq<nat>, t: nat, nd: Party, i: nat, took: seq<nat>)
    requires |keys| <= 0xFFFF && i < |keys| && FromOthers(|keys|, i, took) && PartyIs(session, keys, t, nd, i, took)
    ensures !nd.started ==> took == []
  {}

  lemma OneMoreHeld(keys: seq<nat>, i: nat, took: seq<nat>, j: nat)
    requires FromOthers(|keys|, i, took) && j < |keys| && j != i && j !in took
    ensures FromOthers(|keys|, i, took + [j])
    ensures MessagesOf(keys, took + [j]) == MessagesOf(keys, took) + [Msg(j + 1, None, keys[j])]
  {}

  lemma BodiesOf(keys: seq<nat>, took: seq<nat>)
    requires forall a :: 0 <= a < |took| ==> took[a] < |keys|
    ensures Bodies(MessagesOf(keys, took)) == KeysOf(keys, took)
  {}

  /** What one more message makes of the buffer. */
  lemma AddedIs(b: BufferState<Msg<nat>>, t: nat, ms: seq<Msg<nat>>, m: Msg<nat>)
    requires BufferHolds(b, t, ms)
    ensures BufferHolds(b.Add(1, m), t, ms + [m]) && b.Add(1, m).Batch(1) == ms + [m]
    ensures b.Add(1, m).IsReady(1) <==> |ms| + 1 == t
    ensures BufferHolds(b.Add(1, m).Without(1), t, [])
  {
    assert Configured(1, 1);
  }

  /** A message completes the exchange exactly when it is the threshold-th. */
  lemma ReceiveIs(session: SessionState, own: Key, st: BridgeState<ExchangeState, nat>, s: ExchangeState, t: nat,
                  ms: seq<Msg<nat>>, m: RoundMsg<nat>)
    requires st.driver == Some(s) && BufferHolds(st.buffer, t, ms) && m.round == 1
    ensures var step, all := Receive(ExchangeDriver(), session, own, st, m), ms + [m.ToMsg()];
            && step.sends == []
            && if |all| == t then step.outcome == Complete(Sort(s.participants + Bodies(all)))
               else step.outcome == Pending && step.state.driver == Some(s) && BufferHolds(step.state.buffer, t, all)
  {
    hide BufferHolds, Sort, BufferState.Add, BufferState.IsReady, BufferState.Batch;
    AddedIs(st.buffer, t, ms, m.ToMsg());
    if |ms| + 1 == t {
      FullIs(session, own, st.(buffer := st.buffer.Add(1, m.ToMsg()).Without(1)), s, t, ms + [m.ToMsg()]);
    }
  }

  lemma FullIs(session: SessionState, own: Key, st: BridgeState<ExchangeState, nat>, s: ExchangeState, t: nat,
               batch: seq<Msg<nat>>)
    requires st.driver == Some(s) && BufferHolds(st.buffer, t, [])
    ensures var step := Advance(ExchangeDriver(), session, own, st, 1, batch);
            step.sends == [] && step.outcome == Complete(Sort(s.participants + Bodies(batch)))
  {
    hide Sort;
    HandleAllKeys(s, batch);
    FixedRoundsSize(1, t);
  }

  /** What taking a message makes of a signer. */
  lemma TakeIs(session: SessionState, keys: seq<nat>, t: nat, net: Parties, i: nat, took: seq<nat>, j: nat)
    requires ExchangeSetup(session, keys) && i < |net| == |keys| && ExchangeInv(session, keys, t, net, i, took)
    requires Enabled(Exchange(session, keys), net, Deliver(j, i))
    ensures j != i && j !in took && net[j].started && FromOthers(|keys|, i, took + [j])
    ensures var (nd, sends) := Take(Exchange(session, keys), i, net[i], j);
            && sends == [] && nd.started && |nd.received| == |keys|
            && nd.inbox == net[i].inbox[j := []]
            && PartyIs(session, keys, t, nd, i, took + [j])
  {
    hide Sort, Receive, BufferHolds;
    var p := Exchange(session, keys);
    var m: RoundMsg<nat> := RoundMsg(1, j + 1, None, keys[j]);
    assert LinkIs(keys, net, i, j, j in took);
    assert net[i].inbox[j] == [m] && [m][1..] == [];
    OneMoreHeld(keys, i, took, j);
    BodiesOf(keys, took + [j]);
    ReceiveIs(session, p.KeyOf(i), net[i].bridge, net[i].bridge.driver.value, t, MessagesOf(keys, took), m);
  }

  lemma InvElsewhere(session: SessionState, keys: seq<nat>, t: nat, net: Parties, net': Parties, k: nat, took: seq<nat>)
    requires |keys| <= 0xFFFF && k < |net| == |net'| == |keys| && ExchangeInv(session, keys, t, net, k, took)
    requires net'[k] == net[k] && forall l :: 0 <= l < |net| ==> net'[l].started == net[l].started
    ensures ExchangeInv(session, keys, t, net', k, took)
  {
    hide PartyIs;
    forall l | 0 <= l < |keys| ensures LinkIs(keys, net', k, l, l in took) {
      assert LinkIs(keys, net, k, l, l in took);
    }
  }

  lemma InvHere(session: SessionState, keys: seq<nat>, t: nat, net: Parties, nd: Party, i: nat, took: seq<nat>, j: nat)
    requires |keys| <= 0xFFFF && i < |net| == |keys| && ExchangeInv(session, keys, t, net, i, took)
    requires j < |keys| && j != i && j !in took && net[j].started && net[i].started && nd.started
    requires FromOthers(|keys|, i, took + [j]) && PartyIs(session, keys, t, nd, i, took + [j])
    requires |nd.received| == |keys| && nd.inbox == net[i].inbox[j := []]
    ensures ExchangeInv(session, keys, t, net[i := nd], i, took + [j])
  {
    hide PartyIs, FromOthers;
    var net' := net[i := nd];
    forall l | 0 <= l < |keys| ensures LinkIs(keys, net', i, l, l in took + [j]) {
      assert LinkIs(keys, net, i, l, l in took);
    }
  }

  lemma DeliverKeeps(session: SessionState, keys: seq<nat>, t: nat, net: Parties, actions: seq<Action>, j: nat, i: nat,
                     k: nat)
    requires ExchangeSetup(session, keys) && |net| == |keys| && AllInv(session, keys, t, net, actions) && k < |keys|
    requires Enabled(Exchange(session, keys), net, Deliver(j, i))
    ensures ExchangeInv(session, keys, t, Apply(Exchange(session, keys), net, Deliver(j, i)), k,
                        TookBy(actions + [Deliver(j, i)], k))
  {
    hide Take, PartyIs, ExchangeInv;
    var p, took := Exchange(session, keys), TookBy(actions, k);
    assert (actions + [Deliver(j, i)])[..|actions|] == actions;
    assert ExchangeInv(session, keys, t, net, i, TookBy(actions, i)) && ExchangeInv(session, keys, t, net, k, took);
    TakeIs(session, keys, t, net, i, TookBy(actions, i), j);
    var nd := Take(p, i, net[i], j).0;
    PostNothing(p, net[i := nd], i);
    assert Apply(p, net, Deliver(j, i)) == net[i := nd];
    if k == i {
      InvHere(session, keys, t, net, nd, i, took, j);
    } else {
      assert took + [] == took;
      InvElsewhere(session, keys, t, net, net[i := nd], k, took);
    }
  }

  lemma InitialKeeps(session: SessionState, keys: seq<nat>, t: nat)
    requires ExchangeSetup(session, keys)
    ensures AllInv(session, keys, t, ExecWith(session, keys, t, []).value, [])
  {
    var net := ExecWith(session, keys, t, []).value;
    forall i | 0 <= i < |keys| ensures ExchangeInv(session, keys, t, net, i, TookBy([], i)) {
      assert forall j :: 0 <= j < |keys| ==> LinkIs(keys, net, i, j, false);
    }
  }

  lemma StepKeeps(session: SessionState, keys: seq<nat>, t: nat, net: Parties, actions: seq<Action>, a: Action)
    requires ExchangeSetup(session, keys) && |net| == |keys| && AllInv(session, keys, t, net, actions)
    requires Enabled(Exchange(session, keys), net, a)
    ensures AllInv(session, keys, t, Apply(Exchange(session, keys), net, a), actions + [a])
  {
    hide Apply, Enabled, ExchangeInv;
    var net' := Apply(Exchange(session, keys), net, a);
    assert (actions + [a])[..|actions|] == actions;
    forall i | 0 <= i < |keys| ensures ExchangeInv(session, keys, t, net', i, TookBy(actions + [a], i)) {
      match a
      case StartParty(k) =>
        assert TookBy(actions, i) + [] == TookBy(actions, i);
        StartKeeps(session, keys, t, net, actions, k, i);
      case Deliver(j, k) =>
        DeliverKeeps(session, keys, t, net, actions, j, k, i);
    }
  }

  lemma LastStep(session: SessionState, keys: seq<nat>, t: nat, actions: seq<Action>)
    requires ExchangeSetup(session, keys) && actions != [] && ExecWith(session, keys, t, actions).Some?
    ensures var last := |actions| - 1;
            var before := ExecWith(session, keys, t, actions[..last]);
            && before.Some? && Enabled(Exchange(session, keys), before.value, actions[last])
            && ExecWith(session, keys, t, actions).value == Apply(Exchange(session, keys), before.value, actions[last])
  {
    hide Apply, Enabled, InitialParty;
  }

  lemma {:induction false} RunKeeps(session: SessionState, keys: seq<nat>, t: nat, actions: seq<Action>)
    requires ExchangeSetup(session, keys) && ExecWith(session, keys, t, actions).Some?
    ensures AllInv(session, keys, t, ExecWith(session, keys, t, actions).value, actions)
  {
    if actions == [] {
      InitialKeeps(session, keys, t);
    } else {
      LastStep(session, keys, t, actions);
      hide Apply, Enabled, AllInv, ExecWith, Exchange;
      var last := |actions| - 1;
      RunKeeps(session, keys, t, actions[..last]);
      assert actions == actions[..last] + [actions[last]];
      StepKeeps(session, keys, t, ExecWith(session, keys, t, actions[..last]).value, actions[..last], actions[last]);
    }
  }

  // ---------------------------------------------------------------------------
  // What a completed signer holds.

  ghost predicate CompletedIn(session: SessionState, keys: seq<nat>, t: nat, actions: seq<Action>, i: nat)
    requires ExchangeSetup(session, keys) && i < |keys|
  {
    ExecWith(session, keys, t, actions).Some? && ExecWith(session, keys, t, actions).value[i].outcome.Complete?
  }

  /** The list a completed signer goes on with. */
  function ListOf(session: SessionState, keys: seq<nat>, t: nat, actions: seq<Action>, i: nat): seq<nat>
    requires ExchangeSetup(session, keys) && i < |keys| && CompletedIn(session, keys, t, actions, i)
  {
    ExecWith(session, keys, t, actions).value[i].outcome.output
  }

  /** Every completed signer holds its own key index and those of exactly as many others as the threshold. */
  lemma CompletedHoldsThreshold(session: SessionState, keys: seq<nat>, t: nat, actions: seq<Action>, i: nat)
    requires ExchangeSetup(session, keys) && i < |keys| && CompletedIn(session, keys, t, actions, i)
    ensures var took, list := TookBy(actions, i), ListOf(session, keys, t, actions, i);
            && t > 0 && |took| == t && FromOthers(|keys|, i, took)
            && list == Sort(Held(keys, i, took))
            && Sorted(list) && multiset(list) == multiset(Held(keys, i, took)) && |list| == t + 1
  {
    hide ExecWith, Sort, LinkIs;
    RunKeeps(session, keys, t, actions);
    var net, took := ExecWith(session, keys, t, actions).value, TookBy(actions, i);
    assert ExchangeInv(session, keys, t, net, i, took);
    CompletedIs(session, keys, t, net[i], i, took);
    SortIsSorted(Held(keys, i, took));
    SameLength(net[i].outcome.output, Held(keys, i, took));
  }

  /** A completed signer has started. */
  lemma CompletedIs(session: SessionState, keys: seq<nat>, t: nat, nd: Party, i: nat, took: seq<nat>)
    requires |keys| <= 0xFFFF && i < |keys| && FromOthers(|keys|, i, took) && PartyIs(session, keys, t, nd, i, took)
    requires nd.outcome.Complete?
    ensures t > 0 && |took| == t && nd.outcome.output == Sort(Held(keys, i, took))
  {}

  lemma SameLength(a: seq<nat>, b: seq<nat>)
    requires multiset(a) == multiset(b)
    ensures |a| == |b|
  {
    assert |multiset(a)| == |a| && |multiset(b)| == |b|;
  }

  function Positions(q: seq<nat>): set<nat> {
    set v <- q
  }

  /** Distinct positions below n: there are at most n, and if there are n they are all. */
  lemma DistinctCount(q: seq<nat>, n: nat)
    requires Distinct(q) && forall a :: 0 <= a < |q| ==> q[a] < n
    ensures |q| <= n
    ensures |q| == n ==> forall v: nat :: v < n ==> v in q
  {
    var s := Positions(q);
    DistinctSet(q);
    BelowCount(s, n);
    if |q| == n {
      forall v: nat | v < n ensures v in q {
        if v !in q {
          BelowCount(s + {v}, n);
        }
      }
    }
  }

  lemma {:induction false} DistinctSet(q: seq<nat>)
    requires Distinct(q)
    ensures |Positions(q)| == |q|
  {
    if q != [] {
      var tail := q[1..];
      DistinctSet(tail);
      assert q[0] !in tail;
      assert Positions(q) == {q[0]} + Positions(tail);
    }
  }

  ghost predicate AllBelow(q: seq<nat>, n: nat) {
    forall a :: 0 <= a < |q| ==> q[a] < n
  }

  /** Without its largest, distinct positions are distinct positions below that. */
  lemma WithoutLargest(q: seq<nat>, k: nat, last: nat)
    requires Distinct(q) && k < |q| && q[k] == last && AllBelow(q, last + 1)
    ensures Distinct(q[..k] + q[k + 1..]) && q == q[..k] + [last] + q[k + 1..]
    ensures AllBelow(q[..k] + q[k + 1..], last)
  {
    var rest := q[..k] + q[k + 1..];
    forall a | 0 <= a < |rest| ensures rest[a] < last && rest[a] == q[if a < k then a else a + 1] {}
  }

  /** Looking up distinct positions, all of them, gives the looked-up list in another order. */
  lemma {:induction false} AllPositions(keys: seq<nat>, q: seq<nat>)
    requires Distinct(q) && |q| == |keys| && forall a :: 0 <= a < |q| ==> q[a] < |keys|
    ensures multiset(KeysOf(keys, q)) == multiset(keys)
    decreases |keys|
  {
    if keys != [] {
      hide Distinct, KeysOf;
      var last := |keys| - 1;
      DistinctCount(q, |keys|);
      assert last in q;
      var k :| 0 <= k < |q| && q[k] == last;
      WithoutLargest(q, k, last);
      AllPositions(keys[..last], q[..k] + q[k + 1..]);
      SplitOff(keys, q, k);
    }
  }

  lemma SplitOff(keys: seq<nat>, q: seq<nat>, k: nat)
    requires keys != [] && k < |q| && q[k] == |keys| - 1
    requires AllBelow(q, |keys|) && AllBelow(q[..k] + q[k + 1..], |keys| - 1)
    requires multiset(KeysOf(keys[..|keys| - 1], q[..k] + q[k + 1..])) == multiset(keys[..|keys| - 1])
    ensures multiset(KeysOf(keys, q)) == multiset(keys)
  {
    var last, looked := |keys| - 1, KeysOf(keys, q);
    assert KeysOf(keys[..last], q[..k] + q[k + 1..]) == looked[..k] + looked[k + 1..];
    WithoutOne(looked, k);
    WithoutOne(keys, last);
    assert keys[..last] + keys[last + 1..] == keys[..last];
  }

  lemma WithoutOne(s: seq<nat>, k: nat)
    requires k < |s|
    ensures multiset(s) == multiset(s[..k] + s[k + 1..]) + multiset{s[k]}
  {
    assert s == s[..k] + [s[k]] + s[k + 1..];
  }

  /** Having heard from all others is holding all key indices. */
  lemma HeldFromAll(keys: seq<nat>, i: nat, took: seq<nat>)
    requires i < |keys| && FromOthers(|keys|, i, took) && |took| == |keys| - 1
    ensures multiset(Held(keys, i, took)) == multiset(keys)
  {
    var q := [i] + took;
    assert Distinct(q);
    AllPositions(keys, q);
    assert KeysOf(keys, q) == Held(keys, i, took);
  }

  // ---------------------------------------------------------------------------
  // A run in which two signers hear from the same others.

  function UpTo(m: nat): (r: seq<nat>)
    ensures |r| == m
  {
    seq(m, a => a + 1)
  }

  lemma OneMore(m: nat)
    requires m > 0
    ensures UpTo(m) == UpTo(m - 1) + [m] && m !in UpTo(m - 1)
  {}

  ghost predicate StartedUpTo(net: Parties, m: nat) {
    forall k :: 0 <= k < |net| ==> net[k].started == (k < m)
  }

  lemma {:induction false} StartEach(session: SessionState, keys: seq<nat>, t: nat, m: nat)
    returns (actions: seq<Action>)
    requires ExchangeSetup(session, keys) && m <= |keys|
    ensures ExecWith(session, keys, t, actions).Some? && StartedUpTo(ExecWith(session, keys, t, actions).value, m)
    ensures forall i: nat :: TookBy(actions, i) == []
  {
    if m == 0 {
      actions := [];
    } else {
      hide Apply;
      var k := m - 1;
      var before := StartEach(session, keys, t, k);
      actions := before + [StartParty(k)];
      assert actions[..|before|] == before;
      var net := ExecWith(session, keys, t, before).value;
      forall l: nat | l < |keys|
        ensures Apply(Exchange(session, keys), net, StartParty(k))[l].started == (net[l].started || l == k)
      {
        RT.ApplyStarted(Exchange(session, keys), net, StartParty(k), l);
      }
      forall i: nat ensures TookBy(actions, i) == [] {
        assert TookBy(before, i) + [] == [];
      }
    }
  }

  ghost predicate AllStarted(net: Parties) {
    forall k :: 0 <= k < |net| ==> net[k].started
  }

  lemma StartAll(session: SessionState, keys: seq<nat>, t: nat) returns (actions: seq<Action>)
    requires ExchangeSetup(session, keys)
    ensures ExecWith(session, keys, t, actions).Some? && AllStarted(ExecWith(session, keys, t, actions).value)
    ensures forall i: nat :: TookBy(actions, i) == []
  {
    hide ExecWith, TookBy;
    actions := StartEach(session, keys, t, |keys|);
  }

  /** One more delivery, to a signer that has not completed, from one it has not heard from. */
  lemma DeliverOne(session: SessionState, keys: seq<nat>, t: nat, before: seq<Action>, j: nat, i: nat)
    requires ExchangeSetup(session, keys) && ExecWith(session, keys, t, before).Some?
    requires AllStarted(ExecWith(session, keys, t, before).value) && i < |keys| && j < |keys| && j != i
    requires j !in TookBy(before, i) && |TookBy(before, i)| < t
    ensures var actions := before + [Deliver(j, i)];
            && ExecWith(session, keys, t, actions).Some?
            && AllStarted(ExecWith(session, keys, t, actions).value)
            && forall k: nat :: TookBy(actions, k) == TookBy(before, k) + if k == i then [j] else []
  {
    hide Apply, Sort;
    var p, net, took := Exchange(session, keys), ExecWith(session, keys, t, before).value, TookBy(before, i);
    var actions := before + [Deliver(j, i)];
    assert actions[..|before|] == before;
    RunKeeps(session, keys, t, before);
    assert ExchangeInv(session, keys, t, net, i, took) && LinkIs(keys, net, i, j, j in took);
    assert Enabled(p, net, Deliver(j, i));
    forall l | 0 <= l < |keys| ensures Apply(p, net, Deliver(j, i))[l].started {
      RT.ApplyStarted(p, net, Deliver(j, i), l);
    }
  }

  /** Signer i takes from signers 1 to m, in that order. */
  lemma {:induction false} HearUpTo(session: SessionState, keys: seq<nat>, t: nat, before: seq<Action>, i: nat, m: nat)
    returns (actions: seq<Action>)
    requires ExchangeSetup(session, keys) && ExecWith(session, keys, t, before).Some?
    requires AllStarted(ExecWith(session, keys, t, before).value) && i < |keys| && TookBy(before, i) == []
    requires m <= t < |keys| - 1 && (i == 0 || i == |keys| - 1)
    ensures ExecWith(session, keys, t, actions).Some? && AllStarted(ExecWith(session, keys, t, actions).value)
    ensures forall k: nat :: TookBy(actions, k) == if k == i then UpTo(m) else TookBy(before, k)
  {
    if m == 0 {
      actions := before;
    } else {
      hide *;
      var shorter := HearUpTo(session, keys, t, before, i, m - 1);
      OneMore(m);
      DeliverOne(session, keys, t, shorter, m, i);
      actions := shorter + [Deliver(m, i)];
      forall k: nat ensures TookBy(actions, k) == if k == i then UpTo(m) else TookBy(before, k) {
        assert TookBy(before, k) + [] == TookBy(before, k);
      }
    }
  }

  /** With as many messages taken as the threshold, a signer has completed. */
  lemma FilledIsComplete(session: SessionState, keys: seq<nat>, t: nat, actions: seq<Action>, i: nat)
    requires ExchangeSetup(session, keys) && ExecWith(session, keys, t, actions).Some? && i < |keys|
    requires t > 0 && |TookBy(actions, i)| == t
    ensures CompletedIn(session, keys, t, actions, i)
  {
    hide ExecWith, Sort;
    RunKeeps(session, keys, t, actions);
    assert ExchangeInv(session, keys, t, ExecWith(session, keys, t, actions).value, i, TookBy(actions, i));
  }

  /** The first and the last signer both complete having heard only from signers 1 to t. */
  lemma TwoHearTheSame(session: SessionState, keys: seq<nat>, t: nat) returns (actions: seq<Action>)
    requires ExchangeSetup(session, keys) && 1 <= t < |keys| - 1
    ensures var last := |keys| - 1;
            && CompletedIn(session, keys, t, actions, 0) && CompletedIn(session, keys, t, actions, last)
            && ListOf(session, keys, t, actions, 0) == Sort([keys[0]] + keys[1..t + 1])
            && ListOf(session, keys, t, actions, last) == Sort([keys[last]] + keys[1..t + 1])
  {
    hide *;
    var n := |keys|;
    var started := StartAll(session, keys, t);
    var first := HearUpTo(session, keys, t, started, 0, t);
    actions := HearUpTo(session, keys, t, first, n - 1, t);
    FilledIsComplete(session, keys, t, actions, 0);
    FilledIsComplete(session, keys, t, actions, n - 1);
    CompletedHoldsThreshold(session, keys, t, actions, 0);
    CompletedHoldsThreshold(session, keys, t, actions, n - 1);
    HeldUpTo(keys, 0, t);
    HeldUpTo(keys, n - 1, t);
  }

  lemma HeldUpTo(keys: seq<nat>, i: nat, m: nat)
    requires i < |keys| && m < |keys|
    ensures Held(keys, i, UpTo(m)) == [keys[i]] + keys[1..m + 1]
  {
    assert KeysOf(keys, UpTo(m)) == keys[1..m + 1];
  }

  // ---------------------------------------------------------------------------
  // When the signers agree.

  /** In every run, whoever has completed holds all key indices, in ascending order. */
  ghost predicate AllHoldAll(session: SessionState, keys: seq<nat>, t: nat)
    requires ExchangeSetup(session, keys)
  {
    forall actions, i: nat :: i < |keys| && CompletedIn(session, keys, t, actions, i) ==>
      Agreed(ListOf(session, keys, t, actions, i), keys)
  }

  /** In every run, any two that have completed hold the same list. */
  ghost predicate AnyTwoAgree(session: SessionState, keys: seq<nat>, t: nat)
    requires ExchangeSetup(session, keys)
  {
    forall actions, i: nat, j: nat ::
      i < |keys| && j < |keys|
      && CompletedIn(session, keys, t, actions, i) && CompletedIn(session, keys, t, actions, j) ==>
        ListOf(session, keys, t, actions, i) == ListOf(session, keys, t, actions, j)
  }

  /** With a threshold that takes everyone, or that nobody can meet, whoever completes holds everything. */
  lemma LargeThresholdAgrees(session: SessionState, keys: seq<nat>, t: nat, actions: seq<Action>, i: nat)
    requires ExchangeSetup(session, keys) && i < |keys| && CompletedIn(session, keys, t, actions, i)
    requires t == 0 || t >= |keys| - 1
    ensures t == |keys| - 1 && Agreed(ListOf(session, keys, t, actions, i), keys)
  {
    hide ExecWith, Sort;
    var took := TookBy(actions, i);
    CompletedHoldsThreshold(session, keys, t, actions, i);
    assert Distinct([i] + took);
    DistinctCount([i] + took, |keys|);
    HeldFromAll(keys, i, took);
  }

  lemma SmallThresholdDisagrees(session: SessionState, keys: seq<nat>, t: nat) returns (actions: seq<Action>)
    requires ExchangeSetup(session, keys) && Distinct(keys) && 1 <= t < |keys| - 1
    ensures CompletedIn(session, keys, t, actions, 0) && CompletedIn(session, keys, t, actions, |keys| - 1)
    ensures ListOf(session, keys, t, actions, 0) != ListOf(session, keys, t, actions, |keys| - 1)
    ensures !Agreed(ListOf(session, keys, t, actions, 0), keys)
  {
    hide ExecWith, Sort;
    var n := |keys|;
    actions := TwoHearTheSame(session, keys, t);
    var a, b := [keys[0]] + keys[1..t + 1], [keys[n - 1]] + keys[1..t + 1];
    SortIsSorted(a);
    SortIsSorted(b);
    assert keys[0] in multiset(a);
    assert keys[0] !in b;
    if multiset(Sort(a)) == multiset(keys) {
      SameLength(a, keys);
    }
  }

  /**
   * The signers agree on the participants exactly when the threshold is one less than their number, or
   * such that nobody ever completes. For any smaller one some run leaves two of them with different lists.
   */
  lemma SignersAgreeIff(session: SessionState, keys: seq<nat>, t: nat)
    requires ExchangeSetup(session, keys) && Distinct(keys)
    ensures AllHoldAll(session, keys, t) <==> t == 0 || t >= |keys| - 1
    ensures AnyTwoAgree(session, keys, t) <==> t == 0 || t >= |keys| - 1
  {
    hide ExecWith, Sort, CompletedIn, ListOf, Agreed;
    if t == 0 || t >= |keys| - 1 {
      forall actions, i: nat | i < |keys| && CompletedIn(session, keys, t, actions, i)
        ensures Agreed(ListOf(session, keys, t, actions, i), keys)
      {
        LargeThresholdAgrees(session, keys, t, actions, i);
      }
      forall actions, i: nat, j: nat
        | i < |keys| && j < |keys|
          && CompletedIn(session, keys, t, actions, i) && CompletedIn(session, keys, t, actions, j)
        ensures ListOf(session, keys, t, actions, i) == ListOf(session, keys, t, actions, j)
      {
        LargeThresholdAgrees(session, keys, t, actions, i);
        LargeThresholdAgrees(session, keys, t, actions, j);
        AgreedUnique(ListOf(session, keys, t, actions, i), ListOf(session, keys, t, actions, j), keys);
      }
    } else {
      var actions := SmallThresholdDisagrees(session, keys, t);
      assert CompletedIn(session, keys, t, actions, 0) && CompletedIn(session, keys, t, actions, |keys| - 1);
    }
  }

  lemma AgreedUnique(a: seq<nat>, b: seq<nat>, keys: seq<nat>)
    requires Agreed(a, keys) && Agreed(b, keys)
    ensures a == b
  {
    SortedUnique(a, b);
  }

  /** Three signers with key indices 1, 2 and 3 and a threshold of one: two of them go on with different lists. */
  lemma ThreeSignersDisagree(session: SessionState) returns (actions: seq<Action>)
    requires ExchangeSetup(session, [1, 2, 3])
    ensures CompletedIn(session, [1, 2, 3], 1, actions, 0) && CompletedIn(session, [1, 2, 3], 1, actions, 2)
    ensures ListOf(session, [1, 2, 3], 1, actions, 0) == [1, 2]
    ensures ListOf(session, [1, 2, 3], 1, actions, 2) == [2, 3]
  {
    hide ExecWith;
    var keys: seq<nat> := [1, 2, 3];
    actions := TwoHearTheSame(session, keys, 1);
    assert [keys[0]] + keys[1..2] == [1, 2] && [keys[2]] + keys[1..2] == [3, 2];
    assert [1, 2][1..] == [2] && [3, 2][1..] == [2] && [2][1..] == [];
    assert Sort([2]) == [2];
  }
}
