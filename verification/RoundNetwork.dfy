// The parties of one session, each with its own bridge, joined by first-in first-out links.
// Every interleaving of starts and deliveries is shown to carry out the lock-step execution.
module RoundNetwork {
  import opened Basics
  import opened Rounds
  import opened Bridge
  import opened LockStep

  /**
   * One party. `inbox[j]` is the link from party j; `received` and `handed` are history: deliveries
   * per sender, and the batches handed to the driver so far.
   */
  datatype Node<S, B, O> = Node(
    bridge: BridgeState<S, B>,
    started: bool,
    outcome: Outcome<O>,
    inbox: seq<seq<RoundMsg<B>>>,
    received: seq<nat>,
    handed: seq<seq<Msg<B>>>)

  type Net<S, B, O> = seq<Node<S, B, O>>

  datatype Action = StartParty(i: nat) | Deliver(j: nat, i: nat)

  function InitialNode<S, B, O>(p: Protocol<S, B, O>, i: nat): Node<S, B, O>
    requires i < p.N()
  {
    Node(BridgeState(Some(p.init[i]), BufferState(FixedRounds(p.rounds, p.N() - 1), map[])),
         false, Pending, seq(p.N(), _ => []), seq(p.N(), _ => 0), [])
  }

  function Initial<S, B, O>(p: Protocol<S, B, O>): Net<S, B, O> {
    seq(p.N(), i requires 0 <= i < p.N() => InitialNode(p, i))
  }

  /** A party keeps taking events until its driver completes or fails. */
  predicate Running<S, B, O>(nd: Node<S, B, O>) {
    nd.started && nd.outcome.Pending?
  }

  predicate Enabled<S, B, O>(p: Protocol<S, B, O>, net: Net<S, B, O>, a: Action) {
    match a
    case StartParty(i) => i < |net| && !net[i].started
    case Deliver(j, i) =>
      && i < |net| && j < |net| && Running(net[i])
      && |net[i].inbox| == |net| && |net[i].received| == |net| && net[i].inbox[j] != []
  }

  /** A party's node after it took the oldest message of one link, and what it sent in response. */
  function Take<S, B, O>(p: Protocol<S, B, O>, i: nat, nd: Node<S, B, O>, j: nat): (Node<S, B, O>, seq<Send<B>>)
    requires p.WellFormed() && i < p.N()
    requires j < |nd.inbox| && j < |nd.received| && nd.inbox[j] != []
  {
    var event := JsonMessage(Some(p.session.id), Some(nd.inbox[j][0]));
    var step := Handle(p.driver, p.session, p.KeyOf(i), nd.bridge, event);
    (nd.(bridge := step.state,
         outcome := step.outcome,
         inbox := nd.inbox[j := nd.inbox[j][1..]],
         received := nd.received[j := nd.received[j] + 1],
         handed := if step.handed == [] then nd.handed else nd.handed + [step.handed]),
     step.sends)
  }

  function Launch<S, B, O>(p: Protocol<S, B, O>, i: nat, nd: Node<S, B, O>): (Node<S, B, O>, seq<Send<B>>)
    requires p.WellFormed() && i < p.N()
  {
    var step := Start(p.driver, p.session, p.KeyOf(i), nd.bridge);
    (nd.(bridge := step.state, outcome := step.outcome, started := true), step.sends)
  }

  function PostTo<S, B, O>(nd: Node<S, B, O>, from: nat, ms: seq<RoundMsg<B>>): Node<S, B, O> {
    if from < |nd.inbox| then nd.(inbox := nd.inbox[from := nd.inbox[from] + ms]) else nd
  }

  /** Party `from` puts its messages on its outgoing links. */
  function Post<S, B, O>(p: Protocol<S, B, O>, net: Net<S, B, O>, from: nat, sends: seq<Send<B>>): Net<S, B, O>
    requires p.WellFormed() && |net| == p.N()
  {
    seq(|net|, k requires 0 <= k < |net| => PostTo(net[k], from, SentTo(sends, p.KeyOf(k))))
  }

  function Apply<S, B, O>(p: Protocol<S, B, O>, net: Net<S, B, O>, a: Action): (net': Net<S, B, O>)
    requires p.WellFormed() && |net| == p.N() && Enabled(p, net, a)
    ensures |net'| == |net|
  {
    match a
    case StartParty(i) =>
      var (nd, sends) := Launch(p, i, net[i]);
      Post(p, net[i := nd], i, sends)
    case Deliver(j, i) =>
      var (nd, sends) := Take(p, i, net[i], j);
      Post(p, net[i := nd], i, sends)
  }

  /** The network after a sequence of actions, if each was enabled when taken. */
  function Exec<S, B, O>(p: Protocol<S, B, O>, actions: seq<Action>): Option<Net<S, B, O>>
    requires p.WellFormed()
    ensures Exec(p, actions).Some? ==> |Exec(p, actions).value| == p.N()
  {
    if actions == [] then Some(Initial(p))
    else
      var last := |actions| - 1;
      match Exec(p, actions[..last])
      case None => None
      case Some(net) => if Enabled(p, net, actions[last]) then Some(Apply(p, net, actions[last])) else None
  }

  // ---------------------------------------------------------------------------
  // The invariant.

  /** The contract under which the theorems hold. */
  ghost predicate Contract<S(!new), B(!new), O>(p: Protocol<S, B, O>, eq: (S, S) -> bool) {
    p.WellFormed() && Healthy(p) && Indifferent(p.driver, eq)
  }

  /** How many rounds of messages a party has put on its links. */
  function Sent<S, B, O>(p: Protocol<S, B, O>, nd: Node<S, B, O>): nat {
    if !nd.started then 0
    else if |nd.handed| < p.rounds then |nd.handed| + 1
    else p.rounds
  }

  /** The messages of rounds lo+1 .. hi on the link from j to i. */
  ghost function Flight<S, B, O>(p: Protocol<S, B, O>, j: nat, i: nat, lo: nat, hi: nat): seq<RoundMsg<B>>
    requires p.WellFormed() && i < p.N() && j < p.N()
    decreases hi
  {
    if hi <= lo then [] else Flight(p, j, i, lo, hi - 1) + OnWire(p, hi, j, i)
  }

  /** The messages of a round that have arrived, given how many rounds each party has delivered. */
  function Arrived<T>(row: seq<seq<T>>, r: nat, received: seq<nat>, m: nat): seq<T>
    requires m <= |row| == |received|
  {
    if m == 0 then []
    else Arrived(row, r, received, m - 1) + (if received[m - 1] >= r then row[m - 1] else [])
  }

  /** Every other party's first k messages were delivered to party i. */
  predicate AllReceived(received: seq<nat>, i: nat, k: nat) {
    forall j :: 0 <= j < |received| && j != i ==> received[j] >= k
  }

  /** The batch held for a round is what has arrived of it, in some order. */
  ghost predicate BatchInv<S, B, O>(p: Protocol<S, B, O>, i: nat, buffer: BufferState<Msg<B>>, received: seq<nat>,
                                    r: RoundNumber)
    requires p.WellFormed() && i < p.N() && |received| == p.N()
  {
    multiset(buffer.Batch(r)) == multiset(Arrived(Row(p, r, i), r, received, p.N()))
  }

  ghost predicate BufferInv<S, B, O>(p: Protocol<S, B, O>, i: nat, nd: Node<S, B, O>)
    requires p.WellFormed() && i < p.N() && |nd.received| == p.N()
  {
    && nd.bridge.buffer.expected == FixedRounds(p.rounds, p.N() - 1)
    && (forall r: RoundNumber :: r <= |nd.handed| ==> r !in nd.bridge.buffer.messages)
    && (forall r: RoundNumber :: |nd.handed| < r <= p.rounds ==> BatchInv(p, i, nd.bridge.buffer, nd.received, r))
    && (forall r: RoundNumber :: r > p.rounds ==> r !in nd.bridge.buffer.messages)
  }

  /** After k rounds the driver is where the lock-step execution has it. */
  ghost predicate Mirrors<S(!new), B, O>(p: Protocol<S, B, O>, eq: (S, S) -> bool, i: nat, k: nat, driver: Option<S>,
                                         outcome: Outcome<O>)
    requires p.WellFormed() && i < p.N()
  {
    && (k < p.rounds ==>
          && outcome == Pending && driver.Some? && TurnOf(p, k, i).Ok?
          && eq(driver.value, TurnOf(p, k, i).value.state))
    && (k == p.rounds ==> driver.None? && OutputOf(p, i).Ok? && outcome == Complete(OutputOf(p, i).value))
  }

  ghost predicate DriverInv<S(!new), B, O>(p: Protocol<S, B, O>, eq: (S, S) -> bool, i: nat, nd: Node<S, B, O>)
    requires p.WellFormed() && i < p.N()
  {
    var k := |nd.handed|;
    && (!nd.started ==> k == 0 && nd.bridge.driver == Some(p.init[i]) && nd.outcome == Pending)
    && (nd.started ==> Mirrors(p, eq, i, k, nd.bridge.driver, nd.outcome))
  }

  ghost predicate HandedInv<S, B, O>(p: Protocol<S, B, O>, i: nat, handed: seq<seq<Msg<B>>>)
    requires p.WellFormed() && i < p.N()
  {
    forall r :: 0 <= r < |handed| ==> multiset(handed[r]) == multiset(Inbox(p, r + 1, i))
  }

  ghost predicate NodeInv<S(!new), B, O>(p: Protocol<S, B, O>, eq: (S, S) -> bool, i: nat, nd: Node<S, B, O>)
    requires p.WellFormed() && i < p.N()
  {
    && |nd.inbox| == p.N() && |nd.received| == p.N()
    && |nd.handed| <= p.rounds
    && nd.received[i] == 0
    && AllReceived(nd.received, i, |nd.handed|)
    && (!nd.started ==> forall j :: 0 <= j < p.N() ==> nd.received[j] == 0)
    && (p.N() > 1 && |nd.handed| < p.rounds ==> !AllReceived(nd.received, i, |nd.handed| + 1))
    && DriverInv(p, eq, i, nd)
    && BufferInv(p, i, nd)
    && HandedInv(p, i, nd.handed)
  }

  /** A link holds exactly the rounds its sender put on it and its receiver has not yet taken. */
  ghost predicate LinkInv<S, B, O>(p: Protocol<S, B, O>, j: nat, sent: nat, i: nat, nd: Node<S, B, O>)
    requires p.WellFormed() && i < p.N() && j < p.N()
  {
    && |nd.inbox| == p.N() && |nd.received| == p.N()
    && nd.received[j] <= sent
    && (if i == j then nd.inbox[j] == [] else nd.inbox[j] == Flight(p, j, i, nd.received[j], sent))
  }

  ghost predicate NetInv<S(!new), B, O>(p: Protocol<S, B, O>, eq: (S, S) -> bool, net: Net<S, B, O>)
    requires p.WellFormed()
  {
    && |net| == p.N()
    && (forall i :: 0 <= i < p.N() ==> NodeInv(p, eq, i, net[i]))
    && (forall i, j :: 0 <= i < p.N() && 0 <= j < p.N() ==> LinkInv(p, j, Sent(p, net[j]), i, net[i]))
  }

  // ---------------------------------------------------------------------------
  // Messages on the links.

  lemma WireCarriesOne<S(!new), B(!new), O>(p: Protocol<S, B, O>, r: nat, j: nat, i: nat)
    requires p.WellFormed() && Healthy(p) && i < p.N() && j < p.N() && 1 <= r <= p.rounds
    ensures |OnWire(p, r, j, i)| == if i == j then 0 else 1
    ensures forall m <- OnWire(p, r, j, i) :: m.round == r && m.sender == j + 1
  {
    OneMessagePerWire(p, j, i, TurnOf(p, r - 1, j).value.out, r);
  }

  lemma {:induction false} FlightHead<S(!new), B(!new), O>(p: Protocol<S, B, O>, j: nat, i: nat, lo: nat, hi: nat)
    requires p.WellFormed() && i < p.N() && j < p.N() && lo < hi
    ensures Flight(p, j, i, lo, hi) == OnWire(p, lo + 1, j, i) + Flight(p, j, i, lo + 1, hi)
    decreases hi
  {
    if lo + 1 == hi {
      assert Flight(p, j, i, lo, hi - 1) == [];
    } else {
      FlightHead(p, j, i, lo, hi - 1);
    }
  }

  /** The oldest message of a link, and what stays behind it. */
  lemma FlightSplit<S(!new), B(!new), O>(p: Protocol<S, B, O>, j: nat, i: nat, lo: nat, hi: nat)
    requires p.WellFormed() && Healthy(p) && i < p.N() && j < p.N() && i != j && hi <= p.rounds
    requires Flight(p, j, i, lo, hi) != []
    ensures lo < hi && OnWire(p, lo + 1, j, i) == [Flight(p, j, i, lo, hi)[0]]
    ensures Flight(p, j, i, lo, hi)[0].round == lo + 1 && Flight(p, j, i, lo, hi)[0].sender == j + 1
    ensures Flight(p, j, i, lo, hi)[1..] == Flight(p, j, i, lo + 1, hi)
  {
    FlightHead(p, j, i, lo, hi);
    WireCarriesOne(p, lo + 1, j, i);
    var w := OnWire(p, lo + 1, j, i);
    assert w == [w[0]];
  }

  /** What party j contributes to a round of party i: one message, or none when j is i. */
  ghost predicate SingleFrom<B>(cell: seq<Msg<B>>, i: nat, j: nat) {
    && |cell| == (if j == i then 0 else 1)
    && forall x :: 0 <= x < |cell| ==> cell[x].sender == j + 1
  }

  ghost predicate SingleRow<B>(row: seq<seq<Msg<B>>>, i: nat) {
    forall j :: 0 <= j < |row| ==> SingleFrom(row[j], i, j)
  }

  lemma RowIsSingle<S(!new), B(!new), O>(p: Protocol<S, B, O>, r: nat, i: nat)
    requires p.WellFormed() && Healthy(p) && i < p.N() && 1 <= r <= p.rounds
    ensures SingleRow(Row(p, r, i), i)
  {
    var row := Row(p, r, i);
    forall j | 0 <= j < |row|
      ensures SingleFrom(row[j], i, j)
    {
      WireCarriesOne(p, r, j, i);
      var w := OnWire(p, r, j, i);
      assert row[j] == AsMsgs(w);
      if j != i {
        assert w[0] in w;
      }
    }
  }

  lemma {:induction false} ArrivedSame<T>(row: seq<seq<T>>, r: nat, received: seq<nat>, received': seq<nat>, m: nat)
    requires m <= |row| == |received| == |received'|
    requires forall x :: 0 <= x < m ==> (received[x] >= r <==> received'[x] >= r)
    ensures Arrived(row, r, received', m) == Arrived(row, r, received, m)
  {
    if m > 0 {
      ArrivedSame(row, r, received, received', m - 1);
    }
  }

  lemma AppendBoth<T>(a: seq<T>, b: seq<T>, x: seq<T>, last: seq<T>)
    requires multiset(a) == multiset(b) + multiset(x)
    ensures multiset(a + last) == multiset(b + last) + multiset(x)
  {
  }

  lemma {:induction false} ArrivedMore<T>(row: seq<seq<T>>, r: nat, received: seq<nat>, received': seq<nat>, j: nat,
                                          m: nat)
    requires j < m <= |row| == |received| == |received'|
    requires forall x :: 0 <= x < m && x != j ==> (received[x] >= r <==> received'[x] >= r)
    requires received[j] < r <= received'[j]
    ensures multiset(Arrived(row, r, received', m)) == multiset(Arrived(row, r, received, m)) + multiset(row[j])
  {
    var was, now := Arrived(row, r, received, m - 1), Arrived(row, r, received', m - 1);
    if m - 1 == j {
      ArrivedSame(row, r, received, received', m - 1);
      assert was + [] == was;
    } else {
      ArrivedMore(row, r, received, received', j, m - 1);
      AppendBoth(now, was, row[j], if received[m - 1] >= r then row[m - 1] else []);
    }
  }

  /** How many parties below m are not i. */
  function OthersBelow(i: nat, m: nat): int {
    if m > i then m - 1 else m
  }

  lemma {:induction false} ArrivedBound<B>(row: seq<seq<Msg<B>>>, r: nat, i: nat, received: seq<nat>, m: nat)
    requires m <= |row| == |received| && SingleRow(row, i)
    ensures |Arrived(row, r, received, m)| <= OthersBelow(i, m)
  {
    if m > 0 {
      ArrivedBound(row, r, i, received, m - 1);
      assert SingleFrom(row[m - 1], i, m - 1);
    }
  }

  lemma {:induction false} ArrivedShort<B>(row: seq<seq<Msg<B>>>, r: nat, i: nat, received: seq<nat>, j: nat, m: nat)
    requires j < m <= |row| == |received| && SingleRow(row, i)
    requires j != i && received[j] < r
    ensures |Arrived(row, r, received, m)| < OthersBelow(i, m)
  {
    if m - 1 == j {
      ArrivedBound(row, r, i, received, m - 1);
    } else {
      ArrivedShort(row, r, i, received, j, m - 1);
      assert SingleFrom(row[m - 1], i, m - 1);
    }
  }

  lemma {:induction false} ArrivedFull<B>(row: seq<seq<Msg<B>>>, r: nat, i: nat, received: seq<nat>, m: nat)
    requires m <= |row| == |received| && SingleRow(row, i)
    requires AllReceived(received, i, r)
    ensures Arrived(row, r, received, m) == Gather(row, m)
    ensures |Arrived(row, r, received, m)| == OthersBelow(i, m)
  {
    if m > 0 {
      ArrivedFull(row, r, i, received, m - 1);
      assert SingleFrom(row[m - 1], i, m - 1);
    }
  }

  /** A round is complete at party i exactly when all others' messages of that round arrived. */
  lemma RoundCompleteIff<B>(row: seq<seq<Msg<B>>>, r: nat, i: nat, received: seq<nat>)
    requires |row| == |received| && SingleRow(row, i) && i < |row|
    ensures |Arrived(row, r, received, |row|)| == |row| - 1 <==> AllReceived(received, i, r)
    ensures AllReceived(received, i, r) ==> Arrived(row, r, received, |row|) == Gather(row, |row|)
  {
    if AllReceived(received, i, r) {
      ArrivedFull(row, r, i, received, |row|);
    } else {
      var j :| 0 <= j < |received| && j != i && received[j] < r;
      ArrivedShort(row, r, i, received, j, |row|);
    }
  }

  lemma {:induction false} GatherSenders<B>(row: seq<seq<Msg<B>>>, i: nat, m: nat)
    requires m <= |row| && SingleRow(row, i)
    ensures forall a :: 0 <= a < |Gather(row, m)| ==> Gather(row, m)[a].sender <= m
    ensures DistinctSenders(Gather(row, m))
  {
    if m > 0 {
      GatherSenders(row, i, m - 1);
      assert SingleFrom(row[m - 1], i, m - 1);
    }
  }

  // ---------------------------------------------------------------------------
  // One party's step.

  /** The sends that take a party from `a` announced rounds to `b`. */
  ghost predicate Announces<S, B, O>(p: Protocol<S, B, O>, i: nat, sends: seq<Send<B>>, a: nat, b: nat)
    requires p.WellFormed() && i < p.N()
  {
    || (a == b && sends == [])
    || (b == a + 1 && b <= p.rounds && forall k :: 0 <= k < p.N() ==> SentTo(sends, p.KeyOf(k)) == OnWire(p, b, i, k))
  }

  /** Dispatching the messages of a lock-step turn announces exactly the next round. */
  lemma DispatchAnnounces<S(!new), B(!new), O>(p: Protocol<S, B, O>, k: nat, i: nat)
    requires p.WellFormed() && Healthy(p) && i < p.N() && k < p.rounds
    ensures TurnOf(p, k, i).Ok?
    ensures var d := Dispatch(p.session, p.KeyOf(i), TurnOf(p, k, i).value.out);
            d.Ok? && Announces(p, i, d.value, k, k + 1)
  {
    var out := TurnOf(p, k, i).value.out;
    OneMessagePerWire(p, i, i, out, k + 1);
    var d := Dispatch(p.session, p.KeyOf(i), out);
    forall x | 0 <= x < p.N()
      ensures SentTo(d.value, p.KeyOf(x)) == OnWire(p, k + 1, i, x)
    {
      assert OnWire(p, k + 1, i, x) == Wire(p, i, x, out);
    }
  }

  lemma LaunchKeeps<S(!new), B(!new), O>(p: Protocol<S, B, O>, eq: (S, S) -> bool, i: nat, nd: Node<S, B, O>)
    requires Contract(p, eq) && i < p.N() && NodeInv(p, eq, i, nd) && !nd.started
    ensures var (nd', sends) := Launch(p, i, nd);
            && NodeInv(p, eq, i, nd')
            && nd'.inbox == nd.inbox && nd'.received == nd.received
            && Announces(p, i, sends, Sent(p, nd), Sent(p, nd'))
  {
    DispatchAnnounces(p, 0, i);
    var (nd', sends) := Launch(p, i, nd);
    assert p.driver.proceed(p.init[i]).Ok?;
    assert TurnOf(p, 0, i).value == Turn(p.driver.proceed(p.init[i]).value.0, p.driver.proceed(p.init[i]).value.1);
    assert nd'.bridge.buffer == nd.bridge.buffer;
    assert BufferInv(p, i, nd');
  }

  /** What a running party knows about the message it is about to take. */
  lemma NextMessage<S(!new), B(!new), O>(p: Protocol<S, B, O>, eq: (S, S) -> bool, i: nat, nd: Node<S, B, O>, j: nat,
                                         sent: nat)
    requires Contract(p, eq) && i < p.N() && j < p.N() && NodeInv(p, eq, i, nd) && LinkInv(p, j, sent, i, nd)
    requires sent <= p.rounds && Running(nd) && nd.inbox[j] != []
    ensures i != j && nd.received[j] < sent && |nd.handed| < p.rounds
    ensures nd.inbox[j][0].round == nd.received[j] + 1
    ensures OnWire(p, nd.received[j] + 1, j, i) == [nd.inbox[j][0]]
    ensures nd.inbox[j][1..] == Flight(p, j, i, nd.received[j] + 1, sent)
  {
    hide Healthy, Indifferent, TurnOf;
    FlightSplit(p, j, i, nd.received[j], sent);
  }

  lemma AddToBatch<S, B, O>(p: Protocol<S, B, O>, i: nat, buffer: BufferState<Msg<B>>, received: seq<nat>, j: nat,
                            m: RoundMsg<B>, received': seq<nat>)
    requires p.WellFormed() && i < p.N() && j < p.N() && i != j && |received| == p.N()
    requires BatchInv(p, i, buffer, received, m.round)
    requires m.round == received[j] + 1 && OnWire(p, m.round, j, i) == [m]
    requires received' == received[j := m.round]
    ensures BatchInv(p, i, buffer.Add(m.round, m.ToMsg()), received', m.round)
  {
    var r, x := m.round, m.ToMsg();
    var batch, row := buffer.Batch(r), Row(p, m.round, i);
    ArrivedMore(row, r, received, received', j, p.N());
    assert row[j] == [x];
    assert multiset(batch + [x]) == multiset(batch) + multiset([x]);
    assert buffer.Add(r, x).Batch(r) == batch + [x];
  }

  /** Adding the next message of a link keeps each round's batch equal to what has arrived. */
  lemma AddKeepsBatches<S, B, O>(p: Protocol<S, B, O>, i: nat, buffer: BufferState<Msg<B>>, received: seq<nat>,
                                 j: nat, m: RoundMsg<B>, received': seq<nat>, r: RoundNumber)
    requires p.WellFormed() && i < p.N() && j < p.N() && i != j && |received| == p.N()
    requires BatchInv(p, i, buffer, received, r)
    requires m.round == received[j] + 1 && OnWire(p, m.round, j, i) == [m]
    requires received' == received[j := m.round]
    ensures BatchInv(p, i, buffer.Add(m.round, m.ToMsg()), received', r)
  {
    if r == m.round {
      AddToBatch(p, i, buffer, received, j, m, received');
    } else {
      ArrivedSame(Row(p, r, i), r, received, received', p.N());
      assert buffer.Add(m.round, m.ToMsg()).Batch(r) == buffer.Batch(r);
    }
  }

  /** A batch is ready exactly when everything of its round arrived. */
  lemma ReadyIffComplete<S(!new), B(!new), O>(p: Protocol<S, B, O>, i: nat, buffer: BufferState<Msg<B>>,
                                              received: seq<nat>, r: RoundNumber)
    requires p.WellFormed() && Healthy(p) && i < p.N() && r <= p.rounds && |received| == p.N()
    requires buffer.expected == FixedRounds(p.rounds, p.N() - 1) && r in buffer.messages
    requires BatchInv(p, i, buffer, received, r)
    ensures buffer.IsReady(r) <==> AllReceived(received, i, r)
    ensures buffer.IsReady(r) ==> multiset(buffer.Batch(r)) == multiset(Inbox(p, r, i))
  {
    var row := Row(p, r, i);
    RowIsSingle(p, r, i);
    RoundCompleteIff(row, r, i, received);
    assert |multiset(buffer.Batch(r))| == |buffer.Batch(r)|;
    var arrived := Arrived(row, r, received, p.N());
    assert |multiset(arrived)| == |arrived|;
    assert Configured(r, p.rounds);
  }

  /** Only the round being collected can become complete. */
  lemma OnlyCurrentCompletes(received: seq<nat>, i: nat, j: nat, k: nat)
    requires i < |received| && j < |received| && i != j && received[j] >= k
    requires !AllReceived(received, i, k + 1)
    ensures AllReceived(received[j := received[j] + 1], i, received[j] + 1) ==> received[j] == k
    ensures AllReceived(received[j := received[j] + 1], i, k + 1) ==> received[j] == k
    ensures received[j] == k ==> !AllReceived(received[j := received[j] + 1], i, k + 2)
  {
    var x :| 0 <= x < |received| && x != i && received[x] < k + 1;
    if received[j] > k {
      assert x != j;
      assert received[j := received[j] + 1][x] == received[x];
    } else {
      assert received[j := received[j] + 1][j] == k + 1;
    }
  }

  lemma TakeReadyIff<S(!new), B(!new), O>(p: Protocol<S, B, O>, i: nat, nd: Node<S, B, O>, j: nat, m: RoundMsg<B>,
                                          buffer: BufferState<Msg<B>>, received': seq<nat>)
    requires p.WellFormed() && Healthy(p) && i < p.N() && j < p.N() && i != j && |nd.received| == p.N()
    requires BufferInv(p, i, nd) && |nd.handed| <= nd.received[j]
    requires !AllReceived(nd.received, i, |nd.handed| + 1)
    requires m.round == nd.received[j] + 1 <= p.rounds && OnWire(p, m.round, j, i) == [m]
    requires buffer == nd.bridge.buffer.Add(m.round, m.ToMsg()) && received' == nd.received[j := nd.received[j] + 1]
    ensures buffer.IsReady(m.round) <==> AllReceived(received', i, |nd.handed| + 1)
    ensures buffer.IsReady(m.round) ==> m.round == |nd.handed| + 1 && !AllReceived(received', i, |nd.handed| + 2)
    ensures buffer.IsReady(m.round) ==> multiset(buffer.Batch(m.round)) == multiset(Inbox(p, m.round, i))
  {
    hide Healthy, TurnOf, OnWire, Row, Gather, Arrived;
    var r := m.round;
    assert BatchInv(p, i, nd.bridge.buffer, nd.received, r);
    AddKeepsBatches(p, i, nd.bridge.buffer, nd.received, j, m, received', r);
    ReadyIffComplete(p, i, buffer, received', r);
    OnlyCurrentCompletes(nd.received, i, j, |nd.handed|);
  }

  /** The buffer after one more message, seen from the round being collected. */
  lemma AddKeepsBuffer<S, B, O>(p: Protocol<S, B, O>, i: nat, nd: Node<S, B, O>, j: nat, m: RoundMsg<B>,
                                nd': Node<S, B, O>)
    requires p.WellFormed() && i < p.N() && j < p.N() && i != j && |nd.received| == p.N()
    requires BufferInv(p, i, nd) && |nd.handed| <= nd.received[j]
    requires m.round == nd.received[j] + 1 <= p.rounds && OnWire(p, m.round, j, i) == [m]
    requires nd'.handed == nd.handed && nd'.received == nd.received[j := nd.received[j] + 1]
    requires nd'.bridge.buffer == nd.bridge.buffer.Add(m.round, m.ToMsg())
    ensures BufferInv(p, i, nd')
  {
    hide BatchInv, OnWire;
    forall r: RoundNumber | |nd.handed| < r <= p.rounds
      ensures BatchInv(p, i, nd'.bridge.buffer, nd'.received, r)
    {
      assert BatchInv(p, i, nd.bridge.buffer, nd.received, r);
      AddKeepsBatches(p, i, nd.bridge.buffer, nd.received, j, m, nd'.received, r);
    }
  }

  /** A message that does not complete a round is only buffered. */
  lemma TakeBuffers<S(!new), B(!new), O>(p: Protocol<S, B, O>, eq: (S, S) -> bool, i: nat, nd: Node<S, B, O>, j: nat,
                                         sent: nat)
    requires Contract(p, eq) && i < p.N() && j < p.N() && NodeInv(p, eq, i, nd) && LinkInv(p, j, sent, i, nd)
    requires sent <= p.rounds && Running(nd) && nd.inbox[j] != []
    requires !nd.bridge.buffer.Add(nd.inbox[j][0].round, nd.inbox[j][0].ToMsg()).IsReady(nd.inbox[j][0].round)
    ensures var (nd', sends) := Take(p, i, nd, j);
            && NodeInv(p, eq, i, nd') && LinkInv(p, j, sent, i, nd')
            && sends == [] && Sent(p, nd') == Sent(p, nd)
  {
    hide Healthy, Indifferent, TurnOf, OnWire, Row, Gather, Arrived;
    NextMessage(p, eq, i, nd, j, sent);
    var m := nd.inbox[j][0];
    var (nd', sends) := Take(p, i, nd, j);
    TakeReadyIff(p, i, nd, j, m, nd.bridge.buffer.Add(m.round, m.ToMsg()), nd'.received);
    AddKeepsBuffer(p, i, nd, j, m, nd');
  }

  /** Handing over the batch of the round being collected leads to the lock-step state. */
  lemma BatchCollects<S(!new), B(!new), O>(p: Protocol<S, B, O>, eq: (S, S) -> bool, round: nat, i: nat, s: S,
                                           batch: seq<Msg<B>>)
    requires Contract(p, eq) && i < p.N() && 1 <= round <= p.rounds
    requires TurnOf(p, round - 1, i).Ok? && eq(s, TurnOf(p, round - 1, i).value.state)
    requires multiset(batch) == multiset(Inbox(p, round, i))
    ensures Collected(p, round, i).Ok?
    ensures HandleAll(p.driver, s, batch).Ok?
    ensures eq(HandleAll(p.driver, s, batch).value, Collected(p, round, i).value)
  {
    var t := TurnOf(p, round - 1, i).value.state;
    var inbox := Inbox(p, round, i);
    RowIsSingle(p, round, i);
    GatherSenders(Row(p, round, i), i, p.N());
    assert OutputOf(p, i).Ok?;
    HandleAllPermuted(p.driver, eq, t, s, inbox, batch);
    assert Collected(p, round, i) == HandleAll(p.driver, t, inbox);
    assert Collected(p, round, i).Ok? by {
      if round < p.rounds || p.rounds > 1 {
        assert TurnOf(p, round, i).Ok?;
      } else {
        assert LastState(p, i).Ok?;
      }
    }
  }

  lemma FinishAgrees<S(!new), B(!new), O>(p: Protocol<S, B, O>, eq: (S, S) -> bool, i: nat, s: S, t: S)
    requires Contract(p, eq) && i < p.N() && eq(s, t) && LastState(p, i) == Ok(t)
    ensures OutputOf(p, i).Ok? && p.driver.finish(s) == OutputOf(p, i)
  {
    assert OutputOf(p, i).Ok?;
    assert p.driver.finish(s) == p.driver.finish(t) || (p.driver.finish(s).Err? && p.driver.finish(t).Err?);
  }

  lemma ProceedAgrees<S(!new), B(!new), O>(p: Protocol<S, B, O>, eq: (S, S) -> bool, k: nat, i: nat, s: S)
    requires Contract(p, eq) && i < p.N() && 1 < p.rounds && 1 <= k <= p.rounds
    requires Collected(p, k, i).Ok? && eq(s, Collected(p, k, i).value)
    ensures TurnOf(p, k, i).Ok? && p.driver.proceed(s).Ok?
    ensures eq(p.driver.proceed(s).value.0, TurnOf(p, k, i).value.state)
    ensures p.driver.proceed(s).value.1 == TurnOf(p, k, i).value.out
    ensures k == p.rounds ==> TurnOf(p, k, i).value.out == []
  {
    assert TurnOf(p, k, i).Ok?;
    var t := Collected(p, k, i).value;
    assert p.driver.proceed(t).Ok?;
    assert eq(s, t);
  }

  lemma AdvanceValue<S, B, O>(p: Protocol<S, B, O>, own: Key, st: BridgeState<S, B>, round: RoundNumber,
                              batch: seq<Msg<B>>,
                              s1: S, s2: S, out: seq<RoundMsg<B>>, sends: seq<Send<B>>)
    requires st.driver.Some? && st.buffer.Len() != 1
    requires HandleAll(p.driver, st.driver.value, batch) == Ok(s1)
    requires p.driver.proceed(s1) == Ok((s2, out)) && Dispatch(p.session, own, out) == Ok(sends)
    ensures Advance(p.driver, p.session, own, st, round, batch) ==
            if round == st.buffer.Len() then Finish(p.driver, st, s2, batch, sends)
            else Step(st.(driver := Some(s2)), Pending, batch, sends)
  {
  }

  /** The last round of a single-round driver: no further `proceed`. */
  lemma AdvanceSingle<S(!new), B(!new), O>(p: Protocol<S, B, O>, eq: (S, S) -> bool, i: nat, st: BridgeState<S, B>,
                                           batch: seq<Msg<B>>, s1: S)
    requires Contract(p, eq) && i < p.N() && p.rounds == 1 && Collected(p, 1, i).Ok?
    requires st.driver.Some? && st.buffer.Len() == 1
    requires HandleAll(p.driver, st.driver.value, batch) == Ok(s1) && eq(s1, Collected(p, 1, i).value)
    ensures var step := Advance(p.driver, p.session, p.KeyOf(i), st, 1, batch);
            && step.handed == batch && step.state.buffer == st.buffer && step.sends == []
            && Mirrors(p, eq, i, 1, step.state.driver, step.outcome)
  {
    FinishAgrees(p, eq, i, s1, Collected(p, 1, i).value);
  }

  lemma AdvanceSeveral<S(!new), B(!new), O>(p: Protocol<S, B, O>, eq: (S, S) -> bool, i: nat, st: BridgeState<S, B>,
                                            batch: seq<Msg<B>>, s1: S, round: RoundNumber)
    requires Contract(p, eq) && i < p.N() && 1 < p.rounds && round <= p.rounds && Collected(p, round, i).Ok?
    requires st.driver.Some? && st.buffer.Len() == p.rounds
    requires HandleAll(p.driver, st.driver.value, batch) == Ok(s1) && eq(s1, Collected(p, round, i).value)
    ensures var step := Advance(p.driver, p.session, p.KeyOf(i), st, round, batch);
            && step.handed == batch && step.state.buffer == st.buffer
            && Mirrors(p, eq, i, round, step.state.driver, step.outcome)
            && Announces(p, i, step.sends, round, if round < p.rounds then round + 1 else p.rounds)
  {
    ProceedAgrees(p, eq, round, i, s1);
    var (s2, out) := p.driver.proceed(s1).value;
    if round < p.rounds {
      DispatchAnnounces(p, round, i);
      AdvanceValue(p, p.KeyOf(i), st, round, batch, s1, s2, out, Dispatch(p.session, p.KeyOf(i), out).value);
    } else {
      FinishAgrees(p, eq, i, s2, TurnOf(p, round, i).value.state);
      assert Addressed<B>(p.session, []) == Ok([]);
      AdvanceValue(p, p.KeyOf(i), st, round, batch, s1, s2, out, []);
    }
  }

  lemma AdvanceMirrors<S(!new), B(!new), O>(p: Protocol<S, B, O>, eq: (S, S) -> bool, i: nat, st: BridgeState<S, B>,
                                            batch: seq<Msg<B>>, k: nat, round: RoundNumber, step: Step<S, B, O>)
    requires Contract(p, eq) && i < p.N() && round <= p.rounds && round == k + 1
    requires Mirrors<S, B, O>(p, eq, i, k, st.driver, Pending)
    requires st.buffer.Len() == p.rounds
    requires multiset(batch) == multiset(Inbox(p, round, i))
    requires step == Advance(p.driver, p.session, p.KeyOf(i), st, round, batch)
    ensures step.handed == batch && step.state.buffer == st.buffer
    ensures Mirrors(p, eq, i, round, step.state.driver, step.outcome)
    ensures Announces(p, i, step.sends, round, if round < p.rounds then round + 1 else p.rounds)
  {
    BatchCollects(p, eq, round, i, st.driver.value, batch);
    var s1 := HandleAll(p.driver, st.driver.value, batch).value;
    if p.rounds == 1 {
      AdvanceSingle(p, eq, i, st, batch, s1);
      return;
    }
    AdvanceSeveral(p, eq, i, st, batch, s1, round);
  }

  lemma WithoutKeepsBuffer<S, B, O>(p: Protocol<S, B, O>, i: nat, nd: Node<S, B, O>, nd': Node<S, B, O>, r: RoundNumber)
    requires p.WellFormed() && i < p.N() && |nd.received| == p.N()
    requires BufferInv(p, i, nd) && r == |nd.handed| + 1 == |nd'.handed|
    requires nd'.received == nd.received && nd'.bridge.buffer == nd.bridge.buffer.Without(r)
    ensures BufferInv(p, i, nd')
  {
    forall x: RoundNumber | |nd'.handed| < x <= p.rounds
      ensures BatchInv(p, i, nd'.bridge.buffer, nd'.received, x)
    {
      assert BatchInv(p, i, nd.bridge.buffer, nd.received, x);
      assert nd'.bridge.buffer.Batch(x) == nd.bridge.buffer.Batch(x);
    }
  }

  /** The step of a completing message, spelled out. */
  lemma TakeValue<S, B, O>(p: Protocol<S, B, O>, i: nat, nd: Node<S, B, O>, j: nat, m: RoundMsg<B>, step: Step<S, B, O>)
    requires p.WellFormed() && i < p.N() && j < |nd.inbox| && j < |nd.received| && nd.inbox[j] != []
             && m == nd.inbox[j][0]
    requires nd.bridge.buffer.Add(m.round, m.ToMsg()).IsReady(m.round)
    requires var buffer := nd.bridge.buffer.Add(m.round, m.ToMsg());
             step == Advance(p.driver, p.session, p.KeyOf(i), nd.bridge.(buffer := buffer.Without(m.round)), m.round,
                             buffer.Batch(m.round))
    ensures Take(p, i, nd, j) == (AfterStep(nd, j, step), step.sends)
  {
  }

  lemma CompletedNodeInv<S(!new), B(!new), O>(p: Protocol<S, B, O>, eq: (S, S) -> bool, i: nat, nd: Node<S, B, O>,
                                              j: nat, batch: seq<Msg<B>>, round: nat, nd': Node<S, B, O>)
    requires p.WellFormed() && i < p.N() && j < p.N() && i != j && NodeInv(p, eq, i, nd) && Running(nd)
    requires round == |nd.handed| + 1 <= p.rounds && nd'.started && |nd'.inbox| == p.N()
    requires nd'.received == nd.received[j := nd.received[j] + 1] && nd'.handed == nd.handed + [batch]
    requires AllReceived(nd'.received, i, |nd.handed| + 1) && !AllReceived(nd'.received, i, |nd.handed| + 2)
    requires Mirrors(p, eq, i, round, nd'.bridge.driver, nd'.outcome)
    requires BufferInv(p, i, nd') && HandedInv(p, i, nd'.handed)
    ensures NodeInv(p, eq, i, nd')
    ensures Sent(p, nd) == round && Sent(p, nd') == if round < p.rounds then round + 1 else p.rounds
  {
    assert |nd'.handed| == round;
  }

  lemma CompletedBuffer<S, B, O>(p: Protocol<S, B, O>, i: nat, nd: Node<S, B, O>, j: nat, m: RoundMsg<B>,
                                 nd': Node<S, B, O>)
    requires p.WellFormed() && i < p.N() && j < p.N() && i != j && |nd.received| == p.N()
    requires BufferInv(p, i, nd) && m.round == |nd.handed| + 1 == nd.received[j] + 1 == |nd'.handed| <= p.rounds
    requires OnWire(p, m.round, j, i) == [m]
    requires nd'.received == nd.received[j := nd.received[j] + 1]
    requires nd'.bridge.buffer == nd.bridge.buffer.Add(m.round, m.ToMsg()).Without(m.round)
    ensures BufferInv(p, i, nd')
  {
    var added := nd.(bridge := nd.bridge.(buffer := nd.bridge.buffer.Add(m.round, m.ToMsg())),
                     received := nd'.received);
    AddKeepsBuffer(p, i, nd, j, m, added);
    WithoutKeepsBuffer(p, i, added, nd', m.round);
  }

  /** What the bridge does with a message that completes the round. */
  lemma CompletingStep<S(!new), B(!new), O>(p: Protocol<S, B, O>, eq: (S, S) -> bool, i: nat, nd: Node<S, B, O>,
                                            j: nat, m: RoundMsg<B>, received': seq<nat>,
                                            buffer: BufferState<Msg<B>>, step: Step<S, B, O>)
    requires Contract(p, eq) && i < p.N() && j < p.N() && i != j && NodeInv(p, eq, i, nd) && Running(nd)
    requires m.round == nd.received[j] + 1 && |nd.handed| < p.rounds && nd.received[j] < p.rounds
    requires OnWire(p, m.round, j, i) == [m] && received' == nd.received[j := nd.received[j] + 1]
    requires buffer == nd.bridge.buffer.Add(m.round, m.ToMsg()) && buffer.IsReady(m.round)
    requires step == Advance(p.driver, p.session, p.KeyOf(i), nd.bridge.(buffer := buffer.Without(m.round)), m.round,
                             buffer.Batch(m.round))
    ensures m.round == |nd.handed| + 1
    ensures AllReceived(received', i, |nd.handed| + 1) && !AllReceived(received', i, |nd.handed| + 2)
    ensures step.handed != [] && step.state.buffer == buffer.Without(m.round)
    ensures multiset(step.handed) == multiset(Inbox(p, m.round, i))
    ensures Mirrors(p, eq, i, m.round, step.state.driver, step.outcome)
    ensures Announces(p, i, step.sends, m.round, if m.round < p.rounds then m.round + 1 else p.rounds)
  {
    hide Healthy, Indifferent, TurnOf, OnWire, Row, Gather, Arrived, Advance;
    TakeReadyIff(p, i, nd, j, m, buffer, received');
    FixedRoundsSize(p.rounds, p.N() - 1);
    AdvanceMirrors(p, eq, i, nd.bridge.(buffer := buffer.Without(m.round)), buffer.Batch(m.round), |nd.handed|,
                   m.round, step);
    assert Configured(m.round, p.rounds);
  }

  function AfterStep<S, B, O>(nd: Node<S, B, O>, j: nat, step: Step<S, B, O>): Node<S, B, O>
    requires j < |nd.inbox| && j < |nd.received| && nd.inbox[j] != []
  {
    nd.(bridge := step.state, outcome := step.outcome,
        inbox := nd.inbox[j := nd.inbox[j][1..]],
        received := nd.received[j := nd.received[j] + 1],
        handed := if step.handed == [] then nd.handed else nd.handed + [step.handed])
  }

  lemma CompletedStep<S(!new), B(!new), O>(p: Protocol<S, B, O>, eq: (S, S) -> bool, i: nat, nd: Node<S, B, O>,
                                           j: nat, m: RoundMsg<B>,
                                           buffer: BufferState<Msg<B>>, step: Step<S, B, O>)
    requires Contract(p, eq) && i < p.N() && j < p.N() && i != j && NodeInv(p, eq, i, nd) && Running(nd)
             && nd.inbox[j] != []
    requires m.round == nd.received[j] + 1 && |nd.handed| < p.rounds && nd.received[j] < p.rounds
    requires OnWire(p, m.round, j, i) == [m]
    requires buffer == nd.bridge.buffer.Add(m.round, m.ToMsg()) && buffer.IsReady(m.round)
    requires step == Advance(p.driver, p.session, p.KeyOf(i), nd.bridge.(buffer := buffer.Without(m.round)), m.round,
                             buffer.Batch(m.round))
    ensures NodeInv(p, eq, i, AfterStep(nd, j, step))
    ensures Announces(p, i, step.sends, Sent(p, nd), Sent(p, AfterStep(nd, j, step)))
  {
    hide Healthy, Indifferent, TurnOf, OnWire, Row, Gather, Arrived, Advance;
    var nd' := AfterStep(nd, j, step);
    CompletingStep(p, eq, i, nd, j, m, nd'.received, buffer, step);
    CompletedBuffer(p, i, nd, j, m, nd');
    HandedMore(p, i, nd.handed, step.handed, m.round);
    CompletedNodeInv(p, eq, i, nd, j, step.handed, m.round, nd');
  }

  /** A message that completes the round hands the whole batch over and announces the next round. */
  lemma TakeCompletes<S(!new), B(!new), O>(p: Protocol<S, B, O>, eq: (S, S) -> bool, i: nat, nd: Node<S, B, O>,
                                           j: nat, sent: nat, buffer: BufferState<Msg<B>>, round: RoundNumber)
    requires Contract(p, eq) && i < p.N() && j < p.N() && NodeInv(p, eq, i, nd) && LinkInv(p, j, sent, i, nd)
    requires sent <= p.rounds && Running(nd) && nd.inbox[j] != []
    requires round == nd.inbox[j][0].round && buffer == nd.bridge.buffer.Add(round, nd.inbox[j][0].ToMsg())
    requires buffer.IsReady(round)
    ensures var (nd', sends) := Take(p, i, nd, j);
            && NodeInv(p, eq, i, nd') && LinkInv(p, j, sent, i, nd')
            && Announces(p, i, sends, Sent(p, nd), Sent(p, nd'))
  {
    hide Healthy, Indifferent, TurnOf, OnWire, Row, Gather, Arrived, Advance, Take, Handle, Receive, Announces, Sent,
         Flight;
    NextMessage(p, eq, i, nd, j, sent);
    var m := nd.inbox[j][0];
    var step := Advance(p.driver, p.session, p.KeyOf(i), nd.bridge.(buffer := buffer.Without(round)), round,
                        buffer.Batch(round));
    TakeValue(p, i, nd, j, m, step);
    CompletedStep(p, eq, i, nd, j, m, buffer, step);
  }

  lemma HandedMore<S, B, O>(p: Protocol<S, B, O>, i: nat, handed: seq<seq<Msg<B>>>, batch: seq<Msg<B>>, round: nat)
    requires p.WellFormed() && i < p.N() && HandedInv(p, i, handed) && round == |handed| + 1
    requires multiset(batch) == multiset(Inbox(p, round, i))
    ensures HandedInv(p, i, handed + [batch])
  {
  }

  lemma TakeKeeps<S(!new), B(!new), O>(p: Protocol<S, B, O>, eq: (S, S) -> bool, i: nat, nd: Node<S, B, O>, j: nat,
                                       sent: nat)
    requires Contract(p, eq) && i < p.N() && j < p.N() && NodeInv(p, eq, i, nd) && LinkInv(p, j, sent, i, nd)
    requires sent <= p.rounds && Running(nd) && nd.inbox[j] != []
    ensures var (nd', sends) := Take(p, i, nd, j);
            && NodeInv(p, eq, i, nd') && LinkInv(p, j, sent, i, nd')
            && Announces(p, i, sends, Sent(p, nd), Sent(p, nd'))
  {
    hide Healthy, Indifferent, TurnOf, OnWire, Row, Gather, Arrived, Advance;
    var m := nd.inbox[j][0];
    var buffer := nd.bridge.buffer.Add(m.round, m.ToMsg());
    if buffer.IsReady(m.round) {
      TakeCompletes(p, eq, i, nd, j, sent, buffer, m.round);
    } else {
      TakeBuffers(p, eq, i, nd, j, sent);
    }
  }

  // ---------------------------------------------------------------------------
  // Every run.

  lemma InitialInv<S(!new), B(!new), O>(p: Protocol<S, B, O>, eq: (S, S) -> bool)
    requires Contract(p, eq)
    ensures NetInv(p, eq, Initial(p))
  {
    hide Healthy, Indifferent, TurnOf, OnWire;
    var net := Initial(p);
    forall i | 0 <= i < p.N()
      ensures NodeInv(p, eq, i, net[i])
    {
      var zeros := net[i].received;
      if p.N() > 1 {
        assert zeros[if i == 0 then 1 else 0] == 0;
      }
      forall r: RoundNumber | r <= p.rounds
        ensures BatchInv(p, i, net[i].bridge.buffer, zeros, r)
      {
        NothingArrived(Row(p, r, i), r, zeros, p.N());
      }
    }
  }

  lemma {:induction false} NothingArrived<T>(row: seq<seq<T>>, r: nat, received: seq<nat>, m: nat)
    requires m <= |row| == |received| && r > 0
    requires forall j :: 0 <= j < m ==> received[j] == 0
    ensures Arrived(row, r, received, m) == []
  {
    if m > 0 {
      NothingArrived(row, r, received, m - 1);
    }
  }

  /** Only inboxes change when another party posts. */
  lemma PostKeepsNode<S(!new), B(!new), O>(p: Protocol<S, B, O>, eq: (S, S) -> bool, i: nat, nd: Node<S, B, O>,
                                           poster: nat, ms: seq<RoundMsg<B>>)
    requires p.WellFormed() && i < p.N() && poster < p.N() && NodeInv(p, eq, i, nd)
    ensures NodeInv(p, eq, i, PostTo(nd, poster, ms)) && Sent(p, PostTo(nd, poster, ms)) == Sent(p, nd)
  {
    hide TurnOf, OnWire, Row, Gather, Arrived;
    var nd' := PostTo(nd, poster, ms);
    assert BufferInv(p, i, nd');
  }

  /** Posting an announced round extends the poster's links by exactly that round. */
  lemma PostExtendsLink<S(!new), B(!new), O>(p: Protocol<S, B, O>, poster: nat, k: nat, nd: Node<S, B, O>,
                                             sends: seq<Send<B>>, a: nat, b: nat)
    requires p.WellFormed() && Healthy(p) && k < p.N() && poster < p.N()
    requires LinkInv(p, poster, a, k, nd) && Announces(p, poster, sends, a, b)
    ensures LinkInv(p, poster, b, k, PostTo(nd, poster, SentTo(sends, p.KeyOf(k))))
  {
    var nd' := PostTo(nd, poster, SentTo(sends, p.KeyOf(k)));
    if a == b {
      assert SentTo(sends, p.KeyOf(k)) == [] by {
        if b != a + 1 {
          assert sends == [];
        }
      }
      assert nd'.inbox[poster] == nd.inbox[poster];
    } else {
      assert SentTo(sends, p.KeyOf(k)) == OnWire(p, b, poster, k);
      if k == poster {
        WireCarriesOne(p, b, poster, k);
        assert nd'.inbox[poster] == [];
      } else {
        assert Flight(p, poster, k, nd.received[poster], b) == Flight(p, poster, k, nd.received[poster], a)
               + OnWire(p, b, poster, k);
      }
    }
  }

  /** One party's step, then its messages on the links, keep the invariant of the whole network. */
  lemma StepKeeps<S(!new), B(!new), O>(p: Protocol<S, B, O>, eq: (S, S) -> bool, net: Net<S, B, O>, i: nat,
                                       nd: Node<S, B, O>, sends: seq<Send<B>>)
    requires Contract(p, eq) && NetInv(p, eq, net) && i < p.N()
    requires NodeInv(p, eq, i, nd) && Announces(p, i, sends, Sent(p, net[i]), Sent(p, nd))
    requires forall j :: 0 <= j < p.N() ==> LinkInv(p, j, Sent(p, net[j]), i, nd)
    ensures NetInv(p, eq, Post(p, net[i := nd], i, sends))
  {
    hide Healthy, Indifferent, TurnOf, OnWire, NodeInv, LinkInv, Announces, SentTo, Sent;
    var mid := net[i := nd];
    var net' := Post(p, mid, i, sends);
    forall k | 0 <= k < p.N()
      ensures NodeInv(p, eq, k, net'[k]) && Sent(p, net'[k]) == Sent(p, mid[k])
    {
      PostKeepsNode(p, eq, k, mid[k], i, SentTo(sends, p.KeyOf(k)));
    }
    forall k, j | 0 <= k < p.N() && 0 <= j < p.N()
      ensures LinkInv(p, j, Sent(p, net'[j]), k, net'[k])
    {
      assert LinkInv(p, j, Sent(p, net[j]), k, mid[k]);
      assert Sent(p, net'[j]) == Sent(p, mid[j]);
      if j == i {
        PostExtendsLink(p, i, k, mid[k], sends, Sent(p, net[i]), Sent(p, nd));
      } else {
        PostKeepsOtherLink(p, i, j, Sent(p, net[j]), k, mid[k], SentTo(sends, p.KeyOf(k)));
      }
    }
  }

  lemma PostKeepsOtherLink<S, B, O>(p: Protocol<S, B, O>, poster: nat, j: nat, sent: nat, k: nat, nd: Node<S, B, O>,
                                    ms: seq<RoundMsg<B>>)
    requires p.WellFormed() && k < p.N() && j < p.N() && poster < p.N() && poster != j
    requires LinkInv(p, j, sent, k, nd)
    ensures LinkInv(p, j, sent, k, PostTo(nd, poster, ms))
  {
  }

  lemma ApplyKeeps<S(!new), B(!new), O>(p: Protocol<S, B, O>, eq: (S, S) -> bool, net: Net<S, B, O>, a: Action)
    requires Contract(p, eq) && NetInv(p, eq, net) && Enabled(p, net, a)
    ensures NetInv(p, eq, Apply(p, net, a))
  {
    hide Healthy, Indifferent, TurnOf, OnWire, Row, Gather, Arrived, Advance, Announces;
    match a
    case StartParty(i) =>
      LaunchKeeps(p, eq, i, net[i]);
      var (nd, sends) := Launch(p, i, net[i]);
      StepKeeps(p, eq, net, i, nd, sends);
    case Deliver(j, i) =>
      assert LinkInv(p, j, Sent(p, net[j]), i, net[i]);
      TakeKeeps(p, eq, i, net[i], j, Sent(p, net[j]));
      var (nd, sends) := Take(p, i, net[i], j);
      forall x | 0 <= x < p.N()
        ensures LinkInv(p, x, Sent(p, net[x]), i, nd)
      {
        assert LinkInv(p, x, Sent(p, net[x]), i, net[i]);
      }
      StepKeeps(p, eq, net, i, nd, sends);
  }

  /** The invariant holds after every sequence of starts and deliveries. */
  lemma {:induction false} EveryRunKeepsInv<S(!new), B(!new), O>(p: Protocol<S, B, O>, eq: (S, S) -> bool,
                                                                 actions: seq<Action>)
    requires Contract(p, eq) && Exec(p, actions).Some?
    ensures NetInv(p, eq, Exec(p, actions).value)
  {
    hide Healthy, Indifferent, NetInv, Apply, Enabled;
    if actions == [] {
      InitialInv(p, eq);
    } else {
      var last := |actions| - 1;
      EveryRunKeepsInv(p, eq, actions[..last]);
      ApplyKeeps(p, eq, Exec(p, actions[..last]).value, actions[last]);
    }
  }

  /** Some run leads from the start to this state of the network. */
  ghost predicate Reached<S, B, O>(p: Protocol<S, B, O>, net: Net<S, B, O>)
    requires p.WellFormed()
  {
    exists actions :: Exec(p, actions) == Some(net)
  }

  lemma ReachedInv<S(!new), B(!new), O>(p: Protocol<S, B, O>, eq: (S, S) -> bool, net: Net<S, B, O>)
    requires Contract(p, eq) && Reached(p, net)
    ensures NetInv(p, eq, net)
  {
    hide Exec, NetInv, Healthy, Indifferent;
    var actions :| Exec(p, actions) == Some(net);
    EveryRunKeepsInv(p, eq, actions);
  }
}
