// Signing chains three drivers over the same links. Messages carry a round number but no stage,
// so a bridge cannot tell a message of the next stage from one of its own.
module SignChain {
  import opened Basics
  import opened Rounds

  /** What a message was sent for. The stage is not on the wire; it is kept here to judge routing. */
  datatype Tag = Tag(stage: nat, round: RoundNumber)

  /** A signer: stage it is in, rounds collected there, that stage's buffer (holding stages of messages). */
  datatype Signer = Signer(started: bool, stage: nat, collected: nat, buffer: BufferState<nat>, inbox: seq<seq<Tag>>)

  type Net = seq<Signer>

  datatype Action = StartSigner(i: nat) | Deliver(j: nat, i: nat)

  /** Rounds of each stage: participant exchange, offline signing, signature exchange. */
  const SIGN_STAGES: seq<nat> := [1, 6, 1]

  predicate ValidStages(stages: seq<nat>) {
    stages != [] && forall s :: 0 <= s < |stages| ==> 1 <= stages[s] <= 0xFFFF
  }

  /** Every round of every stage expects as many messages as the threshold of the signers' parameters. */
  function StageBuffer(stages: seq<nat>, threshold: nat, stage: nat): BufferState<nat> {
    BufferState(FixedRounds(if stage < |stages| then stages[stage] else 0, threshold), map[])
  }

  function Initial(stages: seq<nat>, threshold: nat, n: nat): Net {
    seq(n, _ => Signer(false, 0, 0, StageBuffer(stages, threshold, 0), seq(n, _ => [])))
  }

  predicate Enabled(stages: seq<nat>, net: Net, a: Action) {
    match a
    case StartSigner(i) => i < |net| && !net[i].started
    case Deliver(j, i) =>
      i < |net| && j < |net| && net[i].started && net[i].stage < |stages| && |net[i].inbox| == |net|
      && net[i].inbox[j] != []
  }

  /** The message at the head of a link was sent for the stage and round its receiver is collecting. */
  predicate OnTarget(net: Net, j: nat, i: nat)
    requires i < |net| && j < |net[i].inbox| && net[i].inbox[j] != []
  {
    net[i].inbox[j][0].stage == net[i].stage && net[i].inbox[j][0].round == net[i].collected + 1
  }

  function Broadcast(net: Net, i: nat, tags: seq<Tag>): (net': Net)
    ensures |net'| == |net|
  {
    seq(|net|, k requires 0 <= k < |net| =>
      if k == i || i >= |net[k].inbox| then net[k] else net[k].(inbox := net[k].inbox[i := net[k].inbox[i] + tags]))
  }

  /** The first message of a stage, if there is such a stage. */
  function Opening(stages: seq<nat>, stage: nat): seq<Tag> {
    if stage < |stages| then [Tag(stage, 1)] else []
  }

  /** A completed round: proceed within the stage, or finish it and start the next one. */
  function AfterRound(stages: seq<nat>, threshold: nat, s: Signer, round: RoundNumber): (Signer, seq<Tag>)
    requires s.stage < |stages|
  {
    if round == stages[s.stage] then
      (s.(stage := s.stage + 1, collected := 0, buffer := StageBuffer(stages, threshold, s.stage + 1)),
       Opening(stages, s.stage + 1))
    else
      (s.(collected := s.collected + 1, buffer := s.buffer.Without(round)),
       if s.collected + 2 <= stages[s.stage] && stages[s.stage] <= 0xFFFF then [Tag(s.stage, s.collected + 2)] else [])
  }

  function Take(stages: seq<nat>, threshold: nat, s: Signer, j: nat): (Signer, seq<Tag>)
    requires s.stage < |stages| && j < |s.inbox| && s.inbox[j] != []
  {
    var tag := s.inbox[j][0];
    var s1 := s.(inbox := s.inbox[j := s.inbox[j][1..]], buffer := s.buffer.Add(tag.round, tag.stage));
    if s1.buffer.IsReady(tag.round) then AfterRound(stages, threshold, s1, tag.round) else (s1, [])
  }

  function Apply(stages: seq<nat>, threshold: nat, net: Net, a: Action): (net': Net)
    requires Enabled(stages, net, a)
    ensures |net'| == |net|
  {
    match a
    case StartSigner(i) => Broadcast(net[i := net[i].(started := true)], i, Opening(stages, 0))
    case Deliver(j, i) =>
      var (s, tags) := Take(stages, threshold, net[i], j);
      Broadcast(net[i := s], i, tags)
  }

  function Exec(stages: seq<nat>, threshold: nat, n: nat, actions: seq<Action>): (r: Option<Net>)
    ensures r.Some? ==> |r.value| == n
  {
    if actions == [] then Some(Initial(stages, threshold, n))
    else
      var last := |actions| - 1;
      match Exec(stages, threshold, n, actions[..last])
      case None => None
      case Some(net) =>
        if Enabled(stages, net, actions[last]) then Some(Apply(stages, threshold, net, actions[last])) else None
  }

  // ---------------------------------------------------------------------------
  // The chain as one sequence of rounds.

  function Total(stages: seq<nat>): nat {
    if stages == [] then 0 else stages[0] + Total(stages[1..])
  }

  /** Rounds completed by a signer in the given stage with the given number collected. */
  function Position(stages: seq<nat>, stage: nat, collected: nat): nat {
    if stages == [] || stage == 0 then collected else stages[0] + Position(stages[1..], stage - 1, collected)
  }

  /** What the message completing position q was sent for, `base` stages having gone before. */
  function TagAt(stages: seq<nat>, q: nat, base: nat): Tag {
    if stages == [] then Tag(base, 1)
    else if q < stages[0] then (if q < 0xFFFF then Tag(base, q + 1) else Tag(base, 1))
    else TagAt(stages[1..], q - stages[0], base + 1)
  }

  lemma {:induction false} TagAtPosition(stages: seq<nat>, stage: nat, collected: nat, base: nat)
    requires forall s :: 0 <= s < |stages| ==> 1 <= stages[s] <= 0xFFFF
    requires stage < |stages| && collected < stages[stage]
    ensures TagAt(stages, Position(stages, stage, collected), base) == Tag(base + stage, collected + 1)
    ensures Position(stages, stage, collected) < Total(stages)
  {
    if stage > 0 {
      TagAtPosition(stages[1..], stage - 1, collected, base + 1);
    }
  }

  lemma {:induction false} PositionNextStage(stages: seq<nat>, stage: nat)
    requires stage < |stages|
    ensures Position(stages, stage, stages[stage]) == Position(stages, stage + 1, 0)
    ensures stage + 1 == |stages| ==> Position(stages, stage + 1, 0) == Total(stages)
  {
    if stage > 0 {
      PositionNextStage(stages[1..], stage - 1);
    } else if |stages| == 1 {
      assert stages[1..] == [];
    }
  }

  lemma {:induction false} PositionAdds(stages: seq<nat>, stage: nat, collected: nat)
    ensures Position(stages, stage, collected) == Position(stages, stage, 0) + collected
  {
    if stages != [] && stage > 0 {
      PositionAdds(stages[1..], stage - 1, collected);
    }
  }

  // ---------------------------------------------------------------------------
  // Two signers, one of them the other's only source of messages: a threshold of one.

  function Pos(stages: seq<nat>, s: Signer): nat {
    Position(stages, s.stage, s.collected)
  }

  /** How many rounds of messages a signer has put on its link. */
  function Sent(stages: seq<nat>, s: Signer): nat {
    if !s.started then 0
    else if s.stage < |stages| then Pos(stages, s) + 1
    else Total(stages)
  }

  function Flight(stages: seq<nat>, lo: nat, hi: nat): seq<Tag>
    decreases hi - lo
  {
    if lo >= hi then [] else [TagAt(stages, lo, 0)] + Flight(stages, lo + 1, hi)
  }

  lemma {:induction false} FlightMore(stages: seq<nat>, lo: nat, hi: nat)
    requires lo <= hi
    ensures Flight(stages, lo, hi + 1) == Flight(stages, lo, hi) + [TagAt(stages, hi, 0)]
    decreases hi - lo
  {
    if lo < hi {
      FlightMore(stages, lo + 1, hi);
    } else {
      assert Flight(stages, lo + 1, hi + 1) == [];
    }
  }

  ghost predicate SignerInv(stages: seq<nat>, s: Signer) {
    && ((s.stage < |stages| && s.collected < stages[s.stage]) || (s.stage == |stages| && s.collected == 0))
    && (!s.started ==> s.stage == 0 && s.collected == 0)
    && s.buffer == StageBuffer(stages, 1, s.stage)
    && |s.inbox| == 2
  }

  ghost predicate PairInv(stages: seq<nat>, net: Net) {
    && |net| == 2
    && SignerInv(stages, net[0]) && SignerInv(stages, net[1])
    && LinkInv(stages, net[1], net[0], 1, 0) && LinkInv(stages, net[0], net[1], 0, 1)
  }

  /** The link from `sender` (number j) to `receiver` (number i). */
  ghost predicate LinkInv(stages: seq<nat>, sender: Signer, receiver: Signer, j: nat, i: nat)
    requires |receiver.inbox| == 2 && i < 2 && j < 2
  {
    && Pos(stages, receiver) <= Sent(stages, sender)
    && receiver.inbox[j] == Flight(stages, Pos(stages, receiver), Sent(stages, sender))
    && receiver.inbox[i] == []
  }

  /** With one other signer every message completes a round, the one it was sent for. */
  lemma TakeKeeps(stages: seq<nat>, s: Signer, j: nat, sent: nat)
    requires ValidStages(stages) && SignerInv(stages, s) && s.started && s.stage < |stages| && j < 2
    requires Pos(stages, s) < sent && s.inbox[j] == Flight(stages, Pos(stages, s), sent)
    ensures s.inbox[j][0] == Tag(s.stage, s.collected + 1)
    ensures var (s', tags) := Take(stages, 1, s, j);
            && SignerInv(stages, s') && s'.started
            && Pos(stages, s') == Pos(stages, s) + 1
            && s'.inbox == s.inbox[j := Flight(stages, Pos(stages, s'), sent)]
            && tags == (if s'.stage < |stages| then [TagAt(stages, Pos(stages, s'), 0)] else [])
            && (s'.stage < |stages| <==> Pos(stages, s') < Total(stages))
            && (s'.stage == |stages| ==> Pos(stages, s') == Total(stages))
  {
    TagAtPosition(stages, s.stage, s.collected, 0);
    var tag := s.inbox[j][0];
    var added := s.buffer.Add(tag.round, tag.stage);
    assert Configured(tag.round, stages[s.stage]);
    assert added.messages[tag.round] == [s.stage];
    var (s', tags) := Take(stages, 1, s, j);
    PositionAdds(stages, s.stage, s.collected);
    PositionAdds(stages, s.stage, s.collected + 1);
    if tag.round == stages[s.stage] {
      PositionNextStage(stages, s.stage);
      if s'.stage < |stages| {
        TagAtPosition(stages, s'.stage, 0, 0);
      }
    } else {
      TagAtPosition(stages, s.stage, s.collected + 1, 0);
      assert added.Without(tag.round).messages == map[];
    }
  }

  /** Announcing one more round, or none, extends the link to the other signer. */
  lemma AnnounceKeepsLink(stages: seq<nat>, sender: Signer, sender': Signer, receiver: Signer, tags: seq<Tag>, j: nat,
                          i: nat)
    requires |receiver.inbox| == 2 && i < 2 && j < 2 && i != j && LinkInv(stages, sender, receiver, j, i)
    requires (tags == [] && Sent(stages, sender') == Sent(stages, sender)) ||
             (tags == [TagAt(stages, Sent(stages, sender), 0)] && Sent(stages, sender') == Sent(stages, sender) + 1)
    ensures LinkInv(stages, sender', receiver.(inbox := receiver.inbox[j := receiver.inbox[j] + tags]), j, i)
  {
    hide TagAt, Position;
    FlightMore(stages, Pos(stages, receiver), Sent(stages, sender));
  }

  lemma StartKeepsPair(stages: seq<nat>, net: Net, i: nat)
    requires ValidStages(stages) && PairInv(stages, net) && Enabled(stages, net, StartSigner(i))
    ensures PairInv(stages, Apply(stages, 1, net, StartSigner(i)))
  {
    hide TagAt, Flight, Total;
    var other := net[1 - i];
    var s := net[i].(started := true);
    var tags := Opening(stages, 0);
    assert tags == [TagAt(stages, 0, 0)] by {
      TagAtPosition(stages, 0, 0, 0);
    }
    AnnounceKeepsLink(stages, net[i], s, other, tags, i, 1 - i);
    var net' := Apply(stages, 1, net, StartSigner(i));
    assert net'[i] == s && net'[1 - i] == other.(inbox := other.inbox[i := other.inbox[i] + tags]);
  }

  lemma DeliverKeepsPair(stages: seq<nat>, net: Net, j: nat, i: nat)
    requires ValidStages(stages) && PairInv(stages, net) && Enabled(stages, net, Deliver(j, i))
    ensures PairInv(stages, Apply(stages, 1, net, Deliver(j, i)))
    ensures OnTarget(net, j, i)
  {
    hide TagAt, Total, StageBuffer, Take, Position, Flight;
    assert j == 1 - i;
    PosBelowSent(stages, net[j], net[i], j, i);
    TakeKeeps(stages, net[i], j, Sent(stages, net[j]));
    var (s, tags) := Take(stages, 1, net[i], j);
    var other := net[j];
    AnnounceKeepsLink(stages, net[i], s, other, tags, i, j);
    var net' := Apply(stages, 1, net, Deliver(j, i));
    assert net'[i] == s && net'[j] == other.(inbox := other.inbox[i := other.inbox[i] + tags]);
  }

  lemma PosBelowSent(stages: seq<nat>, sender: Signer, receiver: Signer, j: nat, i: nat)
    requires |receiver.inbox| == 2 && i < 2 && j < 2 && LinkInv(stages, sender, receiver, j, i)
    requires receiver.inbox[j] != [] && i != j
    ensures Pos(stages, receiver) < Sent(stages, sender)
  {
  }

  lemma ApplyKeepsPair(stages: seq<nat>, net: Net, a: Action)
    requires ValidStages(stages) && PairInv(stages, net) && Enabled(stages, net, a)
    ensures PairInv(stages, Apply(stages, 1, net, a))
    ensures a.Deliver? ==> OnTarget(net, a.j, a.i)
  {
    match a
    case StartSigner(i) => StartKeepsPair(stages, net, i);
    case Deliver(j, i) => DeliverKeepsPair(stages, net, j, i);
  }

  /**
   * With two signers, in every run, every message is taken by the stage and for the round it was
   * sent for.
   */
  lemma {:induction false} TwoSignersStayInStep(stages: seq<nat>, actions: seq<Action>)
    requires ValidStages(stages) && Exec(stages, 1, 2, actions).Some?
    ensures PairInv(stages, Exec(stages, 1, 2, actions).value)
    ensures forall i, j :: Enabled(stages, Exec(stages, 1, 2, actions).value, Deliver(j, i)) ==>
            OnTarget(Exec(stages, 1, 2, actions).value, j, i)
  {
    hide PairInv;
    if actions != [] {
      var last := |actions| - 1;
      TwoSignersStayInStep(stages, actions[..last]);
      ApplyKeepsPair(stages, Exec(stages, 1, 2, actions[..last]).value, actions[last]);
    } else {
      InitialPair(stages);
    }
    var net := Exec(stages, 1, 2, actions).value;
    forall i, j | Enabled(stages, net, Deliver(j, i))
      ensures OnTarget(net, j, i)
    {
      ApplyKeepsPair(stages, net, Deliver(j, i));
    }
  }

  lemma InitialPair(stages: seq<nat>)
    requires ValidStages(stages)
    ensures PairInv(stages, Initial(stages, 1, 2))
  {
  }

  /** A started signer with an empty inbox has handled all its peer sent, which is one more than it did itself. */
  lemma QuietLink(stages: seq<nat>, sender: Signer, receiver: Signer, j: nat, i: nat)
    requires ValidStages(stages) && SignerInv(stages, receiver) && |receiver.inbox| == 2 && i < 2 && j < 2 && i != j
    requires LinkInv(stages, sender, receiver, j, i) && receiver.inbox[j] == []
    ensures Pos(stages, receiver) == Sent(stages, sender)
    ensures receiver.stage < |stages| ==> Pos(stages, receiver) < Total(stages)
  {
    hide TagAt, Sent;
    if receiver.stage < |stages| {
      TagAtPosition(stages, receiver.stage, receiver.collected, 0);
    }
  }

  /** A run of two signers comes to rest only when both have finished every stage. */
  lemma TwoSignersFinish(stages: seq<nat>, actions: seq<Action>)
    requires ValidStages(stages) && Exec(stages, 1, 2, actions).Some?
    requires forall a :: !Enabled(stages, Exec(stages, 1, 2, actions).value, a)
    ensures forall i :: 0 <= i < 2 ==> Exec(stages, 1, 2, actions).value[i].stage == |stages|
  {
    hide Exec, Pos, Total, LinkInv, ValidStages;
    TwoSignersStayInStep(stages, actions);
    var net := Exec(stages, 1, 2, actions).value;
    assert !Enabled(stages, net, StartSigner(0)) && !Enabled(stages, net, StartSigner(1));
    assert !Enabled(stages, net, Deliver(1, 0)) && !Enabled(stages, net, Deliver(0, 1));
    if net[0].stage < |stages| {
      QuietLink(stages, net[1], net[0], 1, 0);
    }
    if net[1].stage < |stages| {
      QuietLink(stages, net[0], net[1], 0, 1);
    }
  }

  // ---------------------------------------------------------------------------
  // Three or more signers.

  /** The first m signers have started. */
  ghost predicate Starting(net: Net, t: nat, n: nat, m: nat) {
    && |net| == n && m <= n
    && forall k :: 0 <= k < n ==>
         && net[k].started == (k < m) && net[k].stage == 0 && net[k].collected == 0
         && net[k].buffer == StageBuffer(SIGN_STAGES, t, 0) && |net[k].inbox| == n
         && forall j :: 0 <= j < n ==> net[k].inbox[j] == if j < m && j != k then [Tag(0, 1)] else []
  }

  lemma {:induction false} StartAll(t: nat, n: nat, m: nat) returns (actions: seq<Action>)
    requires 3 <= n && m <= n
    ensures Exec(SIGN_STAGES, t, n, actions).Some? && Starting(Exec(SIGN_STAGES, t, n, actions).value, t, n, m)
  {
    if m == 0 {
      actions := [];
    } else {
      hide Apply, Starting;
      var k := m - 1;
      var before := StartAll(t, n, k);
      actions := before + [StartSigner(k)];
      assert actions[..|actions| - 1] == before;
      StartOne(Exec(SIGN_STAGES, t, n, before).value, t, n, k, m);
    }
  }

  lemma StartOne(net: Net, t: nat, n: nat, k: nat, m: nat)
    requires 3 <= n && k < n && Starting(net, t, n, k) && m == k + 1
    ensures Enabled(SIGN_STAGES, net, StartSigner(k))
    ensures Starting(Apply(SIGN_STAGES, t, net, StartSigner(k)), t, n, m)
  {
    hide StageBuffer;
    assert Opening(SIGN_STAGES, 0) == [Tag(0, 1)];
  }

  /** Signer 0 holds the first-stage messages of signers 1 to m; signer 1 has not taken anything. */
  ghost predicate Collecting(net: Net, t: nat, n: nat, m: nat) {
    && |net| == n && m < t < n && 2 <= n
    && net[0].started && net[0].stage == 0 && |net[0].inbox| == n
    && net[0].buffer.expected == StageBuffer(SIGN_STAGES, t, 0).expected && |net[0].buffer.Batch(1)| == m
    && (forall j :: m < j < n ==> net[0].inbox[j] == [Tag(0, 1)])
    && Untouched(net[1], t, n, [Tag(0, 1)])
  }

  ghost predicate Untouched(s: Signer, t: nat, n: nat, fromZero: seq<Tag>)
    requires n > 0
  {
    s.started && s.stage == 0 && s.collected == 0 && s.buffer == StageBuffer(SIGN_STAGES, t, 0) && |s.inbox| == n
    && s.inbox[0] == fromZero
  }

  lemma CollectOne(net: Net, t: nat, n: nat, m: nat)
    requires 3 <= n <= 0xFFFF && Collecting(net, t, n, m)
    ensures Enabled(SIGN_STAGES, net, Deliver(m + 1, 0))
    ensures var net' := Apply(SIGN_STAGES, t, net, Deliver(m + 1, 0));
            if m + 1 < t then Collecting(net', t, n, m + 1)
            else |net'| == n && Untouched(net'[1], t, n, [Tag(0, 1), Tag(1, 1)])
  {
    assert net[0].inbox[m + 1] == [Tag(0, 1)];
    assert Configured(1, 1);
    var added := net[0].buffer.Add(1, 0);
    assert added.Batch(1) == net[0].buffer.Batch(1) + [0];
    var (s, tags) := Take(SIGN_STAGES, t, net[0], m + 1);
    var net' := Apply(SIGN_STAGES, t, net, Deliver(m + 1, 0));
    assert net'[1].inbox[0] == [Tag(0, 1)] + tags;
    if m + 1 < t {
      assert tags == [];
      forall j | m + 1 < j < n
        ensures net'[0].inbox[j] == [Tag(0, 1)]
      {
        assert net[0].inbox[j] == [Tag(0, 1)];
      }
    } else {
      assert tags == Opening(SIGN_STAGES, 1) == [Tag(1, 1)];
    }
  }

  lemma {:induction false} CollectAll(t: nat, n: nat, m: nat) returns (actions: seq<Action>)
    requires 3 <= n <= 0xFFFF && m <= t && 1 <= t < n
    ensures Exec(SIGN_STAGES, t, n, actions).Some?
    ensures var net := Exec(SIGN_STAGES, t, n, actions).value;
            if m < t then Collecting(net, t, n, m) else Untouched(net[1], t, n, [Tag(0, 1), Tag(1, 1)])
  {
    if m == 0 {
      actions := StartAll(t, n, n);
      assert Starting(Exec(SIGN_STAGES, t, n, actions).value, t, n, n);
    } else {
      var before := CollectAll(t, n, m - 1);
      actions := before + [Deliver(m, 0)];
      assert actions[..|actions| - 1] == before;
      CollectOne(Exec(SIGN_STAGES, t, n, before).value, t, n, m - 1);
    }
  }

  /**
   * Signer 0 runs ahead. Signer 1 has taken its first-stage message, and, with a threshold of two or
   * more, still waits for another's when the next-stage message of signer 0 reaches it; with a
   * threshold of one it is the first-stage message of signer 2 that arrives late.
   */
  lemma StagesMix(t: nat, n: nat) returns (actions: seq<Action>, j: nat)
    requires 3 <= n <= 0xFFFF && 1 <= t < n
    ensures Exec(SIGN_STAGES, t, n, actions).Some? && j < n
    ensures var net := Exec(SIGN_STAGES, t, n, actions).value;
            Enabled(SIGN_STAGES, net, Deliver(j, 1)) && !OnTarget(net, j, 1)
  {
    if t == 1 {
      actions := LeftBehind(n);
      j := 2;
    } else {
      actions := LaterStageArrivesEarly(t, n);
      j := 0;
    }
  }

  /** With a threshold of two or more: a message of the next stage reaches a signer of the stage before. */
  lemma LaterStageArrivesEarly(t: nat, n: nat) returns (actions: seq<Action>)
    requires 3 <= n <= 0xFFFF && 2 <= t < n
    ensures Exec(SIGN_STAGES, t, n, actions).Some?
    ensures var net := Exec(SIGN_STAGES, t, n, actions).value;
            Enabled(SIGN_STAGES, net, Deliver(0, 1)) && net[1].stage == 0 && net[1].inbox[0][0] == Tag(1, 1)
  {
    var before := CollectAll(t, n, t);
    var net := Exec(SIGN_STAGES, t, n, before).value;
    actions := before + [Deliver(0, 1)];
    assert actions[..|actions| - 1] == before;
    var added := net[1].buffer.Add(1, 0);
    assert Configured(1, 1);
    assert added.messages[1] == [0];
    assert !added.IsReady(1);
  }

  /** With a threshold of one: a message of the stage before reaches a signer of the next stage. */
  lemma LeftBehind(n: nat) returns (actions: seq<Action>)
    requires 3 <= n <= 0xFFFF
    ensures Exec(SIGN_STAGES, 1, n, actions).Some?
    ensures var net := Exec(SIGN_STAGES, 1, n, actions).value;
            Enabled(SIGN_STAGES, net, Deliver(2, 1)) && net[1].stage == 1 && net[1].inbox[2][0] == Tag(0, 1)
  {
    var before := StartAll(1, n, n);
    var net := Exec(SIGN_STAGES, 1, n, before).value;
    assert Starting(net, 1, n, n);
    actions := before + [Deliver(0, 1)];
    assert actions[..|actions| - 1] == before;
    var added := net[1].buffer.Add(1, 0);
    assert Configured(1, 1);
    assert added.messages[1] == [0];
    assert added.IsReady(1);
  }

  // ---------------------------------------------------------------------------
  // Thresholds no round can meet.

  /** Nobody gets past its first round; `taken[i]` are the signers whose message signer i has taken. */
  ghost predicate StuckSigner(net: Net, t: nat, i: nat, taken: set<nat>)
    requires i < |net|
  {
    var s := net[i];
    && s.stage == 0 && s.collected == 0 && |s.inbox| == |net|
    && s.buffer.expected == StageBuffer(SIGN_STAGES, t, 0).expected
    && |s.buffer.Batch(1)| == |taken|
    && (forall j <- taken :: j < |net| && j != i)
    && forall j :: 0 <= j < |net| ==> StuckLink(net, i, j, j in taken)
  }

  ghost predicate StuckLink(net: Net, i: nat, j: nat, taken: bool)
    requires i < |net| && j < |net| && |net[i].inbox| == |net|
  {
    net[i].inbox[j] == if net[j].started && j != i && !taken then [Tag(0, 1)] else []
  }

  ghost predicate Stuck(net: Net, t: nat, taken: seq<set<nat>>) {
    && |taken| == |net|
    && (forall i :: 0 <= i < |net| ==> StuckSigner(net, t, i, taken[i]))
    && (forall i :: 0 <= i < |net| ==> AllStarted(net, taken[i]))
  }

  ghost predicate AllStarted(net: Net, signers: set<nat>) {
    forall j <- signers :: j < |net| && net[j].started
  }

  lemma StuckStart(net: Net, t: nat, taken: seq<set<nat>>, i: nat)
    requires Stuck(net, t, taken) && Enabled(SIGN_STAGES, net, StartSigner(i))
    ensures Stuck(Apply(SIGN_STAGES, t, net, StartSigner(i)), t, taken)
  {
    hide StageBuffer;
    var net' := Apply(SIGN_STAGES, t, net, StartSigner(i));
    assert Opening(SIGN_STAGES, 0) == [Tag(0, 1)];
    forall k | 0 <= k < |net| ensures StuckSigner(net', t, k, taken[k]) {
      assert StuckSigner(net, t, k, taken[k]);
      forall j | 0 <= j < |net| ensures StuckLink(net', k, j, j in taken[k]) {
        assert StuckLink(net, k, j, j in taken[k]);
        assert [] + [Tag(0, 1)] == [Tag(0, 1)];
      }
    }
  }

  lemma BroadcastNothing(net: Net, i: nat)
    ensures Broadcast(net, i, []) == net
  {
    var net' := Broadcast(net, i, []);
    forall k | 0 <= k < |net| ensures net'[k] == net[k] {
      assert i < |net[k].inbox| ==> net[k].inbox[i] + [] == net[k].inbox[i];
    }
  }

  /** One more message taken still does not fill the round. */
  lemma StuckTake(net: Net, t: nat, taken: set<nat>, j: nat, i: nat)
    requires i < |net| && j < |net| && StuckSigner(net, t, i, taken) && net[i].inbox[j] != [] && (t == 0 || t >= |net|)
    ensures OnTarget(net, j, i) && j != i && j !in taken && net[j].started
    ensures var s := net[i];
            Take(SIGN_STAGES, t, s, j) == (s.(inbox := s.inbox[j := []], buffer := s.buffer.Add(1, 0)), [])
    ensures |net[i].buffer.Add(1, 0).Batch(1)| == |taken + {j}|
  {
    var s := net[i];
    assert StuckLink(net, i, j, j in taken);
    assert s.inbox[j] == [Tag(0, 1)] && s.inbox[j][1..] == [];
    BelowCount(taken + {j} + {i}, |net|);
    assert |taken + {j}| == |taken| + 1 && |taken + {j} + {i}| == |taken| + 2;
    var added := s.buffer.Add(1, 0);
    assert added.messages[1] == s.buffer.Batch(1) + [0];
    assert !added.IsReady(1);
  }

  /** Signer i took the message of signer j. */
  lemma StuckAfter(net: Net, net': Net, t: nat, taken: set<nat>, j: nat, i: nat)
    requires i < |net| && j < |net| && j != i && StuckSigner(net, t, i, taken) && j !in taken
    requires net' == net[i := net[i].(inbox := net[i].inbox[j := []], buffer := net[i].buffer.Add(1, 0))]
    requires |net[i].buffer.Add(1, 0).Batch(1)| == |taken + {j}|
    ensures StuckSigner(net', t, i, taken + {j})
  {
    hide StageBuffer;
    forall l | 0 <= l < |net| ensures StuckLink(net', i, l, l in taken + {j}) {
      assert StuckLink(net, i, l, l in taken);
    }
  }

  lemma StuckElsewhere(net: Net, net': Net, t: nat, taken: set<nat>, k: nat)
    requires k < |net| == |net'| && net'[k] == net[k] && StuckSigner(net, t, k, taken)
    requires forall l :: 0 <= l < |net| ==> net'[l].started == net[l].started
    ensures StuckSigner(net', t, k, taken)
  {
    hide StageBuffer;
    forall l | 0 <= l < |net| ensures StuckLink(net', k, l, l in taken) {
      assert StuckLink(net, k, l, l in taken);
    }
  }

  lemma StuckDeliver(net: Net, t: nat, taken: seq<set<nat>>, j: nat, i: nat)
    requires Stuck(net, t, taken) && Enabled(SIGN_STAGES, net, Deliver(j, i)) && (t == 0 || t >= |net|)
    ensures OnTarget(net, j, i)
    ensures Stuck(Apply(SIGN_STAGES, t, net, Deliver(j, i)), t, taken[i := taken[i] + {j}])
  {
    hide Take, StuckSigner, Broadcast;
    assert StuckSigner(net, t, i, taken[i]);
    StuckTake(net, t, taken[i], j, i);
    var net' := net[i := net[i].(inbox := net[i].inbox[j := []], buffer := net[i].buffer.Add(1, 0))];
    BroadcastNothing(net', i);
    assert Apply(SIGN_STAGES, t, net, Deliver(j, i)) == net';
    var taken' := taken[i := taken[i] + {j}];
    StuckAfter(net, net', t, taken[i], j, i);
    forall k | 0 <= k < |net| ensures StuckSigner(net', t, k, taken'[k]) {
      assert StuckSigner(net, t, k, taken[k]);
      if k != i {
        StuckElsewhere(net, net', t, taken[k], k);
      }
    }
    forall k | 0 <= k < |net| ensures AllStarted(net', taken'[k]) {
      assert AllStarted(net, taken[k]);
    }
  }

  lemma {:induction false} StuckRun(t: nat, n: nat, actions: seq<Action>) returns (taken: seq<set<nat>>)
    requires (t == 0 || t >= n) && Exec(SIGN_STAGES, t, n, actions).Some?
    ensures Stuck(Exec(SIGN_STAGES, t, n, actions).value, t, taken)
  {
    if actions == [] {
      taken := seq(n, _ => {});
      var net := Initial(SIGN_STAGES, t, n);
      forall i | 0 <= i < n ensures StuckSigner(net, t, i, taken[i]) {
        assert forall j :: 0 <= j < n ==> StuckLink(net, i, j, j in taken[i]);
      }
    } else {
      hide Stuck, Apply;
      var last := |actions| - 1;
      taken := StuckRun(t, n, actions[..last]);
      var net := Exec(SIGN_STAGES, t, n, actions[..last]).value;
      match actions[last] {
        case StartSigner(i) => StuckStart(net, t, taken, i);
        case Deliver(j, i) =>
          StuckDeliver(net, t, taken, j, i);
          taken := taken[i := taken[i] + {j}];
      }
    }
  }

  // ---------------------------------------------------------------------------
  // When chaining holds.

  /** In every run every message is taken by the stage and for the round it was sent for. */
  ghost predicate ChainingHolds(t: nat, n: nat) {
    forall actions, i, j ::
      Exec(SIGN_STAGES, t, n, actions).Some?
      && Enabled(SIGN_STAGES, Exec(SIGN_STAGES, t, n, actions).value, Deliver(j, i))
      ==> OnTarget(Exec(SIGN_STAGES, t, n, actions).value, j, i)
  }

  /**
   * Messages meet their own stage in all runs exactly when there are just two signers, or the
   * threshold is such that no round is ever completed.
   */
  lemma ChainingHoldsIff(t: nat, n: nat)
    requires 2 <= n <= 0xFFFF
    ensures ChainingHolds(t, n) <==> n == 2 || t == 0 || t >= n
  {
    if t == 0 || t >= n {
      forall actions, i, j | Exec(SIGN_STAGES, t, n, actions).Some?
        && Enabled(SIGN_STAGES, Exec(SIGN_STAGES, t, n, actions).value, Deliver(j, i))
        ensures OnTarget(Exec(SIGN_STAGES, t, n, actions).value, j, i)
      {
        var taken := StuckRun(t, n, actions);
        StuckDeliver(Exec(SIGN_STAGES, t, n, actions).value, t, taken, j, i);
      }
    } else if n == 2 {
      forall actions, i, j | Exec(SIGN_STAGES, t, n, actions).Some?
        && Enabled(SIGN_STAGES, Exec(SIGN_STAGES, t, n, actions).value, Deliver(j, i))
        ensures OnTarget(Exec(SIGN_STAGES, t, n, actions).value, j, i)
      {
        TwoSignersStayInStep(SIGN_STAGES, actions);
      }
    } else {
      var actions, j := StagesMix(t, n);
      assert !OnTarget(Exec(SIGN_STAGES, t, n, actions).value, j, 1);
    }
  }
}
