// The signers of SignChain are bridges: one stage of signing, run by a bridge over a driver that tags
// what it sends with its stage, moves exactly as SignChain says.
module Stages {
  import opened Basics
  import opened Sessions
  import opened Rounds
  import opened Bridge
  import opened SignChain

  /** A stage as its driver sees it: it is in round `round`, having broadcast that round's message. */
  datatype StageState = StageState(stage: nat, own: PartyNumber, rounds: RoundNumber, round: nat)

  function HandleStage(s: StageState, m: Msg<nat>): Result<StageState, BridgeError> {
    Ok(s)
  }

  function ProceedStage(s: StageState): Result<(StageState, seq<RoundMsg<nat>>), BridgeError> {
    Ok((s.(round := s.round + 1), if s.round < s.rounds then [RoundMsg(s.round + 1, s.own, None, s.stage)] else []))
  }

  function FinishStage(s: StageState): Result<nat, BridgeError> {
    Ok(s.stage)
  }

  function StageDriver(): Driver<StageState, nat, nat> {
    Driver(HandleStage, ProceedStage, FinishStage)
  }

  /** The two buffers hold as many messages for each round, and expect as many. */
  ghost predicate BuffersMatch(b: BufferState<Msg<nat>>, t: BufferState<nat>) {
    && b.expected == t.expected && b.messages.Keys == t.messages.Keys
    && forall r: RoundNumber :: |b.Batch(r)| == |t.Batch(r)|
  }

  ghost predicate SignerMatches(stages: seq<nat>, own: PartyNumber, st: BridgeState<StageState, nat>, s: Signer)
    requires ValidStages(stages) && s.stage < |stages|
  {
    && st.driver == Some(StageState(s.stage, own, stages[s.stage], s.collected + 1))
    && s.buffer.expected.Keys == FixedRounds(stages[s.stage], 0).Keys
    && BuffersMatch(st.buffer, s.buffer)
  }

  /** What a tag is on the wire: a broadcast of its round, with the stage for a body. */
  function OnTheWire(tag: Tag, sender: PartyNumber): RoundMsg<nat> {
    RoundMsg(tag.round, sender, None, tag.stage)
  }

  lemma {:induction false} HandleAllStage(s: StageState, batch: seq<Msg<nat>>)
    ensures HandleAll(StageDriver(), s, batch) == Ok(s)
    decreases |batch|
  {
    if batch != [] {
      HandleAllStage(s, batch[1..]);
    }
  }

  lemma AddMatches(b: BufferState<Msg<nat>>, t: BufferState<nat>, round: RoundNumber, m: Msg<nat>, stage: nat)
    requires BuffersMatch(b, t)
    ensures BuffersMatch(b.Add(round, m), t.Add(round, stage))
    ensures b.Add(round, m).IsReady(round) <==> t.Add(round, stage).IsReady(round)
  {
    var b', t' := b.Add(round, m), t.Add(round, stage);
    forall r: RoundNumber ensures |b'.Batch(r)| == |t'.Batch(r)| {
      assert |b.Batch(r)| == |t.Batch(r)|;
    }
    assert |b'.Batch(round)| == |t'.Batch(round)|;
  }

  lemma WithoutMatches(b: BufferState<Msg<nat>>, t: BufferState<nat>, round: RoundNumber)
    requires BuffersMatch(b, t)
    ensures BuffersMatch(b.Without(round), t.Without(round))
  {
    var b', t' := b.Without(round), t.Without(round);
    forall r: RoundNumber ensures |b'.Batch(r)| == |t'.Batch(r)| {
      assert |b.Batch(r)| == |t.Batch(r)|;
    }
  }

  /** How many rounds a buffer is configured for. */
  lemma ConfiguredRounds(buffer: BufferState<nat>, rounds: nat)
    requires rounds <= 0xFFFF && buffer.expected.Keys == FixedRounds(rounds, 0).Keys
    ensures buffer.Len() == rounds
  {
    FixedRoundsSize(rounds, 0);
    assert |buffer.expected| == |buffer.expected.Keys| && |FixedRounds(rounds, 0)| == |FixedRounds(rounds, 0).Keys|;
  }

  /**
   * A bridge that receives a signer's next message does what SignChain lets the signer do: it completes
   * the stage exactly when the signer goes on to the next, and otherwise matches it afterwards, having
   * broadcast the message the signer announces, if any.
   */
  lemma TakeIsABridgeStep(stages: seq<nat>, threshold: nat, session: SessionState, own: Key, number: PartyNumber,
                          st: BridgeState<StageState, nat>, s: Signer, j: nat, sender: PartyNumber)
    requires ValidStages(stages) && s.stage < |stages| && j < |s.inbox| && s.inbox[j] != []
             && SignerMatches(stages, number, st, s)
    requires s.inbox[j][0].round == s.collected + 1
             || !s.buffer.Add(s.inbox[j][0].round, s.inbox[j][0].stage).IsReady(s.inbox[j][0].round)
    ensures var step := Receive(StageDriver(), session, own, st, OnTheWire(s.inbox[j][0], sender));
            var (s', tags) := Take(stages, threshold, s, j);
            && (step.outcome.Complete? <==> s'.stage == s.stage + 1)
            && (step.outcome.Complete? || step.outcome.Pending?)
            && (step.outcome.Pending? ==>
                  && s'.stage == s.stage && SignerMatches(stages, number, step.state, s')
                  && step.sends == if tags == [] then []
                     else ToAll(session.Recipients(own), OnTheWire(tags[0], number)))
  {
    var tag := s.inbox[j][0];
    var m := OnTheWire(tag, sender);
    AddMatches(st.buffer, s.buffer, tag.round, m.ToMsg(), tag.stage);
    var b, t := st.buffer.Add(tag.round, m.ToMsg()), s.buffer.Add(tag.round, tag.stage);
    if t.IsReady(tag.round) {
      HandleAllStage(st.driver.value, b.Batch(tag.round));
      WithoutMatches(b, t, tag.round);
      ConfiguredRounds(s.buffer, stages[s.stage]);
      assert b.Without(tag.round).Len() == stages[s.stage];
    }
  }

  /** A bridge that starts a stage matches a signer entering it, and broadcasts the stage's opening message. */
  lemma OpeningIsABridgeStart(stages: seq<nat>, threshold: nat, session: SessionState, own: Key, number: PartyNumber,
                              s: Signer)
    requires ValidStages(stages) && s.stage < |stages| && s.collected == 0
             && s.buffer == StageBuffer(stages, threshold, s.stage)
    ensures var buffer: BufferState<Msg<nat>> := BufferState(FixedRounds(stages[s.stage], threshold), map[]);
            var step := Start(StageDriver(), session, own,
                              BridgeState(Some(StageState(s.stage, number, stages[s.stage], 0)), buffer));
            && step.outcome.Pending? && SignerMatches(stages, number, step.state, s)
            && Opening(stages, s.stage) == [Tag(s.stage, 1)]
            && step.sends == ToAll(session.Recipients(own), OnTheWire(Tag(s.stage, 1), number))
  {
    assert FixedRounds(stages[s.stage], threshold).Keys == FixedRounds(stages[s.stage], 0).Keys;
  }
}
