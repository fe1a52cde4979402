// Round messages and the buffer that groups them by round.
module Rounds {
  import opened Basics

  /** Round and party numbers are non-zero 16-bit integers. */
  type RoundNumber = n: nat | 1 <= n <= 0xFFFF witness 1
  type PartyNumber = n: nat | 1 <= n <= 0xFFFF witness 1

  /** What the protocol library exchanges. */
  datatype Msg<+B> = Msg(sender: nat, receiver: Option<nat>, body: B)

  /** What is sent between parties: a message tagged with its round. */
  datatype RoundMsg<+B> =
    RoundMsg(round: RoundNumber, sender: PartyNumber, receiver: Option<PartyNumber>, body: B)
  {
    predicate IsBroadcast() {
      receiver.None?
    }

    function ToMsg(): Msg<B> {
      Msg(sender, receiver, body)
    }
  }

  predicate IsNumber(n: nat) {
    1 <= n <= 0xFFFF
  }

  predicate Convertible<B>(m: Msg<B>) {
    IsNumber(m.sender) && (m.receiver.Some? ==> IsNumber(m.receiver.value))
  }

  /** Tags the messages of a round; None stands for the panic on a number that is zero. */
  function FromRound<B>(round: nat, messages: seq<Msg<B>>): Option<seq<RoundMsg<B>>> {
    if messages == [] then Some([])
    else if !IsNumber(round) || !Convertible(messages[0]) then None
    else
      match FromRound(round, messages[1..])
      case None => None
      case Some(rest) =>
        var m := messages[0];
        Some([RoundMsg(round, m.sender, if m.receiver.None? then None else Some(m.receiver.value), m.body)] + rest)
  }

  /**
   * Tagging loses nothing: stripping the round gives the messages back, in order. It panics exactly
   * on a number out of range, and never when there is nothing to tag.
   */
  lemma {:induction false} FromRoundKeepsMessages<B>(round: nat, messages: seq<Msg<B>>)
    ensures var r := FromRound(round, messages);
            && (r.Some? <==>
                  messages == [] || (IsNumber(round) && forall i :: 0 <= i < |messages| ==> Convertible(messages[i])))
            && (r.Some? ==> |r.value| == |messages|)
            && (r.Some? ==>
                  forall i :: 0 <= i < |messages| ==> r.value[i].round == round && r.value[i].ToMsg() == messages[i])
  {
    if messages != [] {
      FromRoundKeepsMessages(round, messages[1..]);
      assert messages == [messages[0]] + messages[1..];
    }
  }

  // ---------------------------------------------------------------------------
  // The buffer as a value.

  datatype BufferState<I> = BufferState(expected: map<RoundNumber, nat>, messages: map<RoundNumber, seq<I>>)
  {
    function Len(): nat {
      |expected|
    }

    /** The messages held for a round. */
    function Batch(round: RoundNumber): seq<I> {
      if round in messages then messages[round] else []
    }

    function Add(round: RoundNumber, message: I): BufferState<I> {
      this.(messages := messages[round := Batch(round) + [message]])
    }

    predicate IsReady(round: RoundNumber) {
      round in expected && round in messages && |messages[round]| == expected[round]
    }

    function Without(round: RoundNumber): BufferState<I> {
      this.(messages := messages - {round})
    }
  }

  predicate Configured(round: RoundNumber, rounds: nat) {
    round <= rounds
  }

  function FixedRounds(rounds: nat, perRound: nat): map<RoundNumber, nat> {
    map r: RoundNumber | 1 <= r <= rounds && Configured(r, rounds) :: perRound
  }

  lemma {:induction false} FixedRoundsSize(rounds: nat, perRound: nat)
    requires rounds <= 0xFFFF
    ensures |FixedRounds(rounds, perRound)| == rounds
  {
    if rounds == 0 {
      assert FixedRounds(rounds, perRound) == map[];
    } else {
      FixedRoundsSize(rounds - 1, perRound);
      var r: RoundNumber := rounds;
      assert FixedRounds(rounds, perRound) == FixedRounds(rounds - 1, perRound)[r := perRound];
    }
  }

  // ---------------------------------------------------------------------------
  // The buffer the bridge mutates.

  class RoundBuffer<I> {
    var expected: map<RoundNumber, nat>
    var messages: map<RoundNumber, seq<I>>

    ghost function State(): BufferState<I>
      reads this
    {
      BufferState(expected, messages)
    }

    constructor NewFixed(rounds: nat, perRound: nat)
      requires rounds <= 0xFFFF && perRound <= 0xFFFF
      ensures State() == BufferState(FixedRounds(rounds, perRound), map[])
      ensures |expected| == rounds && messages == map[]
      ensures forall r: RoundNumber :: r in expected <==> r <= rounds
      ensures forall r: RoundNumber :: r <= rounds ==> expected[r] == perRound
    {
      expected := map[];
      messages := map[];
      new;
      for i := 0 to rounds
        invariant messages == map[]
        invariant expected == FixedRounds(i, perRound)
      {
        var round: RoundNumber := i + 1;
        expected := expected[round := perRound];
      }
      FixedRoundsSize(rounds, perRound);
      forall r: RoundNumber ensures r in expected <==> r <= rounds {
        assert Configured(r, rounds) <==> r <= rounds;
      }
    }

    method Len() returns (n: nat)
      ensures n == State().Len()
    {
      n := |expected|;
    }

    method AddMessage(round: RoundNumber, message: I)
      modifies this`messages
      ensures State() == old(State()).Add(round, message) && expected == old(expected)
      ensures var held := if round in old(messages) then old(messages)[round] else [];
              messages == old(messages)[round := held + [message]]
    {
      if round !in messages {
        messages := messages[round := []];
      }
      messages := messages[round := messages[round] + [message]];
    }

    method IsReady(round: RoundNumber) returns (ready: bool)
      ensures ready == State().IsReady(round)
      ensures ready <==> round in expected && round in messages && |messages[round]| == expected[round]
    {
      if round in expected && round in messages {
        ready := |messages[round]| == expected[round];
      } else {
        ready := false;
      }
    }

    method Take(round: RoundNumber) returns (batch: seq<I>)
      modifies this`messages
      ensures batch == old(State()).Batch(round)
      ensures State() == old(State()).Without(round)
      ensures batch == if round in old(messages) then old(messages)[round] else []
      ensures messages == old(messages) - {round} && expected == old(expected)
    {
      if round in messages {
        batch := messages[round];
        messages := messages - {round};
      } else {
        batch := [];
      }
    }
  }
}
