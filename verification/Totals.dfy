// A protocol of any number of rounds, broadcasting in the odd ones and addressing each party in the
// even ones, as key generation does: the round engine's contract can be met whatever the rounds.
module Totals {
  import opened Basics
  import opened Sessions
  import opened Rounds
  import opened Bridge
  import opened LockStep
  import opened RoundNetwork

  /** Everyone adds up what it receives and passes on its total. */
  datatype TotalState = TotalState(parties: PartyNumber, own: PartyNumber, rounds: RoundNumber, round: nat, total: nat)

  function HandleTotal(s: TotalState, m: Msg<nat>): Result<TotalState, BridgeError> {
    Ok(s.(total := s.total + m.body))
  }

  function ToOthers(parties: nat, own: PartyNumber, round: RoundNumber, body: nat): seq<RoundMsg<nat>>
    requires parties <= 0xFFFF
  {
    if parties == 0 then []
    else
      ToOthers(parties - 1, own, round, body)
      + if parties == own then [] else [RoundMsg(round, own, Some(parties), body)]
  }

  function Messages(s: TotalState, round: RoundNumber): seq<RoundMsg<nat>> {
    if round % 2 == 1 then [RoundMsg(round, s.own, None, s.total)] else ToOthers(s.parties, s.own, round, s.total)
  }

  function ProceedTotal(s: TotalState): Result<(TotalState, seq<RoundMsg<nat>>), BridgeError> {
    Ok((s.(round := s.round + 1), if s.round < s.rounds then Messages(s, s.round + 1) else []))
  }

  function FinishTotal(s: TotalState): Result<nat, BridgeError> {
    Ok(s.total)
  }

  function TotalDriver(): Driver<TotalState, nat, nat> {
    Driver(HandleTotal, ProceedTotal, FinishTotal)
  }

  function TotalProtocol(session: SessionState, rounds: RoundNumber, values: seq<nat>): Protocol<TotalState, nat, nat>
    requires 1 <= |values| <= 0xFFFF
  {
    Protocol(session, rounds, TotalDriver(),
             seq(|values|, i requires 0 <= i < |values| => TotalState(|values|, i + 1, rounds, 0, values[i])))
  }

  ghost function Same(): (TotalState, TotalState) -> bool {
    (s: TotalState, t: TotalState) => s == t
  }

  lemma {:induction false} CountForConcat<B>(a: seq<RoundMsg<B>>, b: seq<RoundMsg<B>>, k: nat)
    ensures CountFor(a + b, k) == CountFor(a, k) + CountFor(b, k)
  {
    if a == [] {
      assert a + b == b;
    } else {
      assert (a + b)[0] == a[0] && (a + b)[1..] == a[1..] + b;
      CountForConcat(a[1..], b, k);
    }
  }

  lemma {:induction false} ToOthersReaches(parties: nat, own: PartyNumber, round: RoundNumber, body: nat, k: nat)
    requires parties <= 0xFFFF
    ensures var out := ToOthers(parties, own, round, body);
            && CountFor(out, k) == (if k + 1 == own || k >= parties then 0 else 1)
            && forall m <- out ::
                 m.round == round && m.sender == own && m.receiver.Some? && 1 <= m.receiver.value <= parties
  {
    if parties > 0 {
      ToOthersReaches(parties - 1, own, round, body, k);
      var last := if parties == own then [] else [RoundMsg(round, own, Some(parties), body)];
      CountForConcat(ToOthers(parties - 1, own, round, body), last, k);
      assert last != [] ==> last[1..] == [];
    }
  }

  lemma MessagesEmit(s: TotalState, round: RoundNumber)
    requires s.own <= s.parties
    ensures Emits(Messages(s, round), s.parties, s.own - 1, round)
  {
    hide ToOthers, CountFor;
    if round % 2 == 0 {
      ToOthersReaches(s.parties, s.own, round, s.total, 0);
      forall k: nat | k < s.parties
        ensures CountFor(Messages(s, round), k) == if k == s.own - 1 then 0 else 1
      {
        ToOthersReaches(s.parties, s.own, round, s.total, k);
      }
    }
  }

  lemma {:induction false} HandleAllTotals(s: TotalState, batch: seq<Msg<nat>>)
    ensures HandleAll(TotalDriver(), s, batch).Ok?
    ensures HandleAll(TotalDriver(), s, batch).value.(total := 0) == s.(total := 0)
    decreases |batch|
  {
    if batch != [] {
      HandleAllTotals(s.(total := s.total + batch[0].body), batch[1..]);
    }
  }

  /** In lock step party i is in round k + 1 after its (k+1)-st proceed, and announced that round. */
  lemma {:induction false} TurnIs(session: SessionState, rounds: RoundNumber, values: seq<nat>, k: nat, i: nat)
    requires 1 <= |values| <= 0xFFFF && TotalProtocol(session, rounds, values).WellFormed() && i < |values|
    ensures var t := TurnOf(TotalProtocol(session, rounds, values), k, i);
            && t.Ok?
            && t.value.state.(total := 0) == TotalState(|values|, i + 1, rounds, k + 1, 0)
            && t.value.out == if k < rounds then Messages(t.value.state, k + 1) else []
  {
    hide HandleAll, ToOthers, Inbox;
    if k > 0 {
      var p := TotalProtocol(session, rounds, values);
      TurnIs(session, rounds, values, k - 1, i);
      CollectedTotals(session, rounds, values, k, i);
    }
  }

  lemma CollectedTotals(session: SessionState, rounds: RoundNumber, values: seq<nat>, k: nat, i: nat)
    requires 1 <= |values| <= 0xFFFF && TotalProtocol(session, rounds, values).WellFormed() && i < |values| && k > 0
    requires TurnOf(TotalProtocol(session, rounds, values), k - 1, i).Ok?
    ensures var p := TotalProtocol(session, rounds, values);
            && Collected(p, k, i).Ok?
            && Collected(p, k, i).value.(total := 0) == TurnOf(p, k - 1, i).value.state.(total := 0)
  {
    hide TurnOf, Inbox;
    var p := TotalProtocol(session, rounds, values);
    HandleAllTotals(TurnOf(p, k - 1, i).value.state, Inbox(p, k, i));
  }

  /** For every number of parties and of rounds there is a protocol that meets the contract. */
  lemma ContractIsMetForAnyRounds(session: SessionState, rounds: RoundNumber, values: seq<nat>)
    requires 1 <= |values| <= 0xFFFF && |session.participants| == |values| && Distinct(session.participants)
    ensures Contract(TotalProtocol(session, rounds, values), Same())
  {
    hide TurnOf, Collected, Emits, Messages;
    var p := TotalProtocol(session, rounds, values);
    forall k, i | 0 <= k < p.rounds && 0 <= i < p.N()
      ensures TurnOf(p, k, i).Ok? && Emits(TurnOf(p, k, i).value.out, p.N(), i, k + 1)
    {
      TurnIs(session, rounds, values, k, i);
      MessagesEmit(TurnOf(p, k, i).value.state, k + 1);
    }
    forall i | 0 <= i < p.N()
      ensures OutputOf(p, i).Ok? && TurnOf(p, p.rounds, i).Ok? && TurnOf(p, p.rounds, i).value.out == []
    {
      TurnIs(session, rounds, values, p.rounds, i);
      TurnIs(session, rounds, values, 0, i);
      CollectedTotals(session, rounds, values, 1, i);
    }
    TotalsAreIndifferent();
  }

  lemma HandlesTwo(s: TotalState, a: Msg<nat>, b: Msg<nat>)
    ensures var d := TotalDriver(); Then(d, d.handle(s, a), b) == Ok(s.(total := s.total + a.body + b.body))
  {}

  lemma TotalsCommute()
    ensures HandleCommutes(TotalDriver(), Same())
  {
    hide TotalDriver, Then;
    var d, eq := TotalDriver(), Same();
    forall s, a: Msg<nat>, b: Msg<nat> | a.sender != b.sender
      ensures Agree(eq, Then(d, d.handle(s, a), b), Then(d, d.handle(s, b), a))
    {
      HandlesTwo(s, a, b);
      HandlesTwo(s, b, a);
    }
  }

  lemma TotalsAreIndifferent()
    ensures Indifferent(TotalDriver(), Same())
  {
    hide HandleCommutes, ToOthers, Messages;
    TotalsCommute();
  }
}
