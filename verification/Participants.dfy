// The key-index exchange that precedes signing, run on the round engine, and the party numbers
// the signers derive from it.
module Participants {
  import opened Basics
  import opened Sessions
  import opened Rounds
  import opened Bridge
  import opened LockStep
  import opened RoundNetwork
  import opened RoundTheorems

  // ---------------------------------------------------------------------------
  // Sorting.

  ghost predicate Sorted(s: seq<nat>) {
    forall i, j :: 0 <= i < j < |s| ==> s[i] <= s[j]
  }

  function Insert(x: nat, s: seq<nat>): seq<nat> {
    if s == [] || x <= s[0] then [x] + s else [s[0]] + Insert(x, s[1..])
  }

  function Sort(s: seq<nat>): seq<nat> {
    if s == [] then [] else Insert(s[0], Sort(s[1..]))
  }

  lemma SortedCons(x: nat, s: seq<nat>)
    requires Sorted(s) && (s == [] || x <= s[0])
    ensures Sorted([x] + s)
  {
    forall j | 0 <= j < |s|
      ensures x <= s[j]
    {
      assert s[0] <= s[j];
    }
  }

  lemma {:induction false} InsertKeeps(x: nat, s: seq<nat>)
    requires Sorted(s)
    ensures Sorted(Insert(x, s)) && multiset(Insert(x, s)) == multiset(s) + multiset{x}
    ensures Insert(x, s)[0] == if s == [] || x <= s[0] then x else s[0]
  {
    if s != [] && x > s[0] {
      var rest := Insert(x, s[1..]);
      InsertKeeps(x, s[1..]);
      assert s == [s[0]] + s[1..];
      SortedCons(s[0], rest);
      assert multiset([s[0]] + rest) == multiset{s[0]} + multiset(rest);
    } else {
      SortedCons(x, s);
      assert multiset([x] + s) == multiset{x} + multiset(s);
    }
  }

  lemma {:induction false} SortIsSorted(s: seq<nat>)
    ensures Sorted(Sort(s)) && multiset(Sort(s)) == multiset(s)
  {
    if s != [] {
      SortIsSorted(s[1..]);
      InsertKeeps(s[0], Sort(s[1..]));
      assert s == [s[0]] + s[1..];
    }
  }

  lemma SameHead(a: seq<nat>, b: seq<nat>)
    requires Sorted(a) && Sorted(b) && multiset(a) == multiset(b) && a != []
    ensures b != [] && a[0] == b[0]
  {
    assert a[0] in multiset(b);
    assert b[0] in multiset(a);
  }

  lemma RestOf(a: seq<nat>)
    requires a != []
    ensures multiset(a[1..]) == multiset(a) - multiset{a[0]}
  {
    assert a == [a[0]] + a[1..];
  }

  /** Sorted lists of the same elements are equal. */
  lemma {:induction false} SortedUnique(a: seq<nat>, b: seq<nat>)
    requires Sorted(a) && Sorted(b) && multiset(a) == multiset(b)
    ensures a == b
    decreases |a|
  {
    if a == [] {
      assert |multiset(b)| == 0;
    } else {
      SameHead(a, b);
      RestOf(a);
      RestOf(b);
      SortedUnique(a[1..], b[1..]);
      assert a == [a[0]] + a[1..] && b == [b[0]] + b[1..];
    }
  }

  // ---------------------------------------------------------------------------
  // The driver.

  datatype ExchangeState = ExchangeState(partyNumber: PartyNumber, participants: seq<nat>, localKeyIndex: nat)

  function HandleKey(s: ExchangeState, m: Msg<nat>): Result<ExchangeState, BridgeError> {
    Ok(s.(participants := s.participants + [m.body]))
  }

  function ProceedKey(s: ExchangeState): Result<(ExchangeState, seq<RoundMsg<nat>>), BridgeError> {
    Ok((s, [RoundMsg(1, s.partyNumber, None, s.localKeyIndex)]))
  }

  function FinishKeys(s: ExchangeState): Result<seq<nat>, BridgeError> {
    Ok(Sort(s.participants))
  }

  function ExchangeDriver(): Driver<ExchangeState, nat, seq<nat>> {
    Driver(HandleKey, ProceedKey, FinishKeys)
  }

  /** The driver object; its list is sorted in place by `finish`. */
  class ParticipantProtocolDriver {
    const partyNumber: PartyNumber
    const localKeyIndex: nat
    var participants: seq<nat>

    function State(): ExchangeState
      reads this
    {
      ExchangeState(partyNumber, participants, localKeyIndex)
    }

    constructor (partyNumber: PartyNumber, localKeyIndex: nat)
      ensures State() == ExchangeState(partyNumber, [localKeyIndex], localKeyIndex)
    {
      this.partyNumber := partyNumber;
      this.localKeyIndex := localKeyIndex;
      this.participants := [localKeyIndex];
    }

    method HandleIncoming(m: Msg<nat>)
      modifies this
      ensures HandleKey(old(State()), m) == Ok(State())
    {
      participants := participants + [m.body];
    }

    method Proceed() returns (messages: seq<RoundMsg<nat>>)
      ensures ProceedKey(State()) == Ok((State(), messages))
    {
      messages := [RoundMsg(1, partyNumber, None, localKeyIndex)];
    }

    method Finish() returns (output: seq<nat>)
      modifies this
      ensures FinishKeys(old(State())) == Ok(output)
      ensures Sorted(output) && multiset(output) == multiset(old(participants))
    {
      SortIsSorted(participants);
      participants := Sort(participants);
      output := participants;
    }
  }

  /** States that differ only in the order in which keys arrived. */
  ghost function SameKeys(): (ExchangeState, ExchangeState) -> bool {
    (s: ExchangeState, t: ExchangeState) =>
      s.partyNumber == t.partyNumber && s.localKeyIndex == t.localKeyIndex
      && multiset(s.participants) == multiset(t.participants)
  }

  lemma PushesCommute(p: seq<nat>, x: nat, y: nat)
    ensures multiset((p + [x]) + [y]) == multiset((p + [y]) + [x])
  {}

  lemma HandlesTwo(s: ExchangeState, a: Msg<nat>, b: Msg<nat>)
    ensures var d := ExchangeDriver();
            Then(d, d.handle(s, a), b) == Ok(s.(participants := (s.participants + [a.body]) + [b.body]))
  {}

  lemma ExchangeCommutes()
    ensures HandleCommutes(ExchangeDriver(), SameKeys())
  {
    hide ExchangeDriver, Then;
    var d, eq := ExchangeDriver(), SameKeys();
    forall s, a: Msg<nat>, b: Msg<nat> | a.sender != b.sender
      ensures Agree(eq, Then(d, d.handle(s, a), b), Then(d, d.handle(s, b), a))
    {
      HandlesTwo(s, a, b);
      HandlesTwo(s, b, a);
      PushesCommute(s.participants, a.body, b.body);
    }
  }

  lemma PermutedSortAlike(s: seq<nat>, t: seq<nat>)
    requires multiset(s) == multiset(t)
    ensures Sort(s) == Sort(t)
  {
    SortIsSorted(s);
    SortIsSorted(t);
    SortedUnique(Sort(s), Sort(t));
  }

  lemma ExchangeFinishRespects()
    ensures FinishRespects(ExchangeDriver(), SameKeys())
  {
    hide Sort;
    var d, eq := ExchangeDriver(), SameKeys();
    forall s, t | eq(s, t)
      ensures d.finish(s) == d.finish(t)
    {
      PermutedSortAlike(s.participants, t.participants);
    }
  }

  lemma ExchangeIsIndifferent()
    ensures Indifferent(ExchangeDriver(), SameKeys())
  {
    hide HandleCommutes, FinishRespects;
    ExchangeCommutes();
    ExchangeFinishRespects();
  }

  /** The exchange among the participants of a session, party i holding key index keys[i]. */
  function Exchange(session: SessionState, keys: seq<nat>): Protocol<ExchangeState, nat, seq<nat>>
    requires |keys| <= 0xFFFF
  {
    Protocol(session, 1, ExchangeDriver(),
             seq(|keys|, i requires 0 <= i < |keys| => ExchangeState(i + 1, [keys[i]], keys[i])))
  }

  function Bodies(batch: seq<Msg<nat>>): (r: seq<nat>)
    ensures |r| == |batch|
  {
    seq(|batch|, a requires 0 <= a < |batch| => batch[a].body)
  }

  lemma {:induction false} HandleAllKeys(s: ExchangeState, batch: seq<Msg<nat>>)
    ensures HandleAll(ExchangeDriver(), s, batch) == Ok(s.(participants := s.participants + Bodies(batch)))
    decreases |batch|
  {
    if batch == [] {
      assert s.participants + Bodies(batch) == s.participants;
    } else {
      var s' := s.(participants := s.participants + [batch[0].body]);
      HandleAllKeys(s', batch[1..]);
      assert s'.participants + Bodies(batch[1..]) == s.participants + Bodies(batch);
    }
  }

  ghost predicate ExchangeSetup(session: SessionState, keys: seq<nat>) {
    && |keys| <= 0xFFFF && |session.participants| == |keys| && Distinct(session.participants)
  }

  lemma ExchangeTurn(session: SessionState, keys: seq<nat>, i: nat)
    requires ExchangeSetup(session, keys) && i < |keys|
    ensures var p := Exchange(session, keys);
            TurnOf(p, 0, i) == Ok(Turn(p.init[i], [RoundMsg(1, i + 1, None, keys[i])]))
  {
  }

  lemma ExchangeWire(session: SessionState, keys: seq<nat>, i: nat, j: nat)
    requires ExchangeSetup(session, keys) && i < |keys| && j < |keys|
    ensures OnWire(Exchange(session, keys), 1, j, i) == if i == j then [] else [RoundMsg(1, j + 1, None, keys[j])]
  {
    hide TurnOf;
    var p := Exchange(session, keys);
    ExchangeTurn(session, keys, j);
    var m: RoundMsg<nat> := RoundMsg(1, j + 1, None, keys[j]);
    BroadcastReaches(session.participants, p.KeyOf(j), m, p.KeyOf(i));
  }

  lemma ExchangeRow(session: SessionState, keys: seq<nat>, i: nat, j: nat)
    requires ExchangeSetup(session, keys) && i < |keys| && j < |keys|
    ensures Row(Exchange(session, keys), 1, i)[j] == if i == j then [] else [Msg(j + 1, None, keys[j])]
  {
    hide OnWire;
    ExchangeWire(session, keys, i, j);
  }

  /** The batch holds the key indices of the parties below m, all but that of party i. */
  ghost predicate HoldsBelow(batch: seq<Msg<nat>>, keys: seq<nat>, i: nat, m: nat)
    requires i < |keys| && m <= |keys|
  {
    multiset(Bodies(batch)) + (if i < m then multiset{keys[i]} else multiset{}) == multiset(keys[..m])
  }

  /** What a party collects from the parties below m is their key indices, all but its own. */
  lemma {:induction false} GatherKeys(session: SessionState, keys: seq<nat>, i: nat, m: nat)
    requires ExchangeSetup(session, keys) && i < |keys| && m <= |keys|
    ensures HoldsBelow(Gather(Row(Exchange(session, keys), 1, i), m), keys, i, m)
  {
    hide OnWire, TurnOf, Row;
    if m > 0 {
      hide HoldsBelow;
      var j := m - 1;
      GatherKeys(session, keys, i, j);
      ExchangeRow(session, keys, i, j);
      HoldsOneMore(Gather(Row(Exchange(session, keys), 1, i), j), keys, i, j, m);
    }
  }

  lemma HoldsOneMore(before: seq<Msg<nat>>, keys: seq<nat>, i: nat, j: nat, m: nat)
    requires i < |keys| && j < |keys| && m == j + 1
    requires HoldsBelow(before, keys, i, j)
    ensures HoldsBelow(before + if i == j then [] else [Msg(j + 1, None, keys[j])], keys, i, m)
  {
    assert keys[..m] == keys[..j] + [keys[j]];
    if i == j {
      assert before + [] == before;
    } else {
      assert Bodies(before + [Msg(j + 1, None, keys[j])]) == Bodies(before) + [keys[j]];
    }
  }

  /** All the key indices a party holds once the round is over. */
  ghost function HeldKeys(session: SessionState, keys: seq<nat>, i: nat): seq<nat>
    requires ExchangeSetup(session, keys) && i < |keys|
  {
    [keys[i]] + Bodies(Inbox(Exchange(session, keys), 1, i))
  }

  lemma HeldKeysAreAll(session: SessionState, keys: seq<nat>, i: nat)
    requires ExchangeSetup(session, keys) && i < |keys|
    ensures multiset(HeldKeys(session, keys, i)) == multiset(keys)
  {
    hide Row, Gather;
    GatherKeys(session, keys, i, |keys|);
    assert keys[..|keys|] == keys;
    HeadFirst(keys[i], Bodies(Inbox(Exchange(session, keys), 1, i)));
  }

  lemma HeadFirst(x: nat, s: seq<nat>)
    ensures multiset([x] + s) == multiset{x} + multiset(s)
  {}

  lemma ExchangeCollected(session: SessionState, keys: seq<nat>, i: nat)
    requires ExchangeSetup(session, keys) && i < |keys|
    ensures var p := Exchange(session, keys);
            Collected(p, 1, i) == Ok(p.init[i].(participants := HeldKeys(session, keys, i)))
  {
    hide TurnOf, HandleAll, Inbox;
    var p := Exchange(session, keys);
    ExchangeTurn(session, keys, i);
    HandleAllKeys(p.init[i], Inbox(p, 1, i));
  }

  lemma ExchangeOutput(session: SessionState, keys: seq<nat>, i: nat)
    requires ExchangeSetup(session, keys) && i < |keys|
    ensures OutputOf(Exchange(session, keys), i) == Ok(Sort(keys))
  {
    hide Collected, HeldKeys, Sort;
    ExchangeCollected(session, keys, i);
    HeldKeysAreAll(session, keys, i);
    PermutedSortAlike(HeldKeys(session, keys, i), keys);
  }

  /** The exchange meets the contract of the round engine. */
  lemma ExchangeMeetsContract(session: SessionState, keys: seq<nat>)
    requires ExchangeSetup(session, keys)
    ensures Contract(Exchange(session, keys), SameKeys())
  {
    hide TurnOf, OutputOf, Indifferent;
    var p := Exchange(session, keys);
    ExchangeIsIndifferent();
    forall k, i | 0 <= k < p.rounds && 0 <= i < p.N()
      ensures TurnOf(p, k, i).Ok? && Emits(TurnOf(p, k, i).value.out, p.N(), i, k + 1)
    {
      ExchangeTurn(session, keys, i);
    }
    forall i | 0 <= i < p.N()
      ensures OutputOf(p, i).Ok?
    {
      ExchangeOutput(session, keys, i);
    }
  }

  /** The list the signers go on with: all key indices, in ascending order. */
  ghost predicate Agreed(list: seq<nat>, keys: seq<nat>) {
    Sorted(list) && multiset(list) == multiset(keys)
  }

  /**
   * Waiting for all others, whatever the arrival order, any two parties that complete hold the same sorted
   * list of all key indices. For other thresholds see `ExchangeThreshold`.
   */
  lemma ParticipantsAgree(session: SessionState, keys: seq<nat>, net: Net<ExchangeState, nat, seq<nat>>, i: nat, j: nat)
    requires ExchangeSetup(session, keys) && Reached(Exchange(session, keys), net)
    requires i < |keys| == |net| && j < |keys| && net[i].outcome.Complete? && net[j].outcome.Complete?
    ensures Agreed(net[i].outcome.output, keys) && net[i].outcome.output == net[j].outcome.output
  {
    hide Reached, Exchange, OutputOf, Sort;
    CompletesWithAll(session, keys, net, i);
    CompletesWithAll(session, keys, net, j);
    SortIsSorted(keys);
  }

  lemma CompletesWithAll(session: SessionState, keys: seq<nat>, net: Net<ExchangeState, nat, seq<nat>>, i: nat)
    requires ExchangeSetup(session, keys) && Reached(Exchange(session, keys), net)
    requires i < |keys| == |net| && net[i].outcome.Complete?
    ensures net[i].outcome.output == Sort(keys)
  {
    hide Reached, OutputOf, Sort, Mirrors, BatchOfRound;
    ExchangeMeetsContract(session, keys);
    RunMirrorsLockStep(Exchange(session, keys), SameKeys(), net, i);
    ExchangeOutput(session, keys, i);
  }

  // ---------------------------------------------------------------------------
  // Party numbers of the pre-signing stage.

  datatype IndexError = LocalKeyNotParticipant

  /** The position of the local key index in the agreed list, counted from one. */
  function PartyIndex(participants: seq<nat>, localKeyIndex: nat): (r: Result<nat, IndexError>)
    ensures r.Ok? <==> localKeyIndex in participants
    ensures r.Ok? ==> 1 <= r.value <= |participants| && participants[r.value - 1] == localKeyIndex
  {
    var i := IndexOf(participants, localKeyIndex);
    if i < |participants| then Ok(i + 1)
    else
      assert participants[..i] == participants;
      Err(LocalKeyNotParticipant)
  }

  lemma AgreedHasAll(list: seq<nat>, keys: seq<nat>, x: nat)
    requires Agreed(list, keys)
    ensures x in list <==> x in keys
    ensures |list| == |keys|
  {
    assert |multiset(list)| == |list| && |multiset(keys)| == |keys|;
    assert x in multiset(list) <==> x in multiset(keys);
  }

  /** Distinct key indices get distinct party indices between 1 and n. */
  lemma PartyIndexIsInjective(list: seq<nat>, keys: seq<nat>, i: nat, j: nat)
    requires Distinct(keys) && Agreed(list, keys) && i < |keys| && j < |keys|
    ensures PartyIndex(list, keys[i]).Ok? && 1 <= PartyIndex(list, keys[i]).value <= |keys|
    ensures PartyIndex(list, keys[i]) == PartyIndex(list, keys[j]) <==> i == j
  {
    hide IndexOf, PartyIndex;
    AgreedHasAll(list, keys, keys[i]);
    AgreedHasAll(list, keys, keys[j]);
  }

  /** Every number from 1 to n is some signer's party index. */
  lemma PartyIndexIsOnto(list: seq<nat>, keys: seq<nat>, v: nat) returns (i: nat)
    requires Distinct(keys) && Agreed(list, keys) && 1 <= v <= |keys|
    ensures i < |keys| && PartyIndex(list, keys[i]) == Ok(v)
  {
    AgreedHasAll(list, keys, 0);
    AgreedHasAll(list, keys, list[v - 1]);
    i :| 0 <= i < |keys| && keys[i] == list[v - 1];
    AgreedDistinct(list, keys);
    PartyIndexAt(list, v - 1);
  }

  lemma {:induction false} CountDistinct(s: seq<nat>, x: nat)
    ensures Distinct(s) ==> multiset(s)[x] <= 1
    ensures (forall y :: multiset(s)[y] <= 1) ==> Distinct(s)
  {
    if s != [] {
      var rest := s[1..];
      assert s == [s[0]] + rest;
      assert forall y :: multiset(s)[y] == multiset(rest)[y] + if y == s[0] then 1 else 0;
      CountDistinct(rest, x);
      if Distinct(s) {
        assert s[0] !in rest;
      }
      if forall y :: multiset(s)[y] <= 1 {
        assert forall y :: multiset(rest)[y] <= multiset(s)[y];
        assert multiset(s)[s[0]] <= 1;
        assert s[0] !in rest;
      }
    }
  }

  lemma AgreedDistinct(list: seq<nat>, keys: seq<nat>)
    requires Distinct(keys) && Agreed(list, keys)
    ensures Distinct(list)
  {
    forall y
      ensures multiset(list)[y] <= 1
    {
      CountDistinct(keys, y);
    }
    CountDistinct(list, 0);
  }

  /**
   * The pre-signing indices are the session's party numbers, which route the messages, exactly when
   * the session lists its participants in key index order.
   */
  lemma IndicesRouteIffSorted(list: seq<nat>, keys: seq<nat>)
    requires Distinct(keys) && Agreed(list, keys)
    ensures (forall i :: 0 <= i < |keys| ==> PartyIndex(list, keys[i]) == Ok(i + 1)) <==> Sorted(keys)
  {
    hide IndexOf, PartyIndex;
    AgreedHasAll(list, keys, 0);
    if Sorted(keys) {
      SortedUnique(list, keys);
      forall i | 0 <= i < |keys|
        ensures PartyIndex(list, keys[i]) == Ok(i + 1)
      {
        PartyIndexAt(keys, i);
      }
    }
    if forall i :: 0 <= i < |keys| ==> PartyIndex(list, keys[i]) == Ok(i + 1) {
      forall i | 0 <= i < |keys|
        ensures keys[i] == list[i]
      {
        assert PartyIndex(list, keys[i]) == Ok(i + 1);
      }
      assert keys == list;
    }
  }

  lemma PartyIndexAt(list: seq<nat>, i: nat)
    requires Distinct(list) && i < |list|
    ensures PartyIndex(list, list[i]) == Ok(i + 1)
  {
    IndexOfDistinct(list, i);
  }

  /** The message reaches the signer whose pre-signing number it names as its receiver. */
  ghost predicate MeetsItsSigner<B>(session: SessionState, list: seq<nat>, keys: seq<nat>, m: RoundMsg<B>)
    requires |session.participants| == |keys|
  {
    Addressed(session, [m]).Ok? && exists i: nat :: Meets(session, list, keys, m, i)
  }

  /** Signer i is the one named, and the transport is given the message for it. */
  ghost predicate Meets<B>(session: SessionState, list: seq<nat>, keys: seq<nat>, m: RoundMsg<B>, i: nat)
    requires |session.participants| == |keys| && Addressed(session, [m]).Ok?
  {
    && i < |keys| && m.receiver.Some?
    && PartyIndex(list, keys[i]) == Ok(m.receiver.value)
    && |Addressed(session, [m]).value| == 1 && Addressed(session, [m]).value[0].to == session.participants[i]
  }

  /** A message is given to the participant at its receiver's position in the session, whoever that is. */
  lemma AddressedByPosition<B>(session: SessionState, list: seq<nat>, keys: seq<nat>, m: RoundMsg<B>)
    requires |session.participants| == |keys| && Distinct(session.participants)
    requires m.receiver.Some? && 1 <= m.receiver.value <= |keys|
    ensures MeetsItsSigner(session, list, keys, m) <==>
            PartyIndex(list, keys[m.receiver.value - 1]) == Ok(m.receiver.value)
  {
    hide PartyIndex;
    var v: nat := m.receiver.value;
    var ms := [m];
    assert ms[1..] == [] && ms[0] == m;
    assert session.PeerKey(v) == Some(session.participants[v - 1]);
    assert Addressed(session, ms[1..]) == Ok([]);
    assert [Send(session.participants[v - 1], m)] + [] == [Send(session.participants[v - 1], m)];
    assert Addressed(session, [m]) == Ok([Send(session.participants[v - 1], m)]);
    if MeetsItsSigner(session, list, keys, m) {
      var i: nat :| Meets(session, list, keys, m, i);
      assert session.participants[i] == session.participants[v - 1];
      assert i == v - 1;
    }
    if PartyIndex(list, keys[v - 1]) == Ok(v) {
      assert Meets(session, list, keys, m, v - 1);
    }
  }

  /**
   * Every pre-signing message reaches the signer it is meant for exactly when the session lists its
   * participants by key index; otherwise some message goes to a signer with another number.
   */
  lemma MessagesMeetTheirSignersIffSorted<B(!new)>(session: SessionState, list: seq<nat>, keys: seq<nat>, body: B)
    requires Distinct(keys) && Agreed(list, keys) && |keys| <= 0xFFFF
    requires |session.participants| == |keys| && Distinct(session.participants)
    ensures (forall m: RoundMsg<B> :: m.receiver.Some? && m.receiver.value <= |keys| ==>
             MeetsItsSigner(session, list, keys, m)) <==> Sorted(keys)
  {
    hide MeetsItsSigner, PartyIndex;
    IndicesRouteIffSorted(list, keys);
    if Sorted(keys) {
      forall m: RoundMsg<B> | m.receiver.Some? && m.receiver.value <= |keys|
        ensures MeetsItsSigner(session, list, keys, m) {
        AddressedByPosition(session, list, keys, m);
        assert PartyIndex(list, keys[m.receiver.value - 1]) == Ok(m.receiver.value - 1 + 1);
      }
    } else {
      var i :| 0 <= i < |keys| && PartyIndex(list, keys[i]) != Ok(i + 1);
      var m: RoundMsg<B> := RoundMsg(1, 1, Some(i + 1), body);
      AddressedByPosition(session, list, keys, m);
      assert !MeetsItsSigner(session, list, keys, m);
    }
  }

  /** Two signers in the wrong order: what is meant for the holder of key index 1 goes to the holder of 2. */
  lemma SwappedSignersMiss<B>(a: Key, b: Key, id: Id, body: B)
    requires a != b
    ensures var session := SessionState(id, [a, b]);
            var m: RoundMsg<B> := RoundMsg(1, 1, Some(1), body);
            && Agreed([1, 2], [2, 1])
            && Addressed(session, [m]) == Ok([Send(a, m)])
            && PartyIndex([1, 2], 2) == Ok(2)
            && !MeetsItsSigner(session, [1, 2], [2, 1], m)
  {
    var session := SessionState(id, [a, b]);
    var m: RoundMsg<B> := RoundMsg(1, 1, Some(1), body);
    var ms := [m];
    assert ms[1..] == [] && ms[0] == m && session.PeerKey(1) == Some(a);
    assert Addressed(session, ms[1..]) == Ok([]);
    assert [Send(a, m)] + [] == [Send(a, m)];
    assert Addressed(session, ms) == Ok([Send(a, m)]);
    assert [1, 2][1..] == [2] && [2][0] == 2;
    assert IndexOf([2], 2) == 0 && IndexOf([1, 2], 2) == 1;
    assert multiset([1, 2]) == multiset([2, 1]);
    AddressedByPosition(session, [1, 2], [2, 1], m);
  }
}
