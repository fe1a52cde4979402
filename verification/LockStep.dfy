// The reference execution: all parties move through the rounds together. The contract a driver
// must meet is stated on this execution alone.
module LockStep {
  import opened Basics
  import opened Sessions
  import opened Rounds
  import opened Bridge

  /** A protocol run by the participants of one session, party i starting from init[i]. */
  datatype Protocol<!S, !B, !O> =
    Protocol(session: SessionState, rounds: nat, driver: Driver<S, B, O>, init: seq<S>)
  {
    function N(): nat {
      |init|
    }

    function KeyOf(i: nat): Key
      requires i < |session.participants|
    {
      session.participants[i]
    }

    ghost predicate WellFormed() {
      && |session.participants| == N()
      && Distinct(session.participants)
      && 1 <= rounds <= 0xFFFF
      && N() <= 0xFFFF
    }
  }

  /** A party's driver after a call to `proceed`, with the messages that call returned. */
  datatype Turn<S, B> = Turn(state: S, out: seq<RoundMsg<B>>)

  /** The messages among `sends` addressed to one key, in order. */
  function SentTo<B>(sends: seq<Send<B>>, key: Key): seq<RoundMsg<B>> {
    if sends == [] then []
    else (if sends[0].to == key then [sends[0].message] else []) + SentTo(sends[1..], key)
  }

  /** What party i receives when party j dispatches `out`. */
  function Wire<S, B, O>(p: Protocol<S, B, O>, j: nat, i: nat, out: seq<RoundMsg<B>>): seq<RoundMsg<B>>
    requires p.WellFormed() && i < p.N() && j < p.N()
  {
    match Dispatch(p.session, p.KeyOf(j), out)
    case Err(_) => []
    case Ok(sends) => SentTo(sends, p.KeyOf(i))
  }

  /** Party i's driver after its (k+1)-st call to `proceed` in the lock-step execution. */
  ghost function TurnOf<S, B, O>(p: Protocol<S, B, O>, k: nat, i: nat): Result<Turn<S, B>, BridgeError>
    requires p.WellFormed() && i < p.N()
    decreases k, 0
  {
    var s := if k == 0 then Ok(p.init[i]) else Collected(p, k, i);
    match s
    case Err(e) => Err(e)
    case Ok(s') =>
      match p.driver.proceed(s')
      case Err(e) => Err(e)
      case Ok((s'', out)) => Ok(Turn(s'', out))
  }

  /** Party i's driver once all the messages of round k were handed to it. */
  ghost function Collected<S, B, O>(p: Protocol<S, B, O>, k: nat, i: nat): Result<S, BridgeError>
    requires p.WellFormed() && i < p.N() && k > 0
    decreases k - 1, 2
  {
    match TurnOf(p, k - 1, i)
    case Err(e) => Err(e)
    case Ok(turn) => HandleAll(p.driver, turn.state, Inbox(p, k, i))
  }

  /** What each party sends to party i in round r. */
  ghost function Row<S, B, O>(p: Protocol<S, B, O>, r: nat, i: nat): (row: seq<seq<Msg<B>>>)
    requires p.WellFormed() && i < p.N() && r > 0
    ensures |row| == p.N()
    decreases r - 1, 1, 1
  {
    seq(p.N(), j requires 0 <= j < p.N() => AsMsgs(OnWire(p, r, j, i)))
  }

  /** The messages of round r for party i, in party order. */
  ghost function Inbox<S, B, O>(p: Protocol<S, B, O>, r: nat, i: nat): seq<Msg<B>>
    requires p.WellFormed() && i < p.N() && r > 0
    decreases r - 1, 1, 2
  {
    Gather(Row(p, r, i), p.N())
  }

  /** The messages of round r on the link from j to i. */
  ghost function OnWire<S, B, O>(p: Protocol<S, B, O>, r: nat, j: nat, i: nat): seq<RoundMsg<B>>
    requires p.WellFormed() && i < p.N() && j < p.N() && r > 0
    decreases r - 1, 1, 0
  {
    match TurnOf(p, r - 1, j)
    case Err(_) => []
    case Ok(turn) => Wire(p, j, i, turn.out)
  }

  function Gather<T>(row: seq<seq<T>>, m: nat): seq<T>
    requires m <= |row|
  {
    if m == 0 then [] else Gather(row, m - 1) + row[m - 1]
  }

  function AsMsgs<B>(ms: seq<RoundMsg<B>>): (r: seq<Msg<B>>)
    ensures |r| == |ms|
    ensures forall a :: 0 <= a < |ms| ==> r[a] == ms[a].ToMsg()
  {
    seq(|ms|, a requires 0 <= a < |ms| => ms[a].ToMsg())
  }

  // ---------------------------------------------------------------------------
  // The contract.

  /** Messages carry their round and their sender; each other party is the receiver exactly once. */
  ghost predicate Emits<B>(out: seq<RoundMsg<B>>, n: nat, i: nat, round: nat) {
    && (forall m <- out :: m.round == round && m.sender == i + 1)
    && (IsSingleBroadcast(out) || ReachesEachOther(out, n, i))
  }

  ghost predicate ReachesEachOther<B>(out: seq<RoundMsg<B>>, n: nat, i: nat) {
    && (forall m <- out :: m.receiver.Some? && 1 <= m.receiver.value <= n)
    && (forall k :: 0 <= k < n ==> CountFor(out, k) == if k == i then 0 else 1)
  }

  /** How many of the messages are addressed to party k, whose party number is k + 1. */
  function CountFor<B>(out: seq<RoundMsg<B>>, k: nat): nat {
    if out == [] then 0
    else (if out[0].receiver.Some? && out[0].receiver.value == k + 1 then 1 else 0) + CountFor(out[1..], k)
  }

  /** What the driver calls after the last round leave: the state `finish` is applied to. */
  ghost function LastState<S, B, O>(p: Protocol<S, B, O>, i: nat): Result<S, BridgeError>
    requires p.WellFormed() && i < p.N()
  {
    if p.rounds == 1 then Collected(p, 1, i)
    else match TurnOf(p, p.rounds, i)
      case Err(e) => Err(e)
      case Ok(turn) => Ok(turn.state)
  }

  ghost function OutputOf<S, B, O>(p: Protocol<S, B, O>, i: nat): Result<O, BridgeError>
    requires p.WellFormed() && i < p.N()
  {
    match LastState(p, i)
    case Err(e) => Err(e)
    case Ok(s) => p.driver.finish(s)
  }

  /** The lock-step execution runs without errors and every round has the right shape. */
  ghost predicate Healthy<S, B, O>(p: Protocol<S, B, O>)
    requires p.WellFormed()
  {
    && (forall k, i :: 0 <= k < p.rounds && 0 <= i < p.N() ==>
          TurnOf(p, k, i).Ok? && Emits(TurnOf(p, k, i).value.out, p.N(), i, k + 1))
    && (forall i :: 0 <= i < p.N() ==> OutputOf(p, i).Ok?)
    && (p.rounds > 1 ==> forall i :: 0 <= i < p.N() ==>
          TurnOf(p, p.rounds, i).Ok? && TurnOf(p, p.rounds, i).value.out == [])
  }

  // ---------------------------------------------------------------------------
  // Indifference to the order of messages within a round, up to a relation on driver states.

  ghost predicate Agree<S>(eq: (S, S) -> bool, a: Result<S, BridgeError>, b: Result<S, BridgeError>) {
    if a.Ok? && b.Ok? then eq(a.value, b.value) else a.Err? && b.Err?
  }

  function Then<S, B, O>(d: Driver<S, B, O>, a: Result<S, BridgeError>, m: Msg<B>): Result<S, BridgeError> {
    match a
    case Err(e) => Err(e)
    case Ok(s) => d.handle(s, m)
  }

  ghost predicate Equivalence<S(!new)>(eq: (S, S) -> bool) {
    && (forall s :: eq(s, s))
    && (forall s, t :: eq(s, t) ==> eq(t, s))
    && (forall s, t, u :: eq(s, t) && eq(t, u) ==> eq(s, u))
  }

  ghost predicate HandleRespects<S(!new), B(!new), O>(d: Driver<S, B, O>, eq: (S, S) -> bool) {
    forall s, t, m :: eq(s, t) ==> Agree(eq, d.handle(s, m), d.handle(t, m))
  }

  ghost predicate HandleCommutes<S(!new), B(!new), O>(d: Driver<S, B, O>, eq: (S, S) -> bool) {
    forall s, a: Msg<B>, b: Msg<B> :: a.sender != b.sender ==>
      Agree(eq, Then(d, d.handle(s, a), b), Then(d, d.handle(s, b), a))
  }

  ghost predicate ProceedRespects<S(!new), B, O>(d: Driver<S, B, O>, eq: (S, S) -> bool) {
    forall s, t :: eq(s, t) ==>
      if d.proceed(s).Ok? && d.proceed(t).Ok?
      then eq(d.proceed(s).value.0, d.proceed(t).value.0) && d.proceed(s).value.1 == d.proceed(t).value.1
      else d.proceed(s).Err? && d.proceed(t).Err?
  }

  ghost predicate FinishRespects<S(!new), B, O>(d: Driver<S, B, O>, eq: (S, S) -> bool) {
    forall s, t :: eq(s, t) ==> d.finish(s) == d.finish(t) || (d.finish(s).Err? && d.finish(t).Err?)
  }

  /** The driver cannot tell in which order the messages of a round arrived. */
  ghost predicate Indifferent<S(!new), B(!new), O>(d: Driver<S, B, O>, eq: (S, S) -> bool) {
    && Equivalence(eq)
    && HandleRespects(d, eq)
    && HandleCommutes(d, eq)
    && ProceedRespects(d, eq)
    && FinishRespects(d, eq)
  }

  ghost predicate DistinctSenders<B>(ms: seq<Msg<B>>) {
    forall a, b :: 0 <= a < b < |ms| ==> ms[a].sender != ms[b].sender
  }

  lemma {:induction false} HandleAllRespects<S(!new), B(!new), O>(d: Driver<S, B, O>, eq: (S, S) -> bool, s: S, t: S,
                                                                  ms: seq<Msg<B>>)
    requires Indifferent(d, eq) && eq(s, t)
    ensures Agree(eq, HandleAll(d, s, ms), HandleAll(d, t, ms))
  {
    if ms != [] {
      assert Agree(eq, d.handle(s, ms[0]), d.handle(t, ms[0]));
      if d.handle(s, ms[0]).Ok? {
        HandleAllRespects(d, eq, d.handle(s, ms[0]).value, d.handle(t, ms[0]).value, ms[1..]);
      }
    }
  }

  /** A message can be handed over before others of different senders. */
  lemma {:induction false} HandleFirst<S(!new), B(!new), O>(d: Driver<S, B, O>, eq: (S, S) -> bool, s: S,
                                                            before: seq<Msg<B>>, m: Msg<B>, after: seq<Msg<B>>)
    requires Indifferent(d, eq)
    requires forall b <- before :: b.sender != m.sender
    ensures Agree(eq, HandleAll(d, s, before + [m] + after), HandleAll(d, s, [m] + before + after))
  {
    if before == [] {
      assert before + [m] + after == [m] + before + after;
    } else {
      var b, rest := before[0], before[1..];
      var all, swapped := before + [m] + after, [m] + before + after;
      assert all[0] == b && all[1..] == rest + [m] + after;
      assert swapped[0] == m && swapped[1..] == [b] + rest + after;
      assert swapped[1..][0] == b && swapped[1..][1..] == rest + after;
      assert ([m] + rest + after)[0] == m && ([m] + rest + after)[1..] == rest + after;
      assert b in before;
      assert Agree(eq, Then(d, d.handle(s, b), m), Then(d, d.handle(s, m), b));
      if d.handle(s, b).Ok? {
        var sb := d.handle(s, b).value;
        HandleFirst(d, eq, sb, rest, m, after);
        assert HandleAll(d, s, all) == HandleAll(d, sb, rest + [m] + after);
        if d.handle(sb, m).Ok? {
          var sm := d.handle(s, m).value;
          var t, u := d.handle(sb, m).value, d.handle(sm, b).value;
          HandleAllRespects(d, eq, t, u, rest + after);
          assert HandleAll(d, sb, [m] + rest + after) == HandleAll(d, t, rest + after);
          assert HandleAll(d, s, swapped) == HandleAll(d, sm, [b] + rest + after) == HandleAll(d, u, rest + after);
        }
      }
    }
  }

  lemma MultisetWithout<T>(ms: seq<T>, ns: seq<T>, x: T, before: seq<T>, after: seq<T>)
    requires ms != [] && ms[0] == x && ns == before + [x] + after
    requires multiset(ms) == multiset(ns)
    ensures multiset(ms[1..]) == multiset(before + after)
  {
    assert ms == [x] + ms[1..];
    assert multiset(ns) == multiset(before) + multiset([x]) + multiset(after);
    assert multiset(ms) == multiset([x]) + multiset(ms[1..]);
    assert multiset(before + after) == multiset(before) + multiset(after);
    forall y
      ensures multiset(ms[1..])[y] == multiset(before + after)[y]
    {
      assert multiset(ms)[y] == multiset([x])[y] + multiset(ms[1..])[y];
    }
  }

  lemma OthersDiffer<B>(ms: seq<Msg<B>>, before: seq<Msg<B>>, after: seq<Msg<B>>)
    requires ms != [] && DistinctSenders(ms)
    requires multiset(ms[1..]) == multiset(before + after)
    ensures forall b <- before :: b.sender != ms[0].sender
  {
    forall b | b in before
      ensures b.sender != ms[0].sender
    {
      assert b in before + after;
      assert b in multiset(before + after);
      assert b in ms[1..];
    }
  }

  /** The first message of a batch, found and taken out of a permutation of it. */
  lemma TakeOut<B>(ms: seq<Msg<B>>, ns: seq<Msg<B>>) returns (before: seq<Msg<B>>, after: seq<Msg<B>>)
    requires ms != [] && DistinctSenders(ms) && multiset(ms) == multiset(ns)
    ensures ns == before + [ms[0]] + after
    ensures multiset(ms[1..]) == multiset(before + after)
    ensures forall b <- before :: b.sender != ms[0].sender
  {
    var m := ms[0];
    assert m in multiset(ms);
    var k :| 0 <= k < |ns| && ns[k] == m;
    before, after := ns[..k], ns[k + 1..];
    MultisetWithout(ms, ns, m, before, after);
    OthersDiffer(ms, before, after);
  }

  lemma AgreeVia<S(!new)>(eq: (S, S) -> bool, a: Result<S, BridgeError>, b: Result<S, BridgeError>,
                          c: Result<S, BridgeError>)
    requires Equivalence(eq) && Agree(eq, a, b) && Agree(eq, c, b)
    ensures Agree(eq, a, c)
  {}

  lemma NothingLeft<T>(ns: seq<T>)
    requires multiset(ns) == multiset([])
    ensures ns == []
  {
    assert |multiset(ns)| == 0;
  }

  /** Equivalent states take the same message to equivalent states. */
  lemma HandleSameFirst<S(!new), B(!new), O>(d: Driver<S, B, O>, eq: (S, S) -> bool, s: S, t: S, m: Msg<B>,
                                             rest: seq<Msg<B>>, others: seq<Msg<B>>)
    requires Indifferent(d, eq) && eq(s, t)
    requires d.handle(s, m).Ok? && d.handle(t, m).Ok? ==>
               Agree(eq, HandleAll(d, d.handle(s, m).value, rest), HandleAll(d, d.handle(t, m).value, others))
    ensures Agree(eq, HandleAll(d, s, [m] + rest), HandleAll(d, t, [m] + others))
  {
    assert ([m] + rest)[1..] == rest && ([m] + others)[1..] == others;
    assert Agree(eq, d.handle(s, m), d.handle(t, m));
  }

  /** Equivalent states and permuted batches lead to equivalent states. */
  lemma {:induction false} HandleAllPermuted<S(!new), B(!new), O>(d: Driver<S, B, O>, eq: (S, S) -> bool, s: S, t: S,
                                                                  ms: seq<Msg<B>>, ns: seq<Msg<B>>)
    requires Indifferent(d, eq) && eq(s, t)
    requires DistinctSenders(ms) && multiset(ms) == multiset(ns)
    ensures Agree(eq, HandleAll(d, s, ms), HandleAll(d, t, ns))
    decreases |ms|
  {
    if ms == [] {
      NothingLeft(ns);
    } else {
      hide HandleAll;
      var m, rest := ms[0], ms[1..];
      assert ms == [m] + rest;
      var before, after := TakeOut(ms, ns);
      HandleFirst(d, eq, t, before, m, after);
      Regroup([m], before, after);
      if d.handle(s, m).Ok? && d.handle(t, m).Ok? {
        assert Agree(eq, d.handle(s, m), d.handle(t, m));
        HandleAllPermuted(d, eq, d.handle(s, m).value, d.handle(t, m).value, rest, before + after);
      }
      HandleSameFirst(d, eq, s, t, m, rest, before + after);
      AgreeVia(eq, HandleAll(d, s, ms), HandleAll(d, t, [m] + (before + after)), HandleAll(d, t, ns));
    }
  }

  // ---------------------------------------------------------------------------
  // The shape of a round on the wires.

  function ForKey<B>(send: Send<B>, key: Key): seq<RoundMsg<B>> {
    if send.to == key then [send.message] else []
  }

  lemma SentToStep<B>(send: Send<B>, sends: seq<Send<B>>, key: Key)
    ensures SentTo([send] + sends, key) == ForKey(send, key) + SentTo(sends, key)
  {
    assert ([send] + sends)[1..] == sends;
  }

  lemma {:induction false} SentToAppend<B>(a: seq<Send<B>>, b: seq<Send<B>>, key: Key)
    ensures SentTo(a + b, key) == SentTo(a, key) + SentTo(b, key)
  {
    if a == [] {
      assert a + b == b;
    } else {
      hide SentTo, ForKey;
      var rest := a[1..];
      assert a == [a[0]] + rest && a + b == [a[0]] + (rest + b);
      SentToStep(a[0], rest, key);
      SentToStep(a[0], rest + b, key);
      SentToAppend(rest, b, key);
      Regroup(ForKey(a[0], key), SentTo(rest, key), SentTo(b, key));
    }
  }


  /** A broadcast puts one copy on the wire to each other party and none to the sender. */
  lemma {:induction false} BroadcastReaches<B>(keys: seq<Key>, own: Key, m: RoundMsg<B>, key: Key)
    requires Distinct(keys)
    ensures SentTo(ToAll(Others(keys, own), m), key) == if key in keys && key != own then [m] else []
  {
    if keys != [] {
      var rest := keys[1..];
      BroadcastReaches(rest, own, m, key);
      if keys[0] != own {
        assert Others(keys, own) == [keys[0]] + Others(rest, own);
        var all := ToAll(Others(keys, own), m);
        assert all[0] == Send(keys[0], m) && all[1..] == ToAll(Others(rest, own), m);
        assert keys[0] !in rest;
        if key == keys[0] {
          assert SentTo(all[1..], key) == [];
        }
      } else {
        assert Others(keys, own) == Others(rest, own);
      }
    }
  }

  /** Point-to-point messages reach exactly the receivers they name. */
  lemma {:induction false} AddressedReaches<B>(session: SessionState, out: seq<RoundMsg<B>>, k: nat)
    requires Distinct(session.participants) && k < |session.participants|
    requires forall m <- out :: m.receiver.Some? && 1 <= m.receiver.value <= |session.participants|
    ensures Addressed(session, out).Ok?
    ensures var ms := SentTo(Addressed(session, out).value, session.participants[k]);
            |ms| == CountFor(out, k) && forall m <- ms :: m in out
  {
    if out != [] {
      AddressedReaches(session, out[1..], k);
      assert out[0] in out;
      var number: nat := out[0].receiver.value;
      var rest := Addressed(session, out[1..]).value;
      var head := Send(session.participants[number - 1], out[0]);
      assert Addressed(session, out).value == [head] + rest;
      SentToAppend([head], rest, session.participants[k]);
      assert SentTo([head], session.participants[k]) == (if number - 1 == k then [out[0]] else [])
             + SentTo([], session.participants[k]);
    }
  }

  /** A well-shaped round puts exactly one message on each wire. */
  lemma OneMessagePerWire<S, B, O>(p: Protocol<S, B, O>, j: nat, i: nat, out: seq<RoundMsg<B>>, round: nat)
    requires p.WellFormed() && i < p.N() && j < p.N()
    requires Emits(out, p.N(), j, round)
    ensures Dispatch(p.session, p.KeyOf(j), out).Ok?
    ensures |Wire(p, j, i, out)| == if i == j then 0 else 1
    ensures forall m <- Wire(p, j, i, out) :: m.round == round && m.sender == j + 1
  {
    if IsSingleBroadcast(out) {
      BroadcastReaches(p.session.participants, p.KeyOf(j), out[0], p.KeyOf(i));
      assert out[0] in out;
    } else {
      AddressedReaches(p.session, out, i);
    }
  }
}
