// A bridge joins one party's protocol driver to the network.
module Bridge {
  import opened Basics
  import opened Sessions
  import opened Rounds

  datatype BridgeError =
    | SessionIdMismatch      // the event belongs to another session
    | SessionIdRequired      // the event belongs to no session
    | Undecodable            // the payload is not a round message of this stage
    | DriverFailed           // the driver returned an error
    | TransportFailed        // the transport could not send
    | StreamFailed           // the client's event loop reported an error
    | Panicked               // an `unwrap` on an absent value

  /**
   * A protocol driver: `handle` takes one message of the round being collected, `proceed` moves to
   * the next round and returns the messages to send, `finish` yields the output.
   */
  datatype Driver<!S, !B, !O> = Driver(
    handle: (S, Msg<B>) -> Result<S, BridgeError>,
    proceed: S -> Result<(S, seq<RoundMsg<B>>), BridgeError>,
    finish: S -> Result<O, BridgeError>)

  datatype Event<+B> =
    | JsonMessage(sessionId: Option<Id>, message: Option<RoundMsg<B>>)   // None: not decodable
    | OtherEvent

  /** One message handed to the transport, addressed by public key. */
  datatype Send<+B> = Send(to: Key, message: RoundMsg<B>)

  datatype Outcome<+O> = Pending | Complete(output: O) | Failed(error: BridgeError)

  datatype BridgeState<S, B> = BridgeState(driver: Option<S>, buffer: BufferState<Msg<B>>)

  /** The effect of one event: new state, what the caller is told, what was handed over and sent. */
  datatype Step<S, B, O> =
    Step(state: BridgeState<S, B>, outcome: Outcome<O>, handed: seq<Msg<B>>, sends: seq<Send<B>>)

  // ---------------------------------------------------------------------------
  // Specification.

  /** Feed a batch to the driver, stopping at the first error. */
  function HandleAll<S, B, O>(d: Driver<S, B, O>, s: S, batch: seq<Msg<B>>): Result<S, BridgeError> {
    if batch == [] then Ok(s)
    else match d.handle(s, batch[0])
      case Err(e) => Err(e)
      case Ok(s') => HandleAll(d, s', batch[1..])
  }

  lemma {:induction false} HandleAllSnoc<S, B, O>(d: Driver<S, B, O>, s: S, batch: seq<Msg<B>>, m: Msg<B>)
    ensures HandleAll(d, s, batch + [m]) ==
            (match HandleAll(d, s, batch) case Err(e) => Err(e) case Ok(s') => d.handle(s', m))
  {
    var all := batch + [m];
    if batch == [] {
      assert all[1..] == [];
      match d.handle(s, m) {
        case Err(_) =>
        case Ok(s') => assert HandleAll(d, s', []) == Ok(s');
      }
    } else {
      assert all[0] == batch[0] && all[1..] == batch[1..] + [m];
      match d.handle(s, batch[0]) {
        case Err(_) =>
        case Ok(s') => HandleAllSnoc(d, s', batch[1..], m);
      }
    }
  }

  predicate IsSingleBroadcast<B>(messages: seq<RoundMsg<B>>) {
    |messages| == 1 && messages[0].IsBroadcast()
  }

  function ToAll<B>(recipients: seq<Key>, message: RoundMsg<B>): seq<Send<B>> {
    seq(|recipients|, i requires 0 <= i < |recipients| => Send(recipients[i], message))
  }

  /** Address point-to-point messages by the party number of their receiver. */
  function Addressed<B>(session: SessionState, messages: seq<RoundMsg<B>>): Result<seq<Send<B>>, BridgeError> {
    if messages == [] then Ok([])
    else
      var m := messages[0];
      if m.receiver.None? || session.PeerKey(m.receiver.value).None? then Err(Panicked)
      else Prefixed([Send(session.PeerKey(m.receiver.value).value, m)], Addressed(session, messages[1..]))
  }

  function Prefixed<B>(sent: seq<Send<B>>, r: Result<seq<Send<B>>, BridgeError>): Result<seq<Send<B>>, BridgeError> {
    match r
    case Err(e) => Err(e)
    case Ok(rest) => Ok(sent + rest)
  }

  function Dispatch<B>(session: SessionState, own: Key, messages: seq<RoundMsg<B>>)
    : Result<seq<Send<B>>, BridgeError>
  {
    if IsSingleBroadcast(messages) then Ok(ToAll(session.Recipients(own), messages[0]))
    else Addressed(session, messages)
  }

  /** What is handed to the transport before a message without a proper receiver, if any, is met. */
  function Outgoing<B>(session: SessionState, own: Key, messages: seq<RoundMsg<B>>): seq<Send<B>> {
    if IsSingleBroadcast(messages) then ToAll(session.Recipients(own), messages[0])
    else AddressedPrefix(session, messages)
  }

  function AddressedPrefix<B>(session: SessionState, messages: seq<RoundMsg<B>>): seq<Send<B>> {
    if messages == [] then []
    else
      var m := messages[0];
      if m.receiver.None? || session.PeerKey(m.receiver.value).None? then []
      else [Send(session.PeerKey(m.receiver.value).value, m)] + AddressedPrefix(session, messages[1..])
  }

  lemma {:induction false} PrefixOfAddressed<B>(session: SessionState, messages: seq<RoundMsg<B>>)
    ensures Addressed(session, messages).Ok? ==>
            AddressedPrefix(session, messages) == Addressed(session, messages).value
  {
    if messages != [] {
      PrefixOfAddressed(session, messages[1..]);
    }
  }

  lemma AddressedStep<B>(session: SessionState, messages: seq<RoundMsg<B>>, i: nat)
    requires i < |messages|
    ensures var m, here, next := messages[i], messages[i..], messages[i + 1..];
            if m.receiver.None? || session.PeerKey(m.receiver.value).None?
            then AddressedPrefix(session, here) == [] && Addressed(session, here).Err?
            else
              var first := Send(session.PeerKey(m.receiver.value).value, m);
              && AddressedPrefix(session, here) == [first] + AddressedPrefix(session, next)
              && (Addressed(session, here).Ok? <==> Addressed(session, next).Ok?)
  {
    assert messages[i..][1..] == messages[i + 1..];
  }

  lemma {:induction false} OnlyPanics<B>(session: SessionState, messages: seq<RoundMsg<B>>)
    ensures Addressed(session, messages).Err? ==> Addressed(session, messages) == Err(Panicked)
  {
    if messages != [] {
      OnlyPanics(session, messages[1..]);
    }
  }

  lemma NothingAddressed<B>(session: SessionState)
    ensures AddressedPrefix<B>(session, []) == [] && Addressed<B>(session, []).Ok?
  {}

  /** The transport reaches every addressee. */
  predicate AllReached<B>(sends: seq<Send<B>>, broken: set<Key>) {
    forall i :: 0 <= i < |sends| ==> sends[i].to !in broken
  }

  lemma NoneToReach<B>(broken: set<Key>)
    ensures AllReached<B>([], broken) && CutAt<B>([], broken) == []
  {}

  /** What is sent before the first addressee the transport cannot reach. */
  function CutAt<B>(sends: seq<Send<B>>, broken: set<Key>): seq<Send<B>> {
    if sends == [] || sends[0].to in broken then [] else [sends[0]] + CutAt(sends[1..], broken)
  }

  lemma {:induction false} CutNothing<B>(sends: seq<Send<B>>, broken: set<Key>)
    requires AllReached(sends, broken)
    ensures CutAt(sends, broken) == sends
  {
    if sends != [] {
      CutNothing(sends[1..], broken);
    }
  }

  /** What goes through ahead of the rest decides nothing. */
  lemma {:induction false} CutBehind<B>(done: seq<Send<B>>, rest: seq<Send<B>>, broken: set<Key>)
    requires AllReached(done, broken)
    ensures CutAt(done + rest, broken) == done + CutAt(rest, broken)
    ensures AllReached(done + rest, broken) <==> AllReached(rest, broken)
  {
    if done == [] {
      assert done + rest == rest;
    } else {
      assert (done + rest)[0] == done[0] && (done + rest)[1..] == done[1..] + rest;
      CutBehind(done[1..], rest, broken);
      ReachedFirst(done[0], done[1..] + rest, broken);
      assert done + rest == [done[0]] + (done[1..] + rest);
    }
  }

  lemma ReachedFirst<B>(s: Send<B>, rest: seq<Send<B>>, broken: set<Key>)
    ensures AllReached([s] + rest, broken) <==> s.to !in broken && AllReached(rest, broken)
  {
    if AllReached([s] + rest, broken) {
      assert ([s] + rest)[0].to !in broken;
      assert forall i :: 0 <= i < |rest| ==> rest[i] == ([s] + rest)[i + 1];
    }
  }

  lemma CutFirst<B>(s: Send<B>, rest: seq<Send<B>>, broken: set<Key>)
    ensures CutAt([s] + rest, broken) == if s.to in broken then [] else [s] + CutAt(rest, broken)
  {
    assert ([s] + rest)[1..] == rest;
  }

  /** What is sent is everything up to the first addressee that cannot be reached. */
  lemma {:induction false} CutIsPrefix<B>(sends: seq<Send<B>>, broken: set<Key>) returns (k: nat)
    ensures k <= |sends| && CutAt(sends, broken) == sends[..k]
    ensures forall i :: 0 <= i < k ==> sends[i].to !in broken
    ensures k < |sends| ==> sends[k].to in broken
  {
    if sends == [] || sends[0].to in broken {
      k := 0;
    } else {
      var k1 := CutIsPrefix(sends[1..], broken);
      k := k1 + 1;
      assert sends[..k] == [sends[0]] + sends[1..][..k1];
      assert forall i :: 1 <= i < k ==> sends[i] == sends[1..][i - 1];
    }
  }

  /** The message names a receiver that is a party of the session. */
  predicate HasReceiver<B>(session: SessionState, m: RoundMsg<B>) {
    m.receiver.Some? && 1 <= m.receiver.value <= |session.participants|
  }

  /**
   * Messages go to the participants at their receivers' numbers, in order, up to the first that has no
   * proper receiver; dispatching succeeds exactly when there is none such.
   */
  lemma {:induction false} AddressedIsPrefix<B>(session: SessionState, messages: seq<RoundMsg<B>>) returns (k: nat)
    ensures k <= |messages| && |AddressedPrefix(session, messages)| == k
    ensures forall i :: 0 <= i < k ==>
              && HasReceiver(session, messages[i])
              && AddressedPrefix(session, messages)[i]
                 == Send(session.participants[messages[i].receiver.value - 1], messages[i])
    ensures k < |messages| ==> !HasReceiver(session, messages[k])
    ensures Addressed(session, messages).Ok? <==> k == |messages|
  {
    if messages == [] || !HasReceiver(session, messages[0]) {
      k := 0;
    } else {
      var k1 := AddressedIsPrefix(session, messages[1..]);
      k := k1 + 1;
      assert forall i :: 1 <= i < |messages| ==> messages[i] == messages[1..][i - 1];
    }
  }

  /** A step over a transport that cannot reach some peers: sending ends, and the step fails, at the first of them. */
  function Transmit<S, B, O>(step: Step<S, B, O>, broken: set<Key>): Step<S, B, O> {
    if AllReached(step.sends, broken) then step
    else step.(outcome := Failed(TransportFailed), sends := CutAt(step.sends, broken))
  }

  function Start<S, B, O>(d: Driver<S, B, O>, session: SessionState, own: Key, st: BridgeState<S, B>): Step<S, B, O> {
    match st.driver
    case None => Step(st, Failed(Panicked), [], [])
    case Some(s) =>
      match d.proceed(s)
      case Err(e) => Step(st, Failed(e), [], [])
      case Ok((s1, out)) =>
        var st1 := st.(driver := Some(s1));
        match Dispatch(session, own, out)
        case Err(e) => Step(st1, Failed(e), [], Outgoing(session, own, out))
        case Ok(sends) => Step(st1, Pending, [], sends)
  }

  function Handle<S, B, O>(d: Driver<S, B, O>, session: SessionState, own: Key, st: BridgeState<S, B>, event: Event<B>)
    : Step<S, B, O>
  {
    match event
    case OtherEvent => Step(st, Pending, [], [])
    case JsonMessage(id, message) =>
      if id.None? then Step(st, Failed(SessionIdRequired), [], [])
      else if id.value != session.id then Step(st, Failed(SessionIdMismatch), [], [])
      else if message.None? then Step(st, Failed(Undecodable), [], [])
      else Receive(d, session, own, st, message.value)
  }

  function Receive<S, B, O>(d: Driver<S, B, O>, session: SessionState, own: Key, st: BridgeState<S, B>, m: RoundMsg<B>)
    : Step<S, B, O>
  {
    var buffer := st.buffer.Add(m.round, m.ToMsg());
    if buffer.IsReady(m.round) then
      Advance(d, session, own, st.(buffer := buffer.Without(m.round)), m.round, buffer.Batch(m.round))
    else Step(st.(buffer := buffer), Pending, [], [])
  }

  /** A full round: hand it over, then proceed, send and perhaps finish. */
  function Advance<S, B, O>(d: Driver<S, B, O>, session: SessionState, own: Key, st: BridgeState<S, B>,
                            round: RoundNumber, batch: seq<Msg<B>>)
    : Step<S, B, O>
  {
    if st.driver.None? then Step(st, Failed(Panicked), batch, [])
    else match HandleAll(d, st.driver.value, batch)
      case Err(e) => Step(st, Failed(e), batch, [])
      case Ok(s1) =>
        if st.buffer.Len() == 1 then Finish(d, st, s1, batch, [])
        else match d.proceed(s1)
          case Err(e) => Step(st, Failed(e), batch, [])
          case Ok((s2, out)) =>
            match Dispatch(session, own, out)
            case Err(e) => Step(st, Failed(e), batch, Outgoing(session, own, out))
            case Ok(sends) =>
              if round == st.buffer.Len() then Finish(d, st, s2, batch, sends)
              else Step(st.(driver := Some(s2)), Pending, batch, sends)
  }

  function Finish<S, B, O>(d: Driver<S, B, O>, st: BridgeState<S, B>, s: S, batch: seq<Msg<B>>, sends: seq<Send<B>>)
    : Step<S, B, O>
  {
    match d.finish(s)
    case Err(e) => Step(st.(driver := None), Failed(e), batch, sends)
    case Ok(output) => Step(st.(driver := None), Complete(output), batch, sends)
  }

  /** An item of the client's event stream, and the peers its transport cannot reach at the time. */
  datatype Arrival<+B> = Arrival(event: Result<Event<B>, BridgeError>, broken: set<Key>)

  /** An event makes the step that handling it makes; an error of the stream ends everything. */
  function AfterArrival<S, B, O>(d: Driver<S, B, O>, session: SessionState, own: Key, step: Step<S, B, O>,
                                 a: Arrival<B>): (r: Step<S, B, O>)
    ensures a.event.Err? ==> r == step.(outcome := Failed(a.event.error))
    ensures a.event.Ok? ==>
              var next := Transmit(Handle(d, session, own, step.state, a.event.value), a.broken);
              && r.state == next.state && r.outcome == next.outcome
              && r.handed == step.handed + next.handed && r.sends == step.sends + next.sends
  {
    match a.event
    case Err(e) => step.(outcome := Failed(e))
    case Ok(event) =>
      var next := Transmit(Handle(d, session, own, step.state, event), a.broken);
      Step(next.state, next.outcome, step.handed + next.handed, step.sends + next.sends)
  }

  /**
   * One step per arrival, in order, from a first one on, for as long as the driver is neither done nor
   * failed and anything arrives.
   */
  ghost predicate IsTrace<S, B, O>(d: Driver<S, B, O>, session: SessionState, own: Key, first: Step<S, B, O>,
                                   arrivals: seq<Arrival<B>>, trace: seq<Step<S, B, O>>) {
    && 1 <= |trace| <= |arrivals| + 1 && trace[0] == first
    && (forall i :: 0 <= i < |trace| - 1 ==> trace[i].outcome.Pending?)
    && (forall i :: 0 <= i < |trace| - 1 ==> trace[i + 1] == AfterArrival(d, session, own, trace[i], arrivals[i]))
    && (|trace| <= |arrivals| ==> !trace[|trace| - 1].outcome.Pending?)
  }

  /** What a driver wants sent can be: one broadcast, or messages that all name a party. */
  ghost predicate Addressable<B>(session: SessionState, messages: seq<RoundMsg<B>>) {
    IsSingleBroadcast(messages) || forall i :: 0 <= i < |messages| ==> HasReceiver(session, messages[i])
  }

  lemma DispatchSucceedsWhen<B>(session: SessionState, own: Key, messages: seq<RoundMsg<B>>)
    ensures Dispatch(session, own, messages).Ok? <==> Addressable(session, messages)
  {
    var k := AddressedIsPrefix(session, messages);
  }

  /** Starting succeeds exactly when there is a driver, it proceeds, and its messages can be addressed. */
  lemma StartSucceedsWhen<S, B, O>(d: Driver<S, B, O>, session: SessionState, own: Key, st: BridgeState<S, B>)
    ensures var r := Start(d, session, own, st);
            && !r.outcome.Complete? && r.handed == []
            && (r.outcome.Pending? <==>
                  && st.driver.Some? && d.proceed(st.driver.value).Ok?
                  && Addressable(session, d.proceed(st.driver.value).value.1))
  {
    hide Dispatch, Addressable;
    if st.driver.Some? && d.proceed(st.driver.value).Ok? {
      DispatchSucceedsWhen(session, own, d.proceed(st.driver.value).value.1);
    }
  }

  function OutcomeOf<O>(r: Result<O, BridgeError>): Outcome<O> {
    match r
    case Ok(output) => Complete(output)
    case Err(e) => Failed(e)
  }

  /**
   * What comes of a full round. A driver of a single round finishes at once. Any other proceeds and its
   * messages are sent; after the last round it finishes. The first thing that fails ends it, and there is
   * an output exactly when nothing does and the rounds are over.
   */
  lemma RoundEndsWhen<S, B, O>(d: Driver<S, B, O>, session: SessionState, own: Key, st: BridgeState<S, B>,
                               round: RoundNumber, batch: seq<Msg<B>>)
    requires st.driver.Some?
    ensures var r, handled := Advance(d, session, own, st, round, batch), HandleAll(d, st.driver.value, batch);
            && r.handed == batch
            && (handled.Err? ==> r.outcome == Failed(handled.error) && r.sends == [])
            && (handled.Ok? && st.buffer.Len() == 1 ==>
                  && r.sends == []
                  && r.outcome == OutcomeOf(d.finish(handled.value)))
            && (handled.Ok? && st.buffer.Len() != 1 ==>
                  match d.proceed(handled.value)
                  case Err(e) => r.outcome == Failed(e) && r.sends == []
                  case Ok((s, out)) =>
                    && r.sends == Outgoing(session, own, out)
                    && (!Addressable(session, out) ==> r.outcome == Failed(Panicked))
                    && (Addressable(session, out) && round != st.buffer.Len() ==>
                          r.outcome == Pending && r.state.driver == Some(s))
                    && (Addressable(session, out) && round == st.buffer.Len() ==>
                          r.outcome == OutcomeOf(d.finish(s))))
  {
    hide Dispatch, Addressable, Outgoing, HandleAll;
    var handled := HandleAll(d, st.driver.value, batch);
    if handled.Ok? && d.proceed(handled.value).Ok? {
      var out := d.proceed(handled.value).value.1;
      DispatchSucceedsWhen(session, own, out);
      DispatchIsOutgoing(session, own, out);
    }
  }

  lemma DispatchIsOutgoing<B>(session: SessionState, own: Key, messages: seq<RoundMsg<B>>)
    ensures match Dispatch(session, own, messages)
            case Ok(sends) => sends == Outgoing(session, own, messages)
            case Err(e) => e == Panicked
  {
    PrefixOfAddressed(session, messages);
    OnlyPanics(session, messages);
  }

  /** A bridge hands over whichever round fills first, earlier rounds or not. */
  lemma FirstFullRoundIsHandedOver<S, B, O>(d: Driver<S, B, O>, session: SessionState, own: Key,
                                            st: BridgeState<S, B>, rounds: nat, m: RoundMsg<B>)
    requires st.driver.Some? && st.buffer.expected == FixedRounds(rounds, 1) && m.round <= rounds <= 0xFFFF
    requires st.buffer.Batch(m.round) == []
    ensures Receive(d, session, own, st, m).handed == [m.ToMsg()]
  {
    var buffer := st.buffer.Add(m.round, m.ToMsg());
    assert Configured(m.round, rounds);
    assert buffer.Batch(m.round) == [m.ToMsg()];
  }

  // ---------------------------------------------------------------------------
  // The bridge itself.

  class Bridge<S, B, O> {
    const d: Driver<S, B, O>
    const session: SessionState
    const own: Key
    const buffer: RoundBuffer<Msg<B>>
    var driver: Option<S>
    /** Everything handed to the transport so far. */
    var outbox: seq<Send<B>>

    ghost function State(): BridgeState<S, B>
      reads this, buffer
    {
      BridgeState(driver, buffer.State())
    }

    constructor (d: Driver<S, B, O>, session: SessionState, own: Key, buffer: RoundBuffer<Msg<B>>, initial: S)
      ensures this.d == d && this.session == session && this.own == own && this.buffer == buffer
      ensures State() == BridgeState(Some(initial), buffer.State())
      ensures outbox == []
    {
      this.d := d;
      this.session := session;
      this.own := own;
      this.buffer := buffer;
      this.driver := Some(initial);
      this.outbox := [];
    }

    /** Sends one broadcast to every recipient, or each message to its receiver, up to the first failure. */
    method DispatchRoundMessages(messages: seq<RoundMsg<B>>, broken: set<Key>) returns (error: Option<BridgeError>)
      modifies this`outbox
      ensures var all := Outgoing(session, own, messages);
              && outbox == old(outbox) + CutAt(all, broken)
              && error == if !AllReached(all, broken) then Some(TransportFailed)
                          else match Dispatch(session, own, messages) case Ok(_) => None case Err(e) => Some(e)
    {
      if |messages| == 1 && messages[0].IsBroadcast() {
        error := SendAll(ToAll(session.Recipients(own), messages[0]), broken);
      } else {
        error := SendEach(messages, broken);
      }
    }

    method SendAll(sends: seq<Send<B>>, broken: set<Key>) returns (error: Option<BridgeError>)
      modifies this`outbox
      ensures outbox == old(outbox) + CutAt(sends, broken)
      ensures error == if AllReached(sends, broken) then None else Some(TransportFailed)
    {
      for i := 0 to |sends|
        invariant outbox == old(outbox) + sends[..i]
        invariant AllReached(sends[..i], broken)
      {
        if sends[i].to in broken {
          assert sends == sends[..i] + ([sends[i]] + sends[i + 1..]);
          CutFirst(sends[i], sends[i + 1..], broken);
          ReachedFirst(sends[i], sends[i + 1..], broken);
          CutBehind(sends[..i], [sends[i]] + sends[i + 1..], broken);
          return Some(TransportFailed);
        }
        assert sends[..i + 1] == sends[..i] + [sends[i]];
        outbox := outbox + [sends[i]];
      }
      assert sends[..|sends|] == sends;
      CutNothing(sends, broken);
      error := None;
    }

    method SendEach(messages: seq<RoundMsg<B>>, broken: set<Key>) returns (error: Option<BridgeError>)
      modifies this`outbox
      ensures var all := AddressedPrefix(session, messages);
              && outbox == old(outbox) + CutAt(all, broken)
              && error == if !AllReached(all, broken) then Some(TransportFailed)
                          else match Addressed(session, messages) case Ok(_) => None case Err(e) => Some(e)
    {
      hide Addressed, AddressedPrefix, CutAt, AllReached;
      var i := 0;
      ghost var done: seq<Send<B>> := [];
      ghost var all := AddressedPrefix(session, messages);
      assert messages[0..] == messages && done + all == all;
      assert AllReached(done, broken) by {
        NoneToReach<B>(broken);
      }
      while i < |messages|
        invariant i <= |messages|
        invariant all == done + AddressedPrefix(session, messages[i..])
        invariant Addressed(session, messages).Ok? <==> Addressed(session, messages[i..]).Ok?
        invariant outbox == old(outbox) + done && AllReached(done, broken)
      {
        var m := messages[i];
        AddressedStep(session, messages, i);
        CutBehind(done, AddressedPrefix(session, messages[i..]), broken);
        OnlyPanics(session, messages);
        if m.receiver.None? || session.PeerKey(m.receiver.value).None? {
          NoneToReach<B>(broken);
          return Some(Panicked);
        }
        var send := Send(session.PeerKey(m.receiver.value).value, m);
        ghost var rest := AddressedPrefix(session, messages[i + 1..]);
        CutFirst(send, rest, broken);
        ReachedFirst(send, rest, broken);
        if send.to in broken {
          return Some(TransportFailed);
        }
        NoneToReach<B>(broken);
        ReachedFirst(send, [], broken);
        assert [send] + [] == [send];
        CutBehind(done, [send], broken);
        Regroup(done, [send], rest);
        outbox := outbox + [send];
        done := done + [send];
        i := i + 1;
      }
      assert messages[|messages|..] == [];
      NothingAddressed<B>(session);
      assert all == done;
      CutNothing(all, broken);
      return None;
    }

    /** Starts the protocol. */
    method Execute(broken: set<Key>) returns (outcome: Outcome<O>)
      modifies this`driver, this`outbox
      ensures var step := Transmit(Start(d, session, own, old(State())), broken);
              && outcome == step.outcome && outbox == old(outbox) + step.sends
              && (!outcome.Failed? ==> State() == step.state)
    {
      if driver.None? {
        return Failed(Panicked);
      }
      var next := d.proceed(driver.value);
      if next.Err? {
        return Failed(next.error);
      }
      driver := Some(next.value.0);
      outcome := SendRound(next.value.1, broken);
    }

    /** Dispatching, as part of a step. */
    method SendRound(messages: seq<RoundMsg<B>>, broken: set<Key>) returns (outcome: Outcome<O>)
      modifies this`outbox
      ensures match Dispatch(session, own, messages)
              case Ok(sends) =>
                && outbox == old(outbox) + CutAt(sends, broken)
                && (AllReached(sends, broken) ==> outcome == Pending && outbox == old(outbox) + sends)
                && (!AllReached(sends, broken) ==> outcome == Failed(TransportFailed))
              case Err(e) =>
                var sends := Outgoing(session, own, messages);
                && outbox == old(outbox) + CutAt(sends, broken)
                && (AllReached(sends, broken) ==> outcome == Failed(e) && outbox == old(outbox) + sends)
                && (!AllReached(sends, broken) ==> outcome == Failed(TransportFailed))
    {
      var error := DispatchRoundMessages(messages, broken);
      PrefixOfAddressed(session, messages);
      if AllReached(Outgoing(session, own, messages), broken) {
        CutNothing(Outgoing(session, own, messages), broken);
      }
      outcome := if error.Some? then Failed(error.value) else Pending;
    }

    /**
     * Handles one event: exactly one step of the specification, cut short where the transport fails.
     * After a failure the driver is left as it happens to be; buffer and outbox are as specified.
     */
    method HandleEvent(event: Event<B>, broken: set<Key>) returns (outcome: Outcome<O>)
      modifies this`driver, this`outbox, buffer`messages
      ensures var step := Transmit(Handle(d, session, own, old(State()), event), broken);
              && outcome == step.outcome && outbox == old(outbox) + step.sends
              && buffer.State() == step.state.buffer
              && (!outcome.Failed? ==> State() == step.state)
      ensures var foreign := event.JsonMessage? && (event.sessionId != Some(session.id) || event.message.None?);
              event.OtherEvent? || foreign ==> State() == old(State()) && outbox == old(outbox)
      ensures event.OtherEvent? ==> outcome == Pending
      ensures event.JsonMessage? && event.sessionId.None? ==> outcome == Failed(SessionIdRequired)
      ensures event.JsonMessage? && event.sessionId.Some? && event.sessionId.value != session.id ==>
                outcome == Failed(SessionIdMismatch)
      ensures event.JsonMessage? && event.sessionId == Some(session.id) && event.message.None? ==>
                outcome == Failed(Undecodable)
    {
      if event.OtherEvent? {
        return Pending;
      }
      if event.sessionId.None? {
        return Failed(SessionIdRequired);
      }
      if event.sessionId.value != session.id {
        return Failed(SessionIdMismatch);
      }
      if event.message.None? {
        return Failed(Undecodable);
      }
      var message := event.message.value;
      buffer.AddMessage(message.round, message.ToMsg());
      var ready := buffer.IsReady(message.round);
      if !ready {
        return Pending;
      }
      outcome := TakeRound(message.round, broken);
    }

    /**
     * Starts the protocol and handles events until the driver completes or something fails; Pending
     * means that the events ran out before.
     */
    method WaitForDriver(broken: set<Key>, arrivals: seq<Arrival<B>>)
      returns (outcome: Outcome<O>, ghost trace: seq<Step<S, B, O>>)
      modifies this`driver, this`outbox, buffer`messages
      ensures IsTrace(d, session, own, Transmit(Start(d, session, own, old(State())), broken), arrivals, trace)
      ensures var last := trace[|trace| - 1];
              && outcome == last.outcome && outbox == old(outbox) + last.sends
              && (!outcome.Failed? ==> State() == last.state)
    {
      hide Handle, Start, Transmit;
      ghost var step := Transmit(Start(d, session, own, State()), broken);
      trace := [step];
      outcome := Execute(broken);
      var i := 0;
      while i < |arrivals| && outcome.Pending?
        invariant i <= |arrivals| && |trace| == i + 1
        invariant trace[0] == Transmit(Start(d, session, own, old(State())), broken) && trace[i] == step
        invariant forall j :: 0 <= j < i ==> trace[j].outcome.Pending?
        invariant forall j :: 0 <= j < i ==> trace[j + 1] == AfterArrival(d, session, own, trace[j], arrivals[j])
        invariant outcome == step.outcome && outbox == old(outbox) + step.sends
        invariant !outcome.Failed? ==> State() == step.state
      {
        var a := arrivals[i];
        ghost var before := step;
        step := AfterArrival(d, session, own, step, a);
        trace := trace + [step];
        match a.event {
          case Err(e) =>
            outcome := Failed(e);
          case Ok(event) =>
            outcome := HandleEvent(event, a.broken);
            ghost var next := Transmit(Handle(d, session, own, before.state, event), a.broken);
            Regroup(old(outbox), before.sends, next.sends);
        }
        i := i + 1;
      }
    }

    method TakeRound(round: RoundNumber, broken: set<Key>) returns (outcome: Outcome<O>)
      requires buffer.State().IsReady(round)
      modifies this`driver, this`outbox, buffer`messages
      ensures var before := old(State());
              var step := Transmit(Advance(d, session, own, before.(buffer := before.buffer.Without(round)), round,
                                           before.buffer.Batch(round)), broken);
              && outcome == step.outcome && outbox == old(outbox) + step.sends
              && buffer.State() == step.state.buffer
              && (!outcome.Failed? ==> State() == step.state)
    {
      hide Dispatch, Outgoing;
      var batch := buffer.Take(round);
      if driver.None? {
        return Failed(Panicked);
      }
      var s := driver.value;
      for i := 0 to |batch|
        invariant outbox == old(outbox) && driver == old(driver)
        invariant buffer.State() == old(buffer.State()).Without(round)
        invariant HandleAll(d, old(driver).value, batch[..i]) == Ok(s)
      {
        var next := d.handle(s, batch[i]);
        HandleAllSnoc(d, old(driver).value, batch[..i], batch[i]);
        assert batch[..i + 1] == batch[..i] + [batch[i]];
        if next.Err? {
          HandleAllFails(d, old(driver).value, batch, i + 1);
          return Failed(next.error);
        }
        s := next.value;
      }
      assert batch[..|batch|] == batch;
      var rounds := buffer.Len();
      // A single-round driver must not proceed again.
      if rounds == 1 {
        driver := None;
        var single := d.finish(s);
        outcome := if single.Ok? then Complete(single.value) else Failed(single.error);
        return;
      }
      var next := d.proceed(s);
      if next.Err? {
        return Failed(next.error);
      }
      driver := Some(next.value.0);
      outcome := SendRound(next.value.1, broken);
      if outcome.Pending? && round == rounds {
        driver := None;
        var last := d.finish(next.value.0);
        outcome := if last.Ok? then Complete(last.value) else Failed(last.error);
      }
    }
  }

  lemma {:induction false} HandleAllFails<S, B, O>(d: Driver<S, B, O>, s: S, batch: seq<Msg<B>>, k: nat)
    requires k <= |batch| && HandleAll(d, s, batch[..k]).Err?
    ensures HandleAll(d, s, batch) == HandleAll(d, s, batch[..k])
  {
    if k > 0 {
      assert batch[..k][1..] == batch[1..][..k - 1];
      match d.handle(s, batch[0]) {
        case Err(_) =>
        case Ok(s') => HandleAllFails(d, s', batch[1..], k - 1);
      }
    }
  }
}
