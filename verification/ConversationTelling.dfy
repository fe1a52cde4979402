// What a bridge sends, sealed for its receivers and put on their links.
module ConversationTelling {
  import opened Basics
  import opened Sessions
  import opened Rounds
  import opened Bridge
  import opened LockStep
  import opened Wire
  import opened Chunks
  import opened Sealing
  import opened Conversation
  import opened ConversationLinks
  import M = Mesh
  import MI = MeshInvariant

  // ---------------------------------------------------------------------------
  // Whom a bridge sends to.

  ghost predicate ToParticipants<B>(session: SessionState, sends: seq<Send<B>>) {
    forall k :: 0 <= k < |sends| ==> sends[k].to in session.participants
  }

  lemma {:induction false} PrefixToParticipants<B>(session: SessionState, messages: seq<RoundMsg<B>>)
    ensures ToParticipants(session, AddressedPrefix(session, messages))
  {
    if messages != [] {
      PrefixToParticipants(session, messages[1..]);
    }
  }

  lemma OutgoingToParticipants<B>(session: SessionState, own: Key, messages: seq<RoundMsg<B>>)
    ensures ToParticipants(session, Outgoing(session, own, messages))
    ensures Dispatch(session, own, messages).Ok? ==>
            Dispatch(session, own, messages).value == Outgoing(session, own, messages)
  {
    PrefixOfAddressed(session, messages);
    PrefixToParticipants(session, messages);
    forall k | 0 <= k < |session.Recipients(own)| ensures session.Recipients(own)[k] in session.participants {
      assert session.Recipients(own)[k] in session.Recipients(own);
    }
  }

  lemma StartToParticipants<S, B, O>(d: Driver<S, B, O>, session: SessionState, own: Key, st: BridgeState<S, B>)
    ensures ToParticipants(session, Start(d, session, own, st).sends)
  {
    hide Dispatch, Outgoing;
    if st.driver.Some? && d.proceed(st.driver.value).Ok? {
      OutgoingToParticipants(session, own, d.proceed(st.driver.value).value.1);
    }
  }

  lemma HandleToParticipants<S, B, O>(d: Driver<S, B, O>, session: SessionState, own: Key, st: BridgeState<S, B>,
                                      event: Event<B>)
    ensures ToParticipants(session, Handle(d, session, own, st, event).sends)
  {
    hide Dispatch, Outgoing, HandleAll;
    if event.JsonMessage? && event.message.Some? {
      var m := event.message.value;
      var batch := st.buffer.Add(m.round, m.ToMsg()).Batch(m.round);
      if st.driver.Some? && HandleAll(d, st.driver.value, batch).Ok? {
        var s1 := HandleAll(d, st.driver.value, batch).value;
        if d.proceed(s1).Ok? {
          OutgoingToParticipants(session, own, d.proceed(s1).value.1);
        }
      }
    }
  }

  lemma {:induction false} NoneToKey<B>(sends: seq<Send<B>>, key: Key)
    requires SentTo(sends, key) == []
    ensures forall k :: 0 <= k < |sends| ==> sends[k].to != key
  {
    if sends != [] {
      NoneToKey(sends[1..], key);
      assert forall k :: 1 <= k < |sends| ==> sends[k] == sends[1..][k - 1];
    }
  }

  // ---------------------------------------------------------------------------
  // Telling is a run of saying.

  lemma IndexIs(keys: seq<Key>, key: Key, b: nat)
    requires Distinct(keys) && key in keys && b < |keys|
    ensures IndexOf(keys, key) < |keys|
    ensures IndexOf(keys, key) == b <==> keys[b] == key
  {
    IndexOfDistinct(keys, b);
    assert keys[..|keys|] == keys;
  }

  lemma WrittenConcat<B>(format: Format<B>, a: seq<RoundMsg<B>>, b: seq<RoundMsg<B>>)
    ensures Written(format, a + b) == Written(format, a) + Written(format, b)
  {}

  /** Saying one thing, as a step of session establishment. */
  lemma SayRuns(n: nat, ma: seq<M.Action>, i: nat, peer: nat, payload: M.Sealed)
    requires M.Exec(n, ma).Some? && i < n && peer < n && i != peer && M.Exec(n, ma).value.clients[i].joined
    ensures var w := M.Exec(n, ma).value;
            && M.TransportError(w.clients[i], peer).None?
            && M.Speak(w.clients[i], peer, payload) == (w.clients[i], [M.Chat(peer, payload)])
            && M.Exec(n, ma + [M.Say(i, peer, payload)])
               == Some(M.SetClient(w, i, (w.clients[i], [M.Chat(peer, payload)])))
  {
    hide MI.PairInv;
    var w := M.Exec(n, ma).value;
    var x := MI.EveryRunKeepsInv(n, ma);
    MI.LocalOf(n, w, x, i);
    assert MI.LocalInv(n, i, w.clients[i], w.up[i], w.down[i], w.server, i in x.met);
    MI.ActiveMeansTransport(n, w, x, i, peer);
    assert (ma + [M.Say(i, peer, payload)])[..|ma|] == ma;
  }

  ghost predicate TellsTo<B>(session: SessionState, sends: seq<Send<B>>, i: nat)
    requires i < |session.participants|
  {
    forall k :: 0 <= k < |sends| ==> sends[k].to in session.participants && sends[k].to != session.participants[i]
  }

  /** The payloads of what is sent to participant b. */
  function Payloads<S, B, O>(sys: System<S, B, O>, sends: seq<Send<B>>, b: nat): seq<Bytes>
    requires sys.p.WellFormed() && b < sys.p.N()
  {
    Written(sys.format, SentTo(sends, sys.p.KeyOf(b)))
  }

  lemma FirstPayloads<S, B, O>(sys: System<S, B, O>, sends: seq<Send<B>>, b: nat)
    requires sys.p.WellFormed() && b < sys.p.N() && sends != [] && sends[0].to in sys.p.session.participants
    ensures Payloads(sys, sends, b)
            == (if b == IndexOf(sys.p.session.participants, sends[0].to)
                then [sys.format.write(sends[0].message)] else [])
               + Payloads(sys, sends[1..], b)
  {
    var key := sys.p.KeyOf(b);
    IndexIs(sys.p.session.participants, sends[0].to, b);
    var first := if sends[0].to == key then [sends[0].message] else [];
    WrittenConcat(sys.format, first, SentTo(sends[1..], key));
    assert Written(sys.format, first) == if sends[0].to == key then [sys.format.write(sends[0].message)] else [];
  }

  /** The nonces of every channel suffice for these sends. */
  ghost predicate Affords<S, B, O>(sys: System<S, B, O>, sending: Nonces, sends: seq<Send<B>>)
    requires sys.p.WellFormed()
  {
    forall b: nat :: b < sys.p.N() ==> At(sending, b) + Volume(Payloads(sys, sends, b)) <= MAX_NONCE
  }

  /** The link after client i told its sends, sealed from its nonces `sending` on. */
  ghost predicate LinksTold<S, B, O>(sys: System<S, B, O>, w: M.World, t: M.World, sending: Nonces, i: nat,
                                     sends: seq<Send<B>>, a: nat, b: nat)
    requires sys.p.WellFormed() && i < |w.clients| && b < sys.p.N()
    requires a < |w.up| && b < |w.down| && a < |t.up| && b < |t.down|
  {
    Link(t, a, b) == Link(w, a, b) + if a == i
      then SealAll(sys.aead, SendKey(sys, w.clients[i], b), At(sending, b), Payloads(sys, sends, b)) else []
  }

  ghost predicate NoncesTold<S, B, O>(sys: System<S, B, O>, sending: Nonces, sending': Nonces, sends: seq<Send<B>>,
                                      b: nat)
    requires sys.p.WellFormed() && b < sys.p.N()
  {
    At(sending', b) == At(sending, b) + Volume(Payloads(sys, sends, b))
  }

  lemma SealedIs(aead: Aead, key: Secret, nonce: Nonce, m: Bytes)
    requires nonce + Pieces(|m|) <= MAX_NONCE
    ensures Split(aead, key, nonce, m) == Some(SealOne(aead, key, nonce, m))
    ensures SplitNonce(nonce, m) == nonce + Pieces(|m|)
  {
    SplitSucceeds(aead, key, nonce, m);
  }

  lemma SpokenIs(c: M.Client, peer: nat, payload: M.Sealed)
    requires M.TransportError(c, peer).None?
    ensures M.Speak(c, peer, payload) == (c, [M.Chat(peer, payload)])
  {}

  /** When there is a transport and the nonces suffice, a message is sealed and said. */
  lemma ToldOne<S, B, O>(sys: System<S, B, O>, w: M.World, party: Party<S, B, O>, i: nat, send: Send<B>,
                         peer: nat, m: Bytes)
    requires i < |w.clients| == |w.up| && m == sys.format.write(send.message)
    requires peer == IndexOf(sys.p.session.participants, send.to)
    requires M.TransportError(w.clients[i], peer).None? && At(party.sending, peer) + Pieces(|m|) <= MAX_NONCE
    ensures var payload := SealOne(sys.aead, SendKey(sys, w.clients[i], peer), At(party.sending, peer), m);
            TellOne(sys, w, party, i, send)
            == (M.SetClient(w, i, (w.clients[i], [M.Chat(peer, payload)])), Told(party, peer, m))
  {
    hide M.SetClient, M.TransportError, M.Speak, SendKey, Split, SplitNonce, SealOne, At, IndexOf, Pieces;
    SealedIs(sys.aead, SendKey(sys, w.clients[i], peer), At(party.sending, peer), m);
    SpokenIs(w.clients[i], peer, SealOne(sys.aead, SendKey(sys, w.clients[i], peer), At(party.sending, peer), m));
  }

  /** The nonce behind a message sent to this peer. */
  function Told<S, B, O>(party: Party<S, B, O>, peer: nat, m: Bytes): Party<S, B, O>
    requires At(party.sending, peer) + Pieces(|m|) <= MAX_NONCE
  {
    party.(sending := party.sending[peer := At(party.sending, peer) + Pieces(|m|)])
  }

  /** What a message costs is part of what all of them cost. */
  lemma FirstAfforded<S, B, O>(sys: System<S, B, O>, sending: Nonces, sends: seq<Send<B>>, peer: nat)
    requires sys.p.WellFormed() && sends != [] && sends[0].to in sys.p.session.participants
    requires peer == IndexOf(sys.p.session.participants, sends[0].to) < sys.p.N() && Affords(sys, sending, sends)
    ensures At(sending, peer) + Pieces(|sys.format.write(sends[0].message)|) <= MAX_NONCE
  {
    hide Volume, Payloads, At, IndexOf;
    var m := sys.format.write(sends[0].message);
    assert At(sending, peer) + Volume(Payloads(sys, sends, peer)) <= MAX_NONCE;
    FirstPayloads(sys, sends, peer);
    VolumeConcat([m], Payloads(sys, sends[1..], peer));
    OneSealed(sys.aead, [], 0, m);
  }

  /** Sealing and saying the first of several sends. */
  lemma TellFirst<S, B, O>(sys: System<S, B, O>, ma: seq<M.Action>, party: Party<S, B, O>, i: nat,
                           sends: seq<Send<B>>, peer: nat, m: Bytes)
    returns (ma': seq<M.Action>, w1: M.World)
    requires sys.p.WellFormed() && i < sys.p.N() && !party.lost && sends != [] && TellsTo(sys.p.session, sends, i)
    requires M.Exec(sys.p.N(), ma).Some? && M.Exec(sys.p.N(), ma).value.clients[i].joined
    requires peer == IndexOf(sys.p.session.participants, sends[0].to) < sys.p.N() && peer != i
    requires m == sys.format.write(sends[0].message) && At(party.sending, peer) + Pieces(|m|) <= MAX_NONCE
    ensures var n, w := sys.p.N(), M.Exec(sys.p.N(), ma).value;
            var payload := SealOne(sys.aead, SendKey(sys, w.clients[i], peer), At(party.sending, peer), m);
            && M.Exec(n, ma') == Some(w1) && w1 == M.SetClient(w, i, (w.clients[i], [M.Chat(peer, payload)]))
            && Tell(sys, w, party, i, sends) == Tell(sys, w1, Told(party, peer, m), i, sends[1..])
  {
    hide M.Exec, M.Speak, M.SetClient, TellOne, SealOne, SendKey, At, IndexOf, Told, M.TransportError, Pieces;
    var n := sys.p.N();
    var w := M.Exec(n, ma).value;
    var payload := SealOne(sys.aead, SendKey(sys, w.clients[i], peer), At(party.sending, peer), m);
    SayRuns(n, ma, i, peer, payload);
    ma' := ma + [M.Say(i, peer, payload)];
    w1 := M.SetClient(w, i, (w.clients[i], [M.Chat(peer, payload)]));
    ToldOne(sys, w, party, i, sends[0], peer, m);
  }

  lemma {:induction false} TellRuns<S, B, O>(sys: System<S, B, O>, ma: seq<M.Action>, party: Party<S, B, O>, i: nat,
                                             sends: seq<Send<B>>)
    returns (ma': seq<M.Action>)
    requires sys.p.WellFormed() && i < sys.p.N() && !party.lost && TellsTo(sys.p.session, sends, i)
    requires M.Exec(sys.p.N(), ma).Some? && M.Exec(sys.p.N(), ma).value.clients[i].joined
    requires Affords(sys, party.sending, sends)
    ensures var n, w := sys.p.N(), M.Exec(sys.p.N(), ma).value;
            var (t, party') := Tell(sys, w, party, i, sends);
            && M.Exec(n, ma') == Some(t) && party' == party.(sending := party'.sending)
            && (forall k :: 0 <= k < n ==> t.clients[k] == w.clients[k])
            && (forall b :: 0 <= b < n ==> NoncesTold(sys, party.sending, party'.sending, sends, b))
            && (forall a, b :: 0 <= a < n && 0 <= b < n ==> LinksTold(sys, w, t, party.sending, i, sends, a, b))
    decreases |sends|
  {
    var n := sys.p.N();
    var w := M.Exec(n, ma).value;
    if sends == [] {
      ma' := ma;
      hide M.Exec, Link, SendKey, At;
      forall a, b | 0 <= a < n && 0 <= b < n ensures LinksTold(sys, w, w, party.sending, i, sends, a, b) {
        assert Link(w, a, b) + [] == Link(w, a, b);
      }
    } else {
      hide M.Exec, Link, Tell, SealAll, SealOne, Volume, Payloads, At, SendKey, IndexOf, Told, M.SetClient, LinksTold,
           NoncesTold, Affords, Pieces, TellsTo;
      var peer, m := IndexOf(sys.p.session.participants, sends[0].to), sys.format.write(sends[0].message);
      FirstAddressee(sys, sends, i);
      FirstAfforded(sys, party.sending, sends, peer);
      var ma1, w1 := TellFirst(sys, ma, party, i, sends, peer, m);
      var told := Told(party, peer, m);
      FirstNonces(sys, party, sends, peer, m);
      assert w1.clients == w.clients by {
        var payload := SealOne(sys.aead, SendKey(sys, w.clients[i], peer), At(party.sending, peer), m);
        SaidClients(w, i, M.Chat(peer, payload));
      }
      ma' := TellRuns(sys, ma1, told, i, sends[1..]);
      var (t, party') := Tell(sys, w1, told, i, sends[1..]);
      forall b | 0 <= b < n ensures NoncesTold(sys, party.sending, party'.sending, sends, b) {
        FirstNonce(sys, party, party'.sending, sends, peer, m, b);
      }
      forall a, b | 0 <= a < n && 0 <= b < n ensures LinksTold(sys, w, t, party.sending, i, sends, a, b) {
        FirstTold(sys, w, w1, t, party, i, sends, peer, m, a, b);
      }
    }
  }

  lemma FirstAddressee<S, B, O>(sys: System<S, B, O>, sends: seq<Send<B>>, i: nat)
    requires sys.p.WellFormed() && i < sys.p.N() && sends != [] && TellsTo(sys.p.session, sends, i)
    ensures sends[0].to in sys.p.session.participants && TellsTo(sys.p.session, sends[1..], i)
    ensures IndexOf(sys.p.session.participants, sends[0].to) < sys.p.N()
    ensures IndexOf(sys.p.session.participants, sends[0].to) != i
  {
    IndexIs(sys.p.session.participants, sends[0].to, i);
  }

  lemma SaidClients(w: M.World, i: nat, r: M.Request)
    requires i < |w.clients| == |w.up|
    ensures M.SetClient(w, i, (w.clients[i], [r])).clients == w.clients
  {}

  /** The rest is affordable as well. */
  lemma FirstNonces<S, B, O>(sys: System<S, B, O>, party: Party<S, B, O>, sends: seq<Send<B>>, peer: nat, m: Bytes)
    requires sys.p.WellFormed() && sends != [] && sends[0].to in sys.p.session.participants
    requires peer == IndexOf(sys.p.session.participants, sends[0].to) && m == sys.format.write(sends[0].message)
    requires Affords(sys, party.sending, sends) && At(party.sending, peer) + Pieces(|m|) <= MAX_NONCE
    ensures Affords(sys, Told(party, peer, m).sending, sends[1..])
    ensures Told(party, peer, m) == party.(sending := Told(party, peer, m).sending)
  {
    hide Volume, Payloads, IndexOf, Pieces;
    forall b: nat | b < sys.p.N()
      ensures At(Told(party, peer, m).sending, b) + Volume(Payloads(sys, sends[1..], b)) <= MAX_NONCE
    {
      NonceAndRest(sys, party, sends, peer, m, b);
    }
  }

  lemma NonceAndRest<S, B, O>(sys: System<S, B, O>, party: Party<S, B, O>, sends: seq<Send<B>>, peer: nat, m: Bytes,
                              b: nat)
    requires sys.p.WellFormed() && b < sys.p.N() && sends != [] && sends[0].to in sys.p.session.participants
    requires peer == IndexOf(sys.p.session.participants, sends[0].to) && m == sys.format.write(sends[0].message)
    requires At(party.sending, peer) + Pieces(|m|) <= MAX_NONCE
    ensures At(Told(party, peer, m).sending, b) + Volume(Payloads(sys, sends[1..], b))
            == At(party.sending, b) + Volume(Payloads(sys, sends, b))
  {
    hide Volume, Payloads, IndexOf, Pieces;
    FirstPayloads(sys, sends, b);
    VolumeConcat(if b == peer then [m] else [], Payloads(sys, sends[1..], b));
    OneSealed(sys.aead, [], 0, m);
    NoneSealed(sys.aead, [], 0);
  }

  lemma FirstNonce<S, B, O>(sys: System<S, B, O>, party: Party<S, B, O>, sending': Nonces, sends: seq<Send<B>>,
                            peer: nat, m: Bytes, b: nat)
    requires sys.p.WellFormed() && b < sys.p.N() && sends != [] && sends[0].to in sys.p.session.participants
    requires peer == IndexOf(sys.p.session.participants, sends[0].to) && m == sys.format.write(sends[0].message)
    requires At(party.sending, peer) + Pieces(|m|) <= MAX_NONCE
    requires NoncesTold(sys, Told(party, peer, m).sending, sending', sends[1..], b)
    ensures NoncesTold(sys, party.sending, sending', sends, b)
  {
    hide Volume, Payloads, IndexOf, Pieces, Told, At;
    NonceAndRest(sys, party, sends, peer, m, b);
  }

  lemma FirstTold<S, B, O>(sys: System<S, B, O>, w: M.World, w1: M.World, t: M.World, party: Party<S, B, O>,
                           i: nat, sends: seq<Send<B>>, peer: nat, m: Bytes, a: nat, b: nat)
    requires sys.p.WellFormed() && |w.clients| == |w.up| == |w.down| == sys.p.N() && i < sys.p.N() && a < sys.p.N()
             && b < sys.p.N()
    requires |t.up| == |t.down| == sys.p.N() && sends != [] && sends[0].to in sys.p.session.participants
    requires peer == IndexOf(sys.p.session.participants, sends[0].to) && m == sys.format.write(sends[0].message)
    requires At(party.sending, peer) + Pieces(|m|) <= MAX_NONCE
    requires w1 == M.SetClient(w, i, (w.clients[i],
               [M.Chat(peer, SealOne(sys.aead, SendKey(sys, w.clients[i], peer), At(party.sending, peer), m))]))
    requires LinksTold(sys, w1, t, Told(party, peer, m).sending, i, sends[1..], a, b)
    ensures LinksTold(sys, w, t, party.sending, i, sends, a, b)
  {
    hide Link, SealAll, SealOne, SendKey, Payloads, Volume, IndexOf, Pieces;
    var key, nonce := SendKey(sys, w.clients[i], b), At(party.sending, b);
    var first := if b == peer then [m] else [];
    var rest := Payloads(sys, sends[1..], b);
    SayLink(w, i, peer, SealOne(sys.aead, SendKey(sys, w.clients[i], peer), At(party.sending, peer), m), a, b);
    if a == i {
      FirstPayloads(sys, sends, b);
      SealAllConcat(sys.aead, key, nonce, first, rest);
      OneSealed(sys.aead, key, nonce, m);
      NoneSealed(sys.aead, key, nonce);
      Regroup(Link(w, a, b), SealAll(sys.aead, key, nonce, first), SealAll(sys.aead, key, nonce + Volume(first), rest));
    } else {
      assert Link(w, a, b) + [] == Link(w, a, b);
    }
  }

  lemma NoneSealed(aead: Aead, key: Secret, nonce: nat)
    ensures Volume([]) == 0 && SealAll(aead, key, nonce, []) == []
  {}
}
