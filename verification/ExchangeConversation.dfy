// The exchange of key indices run through the server, sealed: a system that meets all that is assumed of one.
module ExchangeConversation {
  import opened Basics
  import opened Sessions
  import opened Rounds
  import opened Bridge
  import opened LockStep
  import opened Wire
  import opened Chunks
  import opened Sealing
  import opened Relay
  import opened Conversation
  import opened Participants
  import RN = RoundNetwork
  import CT = ConversationTheorems
  import M = Mesh

  // ---------------------------------------------------------------------------
  // A format: each number as that many ones, ended by a zero.

  function Tally(n: nat): Bytes {
    seq(n, _ => 1 as Byte) + [0]
  }

  function Ones(b: Bytes): nat {
    if b == [] || b[0] != 1 then 0 else 1 + Ones(b[1..])
  }

  function ReadTally(b: Bytes): Option<(nat, Bytes)> {
    if Ones(b) < |b| then Some((Ones(b), b[Ones(b) + 1..])) else None
  }

  lemma {:induction false} OnesOf(n: nat, rest: Bytes)
    ensures Ones(seq(n, _ => 1 as Byte) + ([0] + rest)) == n
  {
    var b := seq(n, _ => 1 as Byte) + ([0] + rest);
    if n > 0 {
      OnesOf(n - 1, rest);
      assert b[1..] == seq(n - 1, _ => 1 as Byte) + ([0] + rest);
    }
  }

  lemma TallyBack(n: nat, rest: Bytes)
    ensures ReadTally(Tally(n) + rest) == Some((n, rest))
  {
    OnesOf(n, rest);
    assert Tally(n) + rest == seq(n, _ => 1 as Byte) + ([0] + rest);
  }

  function WriteMessage(m: RoundMsg<nat>): Bytes {
    var receiver := if m.receiver.Some? then m.receiver.value else 0;
    Tally(m.round) + (Tally(m.sender) + (Tally(receiver) + (Tally(m.body) + [])))
  }

  /** Numbers out of range make no message; receiver 0 is nobody in particular. */
  function Assemble(round: nat, sender: nat, receiver: nat, body: nat): Option<RoundMsg<nat>> {
    if !(1 <= round <= 0xFFFF && 1 <= sender <= 0xFFFF && receiver <= 0xFFFF) then None
    else if receiver == 0 then Some(RoundMsg(round, sender, None, body))
    else
      var to: PartyNumber := receiver;
      Some(RoundMsg(round, sender, Some(to), body))
  }

  function ReadMessage(b: Bytes): Option<RoundMsg<nat>> {
    var round := ReadTally(b);
    if round.None? then None
    else
      var sender := ReadTally(round.value.1);
      if sender.None? then None
      else
        var receiver := ReadTally(sender.value.1);
        if receiver.None? then None
        else
          var body := ReadTally(receiver.value.1);
          if body.None? then None else Assemble(round.value.0, sender.value.0, receiver.value.0, body.value.0)
  }

  lemma MessageBack(m: RoundMsg<nat>)
    ensures ReadMessage(WriteMessage(m)) == Some(m)
  {
    hide Tally, ReadTally;
    var receiver := if m.receiver.Some? then m.receiver.value else 0;
    TallyBack(m.body, []);
    TallyBack(receiver, Tally(m.body) + []);
    TallyBack(m.sender, Tally(receiver) + (Tally(m.body) + []));
    TallyBack(m.round, Tally(m.sender) + (Tally(receiver) + (Tally(m.body) + [])));
  }

  // ---------------------------------------------------------------------------
  // The system.

  function NoSecret(e: M.Ephemeral, f: M.Ephemeral, forward: bool): Secret {
    []
  }

  function ExchangeSystem(session: SessionState, keys: seq<nat>): System<ExchangeState, nat, seq<nat>>
    requires |keys| <= 0xFFFF
  {
    System(Exchange(session, keys), Format(WriteMessage, ReadMessage), Aead(PlainSeal, PlainOpen), NoSecret)
  }

  lemma PiecesBound(n: nat)
    ensures Pieces(n) <= n + 1
  {
    PiecesIsCeiling(n);
  }

  /** One message of an exchange among 16-bit key indices takes few nonces. */
  lemma ExchangeVolume(session: SessionState, keys: seq<nat>, j: nat, i: nat)
    requires ExchangeSetup(session, keys) && i < |keys| && j < |keys| && i != j && keys[j] <= 0xFFFF
    ensures Volume(Written(Format(WriteMessage, ReadMessage),
                           RN.Flight(Exchange(session, keys), j, i, 0, 1))) <= MAX_NONCE
  {
    hide OnWire, WriteMessage;
    var p, format := Exchange(session, keys), Format(WriteMessage, ReadMessage);
    var m: RoundMsg<nat> := RoundMsg(1, j + 1, None, keys[j]);
    ExchangeWire(session, keys, i, j);
    assert RN.Flight(p, j, i, 0, 0) == [];
    assert RN.Flight(p, j, i, 0, 1) == [m];
    assert Written(format, [m]) == [WriteMessage(m)];
    OneSealed(Aead(PlainSeal, PlainOpen), [], 0, WriteMessage(m));
    PiecesBound(|WriteMessage(m)|);
    WrittenSize(m);
  }

  lemma WrittenSize(m: RoundMsg<nat>)
    requires m.receiver.None?
    ensures |WriteMessage(m)| == m.round + m.sender + m.body + 4
  {}

  /** A system that meets every assumption made of one, for any session and any 16-bit key indices. */
  lemma ExchangeSystemIsSound(session: SessionState, keys: seq<nat>)
    requires ExchangeSetup(session, keys) && forall k <- keys :: k <= 0xFFFF
    ensures Sound(ExchangeSystem(session, keys), SameKeys())
  {
    hide Healthy, Indifferent, Volume, Written, RN.Flight;
    var sys := ExchangeSystem(session, keys);
    ExchangeMeetsContract(session, keys);
    LawfulBindingCipher([]);
    forall m: RoundMsg<nat> ensures sys.format.read(sys.format.write(m)) == Some(m) {
      MessageBack(m);
    }
    forall j: nat, i: nat | j < sys.p.N() && i < sys.p.N() && i != j
      ensures Volume(Written(sys.format, RN.Flight(sys.p, j, i, 0, sys.p.rounds))) <= MAX_NONCE
    {
      assert keys[j] in keys;
      ExchangeVolume(session, keys, j, i);
    }
  }

  /**
   * The signers agree across the server: unless a watcher gives up, whatever has happened so far, session
   * establishment and exchange can be completed, and then every signer holds all key indices in order.
   */
  lemma SignersAgreeAcrossTheServer(session: SessionState, keys: seq<nat>, sys: System<ExchangeState, nat, seq<nat>>,
                                    actions: seq<M.Action>)
    returns (more: seq<M.Action>)
    requires ExchangeSetup(session, keys) && |keys| >= 2 && sys.p == Exchange(session, keys) && Sound(sys, SameKeys())
    requires Exec(sys, actions).Some? && !Exec(sys, actions).value.mesh.server.gaveUp
    ensures Exec(sys, actions + more).Some?
    ensures forall i :: 0 <= i < |keys| ==> Exec(sys, actions + more).value.parties[i].outcome == Complete(Sort(keys))
  {
    hide Exec, Healthy, Indifferent, OutputOf, Sort;
    more := CT.EveryRunCanComplete(sys, SameKeys(), actions);
    var c := Exec(sys, actions + more).value;
    forall i | 0 <= i < |keys| ensures c.parties[i].outcome == Complete(Sort(keys)) {
      assert CT.HasOutput(sys, c, i);
      ExchangeOutput(session, keys, i);
    }
  }
}
