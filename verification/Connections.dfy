// The server's connection tables: sockets wait in `pending` under their identifier until their
// handshake is done, then live in `active` under the client's public key.
module Connections {
  import opened Basics

  type ConnId = nat

  /** Absent: the handshake was taken out of the connection and no transport came of it. */
  datatype Phase = Handshake | Transport | Absent

  /**
   * What comes of a client's request, as far as its handshake goes: refused, or some other request, with
   * nothing changed; a transport; lost when the handshake could not be turned into one; or not to be
   * decoded, which ends the loop that handles the requests of the connection.
   */
  datatype Greeting = Refused | Accepted | Lost | Garbled

  /**
   * A connection. `promoting`: its handshake is done and the loop that handles its requests is about
   * to promote it; `promotions` counts how often that has happened. `buffered` requests have been read
   * and wait for that loop; `reading` and `listening` tell whether the reading of more goes on, and
   * the loop.
   */
  datatype Conn = Conn(
    key: Key, phase: Phase, promoting: bool, promotions: nat, buffered: nat, reading: bool, listening: bool)

  datatype State = State(conns: map<ConnId, Conn>, pending: set<ConnId>, active: map<Key, ConnId>)

  /** Each action runs under one lock. Any of them can come between a handshake and its promotion. */
  datatype Action =
    | Upgrade(id: ConnId, key: Key)
    | Read(id: ConnId)                          // a request is read and buffered
    | EndReading(id: ConnId)                    // the client closed its side, or nobody listens any more
    | ShakeHands(id: ConnId, greeting: Greeting)
    | Promote(id: ConnId)
    | Disconnect(id: ConnId, reader: bool)      // reading or writing failed; may happen for both

  function NewConn(key: Key): Conn {
    Conn(key, Handshake, false, 0, 0, true, true)
  }

  const EMPTY := State(map[], {}, map[])

  predicate Enabled(s: State, a: Action) {
    match a
    case Upgrade(id, _) => id !in s.conns                                // identifiers are fresh
    case Read(id) => id in s.conns && s.conns[id].reading && s.conns[id].listening
    case EndReading(id) => id in s.conns && s.conns[id].reading
    // one request at a time
    case ShakeHands(id, _) =>
      id in s.conns && s.conns[id].listening && !s.conns[id].promoting && s.conns[id].buffered > 0
    case Promote(id) => id in s.conns && s.conns[id].promoting
    case Disconnect(id, reader) => id in s.conns && (reader ==> s.conns[id].reading)
  }

  function Greet(c: Conn, greeting: Greeting): Conn
    requires c.buffered > 0
  {
    var c1 := c.(buffered := c.buffered - 1);
    if greeting.Garbled? then c1.(listening := false)
    else if greeting.Refused? || !c.phase.Handshake? then c1
    else if greeting.Lost? then c1.(phase := Absent)
    else c1.(phase := Transport, promoting := true)
  }

  function Step(s: State, a: Action): State
    requires Enabled(s, a)
  {
    match a
    case Upgrade(id, key) => s.(conns := s.conns[id := NewConn(key)], pending := s.pending + {id})
    case Read(id) => s.(conns := s.conns[id := s.conns[id].(buffered := s.conns[id].buffered + 1)])
    case EndReading(id) => s.(conns := s.conns[id := s.conns[id].(reading := false)])
    case ShakeHands(id, greeting) => s.(conns := s.conns[id := Greet(s.conns[id], greeting)])
    case Promote(id) =>
      var c := s.conns[id];
      State(s.conns[id := c.(promoting := false, promotions := c.promotions + 1)], s.pending - {id},
            s.active[c.key := id])
    case Disconnect(id, reader) =>
      var c := s.conns[id];
      State(s.conns[id := if reader then c.(reading := false) else c], s.pending - {id}, s.active - {c.key})
  }

  function Exec(actions: seq<Action>): Option<State> {
    if actions == [] then Some(EMPTY)
    else
      var last := |actions| - 1;
      match Exec(actions[..last])
      case None => None
      case Some(s) => if Enabled(s, actions[last]) then Some(Step(s, actions[last])) else None
  }

  // ---------------------------------------------------------------------------
  // What every run keeps.

  /** A connection is a transport just when it is being or has been promoted, at most once. */
  predicate ConnInv(c: Conn) {
    && c.promotions <= 1
    && (c.promoting ==> c.promotions == 0 && c.listening)
    && (c.phase.Transport? <==> c.promoting || c.promotions == 1)
  }

  predicate PendingInv(s: State, id: ConnId) {
    id in s.conns && s.conns[id].promotions == 0
  }

  /** An active entry stands under its own key, in the transport state. */
  predicate ActiveInv(s: State, key: Key)
    requires key in s.active
  {
    var id := s.active[key];
    id in s.conns && s.conns[id].key == key && s.conns[id].phase.Transport? && s.conns[id].promotions == 1
  }

  ghost predicate TablesInv(s: State) {
    && (forall id <- s.conns :: ConnInv(s.conns[id]))
    && (forall id <- s.pending :: PendingInv(s, id))
    && (forall key <- s.active :: ActiveInv(s, key))
  }

  lemma StepKeeps(s: State, a: Action)
    requires TablesInv(s) && Enabled(s, a)
    ensures TablesInv(Step(s, a))
  {
    var t := Step(s, a);
    forall key | key in t.active ensures ActiveInv(t, key) {
      if key in s.active {
        assert ActiveInv(s, key);
      }
    }
    forall id | id in t.pending ensures PendingInv(t, id) {
      if id in s.pending {
        assert PendingInv(s, id);
      }
    }
  }

  lemma {:induction false} RunKeepsTables(actions: seq<Action>)
    requires Exec(actions).Some?
    ensures TablesInv(Exec(actions).value)
  {
    hide Enabled, Step, ConnInv;
    if actions != [] {
      var last := |actions| - 1;
      RunKeepsTables(actions[..last]);
      StepKeeps(Exec(actions[..last]).value, actions[last]);
    }
  }

  /**
   * In every run no connection is in both tables, each is promoted at most once, and whatever a
   * notification or a decryption looks up is a transport standing under its own key.
   */
  lemma TablesStaySound(actions: seq<Action>)
    requires Exec(actions).Some?
    ensures var s := Exec(actions).value;
            && (forall key <- s.active :: s.active[key] in s.conns && s.active[key] !in s.pending)
            && (forall key <- s.active :: s.conns[s.active[key]].phase.Transport? && s.conns[s.active[key]].key == key)
            && (forall id <- s.conns :: s.conns[id].promotions <= 1)
  {
    hide Exec;
    RunKeepsTables(actions);
    var s := Exec(actions).value;
    forall key | key in s.active
      ensures s.active[key] in s.conns && s.active[key] !in s.pending
      ensures s.conns[s.active[key]].phase.Transport? && s.conns[s.active[key]].key == key
    {
      assert ActiveInv(s, key);
      assert s.active[key] in s.pending ==> PendingInv(s, s.active[key]);
    }
    forall id | id in s.conns ensures s.conns[id].promotions <= 1 {
      assert ConnInv(s.conns[id]);
    }
  }

  // ---------------------------------------------------------------------------
  // Who is active: the last word on a key.

  /** The key a connection was opened with. */
  function KeyOf(actions: seq<Action>, id: ConnId): Option<Key> {
    if actions == [] then None
    else
      var last := |actions| - 1;
      match actions[last]
      case Upgrade(i, key) => if i == id then Some(key) else KeyOf(actions[..last], id)
      case _ => KeyOf(actions[..last], id)
  }

  /** The connection whose promotion was the last word on a key, unless a disconnect was. */
  function LastWord(actions: seq<Action>, key: Key): Option<ConnId> {
    if actions == [] then None
    else
      var last := |actions| - 1;
      match actions[last]
      case Promote(id) => if KeyOf(actions, id) == Some(key) then Some(id) else LastWord(actions[..last], key)
      case Disconnect(id, _) => if KeyOf(actions, id) == Some(key) then None else LastWord(actions[..last], key)
      case _ => LastWord(actions[..last], key)
  }

  lemma {:induction false} KeyOfIsKept(actions: seq<Action>, id: ConnId)
    requires Exec(actions).Some?
    ensures var s := Exec(actions).value; KeyOf(actions, id) == if id in s.conns then Some(s.conns[id].key) else None
  {
    if actions != [] {
      KeyOfIsKept(actions[..|actions| - 1], id);
    }
  }

  /** The active table holds, for every key, exactly the last word on it. */
  lemma {:induction false} ActiveIsTheLastWord(actions: seq<Action>, key: Key)
    requires Exec(actions).Some?
    ensures var s := Exec(actions).value;
            LastWord(actions, key) == if key in s.active then Some(s.active[key]) else None
  {
    hide KeyOf;
    if actions != [] {
      var last := |actions| - 1;
      ActiveIsTheLastWord(actions[..last], key);
      match actions[last]
      case Promote(id) => KeyOfIsKept(actions, id);
      case Disconnect(id, _) => KeyOfIsKept(actions, id);
      case _ =>
    }
  }

  /** An action speaks about a key when it promotes or disconnects a connection opened with it. */
  predicate SpeaksOf(actions: seq<Action>, a: Action, key: Key) {
    (a.Promote? || a.Disconnect?) && KeyOf(actions, a.id) == Some(key)
  }

  /** No action from position `from` on speaks about a key. */
  ghost predicate Undisturbed(actions: seq<Action>, from: nat, key: Key) {
    forall k: nat :: from <= k < |actions| ==> !SpeaksOf(actions[..k + 1], actions[k], key)
  }

  lemma UndisturbedBefore(actions: seq<Action>, from: nat, key: Key)
    requires from < |actions|
    ensures var last := |actions| - 1;
            Undisturbed(actions, from, key) <==>
              Undisturbed(actions[..last], from, key) && !SpeaksOf(actions, actions[last], key)
  {
    hide SpeaksOf;
    var last := |actions| - 1;
    var before := actions[..last];
    assert actions[..last + 1] == actions;
    assert forall k: nat | k < last :: before[..k + 1] == actions[..k + 1] && before[k] == actions[k];
  }

  lemma PromotionsGrow(actions: seq<Action>, at: nat)
    requires Exec(actions).Some? && at < |actions| && actions[at].Promote?
    ensures var s := Exec(actions).value; actions[at].id in s.conns && s.conns[actions[at].id].promotions >= 1
  {
    var last := |actions| - 1;
    if at < last {
      PromotionsGrow(actions[..last], at);
    }
  }

  /** No connection is promoted again. */
  lemma PromotedNoMore(actions: seq<Action>, at: nat)
    requires Exec(actions).Some? && at < |actions| - 1 && actions[at].Promote?
    ensures actions[|actions| - 1] != actions[at]
  {
    var last := |actions| - 1;
    var before := actions[..last];
    PromotionsGrow(before, at);
    RunKeepsTables(before);
    assert ConnInv(Exec(before).value.conns[actions[at].id]);
  }

  /**
   * A promoted connection is found under its key for as long as no other connection with that key is
   * promoted and none with that key, itself included, is disconnected; and no longer.
   */
  lemma {:induction false} StaysActiveUntilDisturbed(actions: seq<Action>, at: nat, key: Key)
    requires Exec(actions).Some? && at < |actions| && actions[at].Promote?
             && KeyOf(actions[..at + 1], actions[at].id) == Some(key)
    ensures var s := Exec(actions).value;
            (key in s.active && s.active[key] == actions[at].id) <==> Undisturbed(actions, at + 1, key)
  {
    hide KeyOf, Exec;
    ActiveIsTheLastWord(actions, key);
    LastWordUndisturbed(actions, at, key);
  }

  lemma {:induction false} LastWordUndisturbed(actions: seq<Action>, at: nat, key: Key)
    requires Exec(actions).Some? && at < |actions| && actions[at].Promote?
             && KeyOf(actions[..at + 1], actions[at].id) == Some(key)
    ensures LastWord(actions, key) == Some(actions[at].id) <==> Undisturbed(actions, at + 1, key)
  {
    hide KeyOf;
    var last := |actions| - 1;
    assert actions[..last + 1] == actions;
    if at < last {
      var before := actions[..last];
      assert before[..at + 1] == actions[..at + 1];
      LastWordUndisturbed(before, at, key);
      UndisturbedBefore(actions, at + 1, key);
      PromotedNoMore(actions, at);
    }
  }

  // ---------------------------------------------------------------------------
  // Which connections are pending.

  /** The connection was opened by the k-th action and has been neither promoted nor disconnected since. */
  predicate WaitsSince(actions: seq<Action>, id: ConnId, k: nat) {
    && k < |actions| && actions[k].Upgrade? && actions[k].id == id
    && forall j: nat :: k < j < |actions| ==> !Ends(actions[j], id)
  }

  predicate Ends(a: Action, id: ConnId) {
    (a.Promote? || a.Disconnect?) && a.id == id
  }

  lemma WaitsStep(actions: seq<Action>, id: ConnId, k: nat)
    requires actions != []
    ensures var last := |actions| - 1;
            WaitsSince(actions, id, k) <==>
              if k == last then actions[last].Upgrade? && actions[last].id == id
              else WaitsSince(actions[..last], id, k) && !Ends(actions[last], id)
  {
    var last := |actions| - 1;
    if k < last && WaitsSince(actions[..last], id, k) && !Ends(actions[last], id) {
      forall j: nat | k < j < |actions| ensures !Ends(actions[j], id) {
        assert j < last ==> actions[..last][j] == actions[j];
      }
    }
    if k < last && WaitsSince(actions, id, k) {
      assert actions[..last][k] == actions[k] && !Ends(actions[last], id);
      forall j: nat | k < j < last ensures !Ends(actions[..last][j], id) {
        assert !Ends(actions[j], id);
      }
    }
  }

  /** A connection is pending exactly from its opening until it is promoted or disconnected. */
  lemma {:induction false} PendingUntilPromoted(actions: seq<Action>, id: ConnId)
    requires Exec(actions).Some?
    ensures id in Exec(actions).value.pending <==> exists k: nat :: WaitsSince(actions, id, k)
  {
    if actions != [] {
      hide WaitsSince;
      var last := |actions| - 1;
      var before := actions[..last];
      PendingUntilPromoted(before, id);
      if k: nat :| WaitsSince(before, id, k) {
        WaitsInside(before, id, k);
        WaitsStep(actions, id, k);
      }
      WaitsStep(actions, id, last);
      if k: nat :| WaitsSince(actions, id, k) {
        WaitsStep(actions, id, k);
      }
    }
  }

  lemma WaitsInside(actions: seq<Action>, id: ConnId, k: nat)
    requires WaitsSince(actions, id, k)
    ensures k < |actions|
  {}

  // ---------------------------------------------------------------------------
  // Which disconnected connections stay out of the active table.

  function RunFrom(s: State, actions: seq<Action>): Option<State>
    decreases |actions|
  {
    if actions == [] then Some(s)
    else if !Enabled(s, actions[0]) then None
    else RunFrom(Step(s, actions[0]), actions[1..])
  }

  predicate InActive(s: State, id: ConnId) {
    exists key <- s.active :: s.active[key] == id
  }

  /** Whatever happens from here on, the connection is not found in the active table. */
  ghost predicate StaysOut(s: State, id: ConnId) {
    forall actions :: RunFrom(s, actions).Some? ==> !InActive(RunFrom(s, actions).value, id)
  }

  /** The loop that handles requests will get no further one. */
  predicate Deaf(c: Conn) {
    !c.listening || (!c.reading && c.buffered == 0)
  }

  /** Never to be promoted: it has been already, or its handshake is lost, or no request will be handled. */
  predicate Barred(c: Conn) {
    c.promotions == 1 || (!c.promoting && (c.phase.Absent? || Deaf(c)))
  }

  lemma BarredIsOut(s: State, id: ConnId, a: Action)
    requires TablesInv(s) && Enabled(s, a) && id in s.conns && Barred(s.conns[id]) && !InActive(s, id)
    ensures var t := Step(s, a); id in t.conns && Barred(t.conns[id]) && !InActive(t, id)
  {
    assert ConnInv(s.conns[id]);
    var t := Step(s, a);
    forall key | key in t.active ensures t.active[key] != id {
      assert key in s.active ==> s.active[key] != id;
    }
  }

  lemma {:induction false} BarredStaysOut(s: State, id: ConnId, actions: seq<Action>)
    requires TablesInv(s) && id in s.conns && Barred(s.conns[id]) && !InActive(s, id)
    requires RunFrom(s, actions).Some?
    ensures !InActive(RunFrom(s, actions).value, id)
    decreases |actions|
  {
    hide TablesInv, Enabled, Step, InActive, Barred;
    if actions != [] {
      StepKeeps(s, actions[0]);
      BarredIsOut(s, id, actions[0]);
      BarredStaysOut(Step(s, actions[0]), id, actions[1..]);
    }
  }

  lemma PromotionIsActive(s: State, id: ConnId)
    requires Enabled(s, Promote(id))
    ensures RunFrom(s, [Promote(id)]).Some? && InActive(RunFrom(s, [Promote(id)]).value, id)
  {
    assert [Promote(id)][1..] == [];
    var t := Step(s, Promote(id));
    assert RunFrom(s, [Promote(id)]) == Some(t);
    assert s.conns[id].key in t.active;
  }

  /** A connection that is not barred can be promoted, by its next request if need be. */
  lemma UnbarredCanEnter(s: State, id: ConnId) returns (actions: seq<Action>)
    requires id in s.conns && ConnInv(s.conns[id]) && !Barred(s.conns[id])
    ensures RunFrom(s, actions).Some? && InActive(RunFrom(s, actions).value, id)
    decreases s.conns[id].buffered == 0
  {
    hide InActive;
    if s.conns[id].promoting {
      PromotionIsActive(s, id);
      actions := [Promote(id)];
    } else if s.conns[id].buffered > 0 {
      var t := Step(s, ShakeHands(id, Accepted));
      PromotionIsActive(t, id);
      actions := [ShakeHands(id, Accepted), Promote(id)];
      assert actions[1..] == [Promote(id)];
      assert RunFrom(s, actions) == RunFrom(t, [Promote(id)]);
    } else {
      var rest := UnbarredCanEnter(Step(s, Read(id)), id);
      actions := [Read(id)] + rest;
      assert actions[1..] == rest;
    }
  }

  /**
   * After a disconnect the connection stays out of the active table for good exactly when it had been
   * promoted before, its handshake was lost, or no request of it is left to be handled: one that fails
   * while shaking hands, or between that and its promotion, can still enter.
   */
  lemma DisconnectedStaysOutIff(s: State, id: ConnId, reader: bool)
    requires TablesInv(s) && Enabled(s, Disconnect(id, reader))
    ensures var t := Step(s, Disconnect(id, reader)); StaysOut(t, id) <==> Barred(t.conns[id])
  {
    hide TablesInv;
    var t := Step(s, Disconnect(id, reader));
    StepKeeps(s, Disconnect(id, reader));
    DisconnectedIsOut(s, id, reader);
    ConnsSound(t, id);
    if Barred(t.conns[id]) {
      forall actions | RunFrom(t, actions).Some? ensures !InActive(RunFrom(t, actions).value, id) {
        BarredStaysOut(t, id, actions);
      }
    } else {
      var actions := UnbarredCanEnter(t, id);
      assert RunFrom(t, actions).Some?;
    }
  }

  lemma ConnsSound(s: State, id: ConnId)
    requires TablesInv(s) && id in s.conns
    ensures ConnInv(s.conns[id])
  {}

  lemma DisconnectedIsOut(s: State, id: ConnId, reader: bool)
    requires TablesInv(s) && Enabled(s, Disconnect(id, reader))
    ensures !InActive(Step(s, Disconnect(id, reader)), id)
  {
    var t := Step(s, Disconnect(id, reader));
    forall key | key in t.active ensures t.active[key] != id {
      assert ActiveInv(s, key);
    }
  }

  /** Such a run from the start: reading fails with the handshake buffered. */
  lemma DisconnectedCanBeActive(id: ConnId, key: Key)
    ensures var r := RunFrom(EMPTY,
                             [Upgrade(id, key), Read(id), Disconnect(id, true), ShakeHands(id, Accepted), Promote(id)]);
            r.Some? && key in r.value.active && r.value.active[key] == id
  {
    var a := [Upgrade(id, key), Read(id), Disconnect(id, true), ShakeHands(id, Accepted), Promote(id)];
    var a1, a2, a3, a4 := a[1..], a[1..][1..], a[1..][1..][1..], a[1..][1..][1..][1..];
    var s1 := Step(EMPTY, Upgrade(id, key));
    assert RunFrom(EMPTY, a) == RunFrom(s1, a1);
    var s2 := Step(s1, Read(id));
    assert RunFrom(s1, a1) == RunFrom(s2, a2);
    var s3 := Step(s2, Disconnect(id, true));
    assert RunFrom(s2, a2) == RunFrom(s3, a3);
    var s4 := Step(s3, ShakeHands(id, Accepted));
    assert RunFrom(s3, a3) == RunFrom(s4, a4);
    assert a4 == [Promote(id)] && a4[1..] == [];
    assert RunFrom(s4, a4) == Some(Step(s4, Promote(id)));
  }

  // ---------------------------------------------------------------------------
  // The tables themselves, holding shared connection objects.

  class Connection {
    const id: ConnId
    const key: Key
    var phase: Phase
    var promoting: bool
    ghost var promotions: nat
    var incoming: seq<seq<Byte>>
    var reading: bool
    var listening: bool

    ghost function Value(): Conn
      reads this
    {
      Conn(key, phase, promoting, promotions, |incoming|, reading, listening)
    }

    constructor (id: ConnId, key: Key)
      ensures this.id == id && incoming == [] && Value() == NewConn(key)
    {
      this.id, this.key := id, key;
      phase, promoting, promotions := Handshake, false, 0;
      incoming, reading, listening := [], true, true;
    }

    method Promoted()
      modifies this`promoting, this`promotions
      ensures Value() == old(Value()).(promoting := false, promotions := old(promotions) + 1)
    {
      promoting, promotions := false, promotions + 1;
    }

    method StopReading()
      modifies this`reading
      ensures Value() == old(Value()).(reading := false)
    {
      reading := false;
    }

    /** The loop takes the oldest request; `greeting` is what comes of it. */
    method Take(greeting: Greeting) returns (accepted: bool)
      requires incoming != []
      modifies this
      ensures incoming == old(incoming)[1..] && Value() == Greet(old(Value()), greeting)
      ensures listening == (old(listening) && !greeting.Garbled?)
      ensures phase == if old(phase).Handshake? && greeting.Accepted? then Transport
                       else if old(phase).Handshake? && greeting.Lost? then Absent else old(phase)
      ensures promoting == (old(promoting) || (old(phase).Handshake? && greeting.Accepted?))
      ensures promotions == old(promotions) && reading == old(reading)
      ensures accepted <==> greeting.Accepted? && old(phase).Handshake?
    {
      incoming := incoming[1..];
      if greeting.Garbled? {
        listening := false;
        return false;
      }
      if !phase.Handshake? || greeting.Refused? {
        return false;
      }
      if greeting.Lost? {
        phase := Absent;
        return false;
      }
      phase, promoting := Transport, true;
      return true;
    }
  }

  class ServerTables {
    ghost var conns: map<ConnId, Connection>
    var pending: map<ConnId, Connection>
    var active: map<Key, Connection>

    ghost predicate Registered(c: Connection)
      reads this
    {
      c.id in conns && conns[c.id] == c
    }

    ghost predicate Valid()
      reads this
    {
      && (forall id <- conns :: conns[id].id == id)
      && (forall id <- pending :: id in conns && pending[id] == conns[id])
      && (forall key <- active :: Registered(active[key]))
    }

    ghost function Conns(): map<ConnId, Conn>
      reads this, conns.Values
    {
      map id | id in conns :: conns[id].Value()
    }

    ghost function Active(): map<Key, ConnId>
      reads this
    {
      map key | key in active :: active[key].id
    }

    ghost function View(): State
      reads this, conns.Values
    {
      State(Conns(), pending.Keys, Active())
    }

    constructor ()
      ensures Valid() && View() == EMPTY
    {
      conns, pending, active := map[], map[], map[];
    }

    method Upgrade(id: ConnId, key: Key) returns (c: Connection)
      requires Valid() && Enabled(View(), Action.Upgrade(id, key))
      modifies this
      ensures Valid() && fresh(c) && Registered(c) && View() == Step(old(View()), Action.Upgrade(id, key))
    {
      c := new Connection(id, key);
      conns := conns[id := c];
      pending := pending[id := c];
      assert Conns() == old(Conns())[id := c.Value()];
    }

    /** The reader hands on what it has read. */
    method Receive(c: Connection, buffer: seq<Byte>)
      requires Valid() && Registered(c) && Enabled(View(), Read(c.id))
      modifies c
      ensures Valid() && c.incoming == old(c.incoming) + [buffer] && View() == Step(old(View()), Read(c.id))
    {
      c.incoming := c.incoming + [buffer];
    }

    method ServerHandshake(c: Connection, greeting: Greeting) returns (accepted: bool)
      requires Valid() && Registered(c) && Enabled(View(), ShakeHands(c.id, greeting))
      modifies c
      ensures Valid() && c.incoming == old(c.incoming)[1..] && View() == Step(old(View()), ShakeHands(c.id, greeting))
      ensures accepted <==> greeting.Accepted? && old(c.phase).Handshake?
    {
      hide Greet;
      accepted := c.Take(greeting);
      assert Conns() == old(Conns())[c.id := c.Value()];
    }

    method Activate(c: Connection)
      requires Valid() && Registered(c)
      modifies this
      ensures Valid() && conns == old(conns) && pending.Keys == old(pending.Keys) - {c.id}
              && Active() == old(Active())[c.key := c.id]
    {
      pending := pending - {c.id};
      active := active[c.key := c];
    }

    method PromoteConnection(c: Connection)
      requires Valid() && Registered(c) && Enabled(View(), Promote(c.id))
      modifies this, c
      ensures Valid() && View() == Step(old(View()), Promote(c.id))
    {
      c.Promoted();
      assert Conns() == old(Conns())[c.id := c.Value()];
      Activate(c);
    }

    method Disconnect(c: Connection, reader: bool)
      requires Valid() && Registered(c) && Enabled(View(), Action.Disconnect(c.id, reader))
      modifies this, c
      ensures Valid() && View() == Step(old(View()), Action.Disconnect(c.id, reader))
    {
      if reader {
        c.StopReading();
      }
      assert Conns() == old(Conns())[c.id := c.Value()];
      Deactivate(c);
    }

    method Deactivate(c: Connection)
      requires Valid() && Registered(c)
      modifies this
      ensures Valid() && conns == old(conns) && pending.Keys == old(pending.Keys) - {c.id}
              && Active() == old(Active()) - {c.key}
    {
      pending := pending - {c.id};
      active := active - {c.key};
    }
  }
}
