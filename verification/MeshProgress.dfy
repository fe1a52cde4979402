// Session establishment always can be completed, and takes a bounded number of steps: every step but
// sending a session message uses up some of what is left to do.
module MeshProgress {
  import opened Basics
  import opened Mesh
  import opened MeshInvariant
  import opened MeshTheorems

  // ---------------------------------------------------------------------------
  // What is left to do.

  /** How many steps a request can still cause, its own included. */
  function UpWeight(m: Request): nat {
    match m
    case Hello(_, _) => 6
    case Answer(_, _, _) => 3
    case Register(_) => 1
    case Chat(_, _) => 2
  }

  function DownWeight(n: nat, m: Response): nat {
    match m
    case HelloFrom(_, _) => 5
    case AnswerFrom(_, _, _) => 2
    case SessionReady => 1 + 6 * n
    case _ => 1
  }

  function UpOf(): Request -> nat {
    m => UpWeight(m)
  }

  function DownOf(n: nat): Response -> nat {
    m => DownWeight(n, m)
  }

  function Load<M>(weight: M -> nat, q: seq<M>): nat {
    if q == [] then 0 else weight(q[0]) + Load(weight, q[1..])
  }

  function LoadAll<M>(weight: M -> nat, qs: seq<seq<M>>): nat {
    if qs == [] then 0 else Load(weight, qs[0]) + LoadAll(weight, qs[1..])
  }

  function Left(n: nat, k: nat): nat {
    if k < n then n - k else 0
  }

  function Offline(n: nat, online: set<nat>): set<nat> {
    set i: nat | i < n && i !in online
  }

  function QuitLoad(n: nat, s: Server): nat {
    if s.gaveUp then Left(n, s.timeoutSent) * 2 else 1 + 2 * n
  }

  function ServerLoad(n: nat, s: Server): nat {
    |Offline(n, s.online)| + (if s.replied then 0 else 2)
    + Left(n, s.readySent) * (2 + 6 * n) + Left(n, s.activeSent) * 2 + QuitLoad(n, s)
  }

  function Potential(n: nat, w: World): nat {
    ServerLoad(n, w.server) + LoadAll(UpOf(), w.up) + LoadAll(DownOf(n), w.down)
  }

  // ---------------------------------------------------------------------------
  // Queues.

  lemma {:induction false} LoadConcat<M>(weight: M -> nat, a: seq<M>, b: seq<M>)
    ensures Load(weight, a + b) == Load(weight, a) + Load(weight, b)
  {
    if a == [] {
      assert a + b == b;
    } else {
      assert (a + b)[0] == a[0] && (a + b)[1..] == a[1..] + b;
      LoadConcat(weight, a[1..], b);
    }
  }

  lemma LoadOne<M>(weight: M -> nat, m: M)
    ensures Load(weight, [m]) == weight(m)
  {
    assert [m][1..] == [];
  }

  lemma {:induction false} LoadAllUpdate<M>(weight: M -> nat, qs: seq<seq<M>>, i: nat, q: seq<M>)
    requires i < |qs|
    ensures LoadAll(weight, qs[i := q]) + Load(weight, qs[i]) == LoadAll(weight, qs) + Load(weight, q)
  {
    if i == 0 {
      assert qs[i := q][1..] == qs[1..];
    } else {
      assert qs[i := q][1..] == qs[1..][i - 1 := q];
      LoadAllUpdate(weight, qs[1..], i - 1, q);
    }
  }

  lemma LoadAllAppend<M>(weight: M -> nat, qs: seq<seq<M>>, i: nat, more: seq<M>)
    requires i < |qs|
    ensures LoadAll(weight, qs[i := qs[i] + more]) == LoadAll(weight, qs) + Load(weight, more)
  {
    LoadAllUpdate(weight, qs, i, qs[i] + more);
    LoadConcat(weight, qs[i], more);
  }

  lemma LoadAllPop<M>(weight: M -> nat, qs: seq<seq<M>>, i: nat)
    requires i < |qs| && qs[i] != []
    ensures LoadAll(weight, qs[i := qs[i][1..]]) + weight(qs[i][0]) == LoadAll(weight, qs)
  {
    LoadAllUpdate(weight, qs, i, qs[i][1..]);
  }

  lemma {:induction false} LoadAllEmpty<M>(weight: M -> nat, n: nat)
    ensures LoadAll(weight, seq(n, _ => [])) == 0
  {
    if n > 0 {
      var qs: seq<seq<M>> := seq(n, _ => []);
      assert qs[1..] == seq(n - 1, _ => []);
      LoadAllEmpty(weight, n - 1);
    }
  }

  // ---------------------------------------------------------------------------
  // Every step uses something up.

  lemma {:induction false} ConnectLoad(c: Client, own: nat, next: nat, n: nat)
    ensures Load(UpOf(), ConnectFrom(c, own, next, n).1) <= 6 * Left(n, next)
    decreases n - next
  {
    if next < n {
      var (c1, sent) := ConnectPeer(c, own, next);
      if sent != [] {
        LoadOne(UpOf(), sent[0]);
      }
      if c1.error.None? {
        ConnectLoad(c1, own, next + 1, n);
        LoadConcat(UpOf(), sent, ConnectFrom(c1, own, next + 1, n).1);
      }
    }
  }

  lemma ConnectedLoad(c: Client, own: nat, peer: nat, n: nat)
    ensures Load(UpOf(), PeerConnected(c, own, peer, n).1) <= 1
  {
    LoadOne(UpOf(), Register(peer));
  }

  /** What a client sends weighs less than what it took. */
  lemma ClientLoad(c: Client, own: nat, n: nat, r: Response)
    requires own < n
    ensures Load(UpOf(), ClientStep(c, own, n, r).1) < DownWeight(n, r)
  {
    hide PeerConnected, ConnectFrom;
    match r
    case HelloFrom(peer, e) =>
      if peer !in c.peers {
        var f := Ephemeral(own, c.serial);
        var c1 := c.(peers := c.peers[peer := Transport(f, e, false)], serial := c.serial + 1);
        ConnectedLoad(c1, own, peer, n);
        LoadOne(UpOf(), Answer(peer, e, f));
        LoadConcat(UpOf(), [Answer(peer, e, f)], PeerConnected(c1, own, peer, n).1);
      }
    case AnswerFrom(peer, e, f) =>
      var c1 := c.(peers := (c.peers - {peer})[peer := Transport(e, f, true)]);
      ConnectedLoad(c1, own, peer, n);
    case SessionReady =>
      ConnectLoad(if own == 0 then c else c.(session := true), own, own + 1, n);
    case _ =>
  }

  lemma PushLoad(n: nat, w: World, i: nat, r: Response)
    requires i < |w.down|
    ensures Potential(n, Push(w, i, r)) == Potential(n, w) + DownWeight(n, r)
  {
    LoadAllAppend(DownOf(n), w.down, i, [r]);
    LoadOne(DownOf(n), r);
  }

  lemma OnlineLoad(n: nat, online: set<nat>, i: nat)
    requires i < n && i !in online
    ensures |Offline(n, online + {i})| + 1 == |Offline(n, online)|
  {
    assert Offline(n, online) == Offline(n, online + {i}) + {i};
  }

  lemma OneLess(n: nat, k: nat, r: nat)
    requires k < n
    ensures Left(n, k) * r == Left(n, k + 1) * r + r
  {
    assert Left(n, k) == Left(n, k + 1) + 1;
  }

  lemma ServeLoad(n: nat, w: World, i: nat)
    requires |w.up| == |w.down| && i < |w.up| && w.up[i] != []
    ensures Potential(n, Serve(w, i)) < Potential(n, w)
  {
    hide ServerLoad;
    var m := w.up[i][0];
    var w1 := w.(up := w.up[i := w.up[i][1..]]);
    LoadAllPop(UpOf(), w.up, i);
    assert Potential(n, w1) + UpWeight(m) == Potential(n, w);
    if m.Register? {
      RegisterLoad(n, w.server, (i, m.peer));
    } else {
      var r := match m
        case Hello(_, e) => HelloFrom(i, e)
        case Answer(_, e, f) => AnswerFrom(i, e, f)
        case Chat(_, payload) => ChatFrom(i, payload);
      if m.to in w1.server.online && m.to < |w1.down| {
        PushLoad(n, w1, m.to, r);
      } else {
        PushLoad(n, w1, i, ServerError);
      }
    }
  }

  lemma RegisterLoad(n: nat, s: Server, e: (nat, nat))
    ensures ServerLoad(n, s.(connections := s.connections + {e})) == ServerLoad(n, s)
  {}

  lemma SetClientLoad(n: nat, w: World, i: nat, step: (Client, seq<Request>))
    requires i < |w.clients| == |w.up|
    ensures Potential(n, SetClient(w, i, step)) == Potential(n, w) + Load(UpOf(), step.1)
  {
    LoadAllAppend(UpOf(), w.up, i, step.1);
  }

  lemma AnnouncementLoad(n: nat, w: World, a: Action)
    requires |w.clients| == |w.up| == |w.down| == n && Enabled(n, w, a)
    requires a.ReplyCreated? || a.NotifyReady? || a.NotifyActive?
    ensures Potential(n, Apply(n, w, a)) < Potential(n, w)
  {
    hide Serve, Push, SetClient, ClientStep, Load, LoadAll, AllOnline, AllLinked;
    var s := w.server;
    match a
    case ReplyCreated =>
      PushLoad(n, w.(server := s.(replied := true)), 0, SessionCreated);
    case NotifyReady =>
      PushLoad(n, w.(server := s.(readySent := s.readySent + 1)), s.readySent, SessionReady);
      OneLess(n, s.readySent, 2 + 6 * n);
    case NotifyActive =>
      PushLoad(n, w.(server := s.(activeSent := s.activeSent + 1)), s.activeSent, SessionActive);
      OneLess(n, s.activeSent, 2);
  }

  lemma QuitStepLoad(n: nat, w: World, a: Action)
    requires |w.clients| == |w.up| == |w.down| == n && Enabled(n, w, a)
    requires a.GiveUp? || a.NotifyTimeout?
    ensures Potential(n, Apply(n, w, a)) < Potential(n, w)
  {
    hide Serve, Push, SetClient, ClientStep, Load, LoadAll, AllOnline, AllLinked;
    var s := w.server;
    if a.NotifyTimeout? {
      PushLoad(n, w.(server := s.(timeoutSent := s.timeoutSent + 1)), s.timeoutSent, SessionTimeout);
      OneLess(n, s.timeoutSent, 2);
    }
  }

  lemma ClientTakeLoad(n: nat, w: World, i: nat)
    requires |w.clients| == |w.up| == |w.down| == n && Enabled(n, w, ClientTake(i))
    ensures Potential(n, Apply(n, w, ClientTake(i))) < Potential(n, w)
  {
    hide SetClient, ClientStep, Load, LoadAll, ServerLoad;
    var w1 := w.(down := w.down[i := w.down[i][1..]]);
    LoadAllPop(DownOf(n), w.down, i);
    SetClientLoad(n, w1, i, ClientStep(w.clients[i], i, n, w.down[i][0]));
    ClientLoad(w.clients[i], i, n, w.down[i][0]);
  }

  lemma SayLoad(n: nat, w: World, a: Action)
    requires |w.clients| == |w.up| == |w.down| == n && Enabled(n, w, a) && a.Say?
    ensures Potential(n, Apply(n, w, a)) <= Potential(n, w) + 2
  {
    hide SetClient, Load, Potential;
    var step := Speak(w.clients[a.i], a.to, a.payload);
    SetClientLoad(n, w, a.i, step);
    if step.1 == [] {
      LoadNone(UpOf());
    } else {
      LoadOne(UpOf(), step.1[0]);
    }
  }

  /** Only a session message adds to what is left to do, and it adds at most two steps. */
  lemma StepLoad(n: nat, w: World, a: Action)
    requires |w.clients| == |w.up| == |w.down| == n && Enabled(n, w, a)
    ensures a.Say? ==> Potential(n, Apply(n, w, a)) <= Potential(n, w) + 2
    ensures !a.Say? ==> Potential(n, Apply(n, w, a)) < Potential(n, w)
  {
    if a.ReplyCreated? || a.NotifyReady? || a.NotifyActive? {
      hide *;
      AnnouncementLoad(n, w, a);
    } else if a.GiveUp? || a.NotifyTimeout? {
      hide *;
      QuitStepLoad(n, w, a);
    } else {
      hide Serve, SetClient, ClientStep, Speak, Load, LoadAll;
      match a
      case GoOnline(i) => OnlineLoad(n, w.server.online, i);
      case ServerTake(i) => ServeLoad(n, w, i);
      case ClientTake(i) => ClientTakeLoad(n, w, i);
      case Say(_, _, _) => SayLoad(n, w, a);
    }
  }

  lemma LoadNone<M>(weight: M -> nat)
    ensures Load(weight, []) == 0
  {}

  // ---------------------------------------------------------------------------
  // Bounds and completion.

  function Says(actions: seq<Action>): nat {
    if actions == [] then 0 else Says(actions[..|actions| - 1]) + if actions[|actions| - 1].Say? then 1 else 0
  }

  lemma {:induction false} StepsAreBounded(n: nat, actions: seq<Action>)
    requires Exec(n, actions).Some?
    ensures |actions| - Says(actions) + Potential(n, Exec(n, actions).value) <= Potential(n, Initial(n))
            + 2 * Says(actions)
  {
    hide Potential, Enabled, Apply;
    if actions != [] {
      var last := |actions| - 1;
      StepsAreBounded(n, actions[..last]);
      StepLoad(n, Exec(n, actions[..last]).value, actions[last]);
    }
  }

  /**
   * The steps of any run, those that say something aside: at most two for each of these, and a number
   * that depends on n alone.
   */
  lemma SetUpIsBounded(n: nat, actions: seq<Action>)
    requires Exec(n, actions).Some?
    ensures |actions| - Says(actions) <= 6 * (n * n) + 7 * n + 3 + 2 * Says(actions)
  {
    hide Exec, Load, LoadAll;
    StepsAreBounded(n, actions);
    LoadAllEmpty(UpOf(), n);
    LoadAllEmpty(DownOf(n), n);
    BelowCount(Offline(n, {0}), n);
    assert n * (2 + 6 * n) == 2 * n + 6 * (n * n);
  }

  /** Nobody says anything, and no watcher gives up. */
  ghost predicate Quiet(actions: seq<Action>) {
    forall a <- actions :: !a.Say? && !a.GiveUp?
  }

  /** However far a run has got, it can be brought to rest without anything said or given up. */
  lemma {:induction false} BringToRest(n: nat, actions: seq<Action>) returns (more: seq<Action>)
    requires Exec(n, actions).Some?
    ensures Quiet(more) && Exec(n, actions + more).Some? && SetUpRests(n, Exec(n, actions + more).value)
    ensures Exec(n, actions + more).value.server.gaveUp == Exec(n, actions).value.server.gaveUp
    decreases Potential(n, Exec(n, actions).value)
  {
    var w := Exec(n, actions).value;
    if SetUpRests(n, w) {
      more := [];
      assert actions + more == actions;
    } else {
      hide Potential;
      var a :| Enabled(n, w, a) && !a.Say? && !a.GiveUp?;
      assert (actions + [a])[..|actions|] == actions;
      StepLoad(n, w, a);
      GaveUpAfter(n, w, a);
      var rest := BringToRest(n, actions + [a]);
      more := [a] + rest;
      Regroup(actions, [a], rest);
    }
  }

  lemma GaveUpAfter(n: nat, w: World, a: Action)
    requires |w.clients| == |w.up| == |w.down| == n && Enabled(n, w, a)
    ensures Apply(n, w, a).server.gaveUp == (w.server.gaveUp || a.GiveUp?)
  {
    hide ClientStep;
  }

  lemma {:induction false} GivenUpForGood(n: nat, actions: seq<Action>, more: seq<Action>)
    requires Exec(n, actions + more).Some?
    ensures Exec(n, actions).Some?
    ensures Exec(n, actions).value.server.gaveUp ==> Exec(n, actions + more).value.server.gaveUp
    decreases |more|
  {
    hide Apply, Enabled;
    if more == [] {
      assert actions + more == actions;
    } else {
      var last := |more| - 1;
      assert (actions + more)[..|actions| + last] == actions + more[..last];
      GivenUpForGood(n, actions, more[..last]);
      GaveUpAfter(n, Exec(n, actions + more[..last]).value, more[last]);
    }
  }

  /**
   * Every run of session establishment in which no watcher has given up can be completed: it extends,
   * without a word said, to one in which exactly the forward edges are registered and every participant
   * has joined.
   */
  lemma SetUpCanAlwaysComplete(n: nat, actions: seq<Action>) returns (more: seq<Action>)
    requires Exec(n, actions).Some? && !Exec(n, actions).value.server.gaveUp
    ensures Quiet(more) && Exec(n, actions + more).Some?
    ensures Exec(n, actions + more).value.server.connections == ForwardEdges(n)
    ensures AllJoined(Exec(n, actions + more).value)
  {
    hide Exec;
    more := BringToRest(n, actions);
    SetUpRestsOnlyWhenActive(n, actions + more);
  }

  /** Some continuation of a run has every participant join. */
  ghost predicate CanComplete(n: nat, actions: seq<Action>) {
    exists more :: Exec(n, actions + more).Some? && AllJoined(Exec(n, actions + more).value)
  }

  /** A run can be completed exactly as long as no watcher has given up. */
  lemma SetUpCompletesIff(n: nat, actions: seq<Action>)
    requires Exec(n, actions).Some?
    ensures CanComplete(n, actions) <==> !Exec(n, actions).value.server.gaveUp
  {
    hide Exec;
    if !Exec(n, actions).value.server.gaveUp {
      var more := SetUpCanAlwaysComplete(n, actions);
      assert Exec(n, actions + more).Some?;
    } else if CanComplete(n, actions) {
      var more :| Exec(n, actions + more).Some? && AllJoined(Exec(n, actions + more).value);
      GivenUpForGood(n, actions, more);
      GivingUpExcludesJoining(n, actions + more);
      var x := EveryRunKeepsInv(n, actions + more);
      GaveUpWhen(n, Exec(n, actions + more).value, x);
      NotBoth(Exec(n, actions + more).value);
    }
  }
}
