// The life of a session on the server: two watchers, one after the other, registrations, closing and
// purging, in every interleaving.
module Lifecycle {
  import opened Basics
  import opened Sessions

  datatype Record = Record(owner: Key, others: set<Key>, connections: set<Edge>)

  /**
   * How far the watchers of a session have got. Looking at the state and broadcasting are separate
   * steps; what was seen when the step was decided is kept.
   */
  datatype Phase =
    | WaitingReady
    | TellingReady(online: set<Key>)
    | WaitingActive
    | TellingActive(seen: set<Edge>)
    | TellingTimeout
    | Done

  datatype Watcher = Watcher(participants: seq<Key>, phase: Phase)

  /** A broadcast, with what justified it. */
  datatype Broadcast = Ready(online: set<Key>) | Active(seen: set<Edge>) | Timeout

  datatype State = State(
    sessions: map<Id, Record>,
    closing: set<Id>,                 // a close request has been accepted but not carried out
    watchers: map<Id, Watcher>,
    online: set<Key>,                 // the keys of the active connections
    log: seq<(Id, Broadcast)>)

  datatype Action =
    | NewSession(id: Id, owner: Key, keys: seq<Key>)
    | Register(id: Id, peer: Key, other: Key)
    | AcceptClose(id: Id, requester: Key)
    | CarryOutClose(id: Id)
    | Purge(expired: set<Id>)
    | Connections(online: set<Key>)   // clients come and go
    | Tick(id: Id, late: bool)        // a watcher wakes up; late: its waiting time is over
    | Tell(id: Id)                    // a watcher broadcasts what it decided

  const EMPTY := State(map[], {}, map[], {}, [])

  predicate Enabled(s: State, a: Action) {
    match a
    case NewSession(id, _, _) => id !in s.watchers    // identifiers are fresh
    case CarryOutClose(id) => id in s.closing
    case Tick(id, _) => id in s.watchers && (s.watchers[id].phase.WaitingReady? || s.watchers[id].phase.WaitingActive?)
    case Tell(id) =>
      id in s.watchers
      && (var p := s.watchers[id].phase; p.TellingReady? || p.TellingActive? || p.TellingTimeout?)
    case _ => true
  }

  predicate RecordComplete(r: Record) {
    Complete({r.owner} + r.others, r.connections)
  }

  /** What a watcher decides on waking up. */
  function Decide(s: State, id: Id, w: Watcher, late: bool): Phase {
    if w.phase.WaitingReady? then
      if KeySet(w.participants) <= s.online then TellingReady(s.online)
      else if late then TellingTimeout
      else WaitingReady
    else if id !in s.sessions then Done
    else if RecordComplete(s.sessions[id]) then TellingActive(s.sessions[id].connections)
    else if late then TellingTimeout
    else WaitingActive
  }

  function Said(p: Phase): Broadcast
    requires p.TellingReady? || p.TellingActive? || p.TellingTimeout?
  {
    match p
    case TellingReady(online) => Ready(online)
    case TellingActive(seen) => Active(seen)
    case TellingTimeout => Timeout
  }

  function SetPhase(s: State, id: Id, p: Phase): State
    requires id in s.watchers
  {
    s.(watchers := s.watchers[id := s.watchers[id].(phase := p)])
  }

  function Step(s: State, a: Action): State
    requires Enabled(s, a)
  {
    match a
    case NewSession(id, owner, keys) =>
      s.(sessions := s.sessions[id := Record(owner, KeySet(keys), {})],
         watchers := s.watchers[id := Watcher([owner] + keys, WaitingReady)])
    case Register(id, peer, other) =>
      if id !in s.sessions then s
      else
        var record := s.sessions[id];
        s.(sessions := s.sessions[id := record.(connections := record.connections + {(peer, other)})])
    case AcceptClose(id, requester) =>
      if id in s.sessions && s.sessions[id].owner == requester then s.(closing := s.closing + {id}) else s
    case CarryOutClose(id) => s.(sessions := s.sessions - {id}, closing := s.closing - {id})
    case Purge(expired) => s.(sessions := s.sessions - expired)
    case Connections(online) => s.(online := online)
    case Tick(id, late) => SetPhase(s, id, Decide(s, id, s.watchers[id], late))
    case Tell(id) =>
      var p := s.watchers[id].phase;
      SetPhase(s, id, if p.TellingReady? then WaitingActive else Done).(log := s.log + [(id, Said(p))])
  }

  function Run(s: State, actions: seq<Action>): Option<State>
    decreases |actions|
  {
    if actions == [] then Some(s)
    else if !Enabled(s, actions[0]) then None
    else Run(Step(s, actions[0]), actions[1..])
  }

  /** What has been broadcast about one session. */
  function Heard(log: seq<(Id, Broadcast)>, id: Id): seq<Broadcast> {
    if log == [] then []
    else
      var last := |log| - 1;
      Heard(log[..last], id) + if log[last].0 == id then [log[last].1] else []
  }

  lemma HeardAppend(log: seq<(Id, Broadcast)>, entry: (Id, Broadcast), id: Id)
    ensures Heard(log + [entry], id) == Heard(log, id) + if entry.0 == id then [entry.1] else []
  {
    assert (log + [entry])[..|log|] == log;
  }

  // ---------------------------------------------------------------------------
  // What every run keeps.

  /** Justified by a moment at which all participants were connected. */
  predicate JustifiedReady(participants: seq<Key>, b: Broadcast) {
    b.Ready? && KeySet(participants) <= b.online
  }

  /** Justified by a moment at which all pairs of participants were registered. */
  predicate JustifiedActive(participants: seq<Key>, b: Broadcast) {
    b.Active? && Complete(KeySet(participants), b.seen)
  }

  predicate OneReady(participants: seq<Key>, heard: seq<Broadcast>) {
    |heard| == 1 && JustifiedReady(participants, heard[0])
  }

  /** The broadcasts that fit a watcher's phase. */
  predicate PhaseFits(w: Watcher, heard: seq<Broadcast>) {
    match w.phase
    case WaitingReady => heard == []
    case TellingReady(online) => heard == [] && JustifiedReady(w.participants, Ready(online))
    case WaitingActive => OneReady(w.participants, heard)
    case TellingActive(seen) => OneReady(w.participants, heard) && JustifiedActive(w.participants, Active(seen))
    case TellingTimeout => heard == [] || OneReady(w.participants, heard)
    case Done => LifeOver(w.participants, heard)
  }

  /** A finished life: timed out, at once or after ready; active; or removed while waiting. */
  predicate LifeOver(participants: seq<Key>, heard: seq<Broadcast>) {
    || heard == [Timeout]
    || OneReady(participants, heard)
    || (|heard| == 2 && JustifiedReady(participants, heard[0])
        && (heard[1] == Timeout || JustifiedActive(participants, heard[1])))
  }

  /** A session still recorded has the members its watcher was started with. */
  predicate SessionInv(s: State, id: Id) {
    && (id in s.sessions ==>
          && id in s.watchers
          && {s.sessions[id].owner} + s.sessions[id].others == KeySet(s.watchers[id].participants))
    && (if id in s.watchers then PhaseFits(s.watchers[id], Heard(s.log, id)) else Heard(s.log, id) == [])
  }

  lemma StepKeeps(s: State, a: Action, id: Id)
    requires SessionInv(s, id) && Enabled(s, a)
    ensures SessionInv(Step(s, a), id)
  {
    hide Heard, Complete;
    match a
    case NewSession(i, owner, keys) =>
      assert KeySet([owner] + keys) == {owner} + KeySet(keys);
    case Tell(i) =>
      HeardAppend(s.log, (i, Said(s.watchers[i].phase)), id);
    case Tick(_, _) =>
    case Register(_, _, _) =>
    case _ =>
  }

  lemma {:induction false} RunKeeps(s: State, actions: seq<Action>, id: Id)
    requires SessionInv(s, id) && Run(s, actions).Some?
    ensures SessionInv(Run(s, actions).value, id)
    decreases |actions|
  {
    hide SessionInv, Step, Enabled;
    if actions != [] {
      StepKeeps(s, actions[0], id);
      RunKeeps(Step(s, actions[0]), actions[1..], id);
    }
  }

  /**
   * In every run what is broadcast about a session is nothing, one ready, one timeout, or one ready
   * and then either one active or one timeout. Ready follows a moment with all participants connected;
   * active a moment with every pair registered.
   */
  lemma BroadcastsHaveOneOfFiveShapes(actions: seq<Action>, id: Id)
    requires Run(EMPTY, actions).Some?
    ensures var s := Run(EMPTY, actions).value;
            var heard := Heard(s.log, id);
            if id in s.watchers then
              var participants := s.watchers[id].participants;
              || heard == []
              || heard == [Timeout]
              || (|heard| == 1 && JustifiedReady(participants, heard[0]))
              || (|heard| == 2 && JustifiedReady(participants, heard[0]) && heard[1] == Timeout)
              || (|heard| == 2 && JustifiedReady(participants, heard[0]) && JustifiedActive(participants, heard[1]))
            else heard == []
  {
    hide Run, JustifiedReady, JustifiedActive;
    RunKeeps(EMPTY, actions, id);
  }

  // ---------------------------------------------------------------------------
  // What can still be heard of a session that was closed or purged.

  /** Whatever happens, nothing more is broadcast about the session. */
  ghost predicate Silent(s: State, id: Id) {
    forall actions :: Run(s, actions).Some? ==> Heard(Run(s, actions).value.log, id) == Heard(s.log, id)
  }

  predicate Quiet(s: State, id: Id) {
    id in s.watchers && id !in s.sessions && (s.watchers[id].phase.WaitingActive? || s.watchers[id].phase.Done?)
  }

  lemma {:induction false} QuietIsSilent(s: State, id: Id, actions: seq<Action>)
    requires Quiet(s, id) && Run(s, actions).Some?
    ensures Heard(Run(s, actions).value.log, id) == Heard(s.log, id)
    decreases |actions|
  {
    hide Heard, Complete;
    if actions != [] {
      var a := actions[0];
      if a.Tell? {
        HeardAppend(s.log, (a.id, Said(s.watchers[a.id].phase)), id);
      }
      assert Heard(Step(s, a).log, id) == Heard(s.log, id);
      assert Quiet(Step(s, a), id);
      QuietIsSilent(Step(s, a), id, actions[1..]);
    }
  }

  lemma RunOne(s: State, a: Action)
    requires Enabled(s, a)
    ensures Run(s, [a]) == Some(Step(s, a))
  {
    hide Enabled, Step;
    assert [a][1..] == [];
  }

  lemma RunTwo(s: State, a: Action, b: Action)
    requires Enabled(s, a) && Enabled(Step(s, a), b)
    ensures Run(s, [a, b]) == Some(Step(Step(s, a), b))
  {
    hide Enabled, Step;
    assert [a, b][1..] == [b];
    RunOne(Step(s, a), b);
  }

  /** Telling is heard. */
  lemma TellIsHeard(s: State, id: Id)
    requires Enabled(s, Tell(id))
    ensures Heard(Step(s, Tell(id)).log, id) != Heard(s.log, id)
  {
    hide Heard;
    HeardAppend(s.log, (id, Said(s.watchers[id].phase)), id);
  }

  /**
   * Removing a session, by closing or purging, silences it exactly when its watcher had nothing left
   * to tell and was past waiting for readiness: that watcher does not look whether the session exists.
   */
  lemma RemovalSilencesIff(s: State, id: Id)
    requires id in s.watchers && id !in s.sessions
    ensures Silent(s, id) <==> s.watchers[id].phase.WaitingActive? || s.watchers[id].phase.Done?
  {
    hide Heard, Complete;
    if Quiet(s, id) {
      forall actions | Run(s, actions).Some?
        ensures Heard(Run(s, actions).value.log, id) == Heard(s.log, id)
      {
        QuietIsSilent(s, id, actions);
      }
    } else if s.watchers[id].phase.WaitingReady? {
      var late := Tick(id, true);
      RunTwo(s, late, Tell(id));
      TellIsHeard(Step(s, late), id);
      assert Run(s, [late, Tell(id)]).Some?;
    } else {
      RunOne(s, Tell(id));
      TellIsHeard(s, id);
      assert Run(s, [Tell(id)]).Some?;
    }
  }

  /** Closing, from creation on, as its owner's three requests. */
  function CloseAtOnce(id: Id, owner: Key): seq<Action> {
    [NewSession(id, owner, []), AcceptClose(id, owner), CarryOutClose(id)]
  }

  /** In particular a session can be announced ready after its owner closed it. */
  lemma ReadyCanFollowClose(id: Id, owner: Key)
    ensures Run(EMPTY, CloseAtOnce(id, owner)).Some?
    ensures var closed := Run(EMPTY, CloseAtOnce(id, owner)).value;
            && id !in closed.sessions && Heard(closed.log, id) == []
            && Run(closed, [Connections({owner}), Tick(id, false), Tell(id)]).Some?
            && Heard(Run(closed, [Connections({owner}), Tick(id, false), Tell(id)]).value.log, id) == [Ready({owner})]
  {
    var a := CloseAtOnce(id, owner);
    assert a[1..] == [a[1], a[2]];
    RunTwo(Step(EMPTY, a[0]), a[1], a[2]);
    var closed := Run(EMPTY, a).value;
    assert closed.watchers[id] == Watcher([owner] + [], WaitingReady);
    assert KeySet([owner] + []) == {owner};
    var b := [Connections({owner}), Tick(id, false), Tell(id)];
    assert b[1..] == [b[1], b[2]];
    var connected := Step(closed, b[0]);
    var decided := SetPhase(connected, id, TellingReady({owner}));
    assert Step(connected, b[1]) == decided;
    RunTwo(connected, b[1], b[2]);
    HeardAppend([], (id, Ready({owner})), id);
  }
}
