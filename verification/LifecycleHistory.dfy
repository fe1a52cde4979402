// What a session's record, watcher and announcements are in terms of the requests that came in.
module LifecycleHistory {
  import opened Basics
  import opened Sessions
  import opened Lifecycle

  // ---------------------------------------------------------------------------
  // One wake-up.

  /** Everyone the watcher waits for is connected. */
  predicate AllConnected(s: State, id: Id)
    requires id in s.watchers
  {
    forall key <- s.watchers[id].participants :: key in s.online
  }

  /** Every two members of a recorded session are registered, one way or the other. */
  ghost predicate AllRegistered(s: State, id: Id)
    requires id in s.sessions
  {
    var r := s.sessions[id];
    forall a, b :: (a == r.owner || a in r.others) && (b == r.owner || b in r.others) && a != b ==>
      (a, b) in r.connections || (b, a) in r.connections
  }

  lemma CompleteMeans(s: State, id: Id)
    requires id in s.sessions
    ensures RecordComplete(s.sessions[id]) <==> AllRegistered(s, id)
  {
    var r := s.sessions[id];
    if AllRegistered(s, id) {
      forall a, b | a in {r.owner} + r.others && b in {r.owner} + r.others && a != b
        ensures Linked(r.connections, a, b) {}
    }
    if RecordComplete(r) {
      forall a, b | (a == r.owner || a in r.others) && (b == r.owner || b in r.others) && a != b
        ensures (a, b) in r.connections || (b, a) in r.connections
      {
        assert Linked(r.connections, a, b);
      }
    }
  }

  /**
   * What a waking watcher decides. It announces what it waits for as soon as that is there, late or not;
   * it gives up exactly when that is missing and its time is over; it goes on waiting exactly when that
   * is missing and there is time; and it ends without a word exactly when its session is gone.
   */
  lemma WakingDecides(s: State, id: Id, late: bool)
    requires Enabled(s, Tick(id, late))
    ensures var before, after := s.watchers[id].phase, Step(s, Tick(id, late)).watchers[id].phase;
            if before.WaitingReady? then
              && (after == TellingReady(s.online) <==> AllConnected(s, id))
              && (after == TellingTimeout <==> late && !AllConnected(s, id))
              && (after == WaitingReady <==> !late && !AllConnected(s, id))
            else
              && (after.TellingActive? <==> id in s.sessions && AllRegistered(s, id))
              && (after.TellingActive? ==> after.seen == s.sessions[id].connections)
              && (after == TellingTimeout <==> late && id in s.sessions && !AllRegistered(s, id))
              && (after == WaitingActive <==> !late && id in s.sessions && !AllRegistered(s, id))
              && (after == Done <==> id !in s.sessions)
  {
    if s.watchers[id].phase.WaitingReady? {
      var keys := s.watchers[id].participants;
      if KeySet(keys) <= s.online {
        forall key | key in keys ensures key in s.online {
          assert key in KeySet(keys);
        }
      }
    } else if id in s.sessions {
      hide RecordComplete, AllRegistered;
      CompleteMeans(s, id);
    }
  }

  lemma ToldIsHeard(s: State, id: Id, late: bool, p: Phase)
    requires Enabled(s, Tick(id, late)) && Step(s, Tick(id, late)).watchers[id].phase == p
    requires p.TellingReady? || p.TellingActive? || p.TellingTimeout?
    ensures Run(s, [Tick(id, late), Tell(id)]).Some?
    ensures Heard(Run(s, [Tick(id, late), Tell(id)]).value.log, id) == Heard(s.log, id) + [Said(p)]
  {
    hide Heard, RecordComplete;
    RunTwo(s, Tick(id, late), Tell(id));
    HeardAppend(s.log, (id, Said(p)), id);
  }

  /** With every two members registered, a watcher waiting for that announces the session active, late or not. */
  lemma RegisteredIsAnnounced(s: State, id: Id, late: bool)
    requires id in s.watchers && s.watchers[id].phase.WaitingActive? && id in s.sessions && AllRegistered(s, id)
    ensures Run(s, [Tick(id, late), Tell(id)]).Some?
    ensures Heard(Run(s, [Tick(id, late), Tell(id)]).value.log, id) == Heard(s.log, id)
            + [Active(s.sessions[id].connections)]
  {
    hide Run, Heard, AllRegistered, RecordComplete;
    WakingDecides(s, id, late);
    ToldIsHeard(s, id, late, Step(s, Tick(id, late)).watchers[id].phase);
  }

  /** With everyone connected, a watcher waiting for that announces the session ready, late or not. */
  lemma ConnectedIsAnnounced(s: State, id: Id, late: bool)
    requires id in s.watchers && s.watchers[id].phase.WaitingReady? && AllConnected(s, id)
    ensures Run(s, [Tick(id, late), Tell(id)]).Some?
    ensures Heard(Run(s, [Tick(id, late), Tell(id)]).value.log, id) == Heard(s.log, id) + [Ready(s.online)]
  {
    hide Run, Heard, AllConnected;
    WakingDecides(s, id, late);
    ToldIsHeard(s, id, late, TellingReady(s.online));
  }

  /**
   * Having told that the session is ready a watcher waits for it to become active; having told anything
   * else it ends.
   */
  lemma TellingGoesOn(s: State, id: Id)
    requires Enabled(s, Tell(id))
    ensures var p, t := s.watchers[id].phase, Step(s, Tell(id));
            && t.watchers[id].phase == (if p.TellingReady? then WaitingActive else Done)
            && t.watchers[id].participants == s.watchers[id].participants
            && (forall i <- s.watchers :: i != id ==> i in t.watchers && t.watchers[i] == s.watchers[i])
            && t.sessions == s.sessions && t.closing == s.closing && t.online == s.online
            && |t.log| == |s.log| + 1 && t.log[..|s.log|] == s.log && t.log[|s.log|].0 == id
            && match p
               case TellingReady(online) => t.log[|s.log|].1 == Ready(online)
               case TellingActive(seen) => t.log[|s.log|].1 == Active(seen)
               case _ => t.log[|s.log|].1 == Timeout
  {}

  /** With everyone connected and every two registered, two wake-ups announce the session ready and then active. */
  lemma BothAreAnnounced(s: State, id: Id, late: bool, later: bool)
    requires id in s.watchers && s.watchers[id].phase.WaitingReady? && id in s.sessions
    requires AllConnected(s, id) && AllRegistered(s, id)
    ensures var r := Run(s, [Tick(id, late), Tell(id), Tick(id, later), Tell(id)]);
            && r.Some?
            && Heard(r.value.log, id) == Heard(s.log, id) + [Ready(s.online), Active(s.sessions[id].connections)]
            && id in r.value.watchers && r.value.watchers[id].phase == Done
  {
    hide Heard, AllConnected, AllRegistered, RecordComplete, Run;
    ConnectedIsAnnounced(s, id, late);
    WakingDecides(s, id, late);
    var s1 := Step(s, Tick(id, late));
    TellingGoesOn(s1, id);
    var s2 := Step(s1, Tell(id));
    RunTwo(s, Tick(id, late), Tell(id));
    SameRegistered(s, s2, id);
    RegisteredIsAnnounced(s2, id, later);
    WakingDecides(s2, id, later);
    var s3 := Step(s2, Tick(id, later));
    TellingGoesOn(s3, id);
    RunTwo(s2, Tick(id, later), Tell(id));
    RunFour(s, s2, Tick(id, late), Tell(id), Tick(id, later), Tell(id));
    Regroup(Heard(s.log, id), [Ready(s.online)], [Active(s.sessions[id].connections)]);
  }

  lemma SameRegistered(s: State, t: State, id: Id)
    requires id in s.sessions && t.sessions == s.sessions && AllRegistered(s, id)
    ensures AllRegistered(t, id)
  {}

  lemma RunFour(s: State, t: State, a: Action, b: Action, c: Action, d: Action)
    requires Run(s, [a, b]) == Some(t)
    ensures Run(s, [a, b, c, d]) == Run(t, [c, d])
  {
    hide Enabled, Step;
    assert [a, b][1..] == [b] && [b][1..] == [];
    assert [a, b, c, d][1..] == [b, c, d] && [b, c, d][1..] == [c, d];
    var s1 := Step(s, a);
    assert Run(s1, [b]) == Some(t) && Run(s1, [b]) == Run(Step(s1, b), []);
    assert Run(s1, [b, c, d]) == Run(Step(s1, b), [c, d]);
  }

  // ---------------------------------------------------------------------------
  // Records, as the requests of a run make them.

  /** The session was created by the k-th action. */
  predicate CreatedAt(actions: seq<Action>, id: Id, k: nat) {
    k < |actions| && actions[k].NewSession? && actions[k].id == id
  }

  /** Carrying out a close request, or purging. */
  predicate Removes(a: Action, id: Id) {
    a == CarryOutClose(id) || (a.Purge? && id in a.expired)
  }

  predicate RemovedSince(actions: seq<Action>, id: Id, k: nat) {
    exists i: nat :: k < i < |actions| && Removes(actions[i], id)
  }

  /** The pairs registered for the session since it was created. */
  function RegisteredSince(actions: seq<Action>, id: Id, k: nat): set<Edge> {
    set i: nat | k < i < |actions| && actions[i].Register? && actions[i].id == id :: (actions[i].peer, actions[i].other)
  }

  /** The owner, as named at creation, asked for the session to be closed. */
  predicate OwnerAsked(actions: seq<Action>, id: Id, k: nat)
    requires CreatedAt(actions, id, k)
  {
    exists i: nat :: k < i < |actions| && actions[i] == AcceptClose(id, actions[k].owner)
  }

  /** What the state knows of a session created by the k-th action. */
  ghost predicate KnownSince(s: State, actions: seq<Action>, id: Id, k: nat)
    requires CreatedAt(actions, id, k)
  {
    var owner, keys := actions[k].owner, actions[k].keys;
    && id in s.watchers && s.watchers[id].participants == [owner] + keys
    && (id in s.sessions <==> !RemovedSince(actions, id, k))
    && (id in s.sessions ==> s.sessions[id] == Record(owner, KeySet(keys), RegisteredSince(actions, id, k)))
    && (id in s.closing ==> OwnerAsked(actions, id, k))
  }

  ghost predicate Unknown(s: State, id: Id) {
    id !in s.watchers && id !in s.sessions && id !in s.closing
  }

  ghost predicate Known(s: State, actions: seq<Action>, id: Id) {
    if exists k: nat :: CreatedAt(actions, id, k)
    then forall k: nat :: CreatedAt(actions, id, k) ==> KnownSince(s, actions, id, k)
    else Unknown(s, id)
  }

  lemma {:induction false} RunSnoc(s: State, actions: seq<Action>, a: Action)
    ensures Run(s, actions + [a]) ==
            match Run(s, actions)
            case None => None
            case Some(t) => if Enabled(t, a) then Some(Step(t, a)) else None
    decreases |actions|
  {
    hide Enabled, Step;
    var all := actions + [a];
    if actions == [] {
      assert all[1..] == [];
    } else {
      assert all[0] == actions[0] && all[1..] == actions[1..] + [a];
      if Enabled(s, actions[0]) {
        RunSnoc(Step(s, actions[0]), actions[1..], a);
      }
    }
  }

  lemma RemovedStep(before: seq<Action>, a: Action, id: Id, k: nat)
    requires k < |before|
    ensures RemovedSince(before + [a], id, k) <==> RemovedSince(before, id, k) || Removes(a, id)
  {
    var all := before + [a];
    if RemovedSince(before, id, k) {
      var i: nat :| k < i < |before| && Removes(before[i], id);
      assert all[i] == before[i];
    }
    if Removes(a, id) {
      assert all[|before|] == a;
    }
    if RemovedSince(all, id, k) {
      var i: nat :| k < i < |all| && Removes(all[i], id);
      assert i < |before| ==> all[i] == before[i];
    }
  }

  lemma RegisteredStep(before: seq<Action>, a: Action, id: Id, k: nat)
    requires k < |before|
    ensures RegisteredSince(before + [a], id, k)
            == RegisteredSince(before, id, k) + if a.Register? && a.id == id then {(a.peer, a.other)} else {}
  {
    var all := before + [a];
    assert all[|before|] == a && forall i: nat :: i < |before| ==> all[i] == before[i];
    var new' := if a.Register? && a.id == id then {(a.peer, a.other)} else {};
    forall e | e in RegisteredSince(before, id, k) + new' ensures e in RegisteredSince(all, id, k) {
      if e in RegisteredSince(before, id, k) {
        var i: nat :| k < i < |before| && before[i].Register? && before[i].id == id
          && e == (before[i].peer, before[i].other);
        assert all[i] == before[i];
      } else {
        assert all[|before|].Register?;
      }
    }
    forall e | e in RegisteredSince(all, id, k) ensures e in RegisteredSince(before, id, k) + new' {
      var i: nat :| k < i < |all| && all[i].Register? && all[i].id == id && e == (all[i].peer, all[i].other);
      if i < |before| {
        assert before[i] == all[i];
      }
    }
  }

  lemma AskedStep(before: seq<Action>, a: Action, id: Id, k: nat)
    requires CreatedAt(before, id, k)
    ensures CreatedAt(before + [a], id, k)
    ensures OwnerAsked(before + [a], id, k) <==> OwnerAsked(before, id, k) || a == AcceptClose(id, before[k].owner)
  {
    var all := before + [a];
    if OwnerAsked(before, id, k) {
      var i: nat :| k < i < |before| && before[i] == AcceptClose(id, before[k].owner);
      assert all[i] == before[i];
    }
    assert all[|before|] == a;
    if OwnerAsked(all, id, k) {
      var i: nat :| k < i < |all| && all[i] == AcceptClose(id, all[k].owner);
      assert i < |before| ==> all[i] == before[i];
    }
  }

  lemma KnownStep(s: State, before: seq<Action>, a: Action, id: Id, k: nat)
    requires CreatedAt(before, id, k) && KnownSince(s, before, id, k) && Enabled(s, a)
    ensures CreatedAt(before + [a], id, k) && KnownSince(Step(s, a), before + [a], id, k)
  {
    hide RegisteredSince, RemovedSince, OwnerAsked, RecordComplete;
    RemovedStep(before, a, id, k);
    RegisteredStep(before, a, id, k);
    AskedStep(before, a, id, k);
    var all := before + [a];
    assert all[k] == before[k];
  }

  lemma KnownFirst(s: State, before: seq<Action>, a: Action, id: Id)
    requires Unknown(s, id) && Enabled(s, a)
    ensures if a.NewSession? && a.id == id then CreatedAt(before + [a], id, |before|)
            && KnownSince(Step(s, a), before + [a], id, |before|)
            else Unknown(Step(s, a), id)
  {
    hide RecordComplete;
    var all, k := before + [a], |before|;
    assert all[k] == a;
    if a.NewSession? && a.id == id {
      assert RegisteredSince(all, id, k) == {};
      assert !RemovedSince(all, id, k);
    }
  }

  /**
   * In every run a session is recorded exactly while it has been created and neither closed nor purged
   * since. Its record holds its owner, its participants and exactly the pairs registered meanwhile; its
   * watcher tells the owner and the participants, in that order; and a close request is pending only if
   * the owner made one.
   */
  lemma {:induction false} RecordsAreTheirRequests(actions: seq<Action>, id: Id)
    requires Run(EMPTY, actions).Some?
    ensures Known(Run(EMPTY, actions).value, actions, id)
  {
    if actions != [] {
      hide Run, Step, Enabled, KnownSince, Unknown;
      var last := |actions| - 1;
      var before, a := actions[..last], actions[last];
      assert actions == before + [a];
      RunSnoc(EMPTY, before, a);
      RecordsAreTheirRequests(before, id);
      var s := Run(EMPTY, before).value;
      if k: nat :| CreatedAt(before, id, k) {
        NoSecondCreation(s, before, a, id, k);
        KnownStep(s, before, a, id, k);
        forall i: nat | CreatedAt(actions, id, i) ensures KnownSince(Step(s, a), actions, id, i) {
          assert CreatedAt(before, id, i);
          KnownStep(s, before, a, id, i);
        }
      } else {
        KnownFirst(s, before, a, id);
        forall i: nat | CreatedAt(actions, id, i) ensures i == last {
          assert i < last ==> before[i] == actions[i];
          assert i < last ==> CreatedAt(before, id, i);
        }
      }
    }
  }

  lemma NoSecondCreation(s: State, before: seq<Action>, a: Action, id: Id, k: nat)
    requires CreatedAt(before, id, k) && KnownSince(s, before, id, k) && Enabled(s, a)
    ensures forall i: nat :: CreatedAt(before + [a], id, i) ==> CreatedAt(before, id, i)
  {
    var all := before + [a];
    forall i: nat | CreatedAt(all, id, i) ensures CreatedAt(before, id, i) {
      assert all[i] == if i < |before| then before[i] else a;
    }
  }

  lemma KnownOf(actions: seq<Action>, id: Id, k: nat)
    requires Run(EMPTY, actions).Some? && CreatedAt(actions, id, k)
    ensures KnownSince(Run(EMPTY, actions).value, actions, id, k)
  {
    hide Run, KnownSince;
    RecordsAreTheirRequests(actions, id);
  }

  /** Every two members have been registered with each other since the session was created. */
  ghost predicate MembersRegistered(actions: seq<Action>, id: Id, k: nat)
    requires CreatedAt(actions, id, k)
  {
    var owner, keys := actions[k].owner, actions[k].keys;
    forall a, b :: (a == owner || a in keys) && (b == owner || b in keys) && a != b ==>
      (a, b) in RegisteredSince(actions, id, k) || (b, a) in RegisteredSince(actions, id, k)
  }

  /**
   * Once every two members of a session have been registered, and unless it has been removed, a watcher
   * waiting for that announces it active on its next wake-up, late or not.
   */
  lemma RegistrationLeadsToActive(actions: seq<Action>, id: Id, k: nat, late: bool)
    requires Run(EMPTY, actions).Some? && CreatedAt(actions, id, k) && !RemovedSince(actions, id, k)
    requires MembersRegistered(actions, id, k) && id in Run(EMPTY, actions).value.watchers
    requires Run(EMPTY, actions).value.watchers[id].phase.WaitingActive?
    ensures var s := Run(EMPTY, actions).value;
            && Run(s, [Tick(id, late), Tell(id)]).Some?
            && Heard(Run(s, [Tick(id, late), Tell(id)]).value.log, id)
               == Heard(s.log, id) + [Active(RegisteredSince(actions, id, k))]
  {
    hide Run, Heard, RemovedSince, RegisteredSince;
    KnownOf(actions, id, k);
    RegisteredIsAnnounced(Run(EMPTY, actions).value, id, late);
  }

  /**
   * With all its participants connected, a watcher that still waits for that announces the session ready,
   * removed or not.
   */
  lemma ConnectionLeadsToReady(actions: seq<Action>, id: Id, k: nat, late: bool)
    requires Run(EMPTY, actions).Some? && CreatedAt(actions, id, k) && id in Run(EMPTY, actions).value.watchers
    requires var s := Run(EMPTY, actions).value;
             && s.watchers[id].phase.WaitingReady? && actions[k].owner in s.online
             && forall key <- actions[k].keys :: key in s.online
    ensures var s := Run(EMPTY, actions).value;
            && Run(s, [Tick(id, late), Tell(id)]).Some?
            && Heard(Run(s, [Tick(id, late), Tell(id)]).value.log, id) == Heard(s.log, id) + [Ready(s.online)]
  {
    hide Run, Heard, RemovedSince, RegisteredSince;
    KnownOf(actions, id, k);
    ConnectedIsAnnounced(Run(EMPTY, actions).value, id, late);
  }

  lemma {:induction false} RunPrefix(actions: seq<Action>, j: nat)
    requires Run(EMPTY, actions).Some? && j < |actions|
    ensures Run(EMPTY, actions[..j]).Some? && Enabled(Run(EMPTY, actions[..j]).value, actions[j])
    decreases |actions|
  {
    hide Run, Enabled;
    var last := |actions| - 1;
    assert actions == actions[..last] + [actions[last]];
    RunSnoc(EMPTY, actions[..last], actions[last]);
    if j < last {
      assert actions[..last][..j] == actions[..j];
      RunPrefix(actions[..last], j);
    }
  }

  /** A session is closed only after its owner, and nobody else, asked for that. */
  lemma ClosedOnlyByItsOwner(actions: seq<Action>, id: Id, j: nat)
    requires Run(EMPTY, actions).Some? && j < |actions| && actions[j] == CarryOutClose(id)
    ensures exists k: nat, i: nat ::
              k < i < j && CreatedAt(actions, id, k) && actions[i] == AcceptClose(id, actions[k].owner)
  {
    hide Run;
    RunPrefix(actions, j);
    var before := actions[..j];
    RecordsAreTheirRequests(before, id);
    var k: nat :| CreatedAt(before, id, k);
    assert KnownSince(Run(EMPTY, before).value, before, id, k);
    var i: nat :| k < i < |before| && before[i] == AcceptClose(id, before[k].owner);
    assert actions[k] == before[k] && actions[i] == before[i];
  }

  /** And it is accepted from the owner as long as the session is recorded. */
  lemma OwnerCanClose(actions: seq<Action>, id: Id, k: nat, requester: Key)
    requires Run(EMPTY, actions).Some? && CreatedAt(actions, id, k)
    ensures var s := Run(EMPTY, actions).value;
            Enabled(Step(s, AcceptClose(id, requester)), CarryOutClose(id))
            <==> id in s.closing || (!RemovedSince(actions, id, k) && requester == actions[k].owner)
  {
    hide Run, RemovedSince, RegisteredSince;
    KnownOf(actions, id, k);
  }
}
