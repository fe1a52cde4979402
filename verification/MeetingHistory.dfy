// Who holds which slot of a meeting, in terms of the requests that came in, and what is announced.
module MeetingHistory {
  import opened Basics
  import opened Meetings

  // ---------------------------------------------------------------------------
  // One join.

  /** The meeting is there and some slot is free. */
  ghost predicate HasRoom(s: State, id: Id) {
    id in s.meetings && exists u <- s.meetings[id] :: s.meetings[id][u].None?
  }

  /**
   * A join to a meeting with a free slot puts the key into the user's slot, adding one for a user who had
   * none, and touches no other slot; one to a full or unknown meeting is refused and changes nothing.
   */
  lemma JoiningTakesASlot(s: State, id: Id, user: UserId, key: Key)
    ensures JoinResult(s, id).Ok? <==> HasRoom(s, id)
    ensures JoinResult(s, id) == Err(MeetingNotFound) <==> id !in s.meetings
    ensures var t := Step(s, Join(id, user, key));
            && (forall i <- s.meetings :: i != id ==> i in t.meetings && t.meetings[i] == s.meetings[i])
            && t.meetings.Keys == s.meetings.Keys && t.watchers == s.watchers && t.log == s.log
            && (!HasRoom(s, id) ==> t == s)
            && (HasRoom(s, id) ==>
                  && user in t.meetings[id] && t.meetings[id][user] == Some(key)
                  && t.meetings[id].Keys == s.meetings[id].Keys + {user}
                  && forall u <- s.meetings[id] :: u != user ==> t.meetings[id][u] == s.meetings[id][u])
  {}

  // ---------------------------------------------------------------------------
  // Slots, as the requests of a run fill them.

  predicate CreatedAt(actions: seq<Action>, id: Id, k: nat) {
    k < |actions| && actions[k].NewMeeting? && actions[k].id == id
  }

  predicate PurgedSince(actions: seq<Action>, id: Id, k: nat) {
    exists i: nat :: k < i < |actions| && actions[i].Purge? && id in actions[i].expired
  }

  /** The i-th action joins the meeting as this user, and there is room at that time. */
  ghost predicate JoinsAt(actions: seq<Action>, id: Id, user: UserId, i: nat)
    requires Run(EMPTY, actions).Some?
  {
    && i < |actions| && actions[i].Join? && actions[i].id == id && actions[i].user == user
    && Run(EMPTY, actions[..i]).Some? && HasRoom(Run(EMPTY, actions[..i]).value, id)
  }

  /** The i-th action is the user's last accepted join since the meeting was created by the k-th. */
  ghost predicate LastJoinAt(actions: seq<Action>, id: Id, k: nat, user: UserId, i: nat)
    requires Run(EMPTY, actions).Some?
  {
    k < i && JoinsAt(actions, id, user, i) && forall j: nat :: i < j ==> !JoinsAt(actions, id, user, j)
  }

  ghost predicate NeverJoined(actions: seq<Action>, id: Id, k: nat, user: UserId)
    requires Run(EMPTY, actions).Some?
  {
    forall i: nat :: k < i ==> !JoinsAt(actions, id, user, i)
  }

  /** The slot of a user: the key last joined with, else the owner's from creation, else a free one if invited. */
  ghost predicate SlotIs(slots: Slots, actions: seq<Action>, id: Id, k: nat, user: UserId)
    requires Run(EMPTY, actions).Some? && CreatedAt(actions, id, k)
  {
    && (forall i: nat :: LastJoinAt(actions, id, k, user, i) ==> user in slots && slots[user] == Some(actions[i].key))
    && (NeverJoined(actions, id, k, user) ==>
          && (user in slots <==> user == actions[k].ownerId || user in actions[k].slots)
          && (user in slots ==> slots[user] == if user == actions[k].ownerId then Some(actions[k].ownerKey) else None))
  }

  ghost predicate KnownSince(s: State, actions: seq<Action>, id: Id, k: nat)
    requires Run(EMPTY, actions).Some? && CreatedAt(actions, id, k)
  {
    && id in s.watchers && s.watchers[id].invited == {actions[k].ownerId} + actions[k].slots
    && (id in s.meetings <==> !PurgedSince(actions, id, k))
    && (id in s.meetings ==> forall user :: SlotIs(s.meetings[id], actions, id, k, user))
  }

  ghost predicate Known(s: State, actions: seq<Action>, id: Id)
    requires Run(EMPTY, actions).Some?
  {
    if exists k: nat :: CreatedAt(actions, id, k)
    then forall k: nat :: CreatedAt(actions, id, k) ==> KnownSince(s, actions, id, k)
    else id !in s.watchers && id !in s.meetings
  }

  lemma {:induction false} RunSnoc(s: State, actions: seq<Action>, a: Action)
    ensures Run(s, actions + [a]) ==
            match Run(s, actions)
            case None => None
            case Some(t) => if Enabled(t, a) then Some(Step(t, a)) else None
    decreases |actions|
  {
    hide Enabled, Step;
    var all := actions + [a];
    if actions == [] {
      assert all[1..] == [];
    } else {
      assert all[0] == actions[0] && all[1..] == actions[1..] + [a];
      if Enabled(s, actions[0]) {
        RunSnoc(Step(s, actions[0]), actions[1..], a);
      }
    }
  }

  /** Earlier joins are what they were; the last action joins if there was room before it. */
  lemma JoinsStep(before: seq<Action>, a: Action, id: Id, user: UserId, i: nat)
    requires Run(EMPTY, before).Some? && Run(EMPTY, before + [a]).Some?
    ensures JoinsAt(before + [a], id, user, i) <==>
            if i < |before| then JoinsAt(before, id, user, i)
            else i == |before| && a.Join? && a.id == id && a.user == user && HasRoom(Run(EMPTY, before).value, id)
  {
    hide Run, HasRoom;
    var all := before + [a];
    if i < |all| {
      assert all[i] == if i < |before| then before[i] else a;
      assert all[..i] == before[..i];
      assert before[..|before|] == before;
    }
  }

  lemma SlotStep(s: State, before: seq<Action>, a: Action, id: Id, k: nat, user: UserId)
    requires Run(EMPTY, before) == Some(s) && Enabled(s, a) && Run(EMPTY, before + [a]) == Some(Step(s, a))
    requires CreatedAt(before, id, k) && CreatedAt(before + [a], id, k) && id in s.meetings && id in s.watchers
    requires SlotIs(s.meetings[id], before, id, k, user) && id in Step(s, a).meetings
    ensures SlotIs(Step(s, a).meetings[id], before + [a], id, k, user)
  {
    hide Run, Step, JoinsAt, HasRoom;
    var all, last, t := before + [a], |before|, Step(s, a);
    assert all[k] == before[k] && all[last] == a;
    if a.Join? && a.id == id && a.user == user && HasRoom(s, id) {
      JoiningTakesASlot(s, id, user, a.key);
      JoinsStep(before, a, id, user, last);
      forall i: nat | LastJoinAt(all, id, k, user, i) ensures i == last {
        JoinsStep(before, a, id, user, i);
      }
    } else {
      forall i: nat ensures JoinsAt(all, id, user, i) <==> JoinsAt(before, id, user, i) {
        JoinsStep(before, a, id, user, i);
        JoinsInside(before, id, user, i);
      }
      SlotKept(s, a, id, user);
      forall i: nat | LastJoinAt(all, id, k, user, i)
        ensures i < |before| && all[i] == before[i] && LastJoinAt(before, id, k, user, i)
      {
        JoinsInside(before, id, user, i);
      }
    }
  }

  lemma JoinsInside(actions: seq<Action>, id: Id, user: UserId, i: nat)
    requires Run(EMPTY, actions).Some?
    ensures JoinsAt(actions, id, user, i) ==> i < |actions|
  {}

  lemma SlotKept(s: State, a: Action, id: Id, user: UserId)
    requires Enabled(s, a) && id in s.meetings && id in s.watchers && id in Step(s, a).meetings
    requires !(a.Join? && a.id == id && a.user == user && HasRoom(s, id))
    ensures var old', new' := s.meetings[id], Step(s, a).meetings[id];
            (user in new' <==> user in old') && (user in old' ==> new'[user] == old'[user])
  {
    if a.Join? && a.id == id {
      JoiningTakesASlot(s, id, a.user, a.key);
    }
  }

  lemma PurgedStep(before: seq<Action>, a: Action, id: Id, k: nat)
    requires k < |before|
    ensures PurgedSince(before + [a], id, k) <==> PurgedSince(before, id, k) || (a.Purge? && id in a.expired)
  {
    var all := before + [a];
    assert all[|before|] == a;
    if PurgedSince(before, id, k) {
      var i: nat :| k < i < |before| && before[i].Purge? && id in before[i].expired;
      assert all[i] == before[i];
    }
    if PurgedSince(all, id, k) {
      var i: nat :| k < i < |all| && all[i].Purge? && id in all[i].expired;
      assert i < |before| ==> all[i] == before[i];
    }
  }

  lemma KnownStep(s: State, before: seq<Action>, a: Action, id: Id, k: nat)
    requires Run(EMPTY, before) == Some(s) && Enabled(s, a) && Run(EMPTY, before + [a]) == Some(Step(s, a))
    requires CreatedAt(before, id, k) && KnownSince(s, before, id, k)
    ensures CreatedAt(before + [a], id, k) && KnownSince(Step(s, a), before + [a], id, k)
  {
    hide Run, SlotIs, PurgedSince;
    var all := before + [a];
    assert all[k] == before[k];
    PurgedStep(before, a, id, k);
    if id in Step(s, a).meetings {
      forall user ensures SlotIs(Step(s, a).meetings[id], all, id, k, user) {
        SlotStep(s, before, a, id, k, user);
      }
    }
  }

  lemma KnownFirst(s: State, before: seq<Action>, a: Action, id: Id)
    requires Run(EMPTY, before) == Some(s) && Enabled(s, a) && Run(EMPTY, before + [a]) == Some(Step(s, a))
    requires id !in s.watchers && id !in s.meetings
    ensures if a.NewMeeting? && a.id == id
            then CreatedAt(before + [a], id, |before|) && KnownSince(Step(s, a), before + [a], id, |before|)
            else id !in Step(s, a).watchers && id !in Step(s, a).meetings
  {
    hide Run, HasRoom;
    var all, k := before + [a], |before|;
    assert all[k] == a;
    assert !PurgedSince(all, id, k);
  }

  /**
   * In every run a meeting is recorded exactly while it has been created and not purged since, its watcher
   * waits for the owner and the users invited at creation, and every slot is what the joins made of it.
   */
  lemma {:induction false} SlotsAreTheirJoins(actions: seq<Action>, id: Id)
    requires Run(EMPTY, actions).Some?
    ensures Known(Run(EMPTY, actions).value, actions, id)
  {
    if actions != [] {
      hide Run, Step, Enabled, KnownSince;
      var last := |actions| - 1;
      var before, a := actions[..last], actions[last];
      assert actions == before + [a];
      RunSnoc(EMPTY, before, a);
      SlotsAreTheirJoins(before, id);
      var s := Run(EMPTY, before).value;
      if k: nat :| CreatedAt(before, id, k) {
        NoSecondCreation(s, before, a, id, k);
        KnownStep(s, before, a, id, k);
        forall i: nat | CreatedAt(actions, id, i) ensures KnownSince(Step(s, a), actions, id, i) {
          assert CreatedAt(before, id, i);
          KnownStep(s, before, a, id, i);
        }
      } else {
        KnownFirst(s, before, a, id);
        forall i: nat | CreatedAt(actions, id, i) ensures i == last {
          assert i < last ==> before[i] == actions[i];
          assert i < last ==> CreatedAt(before, id, i);
        }
      }
    }
  }

  lemma NoSecondCreation(s: State, before: seq<Action>, a: Action, id: Id, k: nat)
    requires Run(EMPTY, before) == Some(s) && CreatedAt(before, id, k) && KnownSince(s, before, id, k) && Enabled(s, a)
    ensures forall i: nat :: CreatedAt(before + [a], id, i) ==> CreatedAt(before, id, i)
  {
    hide Run;
    var all := before + [a];
    forall i: nat | CreatedAt(all, id, i) ensures CreatedAt(before, id, i) {
      assert all[i] == if i < |before| then before[i] else a;
    }
  }

  // ---------------------------------------------------------------------------
  // What is announced.

  /** The last join of a user who joined at all. */
  lemma {:induction false} LastJoin(actions: seq<Action>, id: Id, k: nat, user: UserId, i: nat) returns (last: nat)
    requires Run(EMPTY, actions).Some? && k < i && JoinsAt(actions, id, user, i)
    ensures LastJoinAt(actions, id, k, user, last)
    decreases |actions| - i
  {
    hide Run;
    if j: nat :| i < j && JoinsAt(actions, id, user, j) {
      last := LastJoin(actions, id, k, user, j);
    } else {
      last := i;
    }
  }

  /** Every invited user has joined. */
  ghost predicate EveryoneJoined(actions: seq<Action>, id: Id, k: nat)
    requires Run(EMPTY, actions).Some? && CreatedAt(actions, id, k)
  {
    forall user <- actions[k].slots :: user != actions[k].ownerId ==> !NeverJoined(actions, id, k, user)
  }

  /** The announcement names, for every user, the key it last joined with, or the owner's from creation. */
  ghost predicate AnnouncesJoins(announced: Slots, actions: seq<Action>, id: Id, k: nat)
    requires Run(EMPTY, actions).Some? && CreatedAt(actions, id, k)
  {
    && Full(announced) && {actions[k].ownerId} + actions[k].slots <= announced.Keys
    && forall user :: SlotIs(announced, actions, id, k, user)
  }

  lemma InvitedHasKey(actions: seq<Action>, id: Id, k: nat, user: UserId)
    requires Run(EMPTY, actions).Some? && CreatedAt(actions, id, k) && id in Run(EMPTY, actions).value.meetings
    requires SlotIs(Run(EMPTY, actions).value.meetings[id], actions, id, k, user)
    requires user == actions[k].ownerId || !NeverJoined(actions, id, k, user)
    ensures var slots := Run(EMPTY, actions).value.meetings[id]; user in slots && slots[user].Some?
  {
    hide Run, JoinsAt;
    if !NeverJoined(actions, id, k, user) {
      var i: nat :| k < i && JoinsAt(actions, id, user, i);
      var last := LastJoin(actions, id, k, user, i);
    }
  }

  /**
   * A meeting that every invited user has joined, and that is not purged, is full; if its watcher has not
   * told so yet it does on its next wake-up, with exactly the keys joined with.
   */
  lemma JoiningLeadsToAnnouncement(actions: seq<Action>, id: Id, k: nat)
    requires Run(EMPTY, actions).Some? && CreatedAt(actions, id, k)
    requires !PurgedSince(actions, id, k) && EveryoneJoined(actions, id, k)
    ensures var s := Run(EMPTY, actions).value;
            && id in s.meetings && AnnouncesJoins(s.meetings[id], actions, id, k) && id in s.watchers
            && (s.watchers[id].phase.Watching? ==>
                  && Run(s, [Tick(id), Tell(id)]).Some?
                  && Announced(Run(s, [Tick(id), Tell(id)]).value.log, id) == Announced(s.log, id) + [s.meetings[id]])
  {
    hide Run, Announced, SlotIs, PurgedSince, JoinsAt, NeverJoined;
    SlotsAreTheirJoins(actions, id);
    RunKeeps(EMPTY, actions, id) by {
      NothingAnnounced(id);
    }
    var s := Run(EMPTY, actions).value;
    assert KnownSince(s, actions, id, k);
    forall user | user in s.watchers[id].invited ensures user in s.meetings[id] && s.meetings[id][user].Some? {
      assert SlotIs(s.meetings[id], actions, id, k, user);
      InvitedHasKey(actions, id, k, user);
    }
    assert SlotsInv(s.watchers[id].invited, s.meetings[id]);
    assert Full(s.meetings[id]);
    if s.watchers[id].phase.Watching? {
      FullIsAnnounced(s, id);
    }
  }

  /** A waking watcher announces a full meeting, ends when its meeting is gone, and otherwise goes on. */
  lemma WakingDecides(s: State, id: Id)
    requires Enabled(s, Tick(id))
    ensures var phase := Step(s, Tick(id)).watchers[id].phase;
            && (phase.Telling? <==> id in s.meetings && forall u <- s.meetings[id] :: s.meetings[id][u].Some?)
            && (phase.Telling? ==> phase.seen == s.meetings[id])
            && (phase.Over? <==> id !in s.meetings)
            && Step(s, Tick(id)).meetings == s.meetings && Step(s, Tick(id)).log == s.log
  {}

  /** A watcher that finds its meeting full announces it. */
  lemma FullIsAnnounced(s: State, id: Id)
    requires id in s.watchers && s.watchers[id].phase.Watching? && id in s.meetings && Full(s.meetings[id])
    ensures Run(s, [Tick(id), Tell(id)]).Some?
    ensures Announced(Run(s, [Tick(id), Tell(id)]).value.log, id) == Announced(s.log, id) + [s.meetings[id]]
  {
    hide Announced;
    var a := [Tick(id), Tell(id)];
    assert a[1..] == [Tell(id)] && a[1..][1..] == [];
    var t := Step(s, Tick(id));
    assert Run(s, a) == Run(t, [Tell(id)]);
    assert Run(t, [Tell(id)]) == Run(Step(t, Tell(id)), []);
    AnnouncedAppend(s.log, (id, s.meetings[id]), id);
  }
}
