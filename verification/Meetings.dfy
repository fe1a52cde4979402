// Meeting points: user identifiers collect public keys until every slot is taken; a watcher then
// announces the meeting to those who joined.
module Meetings {
  import opened Basics

  type Slots = map<UserId, Option<Key>>

  predicate Full(slots: Slots) {
    forall user <- slots :: slots[user].Some?
  }

  datatype Phase = Watching | Telling(seen: Slots) | Over

  /** A meeting's watcher; `invited` are the slots it was created with, its owner's among them. */
  datatype Watcher = Watcher(invited: set<UserId>, phase: Phase)

  datatype State = State(meetings: map<Id, Slots>, watchers: map<Id, Watcher>, log: seq<(Id, Slots)>)

  datatype Action =
    | NewMeeting(id: Id, ownerKey: Key, ownerId: UserId, slots: set<UserId>)
    | Join(id: Id, user: UserId, key: Key)
    | Purge(expired: set<Id>)
    | Tick(id: Id)
    | Tell(id: Id)

  const EMPTY := State(map[], map[], [])

  predicate Enabled(s: State, a: Action) {
    match a
    case NewMeeting(id, _, _, _) => id !in s.watchers    // identifiers are fresh
    case Tick(id) => id in s.watchers && s.watchers[id].phase.Watching?
    case Tell(id) => id in s.watchers && s.watchers[id].phase.Telling?
    case _ => true
  }

  function FreshSlots(ownerKey: Key, ownerId: UserId, slots: set<UserId>): Slots {
    (map user: UserId | user in slots :: None)[ownerId := Some(ownerKey)]
  }

  function Joined(slots: Slots, user: UserId, key: Key): Slots {
    slots[user := Some(key)]
  }

  datatype JoinError = MeetingFull | MeetingNotFound

  function JoinResult(s: State, id: Id): Result<(), JoinError> {
    if id !in s.meetings then Err(MeetingNotFound)
    else if Full(s.meetings[id]) then Err(MeetingFull)
    else Ok(())
  }

  function Step(s: State, a: Action): State
    requires Enabled(s, a)
  {
    match a
    case NewMeeting(id, ownerKey, ownerId, slots) =>
      s.(meetings := s.meetings[id := FreshSlots(ownerKey, ownerId, slots)],
         watchers := s.watchers[id := Watcher({ownerId} + slots, Watching)])
    case Join(id, user, key) =>
      if JoinResult(s, id).Ok? then s.(meetings := s.meetings[id := Joined(s.meetings[id], user, key)]) else s
    case Purge(expired) => s.(meetings := s.meetings - expired)
    case Tick(id) =>
      var w := s.watchers[id];
      if id !in s.meetings then s.(watchers := s.watchers[id := w.(phase := Over)])
      else if Full(s.meetings[id]) then s.(watchers := s.watchers[id := w.(phase := Telling(s.meetings[id]))])
      else s
    case Tell(id) =>
      var w := s.watchers[id];
      s.(watchers := s.watchers[id := w.(phase := Over)], log := s.log + [(id, w.phase.seen)])
  }

  function Run(s: State, actions: seq<Action>): Option<State>
    decreases |actions|
  {
    if actions == [] then Some(s)
    else if !Enabled(s, actions[0]) then None
    else Run(Step(s, actions[0]), actions[1..])
  }

  /** The slots announced for one meeting. */
  function Announced(log: seq<(Id, Slots)>, id: Id): seq<Slots> {
    if log == [] then []
    else
      var last := |log| - 1;
      Announced(log[..last], id) + if log[last].0 == id then [log[last].1] else []
  }

  lemma AnnouncedAppend(log: seq<(Id, Slots)>, entry: (Id, Slots), id: Id)
    ensures Announced(log + [entry], id) == Announced(log, id) + if entry.0 == id then [entry.1] else []
  {
    assert (log + [entry])[..|log|] == log;
  }

  // ---------------------------------------------------------------------------
  // What every run keeps.

  /** Every invited user has a slot, and only invited users' slots can be free. */
  predicate SlotsInv(invited: set<UserId>, slots: Slots) {
    && invited <= slots.Keys
    && forall user <- slots :: slots[user].None? ==> user in invited
  }

  /** What a watcher saw is full, and still stands if the meeting does. */
  predicate Seen(s: State, id: Id, seen: Slots)
    requires id in s.watchers
  {
    && Full(seen)
    && s.watchers[id].invited <= seen.Keys
    && (id in s.meetings ==> s.meetings[id] == seen)
  }

  predicate MeetingInv(s: State, id: Id) {
    && (id in s.meetings ==> id in s.watchers && SlotsInv(s.watchers[id].invited, s.meetings[id]))
    && (if id !in s.watchers then Announced(s.log, id) == []
        else
          match s.watchers[id].phase
          case Watching => Announced(s.log, id) == []
          case Telling(seen) => Announced(s.log, id) == [] && Seen(s, id, seen)
          case Over =>
            || (Announced(s.log, id) == [] && id !in s.meetings)
            || (|Announced(s.log, id)| == 1 && Seen(s, id, Announced(s.log, id)[0])))
  }

  lemma StepKeeps(s: State, a: Action, id: Id)
    requires MeetingInv(s, id) && Enabled(s, a)
    ensures MeetingInv(Step(s, a), id)
  {
    hide Announced;
    if a.Tell? {
      AnnouncedAppend(s.log, (a.id, s.watchers[a.id].phase.seen), id);
    }
  }

  lemma {:induction false} RunKeeps(s: State, actions: seq<Action>, id: Id)
    requires MeetingInv(s, id) && Run(s, actions).Some?
    ensures MeetingInv(Run(s, actions).value, id)
    decreases |actions|
  {
    hide MeetingInv, Step, Enabled;
    if actions != [] {
      StepKeeps(s, actions[0], id);
      RunKeeps(Step(s, actions[0]), actions[1..], id);
    }
  }

  /**
   * In every run a meeting is announced at most once, with a key for every invited user, and with
   * exactly the slots it has for as long as it is kept. It is full just when all invited users joined.
   */
  lemma MeetingsAreAnnouncedOnceAndWhole(actions: seq<Action>, id: Id)
    requires Run(EMPTY, actions).Some?
    ensures var s := Run(EMPTY, actions).value;
            var announced := Announced(s.log, id);
            && |announced| <= 1
            && (id !in s.watchers ==> announced == [])
            && (|announced| == 1 ==>
                  && id in s.watchers
                  && (forall user <- s.watchers[id].invited :: user in announced[0] && announced[0][user].Some?)
                  && (id in s.meetings ==> s.meetings[id] == announced[0]))
            && (id in s.meetings ==>
                  && id in s.watchers
                  && (Full(s.meetings[id]) <==>
                      forall user <- s.watchers[id].invited :: user in s.meetings[id] && s.meetings[id][user].Some?))
  {
    hide Run, Step, Announced;
    RunKeeps(EMPTY, actions, id) by {
      NothingAnnounced(id);
    }
  }

  lemma NothingAnnounced(id: Id)
    ensures Announced([], id) == []
  {}

  /** Fullness lasts: nobody's key changes in a full meeting, whatever happens, until it is removed. */
  lemma {:induction false} FullMeetingsDoNotChange(s: State, actions: seq<Action>, id: Id)
    requires MeetingInv(s, id) && id in s.meetings && Full(s.meetings[id]) && Run(s, actions).Some?
    ensures var t := Run(s, actions).value; id in t.meetings ==> t.meetings[id] == s.meetings[id]
    decreases |actions|
  {
    hide Announced;
    if actions != [] {
      var t := Step(s, actions[0]);
      StepKeeps(s, actions[0], id);
      if id in t.meetings {
        assert t.meetings[id] == s.meetings[id];
        FullMeetingsDoNotChange(t, actions[1..], id);
      } else {
        GoneMeetingsStayGone(t, actions[1..], id);
      }
    }
  }

  lemma {:induction false} GoneMeetingsStayGone(s: State, actions: seq<Action>, id: Id)
    requires id in s.watchers && id !in s.meetings && Run(s, actions).Some?
    ensures id !in Run(s, actions).value.meetings
    decreases |actions|
  {
    if actions != [] {
      GoneMeetingsStayGone(Step(s, actions[0]), actions[1..], id);
    }
  }

  /**
   * A user who was not invited can take part: joining is not checked against the slots. It succeeds
   * exactly while some invited user is missing, and adds a key to what will be announced.
   */
  lemma AnyoneCanJoinUntilFull(s: State, id: Id, user: UserId, key: Key)
    requires MeetingInv(s, id) && id in s.meetings && user !in s.watchers[id].invited
    ensures var t := Step(s, Join(id, user, key));
            (user in t.meetings[id] && t.meetings[id][user] == Some(key))
            <==> ((exists u <- s.watchers[id].invited :: s.meetings[id][u].None?)
                  || (user in s.meetings[id] && s.meetings[id][user] == Some(key)))
  {}

  // ---------------------------------------------------------------------------
  // The meeting object and its manager.

  function Taken(slots: Slots): set<UserId> {
    set user <- slots | slots[user].Some?
  }

  /** Keys listed once for each taken slot are as many as the taken slots and leave none out. */
  lemma AllTaken(slots: Slots, keys: seq<Key>, order: seq<UserId>)
    requires Distinct(order) && |keys| == |order|
    requires forall user :: user in order <==> user in slots && slots[user].Some?
    requires forall i :: 0 <= i < |keys| ==> slots[order[i]] == Some(keys[i])
    ensures |keys| == |Taken(slots)|
    ensures forall user <- slots :: slots[user].Some? ==> slots[user].value in keys
  {
    MembersCount(order);
    assert Members(order) == Taken(slots);
    forall user | user in slots && slots[user].Some?
      ensures slots[user].value in keys
    {
      var i :| 0 <= i < |order| && order[i] == user;
      assert slots[order[i]] == Some(keys[i]);
    }
  }

  class Meeting {
    var slots: Slots
    /** When the meeting was last joined, so that stale ones can be purged. */
    var lastAccess: nat

    constructor (slots: Slots, now: nat)
      ensures this.slots == slots && lastAccess == now
    {
      this.slots := slots;
      this.lastAccess := now;
    }

    method JoinAs(user: UserId, key: Key, now: nat)
      modifies this
      ensures slots == Joined(old(slots), user, key) && lastAccess == now
    {
      slots := slots[user := Some(key)];
      lastAccess := now;
    }

    predicate Expired(timeout: nat, now: nat)
      reads this
    {
      lastAccess + timeout < now
    }

    method IsFull() returns (full: bool)
      ensures full <==> Full(slots)
    {
      var left := slots.Keys;
      while left != {}
        invariant left <= slots.Keys
        invariant forall user :: user in slots && user !in left ==> slots[user].Some?
        decreases |left|
      {
        var user :| user in left;
        if slots[user].None? {
          return false;
        }
        left := left - {user};
      }
      full := true;
    }

    /** The keys of the taken slots, in the order the map is iterated in. */
    method Participants() returns (keys: seq<Key>, ghost order: seq<UserId>)
      ensures |keys| == |Taken(slots)|
      ensures forall user <- slots :: slots[user].Some? ==> slots[user].value in keys
      ensures Distinct(order) && |keys| == |order|
      ensures forall user :: user in order <==> user in slots && slots[user].Some?
      ensures forall i :: 0 <= i < |keys| ==> slots[order[i]] == Some(keys[i])
    {
      keys, order := [], [];
      var left := slots.Keys;
      while left != {}
        invariant left <= slots.Keys
        invariant Distinct(order) && |keys| == |order|
        invariant forall user :: user in order <==> user in slots && user !in left && slots[user].Some?
        invariant forall i :: 0 <= i < |keys| ==> slots[order[i]] == Some(keys[i])
        decreases |left|
      {
        var user :| user in left;
        left := left - {user};
        if slots[user].Some? {
          keys, order := keys + [slots[user].value], order + [user];
        }
      }
      AllTaken(slots, keys, order);
    }
  }

  class MeetingManager {
    var meetings: map<Id, Meeting>

    ghost predicate Valid()
      reads this
    {
      forall i, j :: i in meetings && j in meetings && i != j ==> meetings[i] != meetings[j]
    }

    ghost function View(): map<Id, Slots>
      reads this, meetings.Values
    {
      map id | id in meetings :: meetings[id].slots
    }

    constructor ()
      ensures Valid() && View() == map[]
    {
      meetings := map[];
    }

    method NewMeeting(id: Id, ownerKey: Key, ownerId: UserId, slots: set<UserId>, now: nat)
      requires Valid() && id !in meetings
      modifies this
      ensures Valid() && View() == old(View())[id := FreshSlots(ownerKey, ownerId, slots)]
    {
      var meeting := new Meeting(map user: UserId | user in slots :: None, now);
      meeting.JoinAs(ownerId, ownerKey, now);
      meetings := meetings[id := meeting];
    }

    /** The service's joining: refused for an unknown or a full meeting. */
    method JoinMeeting(id: Id, user: UserId, key: Key, now: nat) returns (r: Result<(), JoinError>)
      requires Valid()
      modifies if id in meetings then {meetings[id]} else {}
      ensures Valid()
      ensures r == JoinResult(State(old(View()), map[], []), id)
      ensures View() == Step(State(old(View()), map[], []), Join(id, user, key)).meetings
      ensures r.Ok? ==>
                meetings[id].lastAccess == now && meetings[id].slots == old(meetings[id].slots)[user := Some(key)]
      ensures r.Err? && id in meetings ==> meetings[id].lastAccess == old(meetings[id].lastAccess)
    {
      hide Full;
      if id !in meetings {
        return Err(MeetingNotFound);
      }
      var full := meetings[id].IsFull();
      if full {
        return Err(MeetingFull);
      }
      meetings[id].JoinAs(user, key, now);
      assert View() == old(View())[id := Joined(old(View())[id], user, key)];
      return Ok(());
    }

    /** The meetings nobody joined within the timeout. */
    method ExpiredKeys(timeout: nat, now: nat) returns (expired: set<Id>)
      ensures expired == set id <- meetings | meetings[id].lastAccess + timeout < now
    {
      expired := {};
      var left := meetings.Keys;
      while left != {}
        invariant left <= meetings.Keys
        invariant expired == set id <- meetings | id !in left && meetings[id].lastAccess + timeout < now
        decreases |left|
      {
        var id :| id in left;
        left := left - {id};
        if meetings[id].Expired(timeout, now) {
          expired := expired + {id};
        }
      }
    }

    method RemoveExpired(timeout: nat, now: nat)
      requires Valid()
      modifies this
      ensures var expired := set id <- old(meetings) | old(meetings[id].lastAccess) + timeout < now;
              Valid() && meetings == old(meetings) - expired && View() == old(View()) - expired
    {
      var expired := ExpiredKeys(timeout, now);
      RemoveMeetings(expired);
      assert View() == old(View()) - expired;
    }

    method RemoveMeetings(ids: set<Id>)
      modifies this
      ensures meetings == old(meetings) - ids
    {
      var left := ids;
      while left != {}
        invariant left <= ids
        invariant meetings == old(meetings) - (ids - left)
        decreases |left|
      {
        var id :| id in left;
        meetings := meetings - {id};
        left := left - {id};
      }
      assert ids - {} == ids;
    }
  }
}
