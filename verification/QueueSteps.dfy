/** Every step of the queue protocol keeps the invariant. */
module QueueSteps {
  import opened Prelude
  import opened RuntimeQueue
  import opened QueueProtocol
  import opened QueueSafety
  import opened QueueInvariant

  /** The parts of the invariant the counting arguments use. */
  lemma NamesInside(s: System)
    requires Inv(s)
    ensures DistinctIds(s.mirror.messages) && |s.mirror.messages| <= MAX_MESSAGES && CallNamed(s)
  {
  }

  /** What a callback does, in terms of the event's own effect on the mirror. */
  lemma CallbackEffect(s: System, event: QueueEvent, stamp: Stamp)
    requires |s.mirror.messages| <= MAX_MESSAGES
    ensures var s' := Callback(s, event, stamp);
            var r := React(s.mirror, event, stamp.now);
            && s' == s.(mirror := s'.mirror, recorded := s'.recorded)
            && s'.mirror.messages == r.messages && s'.mirror.removed == r.removed && s'.mirror.promoted == r.promoted
            && (!event.OnConsumed? ==> s'.recorded == s.recorded)
            && SameNames(s.mirror.messages, s'.mirror.messages)
            && Evolves(s.mirror.messages, s'.mirror.messages, Verdict(event))
            && (!event.OnTransferred? ==>
                  forall i :: 0 <= i < |s.mirror.messages| ==> s'.mirror.messages[i].kind == s.mirror.messages[i].kind)
  {
    hide React;
    EventKeepsNames(s.mirror, event, stamp.eventId, stamp.now);
    assert !event.OnConsumed? ==> Deliveries(EventKind(event), SentsOf([])) == [];
  }

  // ---------------------------------------------------------------- enqueue

  lemma EnqueueStartKeeps(s: System, kind: Kind, raw: string, metadata: Option<string>, id: Id, now: Timestamp)
    requires Inv(s) && Enabled(s, StartEnqueue(kind, raw, metadata, id, now))
    requires Spares(s, StartEnqueue(kind, raw, metadata, id, now))
    ensures Inv(EnqueueStart(s, kind, raw, metadata, id, now))
  {
    hide Strings.Trim, PendingOf;
    var s' := EnqueueStart(s, kind, raw, metadata, id, now);
    if s' != s {
      var m := NewMessage(id, kind, s'.call.text, metadata, now);
      var ms, ms' := s.mirror.messages, s'.mirror.messages;
      AppendKeepsPending(s.mirror, m);
      var d := if |ms| < MAX_MESSAGES then 0 else 1;
      assert ms' == ms[d..] + [m];
      EnqueueStartIdentified(s, s', m, d);
      AppendedKinds(s, m, d);
      assert Target(s');
      hide Identified, SteerKinds, Target;
      assert Own(m, FollowUp) == InFlight(s'.call, FollowUp) && Own(m, Steer) == InFlight(s'.call, Steer);
      assert PendingOf(ms', FollowUp) == PendingOf(ms, FollowUp) + Own(m, FollowUp);
      assert PendingOf(ms', Steer) == PendingOf(ms, Steer) + Own(m, Steer);
      assert InFlight(s.call, FollowUp) == [] && InFlight(s.call, Steer) == [];
      assert Counted(s');
    }
  }

  lemma AppendedKinds(s: System, m: Message, d: nat)
    requires Inv(s) && d <= |s.mirror.messages| && m.id !in s.used
    ensures SteerKinds(s.mirror.messages[d..] + [m], s.steer)
  {
    var ms := s.mirror.messages;
    var ms' := ms[d..] + [m];
    forall i, j | 0 <= i < |ms'| && 0 <= j < |s.steer| && ms'[i].id == s.steer[j].sent.id
        ensures ms'[i].kind == Steer {
      if i < |ms'| - 1 {
        assert ms'[i] == ms[i + d];
      }
    }
  }

  lemma EnqueueStartIdentified(s: System, s': System, m: Message, d: nat)
    requires Identified(s) && s.call.Idle?
    requires m.id !in s.used && m.handle.None? && d <= |s.mirror.messages|
    requires |s'.mirror.messages| <= MAX_MESSAGES && s'.mirror.messages == s.mirror.messages[d..] + [m]
    requires s' == s.(mirror := s'.mirror, used := s.used + {m.id}, call := s'.call)
    requires s'.call.Enqueuing? && s'.call.id == m.id
    ensures Identified(s')
  {
    var ms, ms' := s.mirror.messages, s'.mirror.messages;
    forall i | 0 <= i < |ms'|
      ensures MessageNamed(s', ms'[i]) && ms'[i].id in s'.used
      ensures ms'[i].id == m.id ==> i == |ms'| - 1
    {
      if i < |ms'| - 1 {
        assert ms'[i] == ms[i + d];
        assert MessageNamed(s, ms[i + d]);
      }
    }
    forall i, j | 0 <= i < j < |ms'| ensures ms'[i].id != ms'[j].id {
      if j < |ms'| - 1 {
        assert ms'[i] == ms[i + d] && ms'[j] == ms[j + d];
      }
    }
  }

  /** A new entry under the next handle, for an id neither lane holds. */
  lemma LaneGrows(l: seq<Entry>, e: Entry, other: seq<Entry>, used: set<Id>)
    requires DistinctLane(l) && Apart(l, other) && Issued(l, e.handle, used) && Issued(other, e.handle, used)
    requires Absent(l, e.sent.id) && Absent(other, e.sent.id) && e.sent.id in used
    ensures DistinctLane(l + [e]) && Apart(l + [e], other) && Apart(other, l + [e])
    ensures Issued(l + [e], e.handle + 1, used) && Issued(other, e.handle + 1, used)
    ensures Names(l + [e], e.handle, e.sent.id) && Names(other, e.handle, e.sent.id)
  {
    var g := l + [e];
    assert forall i :: 0 <= i < |g| ==> g[i] == if i < |l| then l[i] else e;
  }

  lemma GrownLaneNames(l: seq<Entry>, e: Entry, h: Handle, id: Id)
    requires h != e.handle
    ensures Knows(l, h, id) ==> Knows(l + [e], h, id)
    ensures id != e.sent.id && Names(l, h, id) ==> Names(l + [e], h, id)
  {
    var g := l + [e];
    assert forall i :: 0 <= i < |g| ==> g[i] == if i < |l| then l[i] else e;
  }

  lemma EnqueueInAgentIdentified(s: System, s': System)
    requires Identified(s) && s.call.Enqueuing?
    requires Lane(s', s.call.kind) == Lane(s, s.call.kind) + [Entry(s.nextHandle, Sent(s.call.id, s.call.text))]
    requires forall k :: k != s.call.kind ==> Lane(s', k) == Lane(s, k)
    requires s'.mirror.messages == s.mirror.messages
    requires s'.nextHandle == s.nextHandle + 1 && s'.used == s.used && s'.call == Attaching(s.call.id, s.nextHandle)
    ensures Identified(s')
  {
    var ms := s.mirror.messages;
    var kind := s.call.kind;
    var other := if kind == Steer then FollowUp else Steer;
    var e := Entry(s.nextHandle, Sent(s.call.id, s.call.text));
    ApartCommutes(s.steer, s.followUp);
    LaneGrows(Lane(s, kind), e, Lane(s, other), s.used);
    assert Lane(s', other) == Lane(s, other);
    forall i | 0 <= i < |ms| ensures MessageNamed(s', ms[i]) {
      assert MessageNamed(s, ms[i]);
      if ms[i].handle.Some? {
        assert ms[i].id != s.call.id;
        GrownLaneNames(Lane(s, kind), e, ms[i].handle.value, ms[i].id);
      }
      hide Knows, Names, DistinctLane, Apart, Issued, Absent, DistinctIds;
    }
    hide Knows, Names, DistinctLane, Apart, Issued, Absent, DistinctIds, MessageNamed;
  }

  lemma EnqueueInAgentKeeps(s: System, stamp: Stamp)
    requires Inv(s) && s.call.Enqueuing?
    ensures Inv(EnqueueInAgent(s, stamp))
  {
    var s' := EnqueueInAgent(s, stamp);
    var e := Entry(s.nextHandle, Sent(s.call.id, s.call.text));
    var kind := s.call.kind;
    var lane := Lane(s, kind) + [e];
    var s1 := WithLane(s, kind, lane).(nextHandle := s.nextHandle + 1, call := Attaching(s.call.id, s.nextHandle));
    NamesInside(s);
    CallbackEffect(s1, OnEnqueued(kind, 1, |lane|), stamp);
    EnqueueInAgentIdentified(s, s');
    assert Sents(lane) == Sents(Lane(s, kind)) + [e.sent];
    hide Identified, CallNamed, PendingOf;
    assert Counted(s');
  }

  lemma FinishEnqueueKeeps(s: System)
    requires Inv(s) && s.call.Attaching?
    ensures Inv(Next(s, FinishEnqueue))
  {
    hide Identified, Counted, Find, PendingOf, Next;
    FinishEnqueueIdentified(s);
    FinishEnqueueCounted(s);
  }

  lemma FinishEnqueueIdentified(s: System)
    requires Identified(s) && s.call.Attaching?
    ensures Identified(Next(s, FinishEnqueue))
  {
    var s' := Next(s, FinishEnqueue);
    var ms, ms' := s.mirror.messages, s'.mirror.messages;
    forall j | 0 <= j < |ms'| ensures MessageNamed(s', ms'[j]) && ms'[j].id in s'.used {
      assert MessageNamed(s, ms[j]);
    }
  }

  lemma FinishEnqueueCounted(s: System)
    requires Counted(s) && s.call.Attaching?
    ensures Counted(Next(s, FinishEnqueue))
  {
    hide PendingOf;
    var ms := s.mirror.messages;
    var i := Find(ms, Query(s.call.id, ANY_KIND, false));
    if i < |ms| {
      PendingSameBoth(ms, i, ms[i].(handle := Some(s.call.handle)));
    }
  }

  lemma PendingSameBoth(ms: seq<Message>, i: nat, m: Message)
    requires i < |ms| && m.kind == ms[i].kind && m.status == ms[i].status && SentOf(m) == SentOf(ms[i])
    ensures forall k :: PendingOf(ms[i := m], k) == PendingOf(ms, k)
  {
    PendingSame(ms, i, m, Steer);
    PendingSame(ms, i, m, FollowUp);
  }

  // ---------------------------------------------------------------- cancel

  lemma CancelStartKeeps(s: System, id: Id)
    requires Inv(s) && s.call.Idle?
    ensures Inv(CancelStart(s, id))
  {
    var s' := CancelStart(s, id);
    if s' != s {
      var ms := s.mirror.messages;
      var i := Find(ms, Query(id, ANY_KIND, false));
      assert MessageNamed(s, ms[i]);
      assert Named(s', s'.call.handle, id);
      forall j | 0 <= j < |ms| ensures MessageNamed(s', ms[j]) {
        assert MessageNamed(s, ms[j]);
      }
      assert ms[i].id == id && ms[i].status == Pending;
    }
  }

  /** The Removed callback after the agent took entry j out of the follow-up queue. */
  lemma CancelFollowUpCounted(s: System, s': System, j: nat, now: Timestamp)
    requires Counted(s) && DistinctIds(s.mirror.messages)
    requires s.call.Cancelling? && j < |s.followUp| && s.followUp[j].sent.id == s.call.id
    requires s'.followUp == Without(s.followUp, j) && s'.steer == s.steer && s'.call == CancelHit(s.call.id)
    requires s'.delivered == s.delivered && s'.recorded == s.recorded
    requires s'.mirror.messages == Remove(s.mirror, FollowUp, 1, now).messages
    requires s'.mirror.removed == Remove(s.mirror, FollowUp, 1, now).removed
    requires s'.mirror.promoted == Remove(s.mirror, FollowUp, 1, now).promoted
    ensures Counted(s')
  {
    hide MarkFirst, Remove, Evolves;
    var ms, ms' := s.mirror.messages, s'.mirror.messages;
    assert Sents(s.followUp)[j] == s.followUp[j].sent;
    var i := PendingIndex(ms, FollowUp, j);
    RemovedMirror(s.mirror, i, now);
    var m := ms[i].(status := Cancelled, updatedAt := now);
    PendingWithout(ms, i, m, FollowUp);
    PendingSame(ms, i, m, Steer);
    SentsWithout(s.followUp, j);
    assert ms' == ms[i := m];
    assert SteerKinds(ms', s'.steer);
  }

  lemma CancelFollowUpKeeps(s: System, j: nat, stamp: Stamp)
    requires Inv(s) && s.call.Cancelling? && j < |s.followUp| && s.followUp[j].handle == s.call.handle
    ensures Inv(RemoveFromLane(s, FollowUp, j, stamp).(call := CancelHit(s.call.id)))
  {
    hide Remove, PendingOf, Counted;
    var s' := RemoveFromLane(s, FollowUp, j, stamp).(call := CancelHit(s.call.id));
    var event := OnRemoved(FollowUp, 1, |s.followUp| - 1);
    NamesInside(s);
    CallbackEffect(s.(followUp := Without(s.followUp, j)), event, stamp);
    CancelFollowUpCounted(s, s', j, stamp.now);
    assert s'.followUp == Cut(s.followUp, j, j + 1);
    CutIdentified(s, s', FollowUp, j, j + 1);
  }

  /** The Removed callback after the agent took entry j out of the steering queue. */
  lemma CancelSteerCounted(s: System, s': System, j: nat, now: Timestamp)
    requires Counted(s) && DistinctIds(s.mirror.messages)
    requires s.call.Cancelling? && j < |s.steer| && s.steer[j].sent.id == s.call.id
    requires s'.steer == Without(s.steer, j) && s'.followUp == s.followUp && s'.call == CancelHit(s.call.id)
    requires s'.delivered == s.delivered && s'.recorded == s.recorded
    requires s'.mirror.messages == Remove(s.mirror, Steer, 1, now).messages
    requires s'.mirror.removed == Remove(s.mirror, Steer, 1, now).removed
    requires s'.mirror.promoted == Remove(s.mirror, Steer, 1, now).promoted
    requires SameNames(s.mirror.messages, s'.mirror.messages)
    requires forall i :: 0 <= i < |s.mirror.messages| ==> s'.mirror.messages[i].kind == s.mirror.messages[i].kind
    ensures Counted(s')
  {
    hide MarkFirst, Remove, PendingOf;
    var ms, ms' := s.mirror.messages, s'.mirror.messages;
    var i :| 0 <= i < |ms| && ms[i].id == s.call.id && (ms[i].status == Pending || ms[i].status == Consumed);
    assert ms[i].kind == Steer;
    RemovedMirror(s.mirror, i, now);
    if ms[i].status == Pending {
      var m := ms[i].(status := Cancelled, updatedAt := now);
      PendingWithout(ms, i, m, Steer);
      PendingSame(ms, i, m, FollowUp);
    } else {
      MarkFirstTakes(ms, Steer, 1, Cancelled, now);
    }
    forall k | 0 <= k < |ms'| && ms'[k].id == s.call.id ensures ms'[k].status != Pending {
      assert ms[k].id == ms[i].id;
    }
    SteerKindsCut(s, s', j);
  }

  lemma SteerKindsCut(s: System, s': System, j: nat)
    requires SteerKinds(s.mirror.messages, s.steer) && j < |s.steer|
    requires s'.steer == Without(s.steer, j)
    requires SameNames(s.mirror.messages, s'.mirror.messages)
    requires forall i :: 0 <= i < |s.mirror.messages| ==> s'.mirror.messages[i].kind == s.mirror.messages[i].kind
    ensures SteerKinds(s'.mirror.messages, s'.steer)
  {
    forall b | 0 <= b < |s'.steer| ensures s'.steer[b] == s.steer[if b < j then b else b + 1] {}
  }

  lemma CancelSteerKeeps(s: System, j: nat, stamp: Stamp)
    requires Inv(s) && s.call.Cancelling? && j < |s.steer| && s.steer[j].handle == s.call.handle
    ensures Inv(RemoveFromLane(s, Steer, j, stamp).(call := CancelHit(s.call.id)))
  {
    hide Remove, PendingOf, Counted;
    var s' := RemoveFromLane(s, Steer, j, stamp).(call := CancelHit(s.call.id));
    var event := OnRemoved(Steer, 1, |s.steer| - 1);
    NamesInside(s);
    CallbackEffect(s.(steer := Without(s.steer, j)), event, stamp);
    CancelSteerCounted(s, s', j, stamp.now);
    assert s'.steer == Cut(s.steer, j, j + 1);
    CutIdentified(s, s', Steer, j, j + 1);
  }

  lemma CancelInAgentKeeps(s: System, stamp: Stamp)
    requires Inv(s) && s.call.Cancelling?
    ensures Inv(CancelInAgent(s, stamp))
  {
    var i, j := Locate(s.steer, s.call.handle), Locate(s.followUp, s.call.handle);
    if i < |s.steer| {
      CancelSteerKeeps(s, i, stamp);
    } else if j < |s.followUp| {
      CancelFollowUpKeeps(s, j, stamp);
    } else {
      var s' := CancelInAgent(s, stamp);
      forall k | 0 <= k < |s.mirror.messages| ensures MessageNamed(s', s'.mirror.messages[k]) {
        assert MessageNamed(s, s.mirror.messages[k]);
      }
    }
  }

  lemma CancelEndCounted(s: System, now: Timestamp)
    requires Counted(s) && (s.call.CancelMissed? || s.call.CancelHit?)
    ensures Counted(CancelEnd(s, now))
  {
    var s' := CancelEnd(s, now);
    var ms := s.mirror.messages;
    if s.call.CancelHit? {
      hide PendingOf, Find;
      var i := Find(ms, Query(s.call.id, ANY_KIND, false));
      if i < |ms| {
        var m := ms[i].(status := Cancelled, updatedAt := now);
        PendingSame(ms, i, m, Steer);
        PendingSame(ms, i, m, FollowUp);
      }
    } else {
      assert Drop([s.call.id], s.call.id) == [];
    }
  }

  lemma CancelEndKeeps(s: System, now: Timestamp)
    requires Inv(s) && (s.call.CancelMissed? || s.call.CancelHit?)
    ensures Inv(CancelEnd(s, now))
  {
    hide Counted, Find;
    CancelEndCounted(s, now);
    var s' := CancelEnd(s, now);
    var ms, ms' := s.mirror.messages, s'.mirror.messages;
    assert SameNames(ms, ms');
    forall j | 0 <= j < |ms'| ensures MessageNamed(s', ms'[j]) && ms'[j].id in s'.used {
      assert MessageNamed(s, ms[j]);
    }
  }

  // ---------------------------------------------------------------- promote

  lemma PromoteStartKeeps(s: System, id: Id)
    requires Inv(s) && s.call.Idle?
    ensures Inv(PromoteStart(s, id))
  {
    var s' := PromoteStart(s, id);
    if s' != s {
      var ms := s.mirror.messages;
      var i := Find(ms, Query(id, ANY_KIND, false));
      assert MessageNamed(s, ms[i]);
      assert Named(s', s'.call.handle, id);
      forall j | 0 <= j < |ms| ensures MessageNamed(s', ms[j]) {
        assert MessageNamed(s, ms[j]);
      }
    }
  }

  lemma PromotedSteerLane(steer: seq<Entry>, followUp: seq<Entry>, j: nat, at: nat, e: Entry, used: set<Id>)
    requires DistinctLane(steer) && DistinctLane(followUp) && Apart(steer, followUp)
    requires Issued(steer, e.handle, used) && Issued(followUp, e.handle, used)
    requires j < |followUp| && at <= |steer| && e.sent == followUp[j].sent
    ensures var steer' := steer[..at] + [e] + steer[at..];
      DistinctLane(steer') && Issued(steer', e.handle + 1, used) && Names(steer', e.handle, e.sent.id)
  {
    var steer' := steer[..at] + [e] + steer[at..];
    assert forall i :: 0 <= i < |steer'| ==>
        steer'[i] == if i < at then steer[i] else if i == at then e else steer[i - 1];
  }

  lemma PromotedFollowUpLane(steer: seq<Entry>, followUp: seq<Entry>, j: nat, at: nat, e: Entry, used: set<Id>)
    requires DistinctLane(steer) && DistinctLane(followUp) && Apart(steer, followUp)
    requires Issued(steer, e.handle, used) && Issued(followUp, e.handle, used)
    requires j < |followUp| && at <= |steer| && e.sent == followUp[j].sent
    ensures var followUp' := Without(followUp, j);
      DistinctLane(followUp') && Issued(followUp', e.handle + 1, used) && Names(followUp', e.handle, e.sent.id)
  {
    var followUp' := Without(followUp, j);
    assert forall i :: 0 <= i < |followUp'| ==> followUp'[i] == followUp[if i < j then i else i + 1];
  }

  lemma PromotedApart(steer: seq<Entry>, followUp: seq<Entry>, j: nat, at: nat, e: Entry, used: set<Id>)
    requires DistinctLane(steer) && DistinctLane(followUp) && Apart(steer, followUp)
    requires Issued(steer, e.handle, used) && Issued(followUp, e.handle, used)
    requires j < |followUp| && at <= |steer| && e.sent == followUp[j].sent
    ensures Apart(steer[..at] + [e] + steer[at..], Without(followUp, j))
  {
    var steer' := steer[..at] + [e] + steer[at..];
    assert forall i :: 0 <= i < |steer'| ==>
        steer'[i] == if i < at then steer[i] else if i == at then e else steer[i - 1];
    var followUp' := Without(followUp, j);
    assert forall i :: 0 <= i < |followUp'| ==> followUp'[i] == followUp[if i < j then i else i + 1];
  }

  /** Moving follow-up j under a new handle to place `at` keeps both lanes in order. */
  lemma PromoteLanes(steer: seq<Entry>, followUp: seq<Entry>, j: nat, at: nat, e: Entry, used: set<Id>)
    requires DistinctLane(steer) && DistinctLane(followUp) && Apart(steer, followUp)
    requires Issued(steer, e.handle, used) && Issued(followUp, e.handle, used)
    requires j < |followUp| && at <= |steer| && e.sent == followUp[j].sent
    ensures var steer', followUp' := steer[..at] + [e] + steer[at..], Without(followUp, j);
      && DistinctLane(steer') && DistinctLane(followUp') && Apart(steer', followUp')
      && Issued(steer', e.handle + 1, used) && Issued(followUp', e.handle + 1, used)
      && Names(steer', e.handle, e.sent.id) && Names(followUp', e.handle, e.sent.id)
  {
    hide DistinctLane, Apart, Issued, Names;
    PromotedSteerLane(steer, followUp, j, at, e, used);
    PromotedFollowUpLane(steer, followUp, j, at, e, used);
    PromotedApart(steer, followUp, j, at, e, used);
  }

  /** The lanes after the agent moved follow-up j to a place of its choice among the steering entries. */
  lemma PromoteIdentified(s: System, s': System, j: nat, at: nat)
    requires Identified(s) && s.call.Promoting?
    requires j < |s.followUp| && s.followUp[j].handle == s.call.handle && at <= |s.steer|
    requires s'.followUp == Without(s.followUp, j)
    requires s'.steer == s.steer[..at] + [Entry(s.nextHandle, s.followUp[j].sent)] + s.steer[at..]
    requires s'.nextHandle == s.nextHandle + 1 && s'.used == s.used
    requires s'.call == PromoteHit(s.call.id, s.nextHandle)
    requires SameNames(s.mirror.messages, s'.mirror.messages)
    ensures Identified(s')
  {
    var e := Entry(s.nextHandle, s.followUp[j].sent);
    assert e.sent.id == s.call.id;
    PromoteLanes(s.steer, s.followUp, j, at, e, s.used);
    PromoteMessagesNamed(s, s', j, at);
    assert DistinctIds(s'.mirror.messages) && |s'.mirror.messages| <= MAX_MESSAGES;
    assert forall i :: 0 <= i < |s'.mirror.messages| ==>
        s'.mirror.messages[i].id == s.mirror.messages[i].id && s.mirror.messages[i].id in s.used;
    hide DistinctLane, Apart, Issued, Names, Knows, MessageNamed, DistinctIds, SameNames;
  }

  lemma PromoteMessagesNamed(s: System, s': System, j: nat, at: nat)
    requires Identified(s) && s.call.Promoting?
    requires j < |s.followUp| && s.followUp[j].handle == s.call.handle && at <= |s.steer|
    requires s'.followUp == Without(s.followUp, j)
    requires s'.steer == s.steer[..at] + [Entry(s.nextHandle, s.followUp[j].sent)] + s.steer[at..]
    requires s'.nextHandle == s.nextHandle + 1 && s'.used == s.used
    requires s'.call == PromoteHit(s.call.id, s.nextHandle)
    requires SameNames(s.mirror.messages, s'.mirror.messages)
    ensures forall i :: 0 <= i < |s'.mirror.messages| ==> MessageNamed(s', s'.mirror.messages[i])
  {
    var ms, ms' := s.mirror.messages, s'.mirror.messages;
    var e := Entry(s.nextHandle, s.followUp[j].sent);
    assert e.sent.id == s.call.id;
    forall k | 0 <= k < |ms'| ensures MessageNamed(s', ms'[k]) {
      assert MessageNamed(s, ms[k]);
      assert ms'[k].id == ms[k].id && ms'[k].handle == ms[k].handle;
      if ms[k].handle.Some? {
        CutLaneNames(s.followUp, j, ms[k].handle.value, ms[k].id);
        GrownAtNames(s.steer, at, e, ms[k].handle.value, ms[k].id);
        hide Knows, Names, SameNames, DistinctLane, Apart, Issued;
      }
    }
  }

  lemma CutLaneNames(l: seq<Entry>, j: nat, h: Handle, id: Id)
    requires j < |l|
    ensures Knows(l, h, id) ==> Knows(Without(l, j), h, id)
    ensures Names(l, h, id) ==> Names(Without(l, j), h, id)
  {
    var c := Without(l, j);
    assert forall i :: 0 <= i < |c| ==> c[i] == l[if i < j then i else i + 1];
  }

  /** An entry put in anywhere under a new handle, for a message the handle h does not lead to. */
  lemma GrownAtNames(l: seq<Entry>, at: nat, e: Entry, h: Handle, id: Id)
    requires at <= |l| && h != e.handle
    ensures Knows(l, h, id) ==> Knows(l[..at] + [e] + l[at..], h, id)
    ensures id != e.sent.id && Names(l, h, id) ==> Names(l[..at] + [e] + l[at..], h, id)
  {
    var g := l[..at] + [e] + l[at..];
    assert forall i :: 0 <= i < |g| ==> g[i] == if i < at then l[i] else if i == at then e else l[i - 1];
  }

  lemma PromoteHitCounted(s: System, s': System, j: nat, at: nat, now: Timestamp)
    requires Counted(s) && DistinctIds(s.mirror.messages)
    requires s.call.Promoting? && j < |s.followUp| && s.followUp[j].sent.id == s.call.id && at <= |s.steer|
    requires s'.followUp == Without(s.followUp, j)
    requires s'.steer == s.steer[..at] + [Entry(s.nextHandle, s.followUp[j].sent)] + s.steer[at..]
    requires s'.call == PromoteHit(s.call.id, s.nextHandle)
    requires s'.delivered == s.delivered && s'.recorded == s.recorded
    requires s'.mirror.messages == Transfer(s.mirror, FollowUp, Steer, 1, now).messages
    requires s'.mirror.removed == Transfer(s.mirror, FollowUp, Steer, 1, now).removed
    requires s'.mirror.promoted == Transfer(s.mirror, FollowUp, Steer, 1, now).promoted
    ensures Counted(s')
  {
    hide Transfer, PendingOf;
    var ms, ms' := s.mirror.messages, s'.mirror.messages;
    assert Sents(s.followUp)[j] == s.followUp[j].sent;
    var i := PendingIndex(ms, FollowUp, j);
    TransferredMirror(s.mirror, i, now);
    var m := ms[i].(kind := Steer, updatedAt := now);
    assert ms' == ms[i := m];
    PromotedPending(ms, i, m);
    SentsWithout(s.followUp, j);
    PromotedSteerKinds(s, s', i, j, at);
    hide SteerKinds, DistinctIds;
    assert PendingOf(ms', FollowUp) == Sents(s'.followUp) + InFlight(s'.call, FollowUp);
  }

  lemma PromotedPending(ms: seq<Message>, i: nat, m: Message)
    requires i < |ms| && ms[i].kind == FollowUp && ms[i].status == Pending && m.kind == Steer && m.status == Pending
    ensures |PendingOf(ms[..i], FollowUp)| < |PendingOf(ms, FollowUp)|
    ensures PendingOf(ms[i := m], FollowUp) == Without(PendingOf(ms, FollowUp), |PendingOf(ms[..i], FollowUp)|)
    ensures |PendingOf(ms[i := m], Steer)| == |PendingOf(ms, Steer)| + 1
  {
    hide PendingOf;
    PendingWithout(ms, i, m, FollowUp);
    PendingSplice(ms, i, m, Steer);
    PendingSplice(ms, i, ms[i], Steer);
    assert ms[i := ms[i]] == ms;
  }

  lemma PromotedSteerKinds(s: System, s': System, i: nat, j: nat, at: nat)
    requires SteerKinds(s.mirror.messages, s.steer) && DistinctIds(s.mirror.messages)
    requires i < |s.mirror.messages| && j < |s.followUp| && at <= |s.steer|
    requires s.mirror.messages[i].id == s.followUp[j].sent.id
    requires s'.steer == s.steer[..at] + [Entry(s.nextHandle, s.followUp[j].sent)] + s.steer[at..]
    requires exists m: Message ::
               m.id == s.mirror.messages[i].id && m.kind == Steer && s'.mirror.messages == s.mirror.messages[i := m]
    ensures SteerKinds(s'.mirror.messages, s'.steer)
  {
    var ms, ms' := s.mirror.messages, s'.mirror.messages;
    forall a, b | 0 <= a < |ms'| && 0 <= b < |s'.steer| && ms'[a].id == s'.steer[b].sent.id
        ensures ms'[a].kind == Steer {
      if a != i {
        if b < at {
          assert s'.steer[b] == s.steer[b];
        } else if b > at {
          assert s'.steer[b] == s.steer[b - 1];
        }
      }
    }
  }

  lemma PromoteHitKeeps(s: System, j: nat, at: nat, stamp: Stamp)
    requires Inv(s) && s.call.Promoting? && at <= |s.steer|
    requires j == Locate(s.followUp, s.call.handle) && j < |s.followUp|
    ensures Inv(PromoteInAgent(s, true, at, stamp))
  {
    hide Transfer, PendingOf, Counted;
    var s' := PromoteInAgent(s, true, at, stamp);
    var event := OnTransferred(FollowUp, Steer, 1, |s.followUp| - 1, |s.steer| + 1);
    var entry := Entry(s.nextHandle, s.followUp[j].sent);
    var s1 := s.(followUp := Without(s.followUp, j), steer := s.steer[..at] + [entry] + s.steer[at..],
                 nextHandle := s.nextHandle + 1, call := PromoteHit(s.call.id, s.nextHandle));
    NamesInside(s);
    CallbackEffect(s1, event, stamp);
    PromoteHitCounted(s, s', j, at, stamp.now);
    hide Callback;
    PromoteIdentified(s, s', j, at);
  }

  lemma PromoteInAgentKeeps(s: System, accepted: bool, at: nat, stamp: Stamp)
    requires Inv(s) && s.call.Promoting? && at <= |s.steer|
    ensures Inv(PromoteInAgent(s, accepted, at, stamp))
  {
    var j := Locate(s.followUp, s.call.handle);
    if j < |s.followUp| && accepted {
      PromoteHitKeeps(s, j, at, stamp);
    } else {
      var s' := PromoteInAgent(s, accepted, at, stamp);
      forall k | 0 <= k < |s.mirror.messages| ensures MessageNamed(s', s'.mirror.messages[k]) {
        assert MessageNamed(s, s.mirror.messages[k]);
      }
    }
  }

  lemma PromoteEndKeeps(s: System, now: Timestamp)
    requires Inv(s) && (s.call.PromoteRefused? || s.call.PromoteHit?)
    ensures Inv(PromoteEnd(s, now))
  {
    hide DistinctLane, Apart, Issued, PendingOf;
    var s' := PromoteEnd(s, now);
    var ms, ms' := s.mirror.messages, s'.mirror.messages;
    assert Drop([s.call.id], s.call.id) == [];
    if s.call.PromoteHit? {
      var i := Find(ms, Query(s.call.id, ANY_KIND, true));
      if i < |ms| {
        PendingSameBoth(ms, i, ms[i].(handle := Some(s.call.handle), updatedAt := now));
      } else {
        forall k | 0 <= k < |ms| && ms[k].id == s.call.id ensures ms[k].status != Pending {
          assert !Matches(ms[k], Query(s.call.id, ANY_KIND, true));
        }
      }
    }
    forall j | 0 <= j < |ms'| ensures MessageNamed(s', ms'[j]) && ms'[j].id in s'.used {
      assert MessageNamed(s, ms[j]);
    }
  }

  // ---------------------------------------------------------------- clear and consume

  /** The agent takes the first `count` entries of a queue, and the callback marks as many messages. */
  lemma TakeCounted(s: System, s': System, kind: Kind, count: nat, status: Status, now: Timestamp)
    requires Counted(s) && count <= |Lane(s, kind)| && status != Pending
    requires status == Consumed || s.call.Idle? || s.call.ClearingRest?
    requires SameNames(s.mirror.messages, s'.mirror.messages)
    requires Evolves(s.mirror.messages, s'.mirror.messages, status)
    requires forall i :: 0 <= i < |s.mirror.messages| ==> s'.mirror.messages[i].kind == s.mirror.messages[i].kind
    requires s'.mirror.messages == MarkFirst(s.mirror.messages, kind, [], count, status, now)
    requires s'.mirror.removed == s.mirror.removed && s'.mirror.promoted == s.mirror.promoted
    requires s'.steer == if kind == Steer then s.steer[count..] else s.steer
    requires s'.followUp == if kind == FollowUp then s.followUp[count..] else s.followUp
    requires s'.call == s.call
    requires Logs(s')
    ensures Counted(s')
  {
    hide MarkFirst, PendingOf;
    var ms, ms' := s.mirror.messages, s'.mirror.messages;
    MarkFirstTakes(ms, kind, count, status, now);
    assert Sents(s.followUp[if kind == FollowUp then count else 0..])
        == Sents(s.followUp)[if kind == FollowUp then count else 0..];
    TakenSteerKinds(s, s', kind, count);
    TakenTarget(s, s', status);
    hide SteerKinds, Target, Evolves, SameNames;
  }

  lemma TakenTarget(s: System, s': System, status: Status)
    requires Target(s) && s'.call == s.call && (status == Consumed || s.call.Idle? || s.call.ClearingRest?)
    requires SameNames(s.mirror.messages, s'.mirror.messages) && Evolves(s.mirror.messages, s'.mirror.messages, status)
    requires forall i :: 0 <= i < |s.mirror.messages| ==> s'.mirror.messages[i].kind == s.mirror.messages[i].kind
    ensures Target(s')
  {
    var ms, ms' := s.mirror.messages, s'.mirror.messages;
    if s.call.Cancelling? {
      var i :| 0 <= i < |ms| && ms[i].id == s.call.id && (ms[i].status == Pending || ms[i].status == Consumed);
      assert Keeps(ms[i], ms'[i], status);
      assert ms'[i].id == s.call.id;
    }
  }

  lemma TakenSteerKinds(s: System, s': System, kind: Kind, count: nat)
    requires SteerKinds(s.mirror.messages, s.steer) && count <= |Lane(s, kind)|
            && SameNames(s.mirror.messages, s'.mirror.messages)
    requires forall i :: 0 <= i < |s.mirror.messages| ==> s'.mirror.messages[i].kind == s.mirror.messages[i].kind
    requires s'.steer == if kind == Steer then s.steer[count..] else s.steer
    ensures SteerKinds(s'.mirror.messages, s'.steer)
  {
    var ms, ms' := s.mirror.messages, s'.mirror.messages;
    forall a, b | 0 <= a < |ms'| && 0 <= b < |s'.steer| && ms'[a].id == s'.steer[b].sent.id
        ensures ms'[a].kind == Steer {
      assert s'.steer[b] == s.steer[if kind == Steer then b + count else b];
      assert ms'[a].id == ms[a].id;
    }
  }

  lemma TakeKeeps(s: System, s': System, kind: Kind, count: nat, status: Status, now: Timestamp)
    requires Inv(s) && count <= |Lane(s, kind)| && status != Pending
    requires status == Consumed || s.call.Idle? || s.call.ClearingRest?
    requires SameNames(s.mirror.messages, s'.mirror.messages)
    requires Evolves(s.mirror.messages, s'.mirror.messages, status)
    requires forall i :: 0 <= i < |s.mirror.messages| ==> s'.mirror.messages[i].kind == s.mirror.messages[i].kind
    requires s'.mirror.messages == MarkFirst(s.mirror.messages, kind, [], count, status, now)
    requires s'.mirror.removed == s.mirror.removed && s'.mirror.promoted == s.mirror.promoted
    requires s'.steer == if kind == Steer then s.steer[count..] else s.steer
    requires s'.followUp == if kind == FollowUp then s.followUp[count..] else s.followUp
    requires s'.nextHandle == s.nextHandle && s'.used == s.used && s'.call == s.call
    requires Logs(s')
    ensures Inv(s')
  {
    hide Counted, Identified, MarkFirst, Evolves, Logs;
    TakeCounted(s, s', kind, count, status, now);
    assert Lane(s', kind) == Cut(Lane(s, kind), 0, count);
    CutIdentified(s, s', kind, 0, count);
  }

  lemma ClearLaneKeeps(s: System, kind: Kind, stamp: Stamp)
    requires Inv(s) && (s.call.Idle? || s.call.ClearingRest?)
    ensures Inv(ClearLane(s, kind, stamp)) && ClearLane(s, kind, stamp).call == s.call
  {
    hide MarkFirst, PendingOf, Identified;
    var s' := ClearLane(s, kind, stamp);
    var n := |Lane(s, kind)|;
    NamesInside(s);
    CallbackEffect(WithLane(s, kind, []), OnCleared(kind, n), stamp);
    assert Lane(s, kind)[n..] == [];
    TakeKeeps(s, s', kind, n, Cleared, stamp.now);
  }

  /** What the callback records for a consumption is what the agent took, follow-ups one by one. */
  lemma ConsumeLogs(s: System, kind: Kind, count: nat, now: Timestamp)
    requires Counted(s) && count <= |Lane(s, kind)|
    ensures var sents := SentsOf(MarkedBy(s.mirror.messages, kind, [], count, Consumed, now));
            var taken := Sents(Lane(s, kind)[..count]);
            && |sents| == |taken| == count
            && |s.recorded + Deliveries(kind, sents)| == |s.delivered + Deliveries(kind, taken)|
            && OnlyFollowUps(s.recorded + Deliveries(kind, sents))
               == OnlyFollowUps(s.delivered + Deliveries(kind, taken))
  {
    hide MarkFirst, MarkedBy, PendingOf, OnlyFollowUps;
    var sents := SentsOf(MarkedBy(s.mirror.messages, kind, [], count, Consumed, now));
    var taken := Sents(Lane(s, kind)[..count]);
    MarkFirstTakes(s.mirror.messages, kind, count, Consumed, now);
    assert kind == FollowUp ==> taken == sents;
    FollowUpsConcat(s.recorded, Deliveries(kind, sents));
    FollowUpsConcat(s.delivered, Deliveries(kind, taken));
    FollowUpsOfOneKind(kind, sents);
    FollowUpsOfOneKind(kind, taken);
  }

  lemma ConsumeKeeps(s: System, kind: Kind, count: nat, stamp: Stamp)
    requires Inv(s) && count <= |Lane(s, kind)|
    ensures Inv(ConsumeFromLane(s, kind, count, stamp))
  {
    hide MarkFirst, MarkedBy, PendingOf, OnlyFollowUps, Identified;
    var s' := ConsumeFromLane(s, kind, count, stamp);
    var lane := Lane(s, kind);
    var s1 := WithLane(s, kind, lane[count..]).(delivered := s.delivered + Deliveries(kind, Sents(lane[..count])));
    NamesInside(s);
    CallbackEffect(s1, OnConsumed(kind, count, |lane| - count), stamp);
    ConsumeLogs(s, kind, count, stamp.now);
    TakeKeeps(s, s', kind, count, Consumed, stamp.now);
  }

  /** Every step keeps the invariant, promotions included. */
  lemma StepKeeps(s: System, step: Step)
    requires Inv(s) && Enabled(s, step) && Spares(s, step)
    ensures Inv(Next(s, step))
  {
    hide EnqueueStart, EnqueueInAgent, CancelStart, CancelInAgent, CancelEnd, PromoteStart, PromoteInAgent, PromoteEnd,
         ClearLane, ConsumeFromLane, Inv;
    match step {
      case StartEnqueue(kind, raw, metadata, id, now) => EnqueueStartKeeps(s, kind, raw, metadata, id, now);
      case AgentEnqueue(stamp) => EnqueueInAgentKeeps(s, stamp);
      case FinishEnqueue => FinishEnqueueKeeps(s);
      case StartCancel(id) => CancelStartKeeps(s, id);
      case AgentCancel(stamp) => CancelInAgentKeeps(s, stamp);
      case FinishCancel(now) => CancelEndKeeps(s, now);
      case StartPromote(id) => PromoteStartKeeps(s, id);
      case AgentPromote(accepted, at, stamp) => PromoteInAgentKeeps(s, accepted, at, stamp);
      case FinishPromote(now) => PromoteEndKeeps(s, now);
      case Clear(kind, stamp) => ClearLaneKeeps(s, kind, stamp);
      case ClearAll(stamp) =>
        ClearLaneKeeps(s, Steer, stamp);
        ClearCallKeeps(ClearLane(s, Steer, stamp), ClearingRest);
      case ClearRest(stamp) => ClearLaneKeeps(s, FollowUp, stamp); ClearCallKeeps(ClearLane(s, FollowUp, stamp), Idle);
      case Consume(kind, count, stamp) => ConsumeKeeps(s, kind, count, stamp);
    }
  }

  /** Moving between the two halves of a clear touches nothing else. */
  lemma ClearCallKeeps(s: System, call: Call)
    requires Inv(s) && (s.call.Idle? || s.call.ClearingRest?) && (call.Idle? || call.ClearingRest?)
    ensures Inv(s.(call := call))
  {
    var s' := s.(call := call);
    forall k | 0 <= k < |s.mirror.messages| ensures MessageNamed(s', s'.mirror.messages[k]) {
      assert MessageNamed(s, s.mirror.messages[k]);
    }
  }
}
