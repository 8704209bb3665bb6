/**
 The queue protocol: client calls made of several lock regions, an agent that owns the two real
 queues, and its event callbacks, as one state machine.

 Client calls do not overlap each other; the agent may consume between any two of their regions.
 An agent step changes a real queue and runs the mirror's callback in one go.
 */
module QueueProtocol {
  import opened Prelude
  import opened RuntimeQueue
  import Strings

  datatype Sent = Sent(id: Id, text: string)

  /** A place in a real queue: what the client sent, and the handle the agent gave out for it. */
  datatype Entry = Entry(handle: Handle, sent: Sent)

  datatype Delivery = Delivery(kind: Kind, sent: Sent)

  /** Which lock region of which client call comes next. */
  datatype Call =
    | Idle
    | Enqueuing(id: Id, kind: Kind, text: string)
    | Attaching(id: Id, handle: Handle)
    | Cancelling(id: Id, handle: Handle)
    | CancelMissed(id: Id)
    | CancelHit(id: Id)
    | Promoting(id: Id, handle: Handle)
    | PromoteRefused(id: Id)
    | PromoteHit(id: Id, handle: Handle)
    | ClearingRest

  /**
   `delivered` is what the agent has taken from its queues, `recorded` the user messages the
   session has recorded for it.
   */
  datatype System = System(
    mirror: Queue,
    steer: seq<Entry>,
    followUp: seq<Entry>,
    nextHandle: Handle,
    used: set<Id>,
    call: Call,
    delivered: seq<Delivery>,
    recorded: seq<Delivery>)

  datatype Stamp = Stamp(eventId: Id, now: Timestamp)

  datatype Step =
    | StartEnqueue(kind: Kind, raw: string, metadata: Option<string>, id: Id, now: Timestamp)
    | AgentEnqueue(stamp: Stamp)
    | FinishEnqueue
    | StartCancel(id: Id)
    | AgentCancel(stamp: Stamp)
    | FinishCancel(now: Timestamp)
    | StartPromote(id: Id)
    | AgentPromote(accepted: bool, at: nat, stamp: Stamp)
    | FinishPromote(now: Timestamp)
    | Clear(kind: Kind, stamp: Stamp)
    | ClearAll(stamp: Stamp)
    | ClearRest(stamp: Stamp)
    | Consume(kind: Kind, count: nat, stamp: Stamp)

  const Start := System(Queue([], [], [], []), [], [], 0, {}, Idle, [], [])

  // ---------------------------------------------------------------- steps

  function Lane(s: System, kind: Kind): seq<Entry> {
    if kind == Steer then s.steer else s.followUp
  }

  function WithLane(s: System, kind: Kind, lane: seq<Entry>): System {
    if kind == Steer then s.(steer := lane) else s.(followUp := lane)
  }

  function SentOf(m: Message): Sent {
    Sent(m.id, m.content)
  }

  function Deliveries(kind: Kind, sents: seq<Sent>): (r: seq<Delivery>)
    ensures |r| == |sents|
    ensures forall i :: 0 <= i < |r| ==> r[i] == Delivery(kind, sents[i])
  {
    seq(|sents|, i requires 0 <= i < |sents| => Delivery(kind, sents[i]))
  }

  function Sents(lane: seq<Entry>): (r: seq<Sent>)
    ensures |r| == |lane|
    ensures forall i :: 0 <= i < |r| ==> r[i] == lane[i].sent
  {
    seq(|lane|, i requires 0 <= i < |lane| => lane[i].sent)
  }

  function SentsOf(ms: seq<Message>): (r: seq<Sent>)
    ensures |r| == |ms|
    ensures forall i :: 0 <= i < |r| ==> r[i] == SentOf(ms[i])
  {
    seq(|ms|, i requires 0 <= i < |ms| => SentOf(ms[i]))
  }

  /** The position of the entry with this handle, or |lane|. */
  function Locate(lane: seq<Entry>, handle: Handle): (i: nat)
    ensures i <= |lane|
    ensures i < |lane| ==> lane[i].handle == handle
    ensures i == |lane| ==> forall j :: 0 <= j < |lane| ==> lane[j].handle != handle
  {
    if lane == [] then 0
    else if lane[0].handle == handle then 0
    else 1 + Locate(lane[1..], handle)
  }

  /** The queue event callback: update the mirror, then record the consumed messages. */
  function Callback(s: System, event: QueueEvent, stamp: Stamp): System {
    var consumed := ConsumedMessages(s.mirror, event, stamp.now);
    s.(mirror := HandleEvent(s.mirror, event, stamp.eventId, stamp.now),
       recorded := s.recorded + Deliveries(EventKind(event), SentsOf(consumed)))
  }

  function EventKind(event: QueueEvent): Kind {
    if event.OnTransferred? then event.to else event.kind
  }

  predicate Enabled(s: System, step: Step) {
    match step
    case StartEnqueue(_, _, _, id, _) => s.call.Idle? && id !in s.used
    case AgentEnqueue(_) => s.call.Enqueuing?
    case FinishEnqueue => s.call.Attaching?
    case StartCancel(_) => s.call.Idle?
    case AgentCancel(_) => s.call.Cancelling?
    case FinishCancel(_) => s.call.CancelMissed? || s.call.CancelHit?
    case StartPromote(_) => s.call.Idle?
    case AgentPromote(_, at, _) => s.call.Promoting? && at <= |s.steer|
    case FinishPromote(_) => s.call.PromoteRefused? || s.call.PromoteHit?
    case Clear(_, _) => s.call.Idle?
    case ClearAll(_) => s.call.Idle?
    case ClearRest(_) => s.call.ClearingRest?
    case Consume(kind, count, _) => count <= |Lane(s, kind)|
  }

  function EnqueueStart(s: System, kind: Kind, raw: string, metadata: Option<string>, id: Id, now: Timestamp): System {
    var text := Strings.Trim(raw);
    if text == "" then s
    else s.(mirror := Append(s.mirror, NewMessage(id, kind, text, metadata, now)),
            used := s.used + {id},
            call := Enqueuing(id, kind, text))
  }

  function EnqueueInAgent(s: System, stamp: Stamp): System
    requires s.call.Enqueuing?
  {
    var lane := Lane(s, s.call.kind) + [Entry(s.nextHandle, Sent(s.call.id, s.call.text))];
    Callback(WithLane(s, s.call.kind, lane).(nextHandle := s.nextHandle + 1,
                                             call := Attaching(s.call.id, s.nextHandle)),
             OnEnqueued(s.call.kind, 1, |lane|), stamp)
  }

  function CancelStart(s: System, id: Id): System {
    var r := PendingHandle(s.mirror.messages, id, false);
    if r.Err? then s
    else s.(mirror := s.mirror.(removed := s.mirror.removed + [id]), call := Cancelling(id, r.value))
  }

  function RemoveFromLane(s: System, kind: Kind, i: nat, stamp: Stamp): System
    requires i < |Lane(s, kind)|
  {
    Callback(WithLane(s, kind, Without(Lane(s, kind), i)), OnRemoved(kind, 1, |Lane(s, kind)| - 1), stamp)
  }

  function CancelInAgent(s: System, stamp: Stamp): System
    requires s.call.Cancelling?
  {
    var i, j := Locate(s.steer, s.call.handle), Locate(s.followUp, s.call.handle);
    if i < |s.steer| then RemoveFromLane(s, Steer, i, stamp).(call := CancelHit(s.call.id))
    else if j < |s.followUp| then RemoveFromLane(s, FollowUp, j, stamp).(call := CancelHit(s.call.id))
    else s.(call := CancelMissed(s.call.id))
  }

  function CancelEnd(s: System, now: Timestamp): System
    requires s.call.CancelMissed? || s.call.CancelHit?
  {
    var q := s.mirror;
    s.(call := Idle,
       mirror := if s.call.CancelMissed? then q.(removed := Drop(q.removed, s.call.id))
                 else q.(messages := SetStatus(q.messages, s.call.id, Cancelled, now)))
  }

  function PromoteStart(s: System, id: Id): System {
    var r := PendingHandle(s.mirror.messages, id, true);
    if r.Err? then s
    else s.(mirror := s.mirror.(promoted := s.mirror.promoted + [id]), call := Promoting(id, r.value))
  }

  function PromoteInAgent(s: System, accepted: bool, at: nat, stamp: Stamp): System
    requires s.call.Promoting? && at <= |s.steer|
  {
    var i := Locate(s.followUp, s.call.handle);
    if i == |s.followUp| || !accepted then s.(call := PromoteRefused(s.call.id))
    else
      var entry := Entry(s.nextHandle, s.followUp[i].sent);
      Callback(s.(followUp := Without(s.followUp, i),
                  steer := s.steer[..at] + [entry] + s.steer[at..],
                  nextHandle := s.nextHandle + 1,
                  call := PromoteHit(s.call.id, s.nextHandle)),
               OnTransferred(FollowUp, Steer, 1, |s.followUp| - 1, |s.steer| + 1), stamp)
  }

  function PromoteEnd(s: System, now: Timestamp): System
    requires s.call.PromoteRefused? || s.call.PromoteHit?
  {
    var q := s.mirror.(promoted := Drop(s.mirror.promoted, s.call.id));
    s.(call := Idle,
       mirror := if s.call.PromoteRefused? then q
                 else q.(messages := Promote(q.messages, s.call.id, s.call.handle, now)))
  }

  function ClearLane(s: System, kind: Kind, stamp: Stamp): System {
    Callback(WithLane(s, kind, []), OnCleared(kind, |Lane(s, kind)|), stamp)
  }

  function ConsumeFromLane(s: System, kind: Kind, count: nat, stamp: Stamp): System
    requires count <= |Lane(s, kind)|
  {
    var lane := Lane(s, kind);
    Callback(WithLane(s, kind, lane[count..]).(delivered := s.delivered + Deliveries(kind, Sents(lane[..count]))),
             OnConsumed(kind, count, |lane| - count), stamp)
  }

  function Next(s: System, step: Step): System
    requires Enabled(s, step)
  {
    match step
    case StartEnqueue(kind, raw, metadata, id, now) => EnqueueStart(s, kind, raw, metadata, id, now)
    case AgentEnqueue(stamp) => EnqueueInAgent(s, stamp)
    case FinishEnqueue =>
      s.(call := Idle, mirror := s.mirror.(messages := SetHandle(s.mirror.messages, s.call.id, s.call.handle)))
    case StartCancel(id) => CancelStart(s, id)
    case AgentCancel(stamp) => CancelInAgent(s, stamp)
    case FinishCancel(now) => CancelEnd(s, now)
    case StartPromote(id) => PromoteStart(s, id)
    case AgentPromote(accepted, at, stamp) => PromoteInAgent(s, accepted, at, stamp)
    case FinishPromote(now) => PromoteEnd(s, now)
    case Clear(kind, stamp) => ClearLane(s, kind, stamp)
    case ClearAll(stamp) => ClearLane(s, Steer, stamp).(call := ClearingRest)
    case ClearRest(stamp) => ClearLane(s, FollowUp, stamp).(call := Idle)
    case Consume(kind, count, stamp) => ConsumeFromLane(s, kind, count, stamp)
  }

  // ---------------------------------------------------------------- what the mirror shows

  /** A message's own contribution to the pending list of a kind. */
  function Own(m: Message, kind: Kind): seq<Sent> {
    if m.kind == kind && m.status == Pending then [SentOf(m)] else []
  }

  /** The pending messages of a kind, in list order. */
  function PendingOf(ms: seq<Message>, kind: Kind): seq<Sent> {
    if ms == [] then [] else Own(ms[0], kind) + PendingOf(ms[1..], kind)
  }

  lemma {:induction false} PendingConcat(a: seq<Message>, b: seq<Message>, kind: Kind)
    ensures PendingOf(a + b, kind) == PendingOf(a, kind) + PendingOf(b, kind)
  {
    if a == [] {
      assert a + b == b;
    } else {
      assert (a + b)[1..] == a[1..] + b;
      PendingConcat(a[1..], b, kind);
    }
  }

  /** Replacing one message replaces its contribution and nothing else. */
  lemma PendingSplice(ms: seq<Message>, i: nat, m: Message, kind: Kind)
    requires i < |ms|
    ensures PendingOf(ms[i := m], kind) == PendingOf(ms[..i], kind) + Own(m, kind) + PendingOf(ms[i + 1..], kind)
  {
    assert ms[i := m] == ms[..i] + [m] + ms[i + 1..];
    PendingConcat(ms[..i] + [m], ms[i + 1..], kind);
    PendingConcat(ms[..i], [m], kind);
    assert PendingOf([m], kind) == Own(m, kind) + PendingOf([], kind);
  }

  /** A message that contributes the same before and after leaves the pending list alone. */
  lemma PendingSame(ms: seq<Message>, i: nat, m: Message, kind: Kind)
    requires i < |ms| && Own(m, kind) == Own(ms[i], kind)
    ensures PendingOf(ms[i := m], kind) == PendingOf(ms, kind)
  {
    PendingSplice(ms, i, m, kind);
    PendingSplice(ms, i, ms[i], kind);
    assert ms[i := ms[i]] == ms;
  }

  lemma DropBehind(a: seq<Sent>, p: seq<Sent>, c: nat)
    ensures (a + p)[Min(|a| + c, |a + p|)..] == p[Min(c, |p|)..]
  {
  }

  lemma {:induction false} MarkFirstLeaves(ms: seq<Message>, kind: Kind, count: nat, status: Status, now: Timestamp)
    requires status != Pending
    ensures PendingOf(MarkFirst(ms, kind, [], count, status, now), kind)
         == PendingOf(ms, kind)[Min(count, |PendingOf(ms, kind)|)..]
  {
    if ms != [] && count > 0 {
      var c := if Eligible(ms[0], kind, []) then count - 1 else count;
      MarkFirstLeaves(ms[1..], kind, c, status, now);
      MarkFirstOne(ms, kind, count, status, now);
      assert PendingOf(ms, kind) == Own(ms[0], kind) + PendingOf(ms[1..], kind);
      hide MarkFirst, PendingOf;
      DropBehind(Own(ms[0], kind), PendingOf(ms[1..], kind), c);
    }
  }

  /** The head of the list contributes nothing once it was passed over or marked. */
  lemma MarkFirstOne(ms: seq<Message>, kind: Kind, count: nat, status: Status, now: Timestamp)
    requires ms != [] && count > 0 && status != Pending
    ensures var c := if Eligible(ms[0], kind, []) then count - 1 else count;
            PendingOf(MarkFirst(ms, kind, [], count, status, now), kind)
              == PendingOf(MarkFirst(ms[1..], kind, [], c, status, now), kind)
            && |Own(ms[0], kind)| + c == count
  {
    var c := if Eligible(ms[0], kind, []) then count - 1 else count;
    var r := MarkFirst(ms, kind, [], count, status, now);
    assert r[1..] == MarkFirst(ms[1..], kind, [], c, status, now) && Own(r[0], kind) == [];
    hide MarkFirst;
    assert PendingOf(r, kind) == [] + PendingOf(r[1..], kind);
  }

  lemma SentsOfCons(m: Message, rest: seq<Message>)
    ensures SentsOf([m] + rest) == [SentOf(m)] + SentsOf(rest)
  {
  }

  lemma TakeAhead(a: seq<Sent>, p: seq<Sent>, c: nat)
    ensures (a + p)[..Min(|a| + c, |a + p|)] == a + p[..Min(c, |p|)]
  {
  }

  lemma {:induction false} MarkedBySents(ms: seq<Message>, kind: Kind, count: nat, status: Status, now: Timestamp)
    ensures SentsOf(MarkedBy(ms, kind, [], count, status, now))
         == PendingOf(ms, kind)[..Min(count, |PendingOf(ms, kind)|)]
  {
    if ms != [] && count > 0 {
      var c := if Eligible(ms[0], kind, []) then count - 1 else count;
      MarkedBySents(ms[1..], kind, c, status, now);
      var rest, pending := MarkedBy(ms[1..], kind, [], c, status, now), PendingOf(ms[1..], kind);
      var m, own := ms[0].(status := status, updatedAt := now), Own(ms[0], kind);
      assert PendingOf(ms, kind) == own + pending;
      assert MarkedBy(ms, kind, [], count, status, now) == if own == [] then rest else [m] + rest;
      hide MarkedBy, PendingOf;
      SentsOfCons(m, rest);
      TakeAhead(own, pending, c);
      assert [] + pending == pending;
    } else {
      assert MarkedBy(ms, kind, [], count, status, now) == [];
    }
  }

  lemma {:induction false} MarkFirstElsewhere(ms: seq<Message>, kind: Kind, count: nat, status: Status,
                                              now: Timestamp, other: Kind)
    requires other != kind
    ensures PendingOf(MarkFirst(ms, kind, [], count, status, now), other) == PendingOf(ms, other)
  {
    if ms != [] && count > 0 {
      var c := if Eligible(ms[0], kind, []) then count - 1 else count;
      var r := MarkFirst(ms, kind, [], count, status, now);
      MarkFirstElsewhere(ms[1..], kind, c, status, now, other);
      assert r[1..] == MarkFirst(ms[1..], kind, [], c, status, now);
    }
  }

  /** Marking takes the first `count` pending messages of the kind, and reports them. */
  lemma MarkFirstTakes(ms: seq<Message>, kind: Kind, count: nat, status: Status, now: Timestamp)
    requires status != Pending
    ensures var n := Min(count, |PendingOf(ms, kind)|);
            && PendingOf(MarkFirst(ms, kind, [], count, status, now), kind) == PendingOf(ms, kind)[n..]
            && SentsOf(MarkedBy(ms, kind, [], count, status, now)) == PendingOf(ms, kind)[..n]
    ensures forall k :: k != kind ==> PendingOf(MarkFirst(ms, kind, [], count, status, now), k) == PendingOf(ms, k)
  {
    MarkFirstLeaves(ms, kind, count, status, now);
    MarkedBySents(ms, kind, count, status, now);
    MarkFirstElsewhere(ms, kind, count, status, now, if kind == Steer then FollowUp else Steer);
  }

  /**
   Appending keeps every pending message if and only if the list is not full, or its oldest
   message is no longer pending.
   */
  lemma AppendKeepsPending(q: Queue, m: Message)
    requires |q.messages| <= MAX_MESSAGES
    ensures (forall k :: PendingOf(Append(q, m).messages, k) == PendingOf(q.messages, k) + Own(m, k))
       <==> |q.messages| < MAX_MESSAGES || q.messages[0].status != Pending
  {
    var ms := q.messages;
    forall k ensures PendingOf(ms + [m], k) == PendingOf(ms, k) + Own(m, k) {
      PendingConcat(ms, [m], k);
      assert PendingOf([m], k) == Own(m, k) + PendingOf([], k);
    }
    if |ms| == MAX_MESSAGES {
      assert Append(q, m).messages == (ms + [m])[1..];
      forall k ensures PendingOf(ms + [m], k) == Own(ms[0], k) + PendingOf(Append(q, m).messages, k) {}
      if ms[0].status == Pending {
        var k := ms[0].kind;
        assert |PendingOf(ms + [m], k)| == 1 + |PendingOf(Append(q, m).messages, k)|;
      }
    }
  }
}
