/**
 The runtime queue mirror: the list of steering and follow-up messages a session shows to its
 clients, kept beside an agent queue that can be observed only through events.

 The functions on `Queue` values say what each lock region does to the mirror; the class
 `RuntimeQueueState` is the mirror itself, whose methods change its fields step by step.
 */
module RuntimeQueue {
  import opened Prelude

  type Id = string
  type Handle = nat
  type Timestamp = string

  const MAX_MESSAGES := 80
  const MAX_EVENTS := 80

  datatype Kind = Steer | FollowUp

  datatype Status = Pending | Consumed | Cleared | Cancelled

  datatype Message = Message(
    id: Id,
    kind: Kind,
    content: string,
    metadata: Option<string>,
    status: Status,
    updatedAt: Timestamp,
    handle: Option<Handle>)

  /** What the agent reports after it has changed one of its queues. */
  datatype QueueEvent =
    | OnEnqueued(kind: Kind, count: nat, queueDepth: nat)
    | OnConsumed(kind: Kind, count: nat, remaining: nat)
    | OnCleared(kind: Kind, countDropped: nat)
    | OnRemoved(kind: Kind, count: nat, remaining: nat)
    | OnTransferred(from: Kind, to: Kind, count: nat, sourceRemaining: nat, targetDepth: nat)

  datatype EventRecord = EventRecord(id: Id, event: QueueEvent, createdAt: Timestamp)

  datatype Queue = Queue(
    messages: seq<Message>,
    events: seq<EventRecord>,
    removed: seq<Id>,
    promoted: seq<Id>)

  datatype LookupError = NotFound | NotPending | InvalidKind | HandleMissing

  const ANY_KIND: set<Kind> := {Steer, FollowUp}

  // ---------------------------------------------------------------- lookups

  /** The search keys of the source: an id, the admitted kinds, and possibly "still pending". */
  datatype Query = Query(id: Id, kinds: set<Kind>, pendingOnly: bool)

  predicate Matches(m: Message, q: Query) {
    m.id == q.id && m.kind in q.kinds && (q.pendingOnly ==> m.status == Pending)
  }

  /** Position of the first message that matches, or |ms|. */
  function Find(ms: seq<Message>, q: Query): (i: nat)
    ensures i <= |ms|
    ensures i < |ms| ==> Matches(ms[i], q)
    ensures forall j :: 0 <= j < i ==> !Matches(ms[j], q)
  {
    if ms == [] then 0
    else if Matches(ms[0], q) then 0
    else 1 + Find(ms[1..], q)
  }

  /** Position of the last id that some message matches, or -1. */
  function LastResolvable(ids: seq<Id>, ms: seq<Message>, kinds: set<Kind>, pendingOnly: bool): (p: int)
    ensures -1 <= p < |ids|
    ensures 0 <= p ==> Find(ms, Query(ids[p], kinds, pendingOnly)) < |ms|
    ensures forall j :: p < j < |ids| ==> Find(ms, Query(ids[j], kinds, pendingOnly)) == |ms|
  {
    if ids == [] then -1
    else
      var last := |ids| - 1;
      if Find(ms, Query(ids[last], kinds, pendingOnly)) < |ms| then last
      else LastResolvable(ids[..last], ms, kinds, pendingOnly)
  }

  /** The handle a cancel (`forPromotion` false) or a promotion (true) needs from the mirror. */
  function PendingHandle(ms: seq<Message>, id: Id, forPromotion: bool): Result<Handle, LookupError> {
    var i := Find(ms, Query(id, ANY_KIND, false));
    if i == |ms| then Err(NotFound)
    else if ms[i].status != Pending then Err(NotPending)
    else if forPromotion && ms[i].kind != FollowUp then Err(InvalidKind)
    else if ms[i].handle.None? then Err(HandleMissing)
    else Ok(ms[i].handle.value)
  }

  // ---------------------------------------------------------------- marking

  predicate Eligible(m: Message, kind: Kind, skip: seq<Id>) {
    m.kind == kind && m.status == Pending && m.id !in skip
  }

  /** The first `count` eligible messages, in list order, get `status`. */
  function MarkFirst(ms: seq<Message>, kind: Kind, skip: seq<Id>, count: nat, status: Status,
                     now: Timestamp): (r: seq<Message>)
    ensures |r| == |ms|
  {
    if ms == [] || count == 0 then ms
    else if Eligible(ms[0], kind, skip) then
      [ms[0].(status := status, updatedAt := now)] + MarkFirst(ms[1..], kind, skip, count - 1, status, now)
    else [ms[0]] + MarkFirst(ms[1..], kind, skip, count, status, now)
  }

  /** The messages `MarkFirst` changes, as they are afterwards. */
  function MarkedBy(ms: seq<Message>, kind: Kind, skip: seq<Id>, count: nat, status: Status,
                    now: Timestamp): seq<Message> {
    if ms == [] || count == 0 then []
    else if Eligible(ms[0], kind, skip) then
      [ms[0].(status := status, updatedAt := now)] + MarkedBy(ms[1..], kind, skip, count - 1, status, now)
    else MarkedBy(ms[1..], kind, skip, count, status, now)
  }

  /** The first `count` pending messages of kind `from` become `to`. */
  function MoveFirst(ms: seq<Message>, from: Kind, to: Kind, count: nat, now: Timestamp): (r: seq<Message>)
    ensures |r| == |ms|
  {
    if ms == [] || count == 0 then ms
    else if Eligible(ms[0], from, []) then
      [ms[0].(kind := to, updatedAt := now)] + MoveFirst(ms[1..], from, to, count - 1, now)
    else [ms[0]] + MoveFirst(ms[1..], from, to, count, now)
  }

  /** What the marking loop has still to do when it stands at position i. */
  ghost function MarkAhead(ms: seq<Message>, i: nat, kind: Kind, skip: seq<Id>, count: nat, status: Status,
                           now: Timestamp): seq<Message>
    requires i <= |ms|
  {
    ms[..i] + MarkFirst(ms[i..], kind, skip, count, status, now)
  }

  ghost function MarkedAhead(ms: seq<Message>, i: nat, marked: seq<Message>, kind: Kind, skip: seq<Id>, count: nat,
                             status: Status, now: Timestamp): seq<Message>
    requires i <= |ms|
  {
    marked + MarkedBy(ms[i..], kind, skip, count, status, now)
  }

  /** One round of the marking loop. */
  lemma MarkFirstRound(ms: seq<Message>, i: nat, marked: seq<Message>,
                       kind: Kind, skip: seq<Id>, count: nat, status: Status, now: Timestamp)
    requires i < |ms| && count > 0
    ensures var m := ms[i].(status := status, updatedAt := now);
            if Eligible(ms[i], kind, skip) then
              && MarkAhead(ms[i := m], i + 1, kind, skip, count - 1, status, now)
                 == MarkAhead(ms, i, kind, skip, count, status, now)
              && MarkedAhead(ms[i := m], i + 1, marked + [m], kind, skip, count - 1, status, now)
                 == MarkedAhead(ms, i, marked, kind, skip, count, status, now)
            else
              && MarkAhead(ms, i + 1, kind, skip, count, status, now)
                 == MarkAhead(ms, i, kind, skip, count, status, now)
              && MarkedAhead(ms, i + 1, marked, kind, skip, count, status, now)
                 == MarkedAhead(ms, i, marked, kind, skip, count, status, now)
  {
    var m := ms[i].(status := status, updatedAt := now);
    assert ms[i..][1..] == ms[i + 1..] == ms[i := m][i + 1..];
    assert ms[i := m][..i + 1] == ms[..i] + [m];
    assert ms[..i + 1] == ms[..i] + [ms[i]];
  }

  lemma MarkFirstStart(ms: seq<Message>, kind: Kind, skip: seq<Id>, count: nat, status: Status, now: Timestamp)
    ensures MarkAhead(ms, 0, kind, skip, count, status, now) == MarkFirst(ms, kind, skip, count, status, now)
    ensures MarkedAhead(ms, 0, [], kind, skip, count, status, now) == MarkedBy(ms, kind, skip, count, status, now)
  {
    assert ms[0..] == ms;
  }

  lemma MarkFirstEnd(ms: seq<Message>, i: nat, marked: seq<Message>,
                     kind: Kind, skip: seq<Id>, count: nat, status: Status, now: Timestamp)
    requires i <= |ms| && (i == |ms| || count == 0)
    ensures MarkAhead(ms, i, kind, skip, count, status, now) == ms
    ensures MarkedAhead(ms, i, marked, kind, skip, count, status, now) == marked
    ensures MarkFirst(ms, kind, skip, 0, status, now) == ms
  {
    assert ms[..i] + ms[i..] == ms;
  }

  ghost function MoveAhead(ms: seq<Message>, i: nat, from: Kind, to: Kind, count: nat, now: Timestamp): seq<Message>
    requires i <= |ms|
  {
    ms[..i] + MoveFirst(ms[i..], from, to, count, now)
  }

  lemma MoveFirstRound(ms: seq<Message>, i: nat, from: Kind, to: Kind, count: nat, now: Timestamp)
    requires i < |ms| && count > 0
    ensures var m := ms[i].(kind := to, updatedAt := now);
            MoveAhead(ms, i, from, to, count, now)
            == if Eligible(ms[i], from, []) then MoveAhead(ms[i := m], i + 1, from, to, count - 1, now)
               else MoveAhead(ms, i + 1, from, to, count, now)
  {
    var m := ms[i].(kind := to, updatedAt := now);
    assert ms[i..][1..] == ms[i + 1..] == ms[i := m][i + 1..];
    assert ms[i := m][..i + 1] == ms[..i] + [m];
    assert ms[..i + 1] == ms[..i] + [ms[i]];
  }

  lemma MoveFirstStart(ms: seq<Message>, from: Kind, to: Kind, count: nat, now: Timestamp)
    ensures MoveAhead(ms, 0, from, to, count, now) == MoveFirst(ms, from, to, count, now)
  {
    assert ms[0..] == ms;
  }

  lemma MoveFirstEnd(ms: seq<Message>, i: nat, from: Kind, to: Kind, count: nat, now: Timestamp)
    requires i <= |ms| && (i == |ms| || count == 0)
    ensures MoveAhead(ms, i, from, to, count, now) == ms
    ensures MoveFirst(ms, from, to, 0, now) == ms
  {
    assert ms[..i] + ms[i..] == ms;
  }

  function SetStatus(ms: seq<Message>, id: Id, status: Status, now: Timestamp): seq<Message> {
    var i := Find(ms, Query(id, ANY_KIND, false));
    if i == |ms| then ms else ms[i := ms[i].(status := status, updatedAt := now)]
  }

  function SetHandle(ms: seq<Message>, id: Id, handle: Handle): seq<Message> {
    var i := Find(ms, Query(id, ANY_KIND, false));
    if i == |ms| then ms else ms[i := ms[i].(handle := Some(handle))]
  }

  function Promote(ms: seq<Message>, id: Id, handle: Handle, now: Timestamp): seq<Message> {
    var i := Find(ms, Query(id, ANY_KIND, true));
    if i == |ms| then ms else ms[i := ms[i].(kind := Steer, handle := Some(handle), updatedAt := now)]
  }

  /** `retain(|x| x != id)` */
  function Drop(ids: seq<Id>, id: Id): seq<Id> {
    if ids == [] then []
    else if ids[0] == id then Drop(ids[1..], id)
    else [ids[0]] + Drop(ids[1..], id)
  }

  // ---------------------------------------------------------------- the Removed event

  datatype Resolved = Resolved(messages: seq<Message>, ids: seq<Id>, count: nat)

  function Add(r: Resolved, n: nat): Resolved {
    r.(count := r.count + n)
  }

  /** Pays at most one removal with the registered id at position p. */
  function RemovedOne(ms: seq<Message>, ids: seq<Id>, kind: Kind, p: nat, now: Timestamp): (r: Resolved)
    requires p < |ids| && Find(ms, Query(ids[p], {kind}, false)) < |ms|
    ensures |r.messages| == |ms| && r.ids == Without(ids, p) && r.count <= 1
  {
    var i := Find(ms, Query(ids[p], {kind}, false));
    match ms[i].status
    case Cancelled => Resolved(ms[i := ms[i].(updatedAt := now)], Without(ids, p), 1)
    case Pending => Resolved(ms[i := ms[i].(status := Cancelled, updatedAt := now)], Without(ids, p), 1)
    case _ => Resolved(ms, Without(ids, p), 0)
  }

  /** Pays `count` removals with registered ids, newest first; `count` of the result is what was paid. */
  function ResolveRemoved(ms: seq<Message>, ids: seq<Id>, kind: Kind, count: nat, now: Timestamp): (r: Resolved)
    ensures |r.messages| == |ms|
    ensures r.count <= count
    decreases |ids|
  {
    var p := LastResolvable(ids, ms, {kind}, false);
    if count == 0 || p < 0 then Resolved(ms, ids, 0)
    else
      var one := RemovedOne(ms, ids, kind, p, now);
      Add(ResolveRemoved(one.messages, one.ids, kind, count - one.count, now), one.count)
  }

  /** One round of the loop over the registered ids, and its end. */
  lemma ResolveRemovedRound(ms: seq<Message>, ids: seq<Id>, kind: Kind, count: nat, now: Timestamp, paid: nat)
    ensures var p := LastResolvable(ids, ms, {kind}, false);
            if count == 0 || p < 0 then ResolveRemoved(ms, ids, kind, count, now) == Resolved(ms, ids, 0)
            else
              var one := RemovedOne(ms, ids, kind, p, now);
              one.count <= count
              && Add(ResolveRemoved(ms, ids, kind, count, now), paid)
                 == Add(ResolveRemoved(one.messages, one.ids, kind, count - one.count, now), paid + one.count)
  {
  }

  /** Positions, newest first, of at most `budget` promoted ids that are still pending in `kind`. */
  function PromotedPositions(ids: seq<Id>, ms: seq<Message>, kind: Kind, budget: nat): (ps: seq<nat>)
    ensures |ps| <= budget
    ensures forall k :: 0 <= k < |ps| ==> ps[k] < |ids| && Find(ms, Query(ids[ps[k]], {kind}, true)) < |ms|
  {
    if ids == [] || budget == 0 then []
    else
      var last := |ids| - 1;
      if Find(ms, Query(ids[last], {kind}, true)) < |ms| then
        [last] + PromotedPositions(ids[..last], ms, kind, budget - 1)
      else PromotedPositions(ids[..last], ms, kind, budget)
  }

  /** Refreshes the timestamps of the promoted messages at `ps`; `count` says how many were found. */
  function Touch(ms: seq<Message>, ids: seq<Id>, ps: seq<nat>, kind: Kind, now: Timestamp): (r: Resolved)
    ensures |r.messages| == |ms|
    ensures r.ids == ids
    ensures r.count <= |ps|
    decreases |ps|
  {
    if ps == [] then Resolved(ms, ids, 0)
    else
      var i := if ps[0] < |ids| then Find(ms, Query(ids[ps[0]], {kind}, true)) else |ms|;
      if i < |ms| then
        Add(Touch(ms[i := ms[i].(updatedAt := now)], ids, ps[1..], kind, now), 1)
      else Touch(ms, ids, ps[1..], kind, now)
  }

  function Remove(q: Queue, kind: Kind, count: nat, now: Timestamp): Queue {
    var r := ResolveRemoved(q.messages, q.removed, kind, count, now);
    var t := Touch(r.messages, q.promoted, PromotedPositions(q.promoted, r.messages, kind, count - r.count),
                   kind, now);
    var left := if r.count + t.count < count then count - r.count - t.count else 0;
    q.(messages := MarkFirst(t.messages, kind, q.promoted, left, Cancelled, now), removed := r.ids)
  }

  // ---------------------------------------------------------------- the Transferred event

  /** Moves the message registered at position p, whatever its kind, if it is still pending. */
  function TransferredOne(ms: seq<Message>, ids: seq<Id>, to: Kind, p: nat, now: Timestamp): (r: Resolved)
    requires p < |ids|
    ensures |r.messages| == |ms| && r.ids == Without(ids, p) && r.count <= 1
  {
    var i := Find(ms, Query(ids[p], ANY_KIND, true));
    if i < |ms| then Resolved(ms[i := ms[i].(kind := to, updatedAt := now)], Without(ids, p), 1)
    else Resolved(ms, Without(ids, p), 0)
  }

  function ResolveTransferred(ms: seq<Message>, ids: seq<Id>, from: Kind, to: Kind, count: nat,
                              now: Timestamp): (r: Resolved)
    ensures |r.messages| == |ms|
    ensures r.count <= count
    decreases |ids|
  {
    var p := LastResolvable(ids, ms, {from, to}, true);
    if count == 0 || p < 0 then Resolved(ms, ids, 0)
    else
      var one := TransferredOne(ms, ids, to, p, now);
      Add(ResolveTransferred(one.messages, one.ids, from, to, count - one.count, now), one.count)
  }

  lemma WithoutShorter(ids: seq<Id>, p: nat)
    requires p < |ids|
    ensures |Without(ids, p)| == |ids| - 1
  {
  }

  /** One round of the loop over the registered ids, and its end. */
  lemma ResolveTransferredRound(ms: seq<Message>, ids: seq<Id>, from: Kind, to: Kind, count: nat, now: Timestamp,
                                moved: nat)
    ensures var p := LastResolvable(ids, ms, {from, to}, true);
            if count == 0 || p < 0 then ResolveTransferred(ms, ids, from, to, count, now) == Resolved(ms, ids, 0)
            else
              var one := TransferredOne(ms, ids, to, p, now);
              one.count <= count
              && Add(ResolveTransferred(ms, ids, from, to, count, now), moved)
                 == Add(ResolveTransferred(one.messages, one.ids, from, to, count - one.count, now), moved + one.count)
  {
  }

  function Transfer(q: Queue, from: Kind, to: Kind, count: nat, now: Timestamp): Queue {
    var r := ResolveTransferred(q.messages, q.promoted, from, to, count, now);
    q.(messages := MoveFirst(r.messages, from, to, count - r.count, now), promoted := r.ids)
  }

  // ---------------------------------------------------------------- lock regions

  function Newest<T>(s: seq<T>, max: nat): (r: seq<T>)
    ensures |r| == Min(|s|, max)
  {
    if |s| > max then s[|s| - max..] else s
  }

  function Trim(q: Queue): Queue {
    q.(messages := Newest(q.messages, MAX_MESSAGES), events := Newest(q.events, MAX_EVENTS))
  }

  /** The event's effect on the messages and pending ids, before it is logged. */
  function React(q: Queue, event: QueueEvent, now: Timestamp): Queue {
    match event
    case OnEnqueued(_, _, _) => q
    case OnConsumed(kind, count, _) => q.(messages := MarkFirst(q.messages, kind, [], count, Consumed, now))
    case OnCleared(kind, dropped) => q.(messages := MarkFirst(q.messages, kind, [], dropped, Cleared, now))
    case OnRemoved(kind, count, _) => Remove(q, kind, count, now)
    case OnTransferred(from, to, count, _, _) => Transfer(q, from, to, count, now)
  }

  function HandleEvent(q: Queue, event: QueueEvent, eventId: Id, now: Timestamp): Queue {
    var r := React(q, event, now);
    Trim(r.(events := r.events + [EventRecord(eventId, event, now)]))
  }

  function ConsumedMessages(q: Queue, event: QueueEvent, now: Timestamp): seq<Message> {
    if event.OnConsumed? then MarkedBy(q.messages, event.kind, [], event.count, Consumed, now) else []
  }

  function Append(q: Queue, m: Message): Queue {
    Trim(q.(messages := q.messages + [m]))
  }

  function NewMessage(id: Id, kind: Kind, content: string, metadata: Option<string>, now: Timestamp): Message {
    Message(id, kind, content, metadata, Pending, now, None)
  }

  // ---------------------------------------------------------------- the mirror itself

  class RuntimeQueueState {
    var messages: seq<Message>
    var events: seq<EventRecord>
    var pendingRemoved: seq<Id>
    var pendingPromoted: seq<Id>

    function View(): Queue
      reads this
    {
      Queue(messages, events, pendingRemoved, pendingPromoted)
    }

    constructor ()
      ensures View() == Queue([], [], [], [])
    {
      messages, events, pendingRemoved, pendingPromoted := [], [], [], [];
    }

    method MarkMessages(kind: Kind, skip: seq<Id>, count: nat, status: Status, now: Timestamp)
      returns (marked: seq<Message>)
      modifies this`messages
      ensures messages == MarkFirst(old(messages), kind, skip, count, status, now)
      ensures marked == MarkedBy(old(messages), kind, skip, count, status, now)
    {
      hide MarkFirst, MarkedBy, MarkAhead, MarkedAhead;
      MarkFirstStart(messages, kind, skip, count, status, now);
      var remaining := count;
      var i := 0;
      marked := [];
      while i < |messages| && remaining > 0
        invariant 0 <= i <= |messages|
        invariant MarkAhead(messages, i, kind, skip, remaining, status, now)
               == MarkFirst(old(messages), kind, skip, count, status, now)
        invariant MarkedAhead(messages, i, marked, kind, skip, remaining, status, now)
               == MarkedBy(old(messages), kind, skip, count, status, now)
      {
        MarkFirstRound(messages, i, marked, kind, skip, remaining, status, now);
        if Eligible(messages[i], kind, skip) {
          messages := messages[i := messages[i].(status := status, updatedAt := now)];
          marked := marked + [messages[i]];
          remaining := remaining - 1;
        }
        i := i + 1;
      }
      MarkFirstEnd(messages, i, marked, kind, skip, remaining, status, now);
    }

    method MoveMessages(from: Kind, to: Kind, count: nat, already: nat, now: Timestamp)
      requires already <= count
      modifies this`messages
      ensures messages == MoveFirst(old(messages), from, to, count - already, now)
    {
      hide MoveFirst, MoveAhead;
      MoveFirstStart(messages, from, to, count - already, now);
      var moved := already;
      var i := 0;
      while i < |messages| && moved < count
        invariant 0 <= i <= |messages|
        invariant already <= moved <= count
        invariant MoveAhead(messages, i, from, to, count - moved, now)
               == MoveFirst(old(messages), from, to, count - already, now)
      {
        MoveFirstRound(messages, i, from, to, count - moved, now);
        if messages[i].kind == from && messages[i].status == Pending {
          messages := messages[i := messages[i].(kind := to, updatedAt := now)];
          moved := moved + 1;
        }
        i := i + 1;
      }
      MoveFirstEnd(messages, i, from, to, count - moved, now);
    }

    /** First loop of the Removed event: pay removals with registered ids. */
    method ResolveRemovedIds(kind: Kind, count: nat, now: Timestamp) returns (marked: nat)
      modifies this`messages, this`pendingRemoved
      ensures marked <= count
      ensures Resolved(messages, pendingRemoved, marked)
           == ResolveRemoved(old(messages), old(pendingRemoved), kind, count, now)
    {
      hide ResolveRemoved, LastResolvable, Find, Matches;
      marked := 0;
      while marked < count
        invariant marked <= count
        invariant Add(ResolveRemoved(messages, pendingRemoved, kind, count - marked, now), marked)
               == ResolveRemoved(old(messages), old(pendingRemoved), kind, count, now)
        decreases |pendingRemoved|
      {
        ResolveRemovedRound(messages, pendingRemoved, kind, count - marked, now, marked);
        var p := LastResolvable(pendingRemoved, messages, {kind}, false);
        if p < 0 {
          break;
        }
        ghost var one := RemovedOne(messages, pendingRemoved, kind, p, now);
        ghost var before := marked;
        var id := pendingRemoved[p];
        pendingRemoved := Without(pendingRemoved, p);
        var i := Find(messages, Query(id, {kind}, false));
        match messages[i].status {
          case Cancelled =>
            messages := messages[i := messages[i].(updatedAt := now)];
            marked := marked + 1;
          case Pending =>
            messages := messages[i := messages[i].(status := Cancelled, updatedAt := now)];
            marked := marked + 1;
          case _ =>
        }
        assert Resolved(messages, pendingRemoved, marked - before) == one;
      }
      ResolveRemovedRound(messages, pendingRemoved, kind, count - marked, now, marked);
    }

    /** Second part of the Removed event: promoted messages that are still pending pay the next removals. */
    method TouchPromoted(kind: Kind, budget: nat, now: Timestamp) returns (touched: nat)
      modifies this`messages
      ensures Resolved(messages, pendingPromoted, touched)
           == Touch(old(messages), pendingPromoted, PromotedPositions(pendingPromoted, old(messages), kind, budget),
                    kind, now)
    {
      var positions := PromotedPositions(pendingPromoted, messages, kind, budget);
      hide PromotedPositions, Find, Matches;
      touched := 0;
      var k := 0;
      ghost var was := messages;
      while k < |positions|
        invariant 0 <= k <= |positions|
        invariant Add(Touch(messages, pendingPromoted, positions[k..], kind, now), touched)
               == Touch(was, pendingPromoted, positions, kind, now)
      {
        assert positions[k..][1..] == positions[k + 1..];
        if positions[k] < |pendingPromoted| {
          var i := Find(messages, Query(pendingPromoted[positions[k]], {kind}, true));
          if i < |messages| {
            messages := messages[i := messages[i].(updatedAt := now)];
            touched := touched + 1;
          }
        }
        k := k + 1;
      }
    }

    method OnRemovedEvent(kind: Kind, count: nat, now: Timestamp)
      modifies this`messages, this`pendingRemoved
      ensures View() == Remove(old(View()), kind, count, now)
    {
      hide ResolveRemoved, Touch, PromotedPositions, MarkFirst, MarkedBy, MarkAhead, MarkedAhead, Find, Matches;
      var marked := ResolveRemovedIds(kind, count, now);
      var touched := TouchPromoted(kind, count - marked, now);
      marked := marked + touched;
      MarkFirstEnd(messages, 0, [], kind, pendingPromoted, 0, Cancelled, now);
      if marked < count {
        var _ := MarkMessages(kind, pendingPromoted, count - marked, Cancelled, now);
      }
    }

    /** First loop of the Transferred event: move the registered messages. */
    method ResolveTransferredIds(from: Kind, to: Kind, count: nat, now: Timestamp) returns (moved: nat)
      modifies this`messages, this`pendingPromoted
      ensures moved <= count
      ensures Resolved(messages, pendingPromoted, moved)
           == ResolveTransferred(old(messages), old(pendingPromoted), from, to, count, now)
    {
      hide ResolveTransferred, LastResolvable, Find, Matches, Without;
      moved := 0;
      while moved < count
        invariant moved <= count
        invariant Add(ResolveTransferred(messages, pendingPromoted, from, to, count - moved, now), moved)
               == ResolveTransferred(old(messages), old(pendingPromoted), from, to, count, now)
        decreases |pendingPromoted|
      {
        ResolveTransferredRound(messages, pendingPromoted, from, to, count - moved, now, moved);
        var p := LastResolvable(pendingPromoted, messages, {from, to}, true);
        if p < 0 {
          break;
        }
        ghost var one := TransferredOne(messages, pendingPromoted, to, p, now);
        ghost var before := moved;
        WithoutShorter(pendingPromoted, p);
        var id := pendingPromoted[p];
        pendingPromoted := Without(pendingPromoted, p);
        var i := Find(messages, Query(id, ANY_KIND, true));
        if i < |messages| {
          messages := messages[i := messages[i].(kind := to, updatedAt := now)];
          moved := moved + 1;
        }
        assert Resolved(messages, pendingPromoted, moved - before) == one;
      }
      ResolveTransferredRound(messages, pendingPromoted, from, to, count - moved, now, moved);
    }

    method OnTransferredEvent(from: Kind, to: Kind, count: nat, now: Timestamp)
      modifies this`messages, this`pendingPromoted
      ensures View() == Transfer(old(View()), from, to, count, now)
    {
      hide ResolveTransferred, MoveFirst, MoveAhead, Find, Matches;
      var moved := ResolveTransferredIds(from, to, count, now);
      MoveFirstEnd(messages, 0, from, to, 0, now);
      if moved < count {
        MoveMessages(from, to, count, moved, now);
      }
    }

    method TrimLogs()
      modifies this`messages, this`events
      ensures View() == Trim(old(View()))
    {
      if |messages| > MAX_MESSAGES {
        messages := messages[|messages| - MAX_MESSAGES..];
      }
      if |events| > MAX_EVENTS {
        events := events[|events| - MAX_EVENTS..];
      }
    }

    /** The queue event callback. */
    method UpdateForEvent(event: QueueEvent, eventId: Id, now: Timestamp) returns (consumed: seq<Message>)
      modifies this
      ensures View() == HandleEvent(old(View()), event, eventId, now)
      ensures consumed == ConsumedMessages(old(View()), event, now)
    {
      consumed := [];
      match event {
        case OnEnqueued(_, _, _) =>
        case OnConsumed(kind, count, _) =>
          consumed := MarkMessages(kind, [], count, Consumed, now);
        case OnCleared(kind, dropped) =>
          var _ := MarkMessages(kind, [], dropped, Cleared, now);
        case OnRemoved(kind, count, _) =>
          OnRemovedEvent(kind, count, now);
        case OnTransferred(from, to, count, _, _) =>
          OnTransferredEvent(from, to, count, now);
      }
      events := events + [EventRecord(eventId, event, now)];
      TrimLogs();
    }

    /** First lock region of an enqueue. */
    method AppendMessage(id: Id, kind: Kind, content: string, metadata: Option<string>, now: Timestamp)
      modifies this
      ensures View() == Append(old(View()), NewMessage(id, kind, content, metadata, now))
    {
      messages := messages + [Message(id, kind, content, metadata, Pending, now, None)];
      TrimLogs();
    }

    /** Last lock region of an enqueue. */
    method AttachHandle(id: Id, handle: Handle)
      modifies this`messages
      ensures View() == old(View()).(messages := SetHandle(old(messages), id, handle))
    {
      var i := Find(messages, Query(id, ANY_KIND, false));
      if i < |messages| {
        messages := messages[i := messages[i].(handle := Some(handle))];
      }
    }

    /** First lock region of a cancel. */
    method BeginCancel(id: Id) returns (r: Result<Handle, LookupError>)
      modifies this`pendingRemoved
      ensures r == PendingHandle(messages, id, false)
      ensures View() == if r.Ok? then old(View()).(removed := old(pendingRemoved) + [id]) else old(View())
    {
      r := PendingHandle(messages, id, false);
      if r.Ok? {
        pendingRemoved := pendingRemoved + [id];
      }
    }

    /** Lock region of a cancel whose message the agent no longer holds. */
    method AbandonCancel(id: Id)
      modifies this`pendingRemoved
      ensures View() == old(View()).(removed := Drop(old(pendingRemoved), id))
    {
      pendingRemoved := Drop(pendingRemoved, id);
    }

    /** Last lock region of a successful cancel: it does not look at the old status. */
    method FinishCancel(id: Id, now: Timestamp)
      modifies this`messages
      ensures View() == old(View()).(messages := SetStatus(old(messages), id, Cancelled, now))
    {
      var i := Find(messages, Query(id, ANY_KIND, false));
      if i < |messages| {
        messages := messages[i := messages[i].(status := Cancelled, updatedAt := now)];
      }
    }

    /** First lock region of a promotion. */
    method BeginPromote(id: Id) returns (r: Result<Handle, LookupError>)
      modifies this`pendingPromoted
      ensures r == PendingHandle(messages, id, true)
      ensures View() == if r.Ok? then old(View()).(promoted := old(pendingPromoted) + [id]) else old(View())
    {
      r := PendingHandle(messages, id, true);
      if r.Ok? {
        pendingPromoted := pendingPromoted + [id];
      }
    }

    /** Lock region of a promotion the agent refused. */
    method AbandonPromote(id: Id)
      modifies this`pendingPromoted
      ensures View() == old(View()).(promoted := Drop(old(pendingPromoted), id))
    {
      pendingPromoted := Drop(pendingPromoted, id);
    }

    /** Last lock region of a successful promotion. */
    method FinishPromote(id: Id, handle: Handle, now: Timestamp)
      modifies this`messages, this`pendingPromoted
      ensures View() == old(View()).(messages := Promote(old(messages), id, handle, now),
                                     promoted := Drop(old(pendingPromoted), id))
    {
      pendingPromoted := Drop(pendingPromoted, id);
      var i := Find(messages, Query(id, ANY_KIND, true));
      if i < |messages| {
        messages := messages[i := messages[i].(kind := Steer, handle := Some(handle), updatedAt := now)];
      }
    }
  }
}
