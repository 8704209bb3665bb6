/**
 What every step of the queue protocol keeps, promotions included: identities, handles, the pending
 id lists, and the agreement between the mirror and the two real queues.
 */
module QueueInvariant {
  import opened Prelude
  import opened RuntimeQueue
  import opened QueueProtocol
  import opened QueueSafety
  import Strings

  // ---------------------------------------------------------------- identities and handles

  ghost predicate DistinctLane(l: seq<Entry>) {
    forall i, j :: 0 <= i < j < |l| ==> l[i].handle != l[j].handle && l[i].sent.id != l[j].sent.id
  }

  ghost predicate Apart(a: seq<Entry>, b: seq<Entry>) {
    forall i, j :: 0 <= i < |a| && 0 <= j < |b| ==> a[i].handle != b[j].handle && a[i].sent.id != b[j].sent.id
  }

  ghost predicate Issued(l: seq<Entry>, nextHandle: Handle, used: set<Id>) {
    forall i :: 0 <= i < |l| ==> l[i].handle < nextHandle && l[i].sent.id in used
  }

  /** In the lane, the handle leads to no other message. */
  ghost predicate Knows(l: seq<Entry>, handle: Handle, id: Id) {
    forall i :: 0 <= i < |l| ==> l[i].handle == handle ==> l[i].sent.id == id
  }

  /** In the lane, the handle leads to this message and this message to the handle. */
  ghost predicate Names(l: seq<Entry>, handle: Handle, id: Id) {
    forall i :: 0 <= i < |l| ==> (l[i].handle == handle <==> l[i].sent.id == id)
  }

  ghost predicate Absent(l: seq<Entry>, id: Id) {
    forall i :: 0 <= i < |l| ==> l[i].sent.id != id
  }

  ghost predicate Named(s: System, handle: Handle, id: Id) {
    handle < s.nextHandle && Names(s.steer, handle, id) && Names(s.followUp, handle, id)
  }

  ghost predicate MessageNamed(s: System, m: Message) {
    m.handle.Some? ==>
      && m.handle.value < s.nextHandle
      && Knows(s.steer, m.handle.value, m.id) && Knows(s.followUp, m.handle.value, m.id)
      && (m.status == Pending && !(s.call.PromoteHit? && s.call.id == m.id) ==> Named(s, m.handle.value, m.id))
  }

  ghost predicate DistinctIds(ms: seq<Message>) {
    forall i, j :: 0 <= i < j < |ms| ==> ms[i].id != ms[j].id
  }

  ghost predicate CallNamed(s: System) {
    match s.call
    case Enqueuing(id, _, _) =>
      && id in s.used && Absent(s.steer, id) && Absent(s.followUp, id)
      && forall i :: 0 <= i < |s.mirror.messages| ==> s.mirror.messages[i].id == id ==>
         s.mirror.messages[i].handle.None?
    case Attaching(id, handle) => Named(s, handle, id)
    case Cancelling(id, handle) => Named(s, handle, id)
    case Promoting(id, handle) => Named(s, handle, id)
    case PromoteHit(id, handle) => Named(s, handle, id)
    case _ => true
  }

  ghost predicate Identified(s: System) {
    var ms := s.mirror.messages;
    && |ms| <= MAX_MESSAGES
    && DistinctIds(ms)
    && (forall i :: 0 <= i < |ms| ==> ms[i].id in s.used)
    && (forall i :: 0 <= i < |ms| ==> MessageNamed(s, ms[i]))
    && Issued(s.steer, s.nextHandle, s.used) && Issued(s.followUp, s.nextHandle, s.used)
    && DistinctLane(s.steer) && DistinctLane(s.followUp) && Apart(s.steer, s.followUp)
    && CallNamed(s)
  }

  /** Same messages by name; none becomes pending. */
  ghost predicate SameNames(a: seq<Message>, b: seq<Message>) {
    |a| == |b| && forall i :: 0 <= i < |a| ==>
      b[i].id == a[i].id && b[i].handle == a[i].handle && (b[i].status == Pending ==> a[i].status == Pending)
  }

  /** The lane without the entries from a up to b. */
  function Cut(l: seq<Entry>, a: nat, b: nat): seq<Entry>
    requires a <= b <= |l|
  {
    l[..a] + l[b..]
  }

  lemma CutKeeps(l: seq<Entry>, a: nat, b: nat, other: seq<Entry>, nextHandle: Handle, used: set<Id>)
    requires a <= b <= |l|
    requires DistinctLane(l) && Apart(l, other) && Issued(l, nextHandle, used)
    ensures DistinctLane(Cut(l, a, b)) && Apart(Cut(l, a, b), other) && Apart(other, Cut(l, a, b))
    ensures Issued(Cut(l, a, b), nextHandle, used)
    ensures forall h, id :: Names(l, h, id) ==> Names(Cut(l, a, b), h, id)
    ensures forall h, id :: Knows(l, h, id) ==> Knows(Cut(l, a, b), h, id)
    ensures forall id :: Absent(l, id) ==> Absent(Cut(l, a, b), id)
  {
    var c := Cut(l, a, b);
    assert forall i :: 0 <= i < |c| ==> c[i] == l[if i < a then i else i + (b - a)];
  }

  lemma ApartCommutes(a: seq<Entry>, b: seq<Entry>)
    requires Apart(a, b)
    ensures Apart(b, a)
  {
  }

  /** A step that cuts a piece out of one lane and renames nothing in the mirror keeps identities. */
  lemma CutIdentified(s: System, s': System, kind: Kind, a: nat, b: nat)
    requires Identified(s)
    requires a <= b <= |Lane(s, kind)|
    requires Lane(s', kind) == Cut(Lane(s, kind), a, b)
    requires forall k :: k != kind ==> Lane(s', k) == Lane(s, k)
    requires s'.nextHandle == s.nextHandle && s'.used == s.used
    requires SameNames(s.mirror.messages, s'.mirror.messages)
    requires s'.call == s.call || (!s.call.PromoteHit? && CallNamed(s'))
    ensures Identified(s')
  {
    var other := if kind == Steer then FollowUp else Steer;
    ApartCommutes(s.steer, s.followUp);
    CutKeeps(Lane(s, kind), a, b, Lane(s, other), s.nextHandle, s.used);
    var ms, ms' := s.mirror.messages, s'.mirror.messages;
    forall i | 0 <= i < |ms'| ensures ms'[i].id in s'.used && MessageNamed(s', ms'[i]) {
      assert MessageNamed(s, ms[i]);
    }
  }

  // ---------------------------------------------------------------- mirror against queues

  /** A message the mirror already shows but the agent does not yet hold. */
  function InFlight(call: Call, kind: Kind): seq<Sent> {
    if call.Enqueuing? && call.kind == kind then [Sent(call.id, call.text)] else []
  }

  function RemovingIds(call: Call): seq<Id> {
    if call.Cancelling? || call.CancelMissed? then [call.id] else []
  }

  function PromotingIds(call: Call): seq<Id> {
    if call.Promoting? || call.PromoteRefused? then [call.id] else []
  }

  function OnlyFollowUps(log: seq<Delivery>): seq<Sent> {
    if log == [] then []
    else (if log[0].kind == FollowUp then [log[0].sent] else []) + OnlyFollowUps(log[1..])
  }

  /** What the mirror shows of the message a running call is about. */
  ghost predicate Target(s: System) {
    var ms := s.mirror.messages;
    match s.call
    case Enqueuing(id, kind, _) => forall i :: 0 <= i < |ms| && ms[i].id == id ==> ms[i].kind == kind
    case Cancelling(id, _) =>
      exists i :: 0 <= i < |ms| && ms[i].id == id && (ms[i].status == Pending || ms[i].status == Consumed)
    case CancelHit(id) => forall i :: 0 <= i < |ms| && ms[i].id == id ==> ms[i].status != Pending
    case PromoteHit(id, _) => forall i :: 0 <= i < |ms| && ms[i].id == id ==> ms[i].kind == Steer
    case _ => true
  }

  ghost predicate SteerKinds(ms: seq<Message>, steer: seq<Entry>) {
    forall i, j :: 0 <= i < |ms| && 0 <= j < |steer| && ms[i].id == steer[j].sent.id ==> ms[i].kind == Steer
  }

  ghost predicate Logs(s: System) {
    && |s.recorded| == |s.delivered|
    && OnlyFollowUps(s.recorded) == OnlyFollowUps(s.delivered)
  }

  /**
   The mirror against the queues: follow-ups agree message by message and in order; steering
   messages, whose queue positions a promotion leaves open, agree in number.
   */
  ghost predicate Counted(s: System) {
    var ms := s.mirror.messages;
    && s.mirror.removed == RemovingIds(s.call)
    && s.mirror.promoted == PromotingIds(s.call)
    && PendingOf(ms, FollowUp) == Sents(s.followUp) + InFlight(s.call, FollowUp)
    && |PendingOf(ms, Steer)| == |s.steer| + |InFlight(s.call, Steer)|
    && SteerKinds(ms, s.steer)
    && Target(s)
    && Logs(s)
  }

  ghost predicate Inv(s: System) {
    Identified(s) && Counted(s)
  }

  /** The one thing asked of a step: an append must not push a pending message off the full list. */
  predicate Spares(s: System, step: Step) {
    var ms := s.mirror.messages;
    step.StartEnqueue? && Strings.Trim(step.raw) != "" ==> |ms| < MAX_MESSAGES || ms[0].status != Pending
  }

  // ---------------------------------------------------------------- facts about the mirror

  lemma FindUnique(ms: seq<Message>, i: nat, q: Query)
    requires DistinctIds(ms) && i < |ms| && Matches(ms[i], q)
    ensures Find(ms, q) == i
  {
  }

  lemma FindNone(ms: seq<Message>, i: nat, q: Query)
    requires DistinctIds(ms) && i < |ms| && ms[i].id == q.id && !Matches(ms[i], q)
    ensures Find(ms, q) == |ms|
  {
  }

  lemma EventKeepsNames(q: Queue, event: QueueEvent, eventId: Id, now: Timestamp)
    requires |q.messages| <= MAX_MESSAGES
    ensures var q' := HandleEvent(q, event, eventId, now);
            && q'.messages == React(q, event, now).messages
            && q'.removed == React(q, event, now).removed
            && q'.promoted == React(q, event, now).promoted
            && Evolves(q.messages, q'.messages, Verdict(event))
            && SameNames(q.messages, q'.messages)
            && (!event.OnTransferred? ==> forall i :: 0 <= i < |q.messages| ==>
                q'.messages[i].kind == q.messages[i].kind)
  {
    hide React;
    EventIsSafe(q, event, eventId, now);
    var q' := HandleEvent(q, event, eventId, now);
    forall i | 0 <= i < |q.messages|
      ensures q'.messages[i].id == q.messages[i].id && q'.messages[i].handle == q.messages[i].handle
      ensures q'.messages[i].status == Pending ==> q.messages[i].status == Pending
    {
      assert Keeps(q.messages[i], q'.messages[i], Verdict(event));
    }
  }

  /** Where in the message list the pending message at position pos stands. */
  lemma {:induction false} PendingIndex(ms: seq<Message>, kind: Kind, pos: nat) returns (i: nat)
    requires pos < |PendingOf(ms, kind)|
    ensures i < |ms| && ms[i].kind == kind && ms[i].status == Pending
    ensures SentOf(ms[i]) == PendingOf(ms, kind)[pos]
    ensures pos == |PendingOf(ms[..i], kind)|
  {
    var own := Own(ms[0], kind);
    if pos < |own| {
      i := 0;
    } else {
      var j := PendingIndex(ms[1..], kind, pos - |own|);
      i := j + 1;
      assert ms[..i][1..] == ms[1..][..j];
    }
  }

  /** Taking a message out of the pending list of its kind takes out exactly its place. */
  lemma PendingWithout(ms: seq<Message>, i: nat, m: Message, kind: Kind)
    requires i < |ms| && ms[i].kind == kind && ms[i].status == Pending && Own(m, kind) == []
    ensures |PendingOf(ms[..i], kind)| < |PendingOf(ms, kind)|
    ensures PendingOf(ms[i := m], kind) == Without(PendingOf(ms, kind), |PendingOf(ms[..i], kind)|)
  {
    PendingSplice(ms, i, m, kind);
    PendingSplice(ms, i, ms[i], kind);
    assert ms[i := ms[i]] == ms;
  }

  lemma SentsWithout(l: seq<Entry>, i: nat)
    requires i < |l|
    ensures Sents(Without(l, i)) == Without(Sents(l), i)
  {
  }

  /** The only registered id pays for the removal. */
  lemma RemovedSingle(ms: seq<Message>, i: nat, now: Timestamp)
    requires DistinctIds(ms) && i < |ms|
    ensures Find(ms, Query(ms[i].id, {ms[i].kind}, false)) == i
    ensures var one := RemovedOne(ms, [ms[i].id], ms[i].kind, 0, now);
      ResolveRemoved(ms, [ms[i].id], ms[i].kind, 1, now) == Resolved(one.messages, [], one.count)
  {
    hide Find;
    var m := ms[i];
    FindUnique(ms, i, Query(m.id, {m.kind}, false));
    assert LastResolvable([m.id], ms, {m.kind}, false) == 0;
    assert Without([m.id], 0) == [];
    ResolveRemovedRound(ms, [m.id], m.kind, 1, now, 0);
    var one := RemovedOne(ms, [m.id], m.kind, 0, now);
    ResolveRemovedRound(one.messages, [], m.kind, 1 - one.count, now, one.count);
  }

  lemma RemoveWithoutPromoted(q: Queue, kind: Kind, count: nat, now: Timestamp)
    requires q.promoted == []
    ensures var r := ResolveRemoved(q.messages, q.removed, kind, count, now);
      Remove(q, kind, count, now)
        == q.(messages := MarkFirst(r.messages, kind, [], count - r.count, Cancelled, now), removed := r.ids)
  {
    hide MarkFirst, Find, ResolveRemoved;
  }

  /** A removal with exactly one registered id, and what it does for each status of that message. */
  lemma RemovedMirror(q: Queue, i: nat, now: Timestamp)
    requires DistinctIds(q.messages) && i < |q.messages|
    requires q.removed == [q.messages[i].id] && q.promoted == []
    ensures var m := q.messages[i];
            var r := Remove(q, m.kind, 1, now);
            && r.removed == []
            && r.promoted == []
            && (m.status == Pending ==> r.messages == q.messages[i := m.(status := Cancelled, updatedAt := now)])
            && (m.status == Consumed ==> r.messages == MarkFirst(q.messages, m.kind, [], 1, Cancelled, now))
  {
    hide MarkFirst, Find, ResolveRemoved;
    var ms, m := q.messages, q.messages[i];
    RemovedSingle(ms, i, now);
    var one := RemovedOne(ms, [m.id], m.kind, 0, now);
    RemoveWithoutPromoted(q, m.kind, 1, now);
    MarkFirstEnd(one.messages, 0, [], m.kind, [], 0, Cancelled, now);
  }

  /** A transfer with exactly one registered id of a pending follow-up. */
  lemma TransferredMirror(q: Queue, i: nat, now: Timestamp)
    requires DistinctIds(q.messages) && i < |q.messages|
    requires q.promoted == [q.messages[i].id] && q.messages[i].kind == FollowUp && q.messages[i].status == Pending
    ensures var m := q.messages[i];
            var r := Transfer(q, FollowUp, Steer, 1, now);
            && r.promoted == []
            && r.removed == q.removed
            && r.messages == q.messages[i := m.(kind := Steer, updatedAt := now)]
  {
    hide MoveFirst, MoveAhead, Find;
    var ms, m := q.messages, q.messages[i];
    FindUnique(ms, i, Query(m.id, {FollowUp, Steer}, true));
    FindUnique(ms, i, Query(m.id, ANY_KIND, true));
    assert LastResolvable([m.id], ms, {FollowUp, Steer}, true) == 0;
    assert Without([m.id], 0) == [];
    ResolveTransferredRound(ms, [m.id], FollowUp, Steer, 1, now, 0);
    var one := TransferredOne(ms, [m.id], Steer, 0, now);
    ResolveTransferredRound(one.messages, [], FollowUp, Steer, 0, now, 1);
    MoveFirstEnd(one.messages, 0, FollowUp, Steer, 0, now);
  }

  lemma {:induction false} FollowUpsConcat(a: seq<Delivery>, b: seq<Delivery>)
    ensures OnlyFollowUps(a + b) == OnlyFollowUps(a) + OnlyFollowUps(b)
  {
    if a == [] {
      assert a + b == b;
    } else {
      assert (a + b)[1..] == a[1..] + b;
      FollowUpsConcat(a[1..], b);
      var first := OnlyFollowUps(a[..1]);
      assert (first + OnlyFollowUps(a[1..])) + OnlyFollowUps(b) == first + (OnlyFollowUps(a[1..]) + OnlyFollowUps(b));
    }
  }

  lemma {:induction false} FollowUpsOfOneKind(kind: Kind, sents: seq<Sent>)
    ensures OnlyFollowUps(Deliveries(kind, sents)) == if kind == FollowUp then sents else []
  {
    if sents != [] {
      assert Deliveries(kind, sents)[1..] == Deliveries(kind, sents[1..]);
      FollowUpsOfOneKind(kind, sents[1..]);
    }
  }
}
