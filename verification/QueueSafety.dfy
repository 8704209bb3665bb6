/**
 What a queue event can do to the mirror from any state at all, including states with stale,
 duplicate or unknown pending ids.
 */
module QueueSafety {
  import opened Prelude
  import opened RuntimeQueue

  /** The only status an event may give to a pending message; `Pending` means it gives none. */
  function Verdict(event: QueueEvent): Status {
    match event
    case OnConsumed(_, _, _) => Consumed
    case OnCleared(_, _) => Cleared
    case OnRemoved(_, _, _) => Cancelled
    case _ => Pending
  }

  function EventCount(event: QueueEvent): nat {
    match event
    case OnEnqueued(_, _, _) => 0
    case OnConsumed(_, count, _) => count
    case OnCleared(_, dropped) => dropped
    case OnRemoved(_, count, _) => count
    case OnTransferred(_, _, count, _, _) => count
  }

  /** One message before and after: identity and contents stay, status moves at most from Pending to `verdict`. */
  predicate Keeps(m: Message, m': Message, verdict: Status) {
    && m'.id == m.id && m'.content == m.content && m'.metadata == m.metadata && m'.handle == m.handle
    && (m'.status == m.status || (m.status == Pending && m'.status == verdict))
    && (m'.kind == m.kind || m.status == Pending)
  }

  ghost predicate Evolves(a: seq<Message>, b: seq<Message>, verdict: Status) {
    |a| == |b| && forall i :: 0 <= i < |a| ==> Keeps(a[i], b[i], verdict)
  }

  /** How many messages change status (or, with `kinds`, kind) between a and b. */
  function Changes(a: seq<Message>, b: seq<Message>, kinds: bool): nat
    requires |a| == |b|
  {
    if a == [] then 0
    else
      var differs := if kinds then a[0].kind != b[0].kind else a[0].status != b[0].status;
      (if differs then 1 else 0) + Changes(a[1..], b[1..], kinds)
  }

  lemma {:induction false} NoChanges(a: seq<Message>, b: seq<Message>, kinds: bool)
    requires |a| == |b|
    requires forall i :: 0 <= i < |a| ==> if kinds then a[i].kind == b[i].kind else a[i].status == b[i].status
    ensures Changes(a, b, kinds) == 0
  {
    if a != [] {
      NoChanges(a[1..], b[1..], kinds);
    }
  }

  lemma {:induction false} OneChange(a: seq<Message>, i: nat, m: Message, kinds: bool)
    requires i < |a|
    ensures Changes(a, a[i := m], kinds) ==
            if (if kinds then a[i].kind != m.kind else a[i].status != m.status) then 1 else 0
  {
    if i == 0 {
      NoChanges(a[1..], a[i := m][1..], kinds);
    } else {
      assert a[i := m][1..] == a[1..][i - 1 := m];
      OneChange(a[1..], i - 1, m, kinds);
    }
  }

  /** Changes add up at most. */
  lemma {:induction false} ChangesTriangle(a: seq<Message>, b: seq<Message>, c: seq<Message>, kinds: bool)
    requires |a| == |b| == |c|
    ensures Changes(a, c, kinds) <= Changes(a, b, kinds) + Changes(b, c, kinds)
  {
    if a != [] {
      ChangesTriangle(a[1..], b[1..], c[1..], kinds);
    }
  }

  lemma EvolvesReflexive(a: seq<Message>, verdict: Status)
    ensures Evolves(a, a, verdict)
  {
  }

  lemma EvolvesTransitive(a: seq<Message>, b: seq<Message>, c: seq<Message>, verdict: Status)
    requires Evolves(a, b, verdict) && Evolves(b, c, verdict)
    ensures Evolves(a, c, verdict)
  {
    forall i | 0 <= i < |a| ensures Keeps(a[i], c[i], verdict) {
      assert Keeps(a[i], b[i], verdict) && Keeps(b[i], c[i], verdict);
    }
  }

  lemma {:induction false} MarkFirstSafe(ms: seq<Message>, kind: Kind, skip: seq<Id>, count: nat, status: Status,
                                         now: Timestamp)
    ensures var r := MarkFirst(ms, kind, skip, count, status, now);
            && Evolves(ms, r, status)
            && (forall i :: 0 <= i < |ms| ==> r[i].kind == ms[i].kind)
            && Changes(ms, r, false) <= count
  {
    if ms != [] && count > 0 {
      var r := MarkFirst(ms, kind, skip, count, status, now);
      var hit := Eligible(ms[0], kind, skip);
      MarkFirstSafe(ms[1..], kind, skip, if hit then count - 1 else count, status, now);
      assert r[1..] == MarkFirst(ms[1..], kind, skip, if hit then count - 1 else count, status, now);
      forall i | 0 < i < |ms| ensures Keeps(ms[i], r[i], status) && r[i].kind == ms[i].kind {
        assert ms[i] == ms[1..][i - 1] && r[i] == r[1..][i - 1];
      }
    } else {
      NoChanges(ms, ms, false);
    }
  }

  lemma {:induction false} MoveFirstSafe(ms: seq<Message>, from: Kind, to: Kind, count: nat, now: Timestamp)
    ensures var r := MoveFirst(ms, from, to, count, now);
            && Evolves(ms, r, Pending)
            && Changes(ms, r, true) <= count
  {
    if ms != [] && count > 0 {
      var r := MoveFirst(ms, from, to, count, now);
      var hit := Eligible(ms[0], from, []);
      MoveFirstSafe(ms[1..], from, to, if hit then count - 1 else count, now);
      assert r[1..] == MoveFirst(ms[1..], from, to, if hit then count - 1 else count, now);
      forall i | 0 < i < |ms| ensures Keeps(ms[i], r[i], Pending) {
        assert ms[i] == ms[1..][i - 1] && r[i] == r[1..][i - 1];
      }
    } else {
      NoChanges(ms, ms, true);
    }
  }

  lemma RemovedOneSafe(ms: seq<Message>, ids: seq<Id>, kind: Kind, p: nat, now: Timestamp)
    requires p < |ids| && Find(ms, Query(ids[p], {kind}, false)) < |ms|
    ensures var one := RemovedOne(ms, ids, kind, p, now);
            && Evolves(ms, one.messages, Cancelled)
            && (forall i :: 0 <= i < |ms| ==> one.messages[i].kind == ms[i].kind)
            && Changes(ms, one.messages, false) <= one.count
            && multiset(one.ids) <= multiset(ids)
  {
    hide Changes, Find, Matches;
    var one := RemovedOne(ms, ids, kind, p, now);
    var i := Find(ms, Query(ids[p], {kind}, false));
    var m := one.messages[i];
    assert one.messages == ms[i := m];
    assert Keeps(ms[i], m, Cancelled);
    NoChanges(ms, ms, false);
    OneChange(ms, i, m, false);
    WithoutShrinks(ids, p);
  }

  lemma {:induction false} ResolveRemovedSafe(ms: seq<Message>, ids: seq<Id>, kind: Kind, count: nat, now: Timestamp)
    ensures var r := ResolveRemoved(ms, ids, kind, count, now);
            && Evolves(ms, r.messages, Cancelled)
            && (forall i :: 0 <= i < |ms| ==> r.messages[i].kind == ms[i].kind)
            && Changes(ms, r.messages, false) <= r.count
            && multiset(r.ids) <= multiset(ids)
    decreases |ids|
  {
    hide ResolveRemoved, RemovedOne, LastResolvable, Find, Changes, Evolves;
    var r := ResolveRemoved(ms, ids, kind, count, now);
    var p := LastResolvable(ids, ms, {kind}, false);
    if count == 0 || p < 0 {
      ResolveRemovedRound(ms, ids, kind, count, now, 0);
      NoChanges(ms, ms, false);
      EvolvesReflexive(ms, Cancelled);
    } else {
      var one := RemovedOne(ms, ids, kind, p, now);
      ResolveRemovedRound(ms, ids, kind, count, now, 0);
      RemovedOneSafe(ms, ids, kind, p, now);
      ResolveRemovedSafe(one.messages, one.ids, kind, count - one.count, now);
      ChangesTriangle(ms, one.messages, r.messages, false);
      EvolvesTransitive(ms, one.messages, r.messages, Cancelled);
    }
  }

  lemma WithoutShrinks<T>(s: seq<T>, p: nat)
    requires p < |s|
    ensures multiset(Without(s, p)) <= multiset(s)
  {
    assert s == s[..p] + [s[p]] + s[p + 1..];
  }

  lemma {:induction false} TouchSafe(ms: seq<Message>, ids: seq<Id>, ps: seq<nat>, kind: Kind, now: Timestamp)
    ensures var r := Touch(ms, ids, ps, kind, now);
            && Evolves(ms, r.messages, Pending)
            && (forall i :: 0 <= i < |ms| ==> r.messages[i] == ms[i].(updatedAt := r.messages[i].updatedAt))
    decreases |ps|
  {
    if ps != [] {
      var i := if ps[0] < |ids| then Find(ms, Query(ids[ps[0]], {kind}, true)) else |ms|;
      var ms' := if i < |ms| then ms[i := ms[i].(updatedAt := now)] else ms;
      TouchSafe(ms', ids, ps[1..], kind, now);
      EvolvesTransitive(ms, ms', Touch(ms, ids, ps, kind, now).messages, Pending);
    }
  }

  lemma TransferredOneSafe(ms: seq<Message>, ids: seq<Id>, to: Kind, p: nat, now: Timestamp)
    requires p < |ids|
    ensures var one := TransferredOne(ms, ids, to, p, now);
            && Evolves(ms, one.messages, Pending)
            && Changes(ms, one.messages, true) <= one.count
            && multiset(one.ids) <= multiset(ids)
  {
    hide Changes, Find;
    var one := TransferredOne(ms, ids, to, p, now);
    var i := Find(ms, Query(ids[p], ANY_KIND, true));
    NoChanges(ms, ms, true);
    if i < |ms| {
      OneChange(ms, i, one.messages[i], true);
    }
    WithoutShrinks(ids, p);
  }

  lemma {:induction false} ResolveTransferredSafe(ms: seq<Message>, ids: seq<Id>, from: Kind, to: Kind, count: nat,
                                                  now: Timestamp)
    ensures var r := ResolveTransferred(ms, ids, from, to, count, now);
            && Evolves(ms, r.messages, Pending)
            && Changes(ms, r.messages, true) <= r.count
            && multiset(r.ids) <= multiset(ids)
    decreases |ids|
  {
    hide ResolveTransferred, TransferredOne, LastResolvable, Find, Changes, Evolves;
    var r := ResolveTransferred(ms, ids, from, to, count, now);
    var p := LastResolvable(ids, ms, {from, to}, true);
    if count == 0 || p < 0 {
      ResolveTransferredRound(ms, ids, from, to, count, now, 0);
      NoChanges(ms, ms, true);
      EvolvesReflexive(ms, Pending);
    } else {
      var one := TransferredOne(ms, ids, to, p, now);
      ResolveTransferredRound(ms, ids, from, to, count, now, 0);
      TransferredOneSafe(ms, ids, to, p, now);
      ResolveTransferredSafe(one.messages, one.ids, from, to, count - one.count, now);
      ChangesTriangle(ms, one.messages, r.messages, true);
      EvolvesTransitive(ms, one.messages, r.messages, Pending);
    }
  }

  lemma RemoveSafe(q: Queue, kind: Kind, count: nat, now: Timestamp)
    ensures var r := Remove(q, kind, count, now);
            && Evolves(q.messages, r.messages, Cancelled)
            && (forall i :: 0 <= i < |q.messages| ==> r.messages[i].kind == q.messages[i].kind)
            && Changes(q.messages, r.messages, false) <= count
            && multiset(r.removed) <= multiset(q.removed)
  {
    hide ResolveRemoved, Touch, PromotedPositions, MarkFirst, Changes;
    var r := ResolveRemoved(q.messages, q.removed, kind, count, now);
    var ps := PromotedPositions(q.promoted, r.messages, kind, count - r.count);
    var t := Touch(r.messages, q.promoted, ps, kind, now);
    var left := if r.count + t.count < count then count - r.count - t.count else 0;
    var m := MarkFirst(t.messages, kind, q.promoted, left, Cancelled, now);
    ResolveRemovedSafe(q.messages, q.removed, kind, count, now);
    TouchSafe(r.messages, q.promoted, ps, kind, now);
    MarkFirstSafe(t.messages, kind, q.promoted, left, Cancelled, now);
    NoChanges(r.messages, t.messages, false);
    ChangesTriangle(q.messages, r.messages, t.messages, false);
    ChangesTriangle(q.messages, t.messages, m, false);
    assert Evolves(r.messages, t.messages, Cancelled);
    EvolvesTransitive(q.messages, r.messages, t.messages, Cancelled);
    EvolvesTransitive(q.messages, t.messages, m, Cancelled);
  }

  lemma TransferSafe(q: Queue, from: Kind, to: Kind, count: nat, now: Timestamp)
    ensures var r := Transfer(q, from, to, count, now);
            && Evolves(q.messages, r.messages, Pending)
            && Changes(q.messages, r.messages, true) <= count
            && multiset(r.promoted) <= multiset(q.promoted)
  {
    hide ResolveTransferred, MoveFirst, Changes;
    var r := ResolveTransferred(q.messages, q.promoted, from, to, count, now);
    var m := MoveFirst(r.messages, from, to, count - r.count, now);
    ResolveTransferredSafe(q.messages, q.promoted, from, to, count, now);
    MoveFirstSafe(r.messages, from, to, count - r.count, now);
    ChangesTriangle(q.messages, r.messages, m, true);
    EvolvesTransitive(q.messages, r.messages, m, Pending);
  }

  /**
   Whatever state the mirror is in and whatever the event says: messages keep their ids, contents,
   handles and order; a status changes only from Pending to the event's own verdict; at most `count`
   messages change; the pending id lists only shrink; and both logs end at most 80 long,
   having lost only their oldest entries.
   */
  lemma EventIsSafe(q: Queue, event: QueueEvent, eventId: Id, now: Timestamp)
    ensures var r := React(q, event, now);
            var q' := HandleEvent(q, event, eventId, now);
            && Evolves(q.messages, r.messages, Verdict(event))
            && (!event.OnTransferred? ==> forall i :: 0 <= i < |q.messages| ==>
                r.messages[i].kind == q.messages[i].kind)
            && Changes(q.messages, r.messages, event.OnTransferred?) <= EventCount(event)
            && multiset(q'.removed) <= multiset(q.removed)
            && multiset(q'.promoted) <= multiset(q.promoted)
            && q'.messages == r.messages[if |r.messages| > 80 then |r.messages| - 80 else 0..]
            && var log := q.events + [EventRecord(eventId, event, now)];
               q'.events == log[if |log| > 80 then |log| - 80 else 0..]
  {
    hide Remove, Transfer, MarkFirst, Changes;
    match event {
      case OnEnqueued(_, _, _) => NoChanges(q.messages, q.messages, false);
      case OnConsumed(kind, count, _) => MarkFirstSafe(q.messages, kind, [], count, Consumed, now);
      case OnCleared(kind, dropped) => MarkFirstSafe(q.messages, kind, [], dropped, Cleared, now);
      case OnRemoved(kind, count, _) => RemoveSafe(q, kind, count, now); RemoveKeepsPromoted(q, kind, count, now);
      case OnTransferred(from, to, count, _, _) =>
        TransferSafe(q, from, to, count, now);
        TransferKeepsRemoved(q, from, to, count, now);
    }
  }

  lemma RemoveKeepsPromoted(q: Queue, kind: Kind, count: nat, now: Timestamp)
    ensures Remove(q, kind, count, now).promoted == q.promoted
    ensures Remove(q, kind, count, now).events == q.events
  {
  }

  lemma TransferKeepsRemoved(q: Queue, from: Kind, to: Kind, count: nat, now: Timestamp)
    ensures Transfer(q, from, to, count, now).removed == q.removed
    ensures Transfer(q, from, to, count, now).events == q.events
  {
  }
}
