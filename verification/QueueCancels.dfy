/**
 Cancels of several messages at once, their lock regions and callbacks interleaved in any order:
 every interleaving ends the same way.
 */
module QueueCancels {
  import opened Prelude
  import opened RuntimeQueue
  import opened QueueProtocol
  import opened QueueSafety
  import opened QueueInvariant

  datatype Phase = Waiting | Pushed | Gone | Done

  /** The mirror, and how far the cancel of each message has got. */
  datatype Cancels = Cancels(mirror: Queue, phase: map<Id, Phase>)

  datatype Action =
    | Push(id: Id)                                       // first lock region
    | AgentRemoves(id: Id, remaining: nat, stamp: Stamp) // the agent drops the entry, the callback runs
    | Mark(id: Id, now: Timestamp)                       // last lock region

  /** Nothing registered yet, and every message to cancel is pending and has a handle. */
  ghost predicate Ready(q: Queue, ids: set<Id>) {
    && DistinctIds(q.messages) && |q.messages| <= MAX_MESSAGES
    && q.removed == [] && q.promoted == []
    && forall id :: id in ids ==> PendingHandle(q.messages, id, false).Ok?
  }

  function Begin(q: Queue, ids: set<Id>): Cancels {
    Cancels(q, map id | id in ids :: Waiting)
  }

  predicate CanAct(c: Cancels, a: Action) {
    && a.id in c.phase
    && match a
       case Push(id) => c.phase[id] == Waiting
       case AgentRemoves(id, _, _) => c.phase[id] == Pushed
       case Mark(id, _) => c.phase[id] == Gone
  }

  function KindOf(ms: seq<Message>, id: Id): Kind {
    var i := Find(ms, Query(id, ANY_KIND, false));
    if i < |ms| then ms[i].kind else Steer
  }

  function Act(c: Cancels, a: Action): Cancels
    requires CanAct(c, a)
  {
    match a
    case Push(id) =>
      Cancels(c.mirror.(removed := c.mirror.removed + [id]), c.phase[id := Pushed])
    case AgentRemoves(id, remaining, stamp) =>
      Cancels(HandleEvent(c.mirror, OnRemoved(KindOf(c.mirror.messages, id), 1, remaining), stamp.eventId, stamp.now),
              c.phase[id := Gone])
    case Mark(id, now) =>
      Cancels(c.mirror.(messages := SetStatus(c.mirror.messages, id, Cancelled, now)), c.phase[id := Done])
  }

  ghost predicate Interleaving(c: Cancels, actions: seq<Action>)
    decreases |actions|
  {
    actions != [] ==> CanAct(c, actions[0]) && Interleaving(Act(c, actions[0]), actions[1..])
  }

  ghost function Outcome(c: Cancels, actions: seq<Action>): Cancels
    requires Interleaving(c, actions)
    decreases |actions|
  {
    if actions == [] then c else Outcome(Act(c, actions[0]), actions[1..])
  }

  // ---------------------------------------------------------------- what every interleaving keeps

  /** Registered ids of a kind, and cancels of that kind the agent has still to carry out. */
  ghost function Registered(c: Cancels, ms: seq<Message>, kind: Kind): set<Id> {
    set id | id in c.mirror.removed && KindOf(ms, id) == kind
  }

  ghost function Outstanding(c: Cancels, ms: seq<Message>, kind: Kind): set<Id> {
    set id | id in c.phase && c.phase[id] == Pushed && KindOf(ms, id) == kind
  }

  /** A message of the initial list now: untouched, or to be cancelled and at most cancelled. */
  ghost predicate Progress(c: Cancels, m: Message, m': Message) {
    && m'.id == m.id && m'.kind == m.kind && m'.content == m.content && m'.handle == m.handle
       && m'.metadata == m.metadata
    && (m.id !in c.phase || c.phase[m.id] == Waiting ==> m' == m)
    && (m.id in c.phase ==> m'.status == Pending || m'.status == Cancelled)
    && (m.id in c.phase && c.phase[m.id] != Waiting && m.id !in c.mirror.removed ==> m'.status == Cancelled)
  }

  ghost predicate Consistent(c: Cancels, ms: seq<Message>) {
    && DistinctIds(ms) && |ms| <= MAX_MESSAGES && c.mirror.promoted == []
    && |c.mirror.messages| == |ms|
    && (forall i :: 0 <= i < |ms| ==> Progress(c, ms[i], c.mirror.messages[i]))
    && Distinct(c.mirror.removed)
    && (forall id :: id in c.mirror.removed ==> id in c.phase && c.phase[id] != Waiting)
    && (forall id :: id in c.phase ==> Find(ms, Query(id, ANY_KIND, false)) < |ms|)
    && (forall kind :: |Registered(c, ms, kind)| == |Outstanding(c, ms, kind)|)
  }

  lemma SameKinds(c: Cancels, ms: seq<Message>, id: Id)
    requires Consistent(c, ms) && id in c.phase
    ensures var i := Find(ms, Query(id, ANY_KIND, false));
            && i < |ms|
            && Find(c.mirror.messages, Query(id, ANY_KIND, false)) == i
            && (forall k :: Find(c.mirror.messages, Query(id, {k}, false)) == if k == KindOf(ms, id) then i else |ms|)
            && ms[i].id == id && c.mirror.messages[i].id == id
            && KindOf(c.mirror.messages, id) == KindOf(ms, id) == ms[i].kind == c.mirror.messages[i].kind
  {
    hide Find;
    var ms' := c.mirror.messages;
    var i := Find(ms, Query(id, ANY_KIND, false));
    assert Progress(c, ms[i], ms'[i]);
    StillDistinct(c, ms);
    FindUnique(ms', i, Query(id, ANY_KIND, false));
    forall k ensures Find(ms', Query(id, {k}, false)) == if k == KindOf(ms, id) then i else |ms| {
      if k == ms[i].kind {
        FindUnique(ms', i, Query(id, {k}, false));
      } else {
        FindNone(ms', i, Query(id, {k}, false));
      }
    }
  }

  lemma StillDistinct(c: Cancels, ms: seq<Message>)
    requires Consistent(c, ms)
    ensures DistinctIds(c.mirror.messages)
  {
    forall i, j | 0 <= i < j < |ms| ensures c.mirror.messages[i].id != c.mirror.messages[j].id {
      assert Progress(c, ms[i], c.mirror.messages[i]) && Progress(c, ms[j], c.mirror.messages[j]);
    }
  }

  lemma BeginConsistent(q: Queue, ids: set<Id>)
    requires Ready(q, ids)
    ensures Consistent(Begin(q, ids), q.messages)
  {
    var c := Begin(q, ids);
    forall kind ensures |Registered(c, q.messages, kind)| == |Outstanding(c, q.messages, kind)| {
      assert Registered(c, q.messages, kind) == {};
      assert Outstanding(c, q.messages, kind) == {};
    }
    forall i | 0 <= i < |q.messages| ensures Progress(c, q.messages[i], q.messages[i]) {
      if q.messages[i].id in ids {
        assert PendingHandle(q.messages, q.messages[i].id, false).Ok?;
        assert Find(q.messages, Query(q.messages[i].id, ANY_KIND, false)) == i;
      }
    }
  }

  /** Pushing an id registers it and makes its cancel outstanding. */
  lemma CountsAfterPush(c: Cancels, c': Cancels, ms: seq<Message>, id: Id, kind: Kind)
    requires id in c.phase && c.phase[id] == Waiting && id !in c.mirror.removed
    requires c'.mirror.removed == c.mirror.removed + [id] && c'.phase == c.phase[id := Pushed]
    requires |Registered(c, ms, kind)| == |Outstanding(c, ms, kind)|
    ensures |Registered(c', ms, kind)| == |Outstanding(c', ms, kind)|
  {
    hide KindOf;
    var ids, ids' := c.mirror.removed, c'.mirror.removed;
    assert forall x :: x in ids' <==> x in ids || x == id;
    if kind == KindOf(ms, id) {
      SmallerSet(Registered(c', ms, kind), Registered(c, ms, kind), id);
      SmallerSet(Outstanding(c', ms, kind), Outstanding(c, ms, kind), id);
    } else {
      assert Registered(c', ms, kind) == Registered(c, ms, kind);
      assert Outstanding(c', ms, kind) == Outstanding(c, ms, kind);
    }
  }

  /** A callback takes one registered id and one outstanding cancel of the same kind. */
  lemma CountsAfterCallback(c: Cancels, c': Cancels, ms: seq<Message>, id: Id, p: nat, kind: Kind)
    requires id in c.phase && c.phase[id] == Pushed && p < |c.mirror.removed| && Distinct(c.mirror.removed)
    requires KindOf(ms, c.mirror.removed[p]) == KindOf(ms, id)
    requires c'.mirror.removed == Without(c.mirror.removed, p) && c'.phase == c.phase[id := Gone]
    requires |Registered(c, ms, kind)| == |Outstanding(c, ms, kind)|
    ensures |Registered(c', ms, kind)| == |Outstanding(c', ms, kind)|
  {
    hide KindOf, Distinct, Without;
    var paid := c.mirror.removed[p];
    WithoutDistinct(c.mirror.removed, p);
    if kind == KindOf(ms, id) {
      assert paid in Registered(c, ms, kind) && id in Outstanding(c, ms, kind);
      SmallerSet(Registered(c, ms, kind), Registered(c', ms, kind), paid);
      SmallerSet(Outstanding(c, ms, kind), Outstanding(c', ms, kind), id);
    } else {
      assert Registered(c', ms, kind) == Registered(c, ms, kind);
      assert Outstanding(c', ms, kind) == Outstanding(c, ms, kind);
    }
  }

  lemma SmallerSet<T>(a: set<T>, b: set<T>, x: T)
    requires x in a
    requires forall y :: y in b <==> y in a && y != x
    ensures |b| == |a| - 1
  {
    assert b == a - {x};
  }

  lemma PushConsistent(c: Cancels, ms: seq<Message>, id: Id)
    requires Consistent(c, ms) && CanAct(c, Push(id))
    ensures Consistent(Act(c, Push(id)), ms)
  {
    hide Find, Registered, Outstanding;
    var c' := Act(c, Push(id));
    forall i | 0 <= i < |ms| ensures Progress(c', ms[i], c'.mirror.messages[i]) {
      assert Progress(c, ms[i], c.mirror.messages[i]);
    }
    forall kind ensures |Registered(c', ms, kind)| == |Outstanding(c', ms, kind)| {
      CountsAfterPush(c, c', ms, id, kind);
    }
  }

  /** The id a callback pays with: one of the cancelled message's kind, not necessarily its own. */
  lemma SomeRegistered(c: Cancels, ms: seq<Message>, id: Id) returns (p: nat)
    requires Consistent(c, ms) && id in c.phase && c.phase[id] == Pushed
    ensures p < |c.mirror.removed| && LastResolvable(c.mirror.removed, c.mirror.messages, {KindOf(ms, id)}, false) == p
    ensures KindOf(ms, c.mirror.removed[p]) == KindOf(ms, id)
  {
    hide Find, LastResolvable, KindOf;
    var kind := KindOf(ms, id);
    assert id in Outstanding(c, ms, kind);
    assert Registered(c, ms, kind) != {};
    var other :| other in Registered(c, ms, kind);
    SameKinds(c, ms, other);
    var k := LastResolvable(c.mirror.removed, c.mirror.messages, {kind}, false);
    assert k >= 0 by {
      var j :| 0 <= j < |c.mirror.removed| && c.mirror.removed[j] == other;
      assert k < j ==> Find(c.mirror.messages, Query(c.mirror.removed[j], {kind}, false)) == |c.mirror.messages|;
    }
    p := k;
    SameKinds(c, ms, c.mirror.removed[p]);
  }

  /** A callback pays with a registered id and never reaches the first-in-line fallback. */
  lemma NeverFallsBack(c: Cancels, ms: seq<Message>, id: Id, now: Timestamp) returns (p: nat, i: nat)
    requires Consistent(c, ms) && id in c.phase && c.phase[id] == Pushed
    ensures var kind := KindOf(c.mirror.messages, id);
            var r := Remove(c.mirror, kind, 1, now);
            && ResolveRemoved(c.mirror.messages, c.mirror.removed, kind, 1, now).count == 1
            && p < |c.mirror.removed| && i < |ms|
            && c.mirror.messages[i].id == c.mirror.removed[p]
            && ms[i].id == c.mirror.removed[p]
            && KindOf(ms, c.mirror.removed[p]) == KindOf(ms, id) == kind
            && r.removed == Without(c.mirror.removed, p) && r.promoted == []
            && r.messages == c.mirror.messages[i := c.mirror.messages[i].(status := Cancelled, updatedAt := now)]
  {
    hide Find, LastResolvable, KindOf, MarkFirst;
    var ms', ids := c.mirror.messages, c.mirror.removed;
    SameKinds(c, ms, id);
    var kind := KindOf(ms', id);
    p := SomeRegistered(c, ms, id);
    SameKinds(c, ms, ids[p]);
    i := Find(ms, Query(ids[p], ANY_KIND, false));
    assert Progress(c, ms[i], ms'[i]);
    ResolveRemovedRound(ms', ids, kind, 1, now, 0);
    var one := RemovedOne(ms', ids, kind, p, now);
    ResolveRemovedRound(one.messages, one.ids, kind, 0, now, 1);
    MarkFirstEnd(one.messages, 0, [], kind, [], 0, Cancelled, now);
  }

  lemma CallbackConsistent(c: Cancels, ms: seq<Message>, id: Id, remaining: nat, stamp: Stamp)
    requires Consistent(c, ms) && CanAct(c, AgentRemoves(id, remaining, stamp))
    ensures Consistent(Act(c, AgentRemoves(id, remaining, stamp)), ms)
  {
    hide Find, KindOf, Remove, ResolveRemoved, Registered, Outstanding, HandleEvent, Distinct, DistinctIds, Progress,
         Without, Act;
    var c' := Act(c, AgentRemoves(id, remaining, stamp));
    var p, i := NeverFallsBack(c, ms, id, stamp.now);
    CallbackMirror(c, id, remaining, stamp);
    WithoutDistinct(c.mirror.removed, p);
    forall k | 0 <= k < |ms| ensures Progress(c', ms[k], c'.mirror.messages[k]) {
      ProgressAfterCallback(c, c', ms, id, p, i, k, stamp.now);
    }
    forall kind ensures |Registered(c', ms, kind)| == |Outstanding(c', ms, kind)| {
      CountsAfterCallback(c, c', ms, id, p, kind);
    }
  }

  /** The mirror after the callback, without its log. */
  lemma CallbackMirror(c: Cancels, id: Id, remaining: nat, stamp: Stamp)
    requires CanAct(c, AgentRemoves(id, remaining, stamp)) && |c.mirror.messages| <= MAX_MESSAGES
    ensures var c', r := Act(c, AgentRemoves(id, remaining, stamp)),
            Remove(c.mirror, KindOf(c.mirror.messages, id), 1, stamp.now);
            && c'.mirror.messages == r.messages && c'.mirror.removed == r.removed && c'.mirror.promoted == r.promoted
            && c'.phase == c.phase[id := Gone]
  {
    hide KindOf, Remove, Evolves;
    EventKeepsNames(c.mirror, OnRemoved(KindOf(c.mirror.messages, id), 1, remaining), stamp.eventId, stamp.now);
  }

  lemma ProgressAfterCallback(c: Cancels, c': Cancels, ms: seq<Message>, id: Id, p: nat, i: nat, k: nat,
                              now: Timestamp)
    requires Consistent(c, ms) && id in c.phase && c.phase[id] == Pushed && p < |c.mirror.removed| && i < |ms|
            && k < |ms|
    requires ms[i].id == c.mirror.removed[p]
    requires c'.mirror.removed == Without(c.mirror.removed, p) && c'.phase == c.phase[id := Gone]
    requires c'.mirror.messages == c.mirror.messages[i := c.mirror.messages[i].(status := Cancelled, updatedAt := now)]
    ensures Progress(c', ms[k], c'.mirror.messages[k])
  {
    hide Find, KindOf, Registered, Outstanding, Without;
    WithoutDistinct(c.mirror.removed, p);
    assert Progress(c, ms[k], c.mirror.messages[k]);
    if k != i {
      assert ms[k].id != ms[i].id;
    }
  }

  lemma WithoutDistinct<T>(s: seq<T>, p: nat)
    requires Distinct(s) && p < |s|
    ensures Distinct(Without(s, p))
    ensures forall x :: x in Without(s, p) <==> x in s && x != s[p]
  {
    var r := Without(s, p);
    assert forall k :: 0 <= k < |r| ==> r[k] == s[if k < p then k else k + 1];
    forall x | x in s && x != s[p] ensures x in r {
      var k :| 0 <= k < |s| && s[k] == x;
      assert r[if k < p then k else k - 1] == x;
    }
  }

  lemma MarkConsistent(c: Cancels, ms: seq<Message>, id: Id, now: Timestamp)
    requires Consistent(c, ms) && CanAct(c, Mark(id, now))
    ensures Consistent(Act(c, Mark(id, now)), ms)
  {
    hide Find, KindOf, DistinctIds, Distinct, Progress, Registered, Outstanding, SetStatus;
    var c' := Act(c, Mark(id, now));
    MarkedLength(c.mirror.messages, id, now);
    forall k | 0 <= k < |ms| ensures Progress(c', ms[k], c'.mirror.messages[k]) {
      ProgressAfterMark(c, ms, id, now, k);
    }
    MarkKeepsCounts(c, c', ms, id);
  }

  lemma MarkedLength(ms: seq<Message>, id: Id, now: Timestamp)
    ensures |SetStatus(ms, id, Cancelled, now)| == |ms|
  {
  }

  lemma ProgressAfterMark(c: Cancels, ms: seq<Message>, id: Id, now: Timestamp, k: nat)
    requires Consistent(c, ms) && CanAct(c, Mark(id, now)) && k < |ms|
    ensures var c' := Act(c, Mark(id, now)); |c'.mirror.messages| == |ms| && Progress(c', ms[k], c'.mirror.messages[k])
  {
    SameKinds(c, ms, id);
    assert Progress(c, ms[k], c.mirror.messages[k]);
    hide Find, KindOf, DistinctIds, Distinct, Registered, Outstanding, Consistent;
  }

  lemma MarkKeepsCounts(c: Cancels, c': Cancels, ms: seq<Message>, id: Id)
    requires id in c.phase && c.phase[id] == Gone && c'.phase == c.phase[id := Done]
            && c'.mirror.removed == c.mirror.removed
    requires forall kind :: |Registered(c, ms, kind)| == |Outstanding(c, ms, kind)|
    ensures forall kind :: |Registered(c', ms, kind)| == |Outstanding(c', ms, kind)|
  {
    hide KindOf;
    forall kind ensures |Registered(c', ms, kind)| == |Outstanding(c', ms, kind)| {
      assert Registered(c', ms, kind) == Registered(c, ms, kind);
      assert Outstanding(c', ms, kind) == Outstanding(c, ms, kind);
    }
  }

  lemma {:induction false} InterleavingConsistent(c: Cancels, ms: seq<Message>, actions: seq<Action>)
    requires Consistent(c, ms) && Interleaving(c, actions)
    ensures Consistent(Outcome(c, actions), ms) && Outcome(c, actions).phase.Keys == c.phase.Keys
    decreases |actions|
  {
    hide Consistent, HandleEvent, KindOf, SetStatus;
    if actions != [] {
      match actions[0] {
        case Push(id) => PushConsistent(c, ms, id);
        case AgentRemoves(id, remaining, stamp) => CallbackConsistent(c, ms, id, remaining, stamp);
        case Mark(id, now) => MarkConsistent(c, ms, id, now);
      }
      InterleavingConsistent(Act(c, actions[0]), ms, actions[1..]);
    }
  }

  /**
   Confluence: however the regions and callbacks of any set of cancels interleave, once all are done
   exactly those messages are cancelled, nothing else has changed at all, and no id stays registered.
   */
  lemma CancelsAreConfluent(q: Queue, ids: set<Id>, actions: seq<Action>)
    requires Ready(q, ids) && Interleaving(Begin(q, ids), actions)
    requires var end := Outcome(Begin(q, ids), actions); forall id :: id in end.phase ==> end.phase[id] == Done
    ensures var end := Outcome(Begin(q, ids), actions).mirror;
            && end.removed == []
            && |end.messages| == |q.messages|
            && forall i :: 0 <= i < |q.messages| ==>
                 if q.messages[i].id in ids
                 then end.messages[i] == q.messages[i].(status := Cancelled, updatedAt := end.messages[i].updatedAt)
                 else end.messages[i] == q.messages[i]
  {
    var c := Begin(q, ids);
    var end := Outcome(c, actions);
    hide KindOf, Find, Interleaving, Outcome, Ready;
    BeginConsistent(q, ids);
    InterleavingConsistent(c, q.messages, actions);
    NothingRegistered(end, q.messages);
    forall i | 0 <= i < |q.messages|
      ensures if q.messages[i].id in ids
              then end.mirror.messages[i]
                == q.messages[i].(status := Cancelled, updatedAt := end.mirror.messages[i].updatedAt)
              else end.mirror.messages[i] == q.messages[i]
    {
      assert Progress(end, q.messages[i], end.mirror.messages[i]);
    }
  }

  lemma NothingRegistered(c: Cancels, ms: seq<Message>)
    requires Consistent(c, ms) && forall id :: id in c.phase ==> c.phase[id] == Done
    ensures c.mirror.removed == []
  {
    hide KindOf;
    var ids := c.mirror.removed;
    assert ids == [] || ids[0] in Registered(c, ms, KindOf(ms, ids[0]));
    forall kind ensures Registered(c, ms, kind) == {} {
      assert Outstanding(c, ms, kind) == {};
    }
  }

  /**
   A cancel that has not begun finds its message as it was, pending and with its handle: the first lock region
   of no cancel is refused.
   */
  lemma WaitingCancelSucceeds(q: Queue, ids: set<Id>, actions: seq<Action>, id: Id)
    requires Ready(q, ids) && Interleaving(Begin(q, ids), actions)
    requires var c := Outcome(Begin(q, ids), actions); id in c.phase && c.phase[id] == Waiting
    ensures var c := Outcome(Begin(q, ids), actions);
            PendingHandle(c.mirror.messages, id, false) == PendingHandle(q.messages, id, false)
              && PendingHandle(q.messages, id, false).Ok?
  {
    var c := Outcome(Begin(q, ids), actions);
    BeginConsistent(q, ids);
    InterleavingConsistent(Begin(q, ids), q.messages, actions);
    SameKinds(c, q.messages, id);
    hide Find, Outcome, Interleaving, KindOf;
    assert Progress(c, q.messages[Find(q.messages, Query(id, ANY_KIND, false))],
                    c.mirror.messages[Find(q.messages, Query(id, ANY_KIND, false))]);
  }

  /** And at no callback of such an interleaving is the first-in-line fallback used. */
  lemma CancelsNeverFallBack(q: Queue, ids: set<Id>, actions: seq<Action>, next: Action)
    requires Ready(q, ids) && Interleaving(Begin(q, ids), actions)
    requires next.AgentRemoves? && CanAct(Outcome(Begin(q, ids), actions), next)
    ensures var c := Outcome(Begin(q, ids), actions);
            ResolveRemoved(c.mirror.messages, c.mirror.removed, KindOf(c.mirror.messages, next.id), 1,
                           next.stamp.now).count == 1
  {
    BeginConsistent(q, ids);
    InterleavingConsistent(Begin(q, ids), q.messages, actions);
    var _, _ := NeverFallsBack(Outcome(Begin(q, ids), actions), q.messages, next.id, next.stamp.now);
  }
}
