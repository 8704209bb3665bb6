/**
 The other queue events and the lookups, message by message and for every state: what a consumption, a
 clear and a transfer do to each message, and when a cancel or a promotion is refused.
 */
module QueueEvents {
  import opened Prelude
  import opened RuntimeQueue
  import opened QueueRemoval

  // ---------------------------------------------------------------- consumed and cleared

  /** How many pending messages of the kind there are. */
  function PendingCount(ms: seq<Message>, kind: Kind): nat {
    if ms == [] then 0
    else
      var last := ms[|ms| - 1];
      PendingCount(ms[..|ms| - 1], kind) + (if last.kind == kind && last.status == Pending then 1 else 0)
  }

  /** The message is one of the first `count` pending ones of the kind. */
  predicate Oldest(ms: seq<Message>, kind: Kind, count: nat, i: nat)
    requires i < |ms|
  {
    ms[i].kind == kind && ms[i].status == Pending && PendingCount(ms[..i], kind) < count
  }

  lemma {:induction false} PendingCountIs(ms: seq<Message>, kind: Kind)
    ensures PendingCount(ms, kind) == EligibleCount(ms, kind, [])
  {
    if ms != [] {
      var n := |ms| - 1;
      PendingCountIs(ms[..n], kind);
      EligibleMore(ms, kind, [], n);
      assert ms[..n + 1] == ms;
    }
  }

  lemma OldestIs(ms: seq<Message>, kind: Kind, count: nat, i: nat)
    requires i < |ms|
    ensures Oldest(ms, kind, count, i) <==> Taken(ms, kind, [], count, i)
  {
    PendingCountIs(ms[..i], kind);
  }

  /**
   A consumption marks the first `count` pending messages of the kind consumed, a clear marks them cleared;
   every other message stays as it was.
   */
  lemma MarkedByEvent(q: Queue, event: QueueEvent, now: Timestamp, i: nat)
    requires i < |q.messages| && (event.OnConsumed? || event.OnCleared?)
    ensures var r, m := React(q, event, now), q.messages[i];
      && |r.messages| == |q.messages| && r == q.(messages := r.messages)
      && r.messages[i] ==
           match event
           case OnConsumed(kind, count, _) =>
             if Oldest(q.messages, kind, count, i) then m.(status := Consumed, updatedAt := now) else m
           case OnCleared(kind, dropped) =>
             if Oldest(q.messages, kind, dropped, i) then m.(status := Cleared, updatedAt := now) else m
           case _ => m
  {
    hide MarkFirst, Oldest;
    match event {
      case OnConsumed(kind, count, _) =>
        MarkFirstAt(q.messages, kind, [], count, Consumed, now, i);
        OldestIs(q.messages, kind, count, i);
      case OnCleared(kind, dropped) =>
        MarkFirstAt(q.messages, kind, [], dropped, Cleared, now, i);
        OldestIs(q.messages, kind, dropped, i);
      case _ =>
    }
  }

  // ---------------------------------------------------------------- transfers

  /** The first pending message with the id, or |ms|. */
  function FirstPending(ms: seq<Message>, id: Id): nat {
    Find(ms, Query(id, ANY_KIND, true))
  }

  /** A registered promotion can be carried out: some pending message of one of the two kinds has the id. */
  predicate Movable(ms: seq<Message>, id: Id, from: Kind, to: Kind) {
    exists i :: 0 <= i < |ms| && ms[i].id == id && ms[i].status == Pending && (ms[i].kind == from || ms[i].kind == to)
  }

  function MovableCount(ms: seq<Message>, ids: seq<Id>, from: Kind, to: Kind): nat {
    if ids == [] then 0
    else MovableCount(ms, ids[..|ids| - 1], from, to) + (if Movable(ms, ids[|ids| - 1], from, to) then 1 else 0)
  }

  /** The registration is carried out: it can be, and the newer ones are not enough. */
  predicate CarriedOut(ms: seq<Message>, ids: seq<Id>, from: Kind, to: Kind, count: nat, j: nat)
    requires j < |ids|
  {
    Movable(ms, ids[j], from, to) && MovableCount(ms, ids[j + 1..], from, to) < count
  }

  /** The message is moved for a registration. */
  predicate MovedFor(ms: seq<Message>, ids: seq<Id>, from: Kind, to: Kind, count: nat, i: nat) {
    exists j :: 0 <= j < |ids| && CarriedOut(ms, ids, from, to, count, j) && FirstPending(ms, ids[j]) == i
  }

  /** The first n registrations without those carried out. */
  function Waiting(ms: seq<Message>, ids: seq<Id>, from: Kind, to: Kind, count: nat, n: nat): seq<Id>
    requires n <= |ids|
  {
    if n == 0 then []
    else
      Waiting(ms, ids, from, to, count, n - 1)
      + (if CarriedOut(ms, ids, from, to, count, n - 1) then [] else [ids[n - 1]])
  }

  lemma MovableIff(ms: seq<Message>, id: Id, from: Kind, to: Kind)
    ensures Movable(ms, id, from, to) <==> Find(ms, Query(id, {from, to}, true)) < |ms|
    ensures Movable(ms, id, from, to) ==> FirstPending(ms, id) < |ms|
  {
    var i := Find(ms, Query(id, {from, to}, true));
    hide Find;
    if i < |ms| {
      assert ms[i].id == id && ms[i].status == Pending && (ms[i].kind == from || ms[i].kind == to);
    }
    if Movable(ms, id, from, to) {
      var k :| 0 <= k < |ms| && ms[k].id == id && ms[k].status == Pending && (ms[k].kind == from || ms[k].kind == to);
      assert ms[k].kind == Steer || ms[k].kind == FollowUp;
      assert Matches(ms[k], Query(id, {from, to}, true)) && Matches(ms[k], Query(id, ANY_KIND, true));
    }
  }

  /** The same ids and the same messages pending, some of those that were pending with the kind `to`. */
  ghost predicate MovesAlike(a: seq<Message>, b: seq<Message>, from: Kind, to: Kind) {
    && |a| == |b|
    && (forall i :: 0 <= i < |a| ==> a[i].id == b[i].id && (a[i].status == Pending <==> b[i].status == Pending))
    && (forall id :: Movable(a, id, from, to) <==> Movable(b, id, from, to))
  }

  lemma FirstPendingAlike(a: seq<Message>, b: seq<Message>, id: Id)
    requires |a| == |b|
    requires forall i :: 0 <= i < |a| ==> a[i].id == b[i].id && (a[i].status == Pending <==> b[i].status == Pending)
    ensures FirstPending(a, id) == FirstPending(b, id)
  {
    assert forall i :: 0 <= i < |a| ==>
        (a[i].kind == Steer || a[i].kind == FollowUp) && (b[i].kind == Steer || b[i].kind == FollowUp);
    SameFirst(a, b, Query(id, ANY_KIND, true));
    hide Find;
  }

  lemma {:induction false} MovableCountAlike(a: seq<Message>, b: seq<Message>, ids: seq<Id>, from: Kind, to: Kind)
    requires MovesAlike(a, b, from, to)
    ensures MovableCount(a, ids, from, to) == MovableCount(b, ids, from, to)
  {
    hide Movable;
    if ids != [] {
      MovableCountAlike(a, b, ids[..|ids| - 1], from, to);
    }
  }

  lemma OneMoves(ms: seq<Message>, ids: seq<Id>, from: Kind, to: Kind, p: nat, now: Timestamp)
    requires p < |ids| && Movable(ms, ids[p], from, to)
    ensures var one, i := TransferredOne(ms, ids, to, p, now), FirstPending(ms, ids[p]);
      && i < |ms| && one.count == 1 && one.ids == Without(ids, p) && MovesAlike(ms, one.messages, from, to)
      && forall k :: 0 <= k < |ms| ==>
           one.messages[k] == ms[k].(kind := if k == i then to else ms[k].kind, updatedAt := one.messages[k].updatedAt)
  {
    hide Find, Without, Movable;
    MovableIff(ms, ids[p], from, to);
    var i := FirstPending(ms, ids[p]);
    var after := ms[i := ms[i].(kind := to, updatedAt := now)];
    forall id ensures Movable(ms, id, from, to) <==> Movable(after, id, from, to) {
      MovableAfter(ms, i, ids[p], from, to, now, id);
    }
  }

  lemma MovableAfter(ms: seq<Message>, i: nat, moved: Id, from: Kind, to: Kind, now: Timestamp, id: Id)
    requires i < |ms| && ms[i].id == moved && ms[i].status == Pending && Movable(ms, moved, from, to)
    ensures Movable(ms, id, from, to) <==> Movable(ms[i := ms[i].(kind := to, updatedAt := now)], id, from, to)
  {
    var after := ms[i := ms[i].(kind := to, updatedAt := now)];
    if id == moved {
      assert after[i].id == id && after[i].status == Pending && after[i].kind == to;
    } else {
      assert forall k :: 0 <= k < |ms| && ms[k].id == id ==> after[k] == ms[k];
    }
  }

  // ---------------------------------------------------------------- the registered promotions

  lemma MovableMore(ms: seq<Message>, ids: seq<Id>, x: Id, from: Kind, to: Kind)
    ensures MovableCount(ms, ids + [x], from, to)
            == MovableCount(ms, ids, from, to) + (if Movable(ms, x, from, to) then 1 else 0)
  {
    hide Movable;
    assert (ids + [x])[..|ids|] == ids;
  }

  lemma LastMovable(ids: seq<Id>, x: Id, ms: seq<Message>, from: Kind, to: Kind)
    ensures LastResolvable(ids + [x], ms, {from, to}, true)
         == if Movable(ms, x, from, to) then |ids| else LastResolvable(ids, ms, {from, to}, true)
  {
    MovableIff(ms, x, from, to);
    assert (ids + [x])[..|ids|] == ids;
    hide Find, Movable;
  }

  /** The newest registration stays where it is when it cannot be carried out. */
  lemma {:induction false} NewestWaits(ms: seq<Message>, ids: seq<Id>, x: Id, from: Kind, to: Kind, count: nat,
                                       now: Timestamp)
    requires !Movable(ms, x, from, to)
    ensures var r := ResolveTransferred(ms, ids, from, to, count, now);
      ResolveTransferred(ms, ids + [x], from, to, count, now) == Resolved(r.messages, r.ids + [x], r.count)
    decreases |ids|
  {
    hide Find, TransferredOne, LastResolvable, ResolveTransferred, Movable;
    LastMovable(ids, x, ms, from, to);
    ResolveTransferredRound(ms, ids, from, to, count, now, 0);
    ResolveTransferredRound(ms, ids + [x], from, to, count, now, 0);
    var p := LastResolvable(ids, ms, {from, to}, true);
    if count > 0 && p >= 0 {
      var one := TransferredOne(ms, ids, to, p, now);
      WaitsOn(ms, ids, x, from, to, p, now);
      NewestWaits(one.messages, one.ids, x, from, to, count - one.count, now);
    }
  }

  lemma WaitsOn(ms: seq<Message>, ids: seq<Id>, x: Id, from: Kind, to: Kind, p: nat, now: Timestamp)
    requires !Movable(ms, x, from, to) && p < |ids| && Find(ms, Query(ids[p], {from, to}, true)) < |ms|
    ensures var one := TransferredOne(ms, ids, to, p, now);
      && |one.ids| < |ids| && !Movable(one.messages, x, from, to)
      && TransferredOne(ms, ids + [x], to, p, now) == Resolved(one.messages, one.ids + [x], one.count)
  {
    MovableIff(ms, ids[p], from, to);
    OneMoves(ms, ids, from, to, p, now);
    hide Find, Movable;
    assert (ids + [x])[p + 1..] == ids[p + 1..] + [x] && (ids + [x])[..p] == ids[..p];
  }

  lemma NewestMoves(ms: seq<Message>, ids: seq<Id>, x: Id, from: Kind, to: Kind, count: nat, now: Timestamp)
    requires count > 0 && Movable(ms, x, from, to)
    ensures var one := TransferredOne(ms, ids + [x], to, |ids|, now);
      && one.count == 1 && one.ids == ids
      && ResolveTransferred(ms, ids + [x], from, to, count, now)
         == Add(ResolveTransferred(one.messages, ids, from, to, count - 1, now), 1)
  {
    hide Find, TransferredOne, ResolveTransferred, LastResolvable, Movable;
    ResolveTransferredRound(ms, ids + [x], from, to, count, now, 0);
    LastMovable(ids, x, ms, from, to);
    OneMoves(ms, ids + [x], from, to, |ids|, now);
    assert Without(ids + [x], |ids|) == ids;
  }

  lemma CarriedOutMore(ms: seq<Message>, after: seq<Message>, ids: seq<Id>, x: Id, from: Kind, to: Kind, count: nat,
                       j: nat)
    requires MovesAlike(ms, after, from, to) && j < |ids| && (Movable(ms, x, from, to) ==> count > 0)
    ensures var pay := if Movable(ms, x, from, to) then 1 else 0;
      CarriedOut(ms, ids + [x], from, to, count, j) <==> CarriedOut(after, ids, from, to, count - pay, j)
  {
    hide Movable;
    MovableMore(ms, ids[j + 1..], x, from, to);
    assert (ids + [x])[j + 1..] == ids[j + 1..] + [x];
    MovableCountAlike(ms, after, ids[j + 1..], from, to);
  }

  lemma NewestCarriedOut(ms: seq<Message>, ids: seq<Id>, x: Id, from: Kind, to: Kind, count: nat)
    ensures CarriedOut(ms, ids + [x], from, to, count, |ids|) <==> count > 0 && Movable(ms, x, from, to)
  {
    hide Movable;
    assert (ids + [x])[|ids| + 1..] == [];
  }

  lemma MovedForMore(ms: seq<Message>, after: seq<Message>, ids: seq<Id>, x: Id, from: Kind, to: Kind, count: nat,
                     i: nat)
    requires MovesAlike(ms, after, from, to) && (Movable(ms, x, from, to) ==> count > 0)
    ensures var pay := if Movable(ms, x, from, to) then 1 else 0;
      MovedFor(ms, ids + [x], from, to, count, i) <==>
        || (count > 0 && Movable(ms, x, from, to) && FirstPending(ms, x) == i)
        || MovedFor(after, ids, from, to, count - pay, i)
  {
    hide Movable, Find, CarriedOut, FirstPending;
    var all, pay := ids + [x], if Movable(ms, x, from, to) then 1 else 0;
    NewestCarriedOut(ms, ids, x, from, to, count);
    forall j | 0 <= j < |ids|
      ensures CarriedOut(ms, all, from, to, count, j) <==> CarriedOut(after, ids, from, to, count - pay, j)
      ensures FirstPending(ms, all[j]) == FirstPending(after, ids[j])
    {
      CarriedOutMore(ms, after, ids, x, from, to, count, j);
      FirstPendingAlike(ms, after, ids[j]);
    }
    if MovedFor(ms, all, from, to, count, i) {
      var j :| 0 <= j < |all| && CarriedOut(ms, all, from, to, count, j) && FirstPending(ms, all[j]) == i;
      assert j < |ids| ==> CarriedOut(after, ids, from, to, count - pay, j) && FirstPending(after, ids[j]) == i;
    }
    if MovedFor(after, ids, from, to, count - pay, i) {
      var j :| 0 <= j < |ids| && CarriedOut(after, ids, from, to, count - pay, j) && FirstPending(after, ids[j]) == i;
      assert CarriedOut(ms, all, from, to, count, j) && FirstPending(ms, all[j]) == i;
    }
    if count > 0 && Movable(ms, x, from, to) && FirstPending(ms, x) == i {
      assert CarriedOut(ms, all, from, to, count, |ids|) && FirstPending(ms, all[|ids|]) == i;
    }
  }

  lemma {:induction false} WaitingMore(ms: seq<Message>, after: seq<Message>, ids: seq<Id>, x: Id, from: Kind,
                                       to: Kind,
                                       count: nat, n: nat)
    requires MovesAlike(ms, after, from, to) && (Movable(ms, x, from, to) ==> count > 0) && n <= |ids|
    ensures var pay := if Movable(ms, x, from, to) then 1 else 0;
      Waiting(ms, ids + [x], from, to, count, n) == Waiting(after, ids, from, to, count - pay, n)
  {
    hide Movable, CarriedOut;
    if n > 0 {
      WaitingMore(ms, after, ids, x, from, to, count, n - 1);
      CarriedOutMore(ms, after, ids, x, from, to, count, n - 1);
    }
  }

  /** A message after the registrations were carried out. */
  predicate MovedTo(m: Message, m': Message, moved: bool, to: Kind) {
    m' == m.(kind := if moved then to else m.kind, updatedAt := m'.updatedAt)
  }

  ghost predicate PromotionsCarriedOut(ms: seq<Message>, ids: seq<Id>, from: Kind, to: Kind, count: nat, r: Resolved) {
    && |r.messages| == |ms| && r.count == Min(count, MovableCount(ms, ids, from, to))
    && r.ids == Waiting(ms, ids, from, to, count, |ids|)
    && forall i :: 0 <= i < |ms| ==> MovedTo(ms[i], r.messages[i], MovedFor(ms, ids, from, to, count, i), to)
  }

  lemma {:induction false} NothingCarriedOut(ms: seq<Message>, ids: seq<Id>, from: Kind, to: Kind, n: nat)
    requires n <= |ids|
    ensures Waiting(ms, ids, from, to, 0, n) == ids[..n] && forall i :: !MovedFor(ms, ids, from, to, 0, i)
  {
    hide Movable;
    if n > 0 {
      NothingCarriedOut(ms, ids, from, to, n - 1);
    }
  }

  lemma NothingMoves(ms: seq<Message>, ids: seq<Id>, from: Kind, to: Kind, count: nat, now: Timestamp)
    requires ids == [] || count == 0
    ensures PromotionsCarriedOut(ms, ids, from, to, count, ResolveTransferred(ms, ids, from, to, count, now))
  {
    hide Movable, CarriedOut, TransferredOne;
    if count == 0 {
      NothingCarriedOut(ms, ids, from, to, |ids|);
      assert ids[..|ids|] == ids;
    }
  }

  /** For every state: the newest registrations that can be carried out are, until the transfer is paid for. */
  lemma {:induction false} ResolveTransferredIs(ms: seq<Message>, ids: seq<Id>, from: Kind, to: Kind, count: nat,
                                                now: Timestamp)
    ensures PromotionsCarriedOut(ms, ids, from, to, count, ResolveTransferred(ms, ids, from, to, count, now))
    decreases |ids|
  {
    hide ResolveTransferred, PromotionsCarriedOut, TransferredOne, Movable;
    if ids == [] || count == 0 {
      NothingMoves(ms, ids, from, to, count, now);
    } else {
      var older, x := ids[..|ids| - 1], ids[|ids| - 1];
      assert ids == older + [x];
      if !Movable(ms, x, from, to) {
        NewestWaits(ms, older, x, from, to, count, now);
        ResolveTransferredIs(ms, older, from, to, count, now);
        KeptWaiting(ms, older, x, from, to, count, ResolveTransferred(ms, older, from, to, count, now));
      } else {
        var one := TransferredOne(ms, ids, to, |older|, now);
        NewestMoves(ms, older, x, from, to, count, now);
        ResolveTransferredIs(one.messages, older, from, to, count - 1, now);
        CarriedNext(ms, older, x, from, to, count, now,
                    ResolveTransferred(one.messages, older, from, to, count - 1, now));
      }
    }
  }

  lemma KeptWaiting(ms: seq<Message>, older: seq<Id>, x: Id, from: Kind, to: Kind, count: nat, r: Resolved)
    requires count > 0 && !Movable(ms, x, from, to) && PromotionsCarriedOut(ms, older, from, to, count, r)
    ensures PromotionsCarriedOut(ms, older + [x], from, to, count, Resolved(r.messages, r.ids + [x], r.count))
  {
    hide Movable, CarriedOut, MovedFor, MovedTo, FirstPending;
    MovableMore(ms, older, x, from, to);
    assert MovesAlike(ms, ms, from, to);
    WaitingMore(ms, ms, older, x, from, to, count, |older|);
    NewestCarriedOut(ms, older, x, from, to, count);
    forall i | 0 <= i < |ms| ensures MovedTo(ms[i], r.messages[i], MovedFor(ms, older + [x], from, to, count, i), to) {
      MovedForMore(ms, ms, older, x, from, to, count, i);
    }
  }

  lemma CarriedNext(ms: seq<Message>, older: seq<Id>, x: Id, from: Kind, to: Kind, count: nat, now: Timestamp,
                    r: Resolved)
    requires count > 0 && Movable(ms, x, from, to)
    requires var one := TransferredOne(ms, older + [x], to, |older|, now);
      PromotionsCarriedOut(one.messages, older, from, to, count - 1, r)
    ensures PromotionsCarriedOut(ms, older + [x], from, to, count, Add(r, 1))
  {
    hide Movable, CarriedOut, MovedFor, MovesAlike, FirstPending, TransferredOne;
    var one := TransferredOne(ms, older + [x], to, |older|, now);
    OneMoves(ms, older + [x], from, to, |older|, now);
    MovableMore(ms, older, x, from, to);
    MovableCountAlike(ms, one.messages, older, from, to);
    WaitingMore(ms, one.messages, older, x, from, to, count, |older|);
    NewestCarriedOut(ms, older, x, from, to, count);
    forall i | 0 <= i < |ms| ensures MovedTo(ms[i], r.messages[i], MovedFor(ms, older + [x], from, to, count, i), to) {
      MovedForMore(ms, one.messages, older, x, from, to, count, i);
      assert MovedTo(one.messages[i], r.messages[i], MovedFor(one.messages, older, from, to, count - 1, i), to);
    }
  }

  // ---------------------------------------------------------------- a transfer as a whole

  /** The message is pending and of the kind once the registered promotions are carried out. */
  predicate Behind(q: Queue, from: Kind, to: Kind, count: nat, i: nat)
    requires i < |q.messages|
  {
    && q.messages[i].status == Pending
    && (if MovedFor(q.messages, q.promoted, from, to, count, i) then to else q.messages[i].kind) == from
  }

  function BehindBefore(q: Queue, from: Kind, to: Kind, count: nat, i: nat): nat
    requires i <= |q.messages|
  {
    if i == 0 then 0
    else BehindBefore(q, from, to, count, i - 1) + (if Behind(q, from, to, count, i - 1) then 1 else 0)
  }

  /** The messages a transfer of `count` entries moves. */
  predicate MovedBy(q: Queue, from: Kind, to: Kind, count: nat, i: nat)
    requires i < |q.messages|
  {
    || MovedFor(q.messages, q.promoted, from, to, count, i)
    || (Behind(q, from, to, count, i)
        && MovableCount(q.messages, q.promoted, from, to) + BehindBefore(q, from, to, count, i) < count)
  }

  lemma {:induction false} BehindAlike(q: Queue, from: Kind, to: Kind, count: nat, ms: seq<Message>, i: nat)
    requires |ms| == |q.messages| && i <= |ms|
    requires forall k :: 0 <= k < |ms| ==>
               MovedTo(q.messages[k], ms[k], MovedFor(q.messages, q.promoted, from, to, count, k), to)
    ensures EligibleCount(ms[..i], from, []) == BehindBefore(q, from, to, count, i)
  {
    hide MovedFor;
    if i > 0 {
      BehindAlike(q, from, to, count, ms, i - 1);
      EligibleMore(ms, from, [], i - 1);
      assert MovedTo(q.messages[i - 1], ms[i - 1], MovedFor(q.messages, q.promoted, from, to, count, i - 1), to);
    } else {
      assert ms[..0] == [];
    }
  }

  /**
   For every state, with any registrations, and every message: a transfer moves the messages of the newest
   registered promotions that can be carried out, and only for what is left the first pending messages
   of the source kind. Nothing else of any message changes but its time.
   */
  lemma TransferIs(q: Queue, from: Kind, to: Kind, count: nat, now: Timestamp)
    ensures var r := Transfer(q, from, to, count, now);
      && |r.messages| == |q.messages|
      && (forall i :: 0 <= i < |q.messages| ==>
            r.messages[i] == q.messages[i].(kind := if MovedBy(q, from, to, count, i) then to else q.messages[i].kind,
                                            updatedAt := r.messages[i].updatedAt))
      && r == q.(messages := r.messages, promoted := Waiting(q.messages, q.promoted, from, to, count, |q.promoted|))
  {
    hide ResolveTransferred, MoveFirst, MovedFor, Waiting, EligibleCount, MovableCount;
    var r, after := ResolveTransferred(q.messages, q.promoted, from, to, count, now),
        Transfer(q, from, to, count, now);
    ResolveTransferredIs(q.messages, q.promoted, from, to, count, now);
    forall i | 0 <= i < |q.messages|
      ensures after.messages[i]
              == q.messages[i].(kind := if MovedBy(q, from, to, count, i) then to else q.messages[i].kind,
                                                  updatedAt := after.messages[i].updatedAt)
    {
      MoveFirstAt(r.messages, from, to, count - r.count, now, i);
      BehindAlike(q, from, to, count, r.messages, i);
      assert MovedTo(q.messages[i], r.messages[i], MovedFor(q.messages, q.promoted, from, to, count, i), to);
    }
  }

  // ---------------------------------------------------------------- refusals

  /** The message at i is the first with the id. */
  predicate First(ms: seq<Message>, id: Id, i: nat) {
    i < |ms| && ms[i].id == id && forall j :: 0 <= j < i ==> ms[j].id != id
  }

  lemma FirstIs(ms: seq<Message>, id: Id, i: nat)
    requires First(ms, id, i)
    ensures Find(ms, Query(id, ANY_KIND, false)) == i
  {
    var k := Find(ms, Query(id, ANY_KIND, false));
    hide Find;
    assert ms[i].kind == Steer || ms[i].kind == FollowUp;
    assert Matches(ms[i], Query(id, ANY_KIND, false));
  }

  /**
   A cancel of an unknown message is refused; of a known one, exactly when it is not pending or has no handle,
   in this order.
   */
  lemma CancelRefusedIff(ms: seq<Message>, id: Id, i: nat)
    ensures (forall k :: 0 <= k < |ms| ==> ms[k].id != id) <==> PendingHandle(ms, id, false) == Err(NotFound)
    ensures First(ms, id, i) ==>
      && (PendingHandle(ms, id, false) == Err(NotPending) <==> ms[i].status != Pending)
      && (PendingHandle(ms, id, false) == Err(HandleMissing) <==> ms[i].status == Pending && ms[i].handle.None?)
      && (PendingHandle(ms, id, false).Ok? <==> ms[i].status == Pending && ms[i].handle.Some?)
      && (PendingHandle(ms, id, false).Ok? ==> PendingHandle(ms, id, false).value == ms[i].handle.value)
  {
    UnknownIff(ms, id);
    if First(ms, id, i) {
      FirstIs(ms, id, i);
    }
    hide Find;
  }

  lemma UnknownIff(ms: seq<Message>, id: Id)
    ensures (forall k :: 0 <= k < |ms| ==> ms[k].id != id) <==> Find(ms, Query(id, ANY_KIND, false)) == |ms|
  {
    var k := Find(ms, Query(id, ANY_KIND, false));
    hide Find;
    assert forall j :: 0 <= j < |ms| ==> ms[j].kind == Steer || ms[j].kind == FollowUp;
    assert forall j :: 0 <= j < |ms| && ms[j].id == id ==> Matches(ms[j], Query(id, ANY_KIND, false));
  }

  /** A promotion is refused in the same cases, and, behind the status, when the message is no follow-up. */
  lemma PromoteRefusedIff(ms: seq<Message>, id: Id, i: nat)
    ensures (forall k :: 0 <= k < |ms| ==> ms[k].id != id) <==> PendingHandle(ms, id, true) == Err(NotFound)
    ensures First(ms, id, i) ==>
      var r, waiting := PendingHandle(ms, id, true), ms[i].status == Pending;
      && (r == Err(NotPending) <==> !waiting)
      && (r == Err(InvalidKind) <==> waiting && ms[i].kind == Steer)
      && (r == Err(HandleMissing) <==> waiting && ms[i].kind == FollowUp && ms[i].handle.None?)
      && (r.Ok? <==> waiting && ms[i].kind == FollowUp && ms[i].handle.Some?)
      && (r.Ok? ==> r.value == ms[i].handle.value)
  {
    UnknownIff(ms, id);
    if First(ms, id, i) {
      FirstIs(ms, id, i);
    }
    hide Find;
  }

  // ---------------------------------------------------------------- the other lock regions

  /**
   The last region of a cancel and the handle of an enqueue change only the first message with the id, and only
   in that.
   */
  lemma NamedMessageIs(ms: seq<Message>, id: Id, i: nat, status: Status, handle: Handle, now: Timestamp)
    ensures (forall k :: 0 <= k < |ms| ==> ms[k].id != id) ==>
              SetStatus(ms, id, status, now) == ms && SetHandle(ms, id, handle) == ms
    ensures First(ms, id, i) ==>
      && SetStatus(ms, id, status, now) == ms[i := ms[i].(status := status, updatedAt := now)]
      && SetHandle(ms, id, handle) == ms[i := ms[i].(handle := Some(handle))]
  {
    UnknownIff(ms, id);
    if First(ms, id, i) {
      FirstIs(ms, id, i);
    }
    hide Find;
  }

  /**
   The last region of a promotion turns the first pending message with the id, if there is one, into a steering
   message under the new handle.
   */
  lemma PromotedMessageIs(ms: seq<Message>, id: Id, i: nat, handle: Handle, now: Timestamp)
    ensures (forall k :: 0 <= k < |ms| && ms[k].id == id ==> ms[k].status != Pending) ==>
            Promote(ms, id, handle, now) == ms
    ensures i < |ms| && ms[i].id == id && ms[i].status == Pending
            && (forall k :: 0 <= k < i && ms[k].id == id ==> ms[k].status != Pending) ==>
      Promote(ms, id, handle, now) == ms[i := ms[i].(kind := Steer, handle := Some(handle), updatedAt := now)]
  {
    var k, q := Find(ms, Query(id, ANY_KIND, true)), Query(id, ANY_KIND, true);
    hide Find;
    assert forall j :: 0 <= j < |ms| ==> ms[j].kind == Steer || ms[j].kind == FollowUp;
    assert forall j :: 0 <= j < |ms| && ms[j].id == id && ms[j].status == Pending ==> Matches(ms[j], q);
  }

  /** A registration is dropped wherever it stands, and no other is. */
  lemma {:induction false} DropIs(a: seq<Id>, x: Id, b: seq<Id>, id: Id)
    ensures Drop(a + b, id) == Drop(a, id) + Drop(b, id) && Drop([x], id) == if x == id then [] else [x]
  {
    assert [x][1..] == [];
    if a == [] {
      assert a + b == b;
    } else {
      assert (a + b)[1..] == a[1..] + b;
      DropIs(a[1..], x, b, id);
    }
  }
}
