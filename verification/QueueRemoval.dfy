/**
 What a queue event does to every single message, for every state: which registrations pay for a removal
 and which for a transfer, which promoted messages are spared, and whom the fallback takes.
 */
module QueueRemoval {
  import opened Prelude
  import opened RuntimeQueue
  import opened QueueSafety

  // ---------------------------------------------------------------- first matches

  /** Two lists in which the same places match have their first match at the same place. */
  lemma SameFirst(a: seq<Message>, b: seq<Message>, q: Query)
    requires |a| == |b| && forall i :: 0 <= i < |a| ==> (Matches(a[i], q) <==> Matches(b[i], q))
    ensures Find(a, q) == Find(b, q)
  {
    hide Find, Matches;
  }

  /** The first message with the id and the kind, or |ms|. */
  function Named(ms: seq<Message>, id: Id, kind: Kind): nat {
    Find(ms, Query(id, {kind}, false))
  }

  /** The same ids and kinds, and the same messages pending or cancelled. */
  ghost predicate PaysAlike(a: seq<Message>, b: seq<Message>) {
    |a| == |b| && forall i :: 0 <= i < |a| ==>
      a[i].id == b[i].id && a[i].kind == b[i].kind && (Open(a[i]) <==> Open(b[i]))
  }

  predicate Open(m: Message) {
    m.status == Pending || m.status == Cancelled
  }

  // ---------------------------------------------------------------- registered removals

  /** A registered id pays for a removal: its message is pending, or was cancelled already. */
  predicate Payable(ms: seq<Message>, id: Id, kind: Kind) {
    Named(ms, id, kind) < |ms| && Open(ms[Named(ms, id, kind)])
  }

  /** How many of the ids pay. */
  function Paying(ms: seq<Message>, ids: seq<Id>, kind: Kind): nat {
    if ids == [] then 0
    else Paying(ms, ids[..|ids| - 1], kind) + (if Payable(ms, ids[|ids| - 1], kind) then 1 else 0)
  }

  /** A registration is used up: it names a message of the kind, and the newer ones do not pay for everything. */
  predicate Used(ms: seq<Message>, ids: seq<Id>, kind: Kind, count: nat, j: nat)
    requires j < |ids|
  {
    Named(ms, ids[j], kind) < |ms| && Paying(ms, ids[j + 1..], kind) < count
  }

  /** The message is named by a registration that is used up. */
  predicate Struck(ms: seq<Message>, ids: seq<Id>, kind: Kind, count: nat, i: nat) {
    exists j :: 0 <= j < |ids| && Used(ms, ids, kind, count, j) && Named(ms, ids[j], kind) == i
  }

  /** The first n registrations without those used up. */
  function Unused(ms: seq<Message>, ids: seq<Id>, kind: Kind, count: nat, n: nat): seq<Id>
    requires n <= |ids|
  {
    if n == 0 then []
    else
      Unused(ms, ids, kind, count, n - 1) + (if Used(ms, ids, kind, count, n - 1) then [] else [ids[n - 1]])
  }

  lemma NamedAlike(a: seq<Message>, b: seq<Message>, id: Id, kind: Kind)
    requires PaysAlike(a, b)
    ensures Named(a, id, kind) == Named(b, id, kind) && (Payable(a, id, kind) <==> Payable(b, id, kind))
  {
    SameFirst(a, b, Query(id, {kind}, false));
    hide Find;
  }

  lemma {:induction false} PayingAlike(a: seq<Message>, b: seq<Message>, ids: seq<Id>, kind: Kind)
    requires PaysAlike(a, b)
    ensures Paying(a, ids, kind) == Paying(b, ids, kind)
  {
    hide PaysAlike, Payable;
    if ids != [] {
      PayingAlike(a, b, ids[..|ids| - 1], kind);
      NamedAlike(a, b, ids[|ids| - 1], kind);
    }
  }

  lemma PayingMore(ms: seq<Message>, ids: seq<Id>, x: Id, kind: Kind)
    ensures Paying(ms, ids + [x], kind) == Paying(ms, ids, kind) + (if Payable(ms, x, kind) then 1 else 0)
  {
    hide Payable;
    assert (ids + [x])[..|ids|] == ids;
  }

  lemma OnePays(ms: seq<Message>, ids: seq<Id>, kind: Kind, p: nat, now: Timestamp)
    requires p < |ids| && Named(ms, ids[p], kind) < |ms|
    ensures var one, i := RemovedOne(ms, ids, kind, p, now), Named(ms, ids[p], kind);
      && PaysAlike(ms, one.messages) && one.count == (if Payable(ms, ids[p], kind) then 1 else 0)
      && one.ids == Without(ids, p)
      && forall k :: 0 <= k < |ms| ==>
           one.messages[k] == ms[k].(status := if k == i && ms[k].status == Pending then Cancelled else ms[k].status,
                                     updatedAt := one.messages[k].updatedAt)
  {
    hide Find, Without;
  }

  /** The newest registration that names no message of the kind stays where it is. */
  lemma {:induction false} NewestStays(ms: seq<Message>, ids: seq<Id>, x: Id, kind: Kind, count: nat, now: Timestamp)
    requires Named(ms, x, kind) == |ms|
    ensures var r := ResolveRemoved(ms, ids, kind, count, now);
      ResolveRemoved(ms, ids + [x], kind, count, now) == Resolved(r.messages, r.ids + [x], r.count)
    decreases |ids|
  {
    hide Find, RemovedOne, LastResolvable, ResolveRemoved, Named, PaysAlike;
    LastResolvableMore(ids, x, ms, kind);
    ResolveRemovedRound(ms, ids, kind, count, now, 0);
    ResolveRemovedRound(ms, ids + [x], kind, count, now, 0);
    var p := LastResolvable(ids, ms, {kind}, false);
    if count > 0 && p >= 0 {
      var one := RemovedOne(ms, ids, kind, p, now);
      NewestUnread(ms, ids, x, kind, p, now);
      NewestStays(one.messages, one.ids, x, kind, count - one.count, now);
    }
  }

  /** One payment does not look at it, and leaves it naming nothing. */
  lemma NewestUnread(ms: seq<Message>, ids: seq<Id>, x: Id, kind: Kind, p: nat, now: Timestamp)
    requires Named(ms, x, kind) == |ms| && p < |ids| && Find(ms, Query(ids[p], {kind}, false)) < |ms|
    ensures var one := RemovedOne(ms, ids, kind, p, now);
      && |one.ids| < |ids| && Named(one.messages, x, kind) == |one.messages|
      && RemovedOne(ms, ids + [x], kind, p, now) == Resolved(one.messages, one.ids + [x], one.count)
  {
    OnePays(ms, ids, kind, p, now);
    hide Find, RemovedOne, Payable;
    NamedAlike(ms, RemovedOne(ms, ids, kind, p, now).messages, x, kind);
    LaterUnread(ms, ids, x, kind, p, now);
  }

  lemma LastResolvableMore(ids: seq<Id>, x: Id, ms: seq<Message>, kind: Kind)
    ensures LastResolvable(ids + [x], ms, {kind}, false)
         == if Named(ms, x, kind) < |ms| then |ids| else LastResolvable(ids, ms, {kind}, false)
  {
    assert (ids + [x])[..|ids|] == ids;
    hide Find;
  }

  lemma LaterUnread(ms: seq<Message>, ids: seq<Id>, x: Id, kind: Kind, p: nat, now: Timestamp)
    requires p < |ids| && Named(ms, ids[p], kind) < |ms|
    ensures var one := RemovedOne(ms, ids, kind, p, now);
      RemovedOne(ms, ids + [x], kind, p, now) == Resolved(one.messages, one.ids + [x], one.count)
  {
    hide Find;
    assert (ids + [x])[p + 1..] == ids[p + 1..] + [x] && (ids + [x])[..p] == ids[..p];
  }

  /** One registration more, at the newest end: it is looked at first. */
  lemma NewestFirst(ms: seq<Message>, ids: seq<Id>, x: Id, kind: Kind, count: nat, now: Timestamp)
    ensures var more := ResolveRemoved(ms, ids + [x], kind, count, now);
      if count == 0 then more == Resolved(ms, ids + [x], 0)
      else if Named(ms, x, kind) == |ms| then
        var r := ResolveRemoved(ms, ids, kind, count, now); more == Resolved(r.messages, r.ids + [x], r.count)
      else
        var one := RemovedOne(ms, ids + [x], kind, |ids|, now);
        one.count <= count && one.ids == ids
          && more == Add(ResolveRemoved(one.messages, ids, kind, count - one.count, now), one.count)
  {
    hide Find, RemovedOne, ResolveRemoved, LastResolvable;
    ResolveRemovedRound(ms, ids + [x], kind, count, now, 0);
    LastResolvableMore(ids, x, ms, kind);
    if count > 0 && Named(ms, x, kind) == |ms| {
      NewestStays(ms, ids, x, kind, count, now);
    } else if count > 0 {
      assert Without(ids + [x], |ids|) == ids;
    }
  }

  /** Which of the older registrations are used once the newest one has paid. */
  lemma UsedMore(ms: seq<Message>, ids: seq<Id>, x: Id, kind: Kind, count: nat, j: nat)
    requires j < |ids|
    ensures var pay := if Payable(ms, x, kind) then 1 else 0;
      Used(ms, ids + [x], kind, count, j) <==> pay <= count && Used(ms, ids, kind, count - pay, j)
  {
    hide Payable, Find;
    PayingMore(ms, ids[j + 1..], x, kind);
    assert (ids + [x])[j + 1..] == ids[j + 1..] + [x];
  }

  lemma UsedAlike(a: seq<Message>, b: seq<Message>, ids: seq<Id>, kind: Kind, count: nat, j: nat)
    requires PaysAlike(a, b) && j < |ids|
    ensures Used(a, ids, kind, count, j) <==> Used(b, ids, kind, count, j)
  {
    hide PaysAlike, Payable, Find;
    assert |a| == |b| by { AlikeLength(a, b); }
    NamedAlike(a, b, ids[j], kind);
    PayingAlike(a, b, ids[j + 1..], kind);
  }

  lemma AlikeLength(a: seq<Message>, b: seq<Message>)
    requires PaysAlike(a, b)
    ensures |a| == |b|
  {
  }

  lemma StruckMore(ms: seq<Message>, after: seq<Message>, ids: seq<Id>, x: Id, kind: Kind, count: nat, i: nat)
    requires PaysAlike(ms, after) && (Payable(ms, x, kind) ==> count > 0)
    ensures var pay := if Payable(ms, x, kind) then 1 else 0;
      Struck(ms, ids + [x], kind, count, i) <==>
        || (count > 0 && i < |ms| && Named(ms, x, kind) == i)
        || Struck(after, ids, kind, count - pay, i)
  {
    hide PaysAlike, Payable, Find, Used;
    var all, pay := ids + [x], if Payable(ms, x, kind) then 1 else 0;
    NewestUsed(ms, ids, x, kind, count);
    forall j | 0 <= j < |ids|
      ensures Used(ms, all, kind, count, j) <==> Used(after, ids, kind, count - pay, j)
      ensures Named(ms, all[j], kind) == Named(after, ids[j], kind)
    {
      UsedMore(ms, ids, x, kind, count, j);
      UsedAlike(ms, after, ids, kind, count - pay, j);
      NamedAlike(ms, after, ids[j], kind);
    }
    if Struck(ms, all, kind, count, i) {
      var j :| 0 <= j < |all| && Used(ms, all, kind, count, j) && Named(ms, all[j], kind) == i;
      assert j < |ids| ==> Used(after, ids, kind, count - pay, j) && Named(after, ids[j], kind) == i;
    }
    if Struck(after, ids, kind, count - pay, i) {
      var j :| 0 <= j < |ids| && Used(after, ids, kind, count - pay, j) && Named(after, ids[j], kind) == i;
      assert Used(ms, all, kind, count, j) && Named(ms, all[j], kind) == i;
    }
    if count > 0 && i < |ms| && Named(ms, x, kind) == i {
      assert Used(ms, all, kind, count, |ids|) && Named(ms, all[|ids|], kind) == i;
    }
  }

  lemma NewestUsed(ms: seq<Message>, ids: seq<Id>, x: Id, kind: Kind, count: nat)
    ensures Used(ms, ids + [x], kind, count, |ids|) <==> count > 0 && Named(ms, x, kind) < |ms|
  {
    hide Find;
    assert (ids + [x])[|ids| + 1..] == [];
  }

  lemma {:induction false} UnusedMore(ms: seq<Message>, after: seq<Message>, ids: seq<Id>, x: Id, kind: Kind,
                                      count: nat, n: nat)
    requires PaysAlike(ms, after) && (Payable(ms, x, kind) ==> count > 0) && n <= |ids|
    ensures var pay := if Payable(ms, x, kind) then 1 else 0;
      Unused(ms, ids + [x], kind, count, n) == Unused(after, ids, kind, count - pay, n)
  {
    hide PaysAlike, Payable, Find, Used;
    if n > 0 {
      var pay := if Payable(ms, x, kind) then 1 else 0;
      UnusedMore(ms, after, ids, x, kind, count, n - 1);
      UsedMore(ms, ids, x, kind, count, n - 1);
      UsedAlike(ms, after, ids, kind, count - pay, n - 1);
    }
  }

  /** No removal to pay for: nothing is used. */
  lemma {:induction false} NothingUsed(ms: seq<Message>, ids: seq<Id>, kind: Kind, n: nat)
    requires n <= |ids|
    ensures Unused(ms, ids, kind, 0, n) == ids[..n] && forall i :: !Struck(ms, ids, kind, 0, i)
  {
    hide Find;
    if n > 0 {
      NothingUsed(ms, ids, kind, n - 1);
    }
  }

  /** A message after the registrations have paid. */
  predicate PaidFor(m: Message, m': Message, struck: bool) {
    m' == m.(status := if struck && m.status == Pending then Cancelled else m.status, updatedAt := m'.updatedAt)
  }

  ghost predicate RegistrationsPaid(ms: seq<Message>, ids: seq<Id>, kind: Kind, count: nat, r: Resolved) {
    && |r.messages| == |ms| && r.count == Min(count, Paying(ms, ids, kind))
    && r.ids == Unused(ms, ids, kind, count, |ids|)
    && forall i :: 0 <= i < |ms| ==> PaidFor(ms[i], r.messages[i], Struck(ms, ids, kind, count, i))
  }

  /** For every state: the newest registrations that name a message of the kind pay until the removals are paid for. */
  lemma {:induction false} ResolveRemovedIs(ms: seq<Message>, ids: seq<Id>, kind: Kind, count: nat, now: Timestamp)
    ensures RegistrationsPaid(ms, ids, kind, count, ResolveRemoved(ms, ids, kind, count, now))
    decreases |ids|
  {
    hide ResolveRemoved, RegistrationsPaid, RemovedOne, Find;
    if ids == [] || count == 0 {
      NothingPaid(ms, ids, kind, count, now);
    } else {
      var older, x := ids[..|ids| - 1], ids[|ids| - 1];
      assert ids == older + [x];
      NewestFirst(ms, older, x, kind, count, now);
      if Named(ms, x, kind) == |ms| {
        ResolveRemovedIs(ms, older, kind, count, now);
        PassedOver(ms, older, x, kind, count, ResolveRemoved(ms, older, kind, count, now));
      } else {
        var one := RemovedOne(ms, ids, kind, |older|, now);
        ResolveRemovedIs(one.messages, older, kind, count - one.count, now);
        PaidNext(ms, older, x, kind, count, now, ResolveRemoved(one.messages, older, kind, count - one.count, now));
      }
    }
  }

  lemma NothingPaid(ms: seq<Message>, ids: seq<Id>, kind: Kind, count: nat, now: Timestamp)
    requires ids == [] || count == 0
    ensures RegistrationsPaid(ms, ids, kind, count, ResolveRemoved(ms, ids, kind, count, now))
  {
    hide Find, RemovedOne, Used;
    if count == 0 {
      NothingUsed(ms, ids, kind, |ids|);
      assert ids[..|ids|] == ids;
    }
  }

  lemma PassedOver(ms: seq<Message>, older: seq<Id>, x: Id, kind: Kind, count: nat, r: Resolved)
    requires count > 0 && Named(ms, x, kind) == |ms| && RegistrationsPaid(ms, older, kind, count, r)
    ensures RegistrationsPaid(ms, older + [x], kind, count, Resolved(r.messages, r.ids + [x], r.count))
  {
    hide Find, Used, Struck, PaidFor;
    PayingMore(ms, older, x, kind);
    assert PaysAlike(ms, ms);
    UnusedMore(ms, ms, older, x, kind, count, |older|);
    NewestUsed(ms, older, x, kind, count);
    forall i | 0 <= i < |ms| ensures PaidFor(ms[i], r.messages[i], Struck(ms, older + [x], kind, count, i)) {
      StruckMore(ms, ms, older, x, kind, count, i);
    }
  }

  lemma PaidNext(ms: seq<Message>, older: seq<Id>, x: Id, kind: Kind, count: nat, now: Timestamp, r: Resolved)
    requires count > 0 && Named(ms, x, kind) < |ms|
    requires var one := RemovedOne(ms, older + [x], kind, |older|, now);
      one.count <= count && RegistrationsPaid(one.messages, older, kind, count - one.count, r)
    ensures var one := RemovedOne(ms, older + [x], kind, |older|, now);
      RegistrationsPaid(ms, older + [x], kind, count, Add(r, one.count))
  {
    hide Find, Used, Struck, PaysAlike, Payable, RemovedOne;
    var one := RemovedOne(ms, older + [x], kind, |older|, now);
    OnePays(ms, older + [x], kind, |older|, now);
    PayingMore(ms, older, x, kind);
    PayingAlike(ms, one.messages, older, kind);
    UnusedMore(ms, one.messages, older, x, kind, count, |older|);
    NewestUsed(ms, older, x, kind, count);
    forall i | 0 <= i < |ms| ensures PaidFor(ms[i], r.messages[i], Struck(ms, older + [x], kind, count, i)) {
      StruckMore(ms, one.messages, older, x, kind, count, i);
      assert PaidFor(one.messages[i], r.messages[i], Struck(one.messages, older, kind, count - one.count, i));
    }
  }

  // ---------------------------------------------------------------- promoted messages

  /** A pending message of the kind has the id. */
  predicate Held(ms: seq<Message>, id: Id, kind: Kind) {
    exists i :: 0 <= i < |ms| && ms[i].id == id && ms[i].kind == kind && ms[i].status == Pending
  }

  /** How many of the ids are those of pending messages of the kind. */
  function HeldCount(ms: seq<Message>, ids: seq<Id>, kind: Kind): nat {
    if ids == [] then 0
    else HeldCount(ms, ids[..|ids| - 1], kind) + (if Held(ms, ids[|ids| - 1], kind) then 1 else 0)
  }

  lemma HeldIff(ms: seq<Message>, id: Id, kind: Kind)
    ensures Held(ms, id, kind) <==> Find(ms, Query(id, {kind}, true)) < |ms|
  {
    var i := Find(ms, Query(id, {kind}, true));
    hide Find;
    if i < |ms| {
      assert ms[i].id == id && ms[i].kind == kind && ms[i].status == Pending;
    }
  }

  lemma {:induction false} PositionsAre(ids: seq<Id>, ms: seq<Message>, kind: Kind, budget: nat)
    ensures |PromotedPositions(ids, ms, kind, budget)| == Min(budget, HeldCount(ms, ids, kind))
  {
    hide Find, Held;
    if ids != [] && budget > 0 {
      var older, last := ids[..|ids| - 1], ids[|ids| - 1];
      HeldIff(ms, last, kind);
      PositionsAre(older, ms, kind, if Held(ms, last, kind) then budget - 1 else budget);
    }
  }

  /** Touching finds every position again, because it changes no status. */
  lemma {:induction false} TouchedAll(ms: seq<Message>, ids: seq<Id>, ps: seq<nat>, kind: Kind, now: Timestamp)
    requires forall k :: 0 <= k < |ps| ==> ps[k] < |ids| && Find(ms, Query(ids[ps[k]], {kind}, true)) < |ms|
    ensures Touch(ms, ids, ps, kind, now).count == |ps|
    decreases |ps|
  {
    if ps != [] {
      var i := Find(ms, Query(ids[ps[0]], {kind}, true));
      var touched := ms[i := ms[i].(updatedAt := now)];
      hide Find;
      forall k | 0 <= k < |ps[1..]|
          ensures ps[1..][k] < |ids| && Find(touched, Query(ids[ps[1..][k]], {kind}, true)) < |touched| {
        assert ps[1..][k] == ps[k + 1];
        SameFirst(ms, touched, Query(ids[ps[k + 1]], {kind}, true));
      }
      TouchedAll(touched, ids, ps[1..], kind, now);
    }
  }

  // ---------------------------------------------------------------- the first in line

  /** How many of the messages are eligible. */
  function EligibleCount(ms: seq<Message>, kind: Kind, skip: seq<Id>): nat {
    if ms == [] then 0
    else (if Eligible(ms[0], kind, skip) then 1 else 0) + EligibleCount(ms[1..], kind, skip)
  }

  /** The message is among the first `count` pending ones of its kind that are not skipped. */
  predicate Taken(ms: seq<Message>, kind: Kind, skip: seq<Id>, count: nat, i: nat)
    requires i < |ms|
  {
    ms[i].kind == kind && ms[i].status == Pending && ms[i].id !in skip && EligibleCount(ms[..i], kind, skip) < count
  }

  lemma TakenNext(ms: seq<Message>, kind: Kind, skip: seq<Id>, count: nat, i: nat)
    requires 0 < i < |ms| && count > 0
    ensures var c := if Eligible(ms[0], kind, skip) then count - 1 else count;
      Taken(ms, kind, skip, count, i) <==> Taken(ms[1..], kind, skip, c, i - 1)
  {
    assert ms[..i][0] == ms[0] && ms[..i][1..] == ms[1..][..i - 1];
  }

  /** Marking changes exactly those, and of them the status and the time. */
  lemma {:induction false} MarkFirstAt(ms: seq<Message>, kind: Kind, skip: seq<Id>, count: nat, status: Status,
                                       now: Timestamp, i: nat)
    requires i < |ms|
    ensures MarkFirst(ms, kind, skip, count, status, now)[i] ==
            if Taken(ms, kind, skip, count, i) then ms[i].(status := status, updatedAt := now) else ms[i]
  {
    if count > 0 {
      if i > 0 {
        TakenNext(ms, kind, skip, count, i);
        hide Taken;
        MarkFirstAt(ms[1..], kind, skip, if Eligible(ms[0], kind, skip) then count - 1 else count, status, now, i - 1);
      } else {
        assert ms[..0] == [];
      }
    }
  }

  /** The same for the fallback of a transfer. */
  lemma {:induction false} MoveFirstAt(ms: seq<Message>, from: Kind, to: Kind, count: nat, now: Timestamp, i: nat)
    requires i < |ms|
    ensures MoveFirst(ms, from, to, count, now)[i] ==
            if Taken(ms, from, [], count, i) then ms[i].(kind := to, updatedAt := now) else ms[i]
  {
    if count > 0 {
      if i > 0 {
        TakenNext(ms, from, [], count, i);
        hide Taken;
        MoveFirstAt(ms[1..], from, to, if Eligible(ms[0], from, []) then count - 1 else count, now, i - 1);
      } else {
        assert ms[..0] == [];
      }
    }
  }

  // ---------------------------------------------------------------- a removal as a whole

  /** The message is still pending once the registrations have paid. */
  predicate Spared(q: Queue, kind: Kind, count: nat, i: nat)
    requires i < |q.messages|
  {
    q.messages[i].status == Pending && !Struck(q.messages, q.removed, kind, count, i)
  }

  /** It is one of those the fallback may take. */
  predicate InLine(q: Queue, kind: Kind, count: nat, i: nat)
    requires i < |q.messages|
  {
    Spared(q, kind, count, i) && q.messages[i].kind == kind && q.messages[i].id !in q.promoted
  }

  /** How many of those stand before place i. */
  function InLineBefore(q: Queue, kind: Kind, count: nat, i: nat): nat
    requires i <= |q.messages|
  {
    if i == 0 then 0 else InLineBefore(q, kind, count, i - 1) + (if InLine(q, kind, count, i - 1) then 1 else 0)
  }

  /** A promoted id is that of a message of the kind that is still pending. */
  predicate PromotionHolds(q: Queue, kind: Kind, count: nat, id: Id) {
    exists i :: 0 <= i < |q.messages| && q.messages[i].id == id && q.messages[i].kind == kind
      && Spared(q, kind, count, i)
  }

  function PromotionsHolding(q: Queue, ids: seq<Id>, kind: Kind, count: nat): nat {
    if ids == [] then 0
    else
      PromotionsHolding(q, ids[..|ids| - 1], kind, count)
        + (if PromotionHolds(q, kind, count, ids[|ids| - 1]) then 1 else 0)
  }

  /** What is left for the fallback: the removals that neither registrations nor promoted messages pay for. */
  function Unpaid(q: Queue, kind: Kind, count: nat): nat {
    var paid := Paying(q.messages, q.removed, kind) + PromotionsHolding(q, q.promoted, kind, count);
    if paid < count then count - paid else 0
  }

  /** The messages a removal of `count` entries cancels. */
  predicate CancelledBy(q: Queue, kind: Kind, count: nat, i: nat)
    requires i < |q.messages|
  {
    || (q.messages[i].status == Pending && Struck(q.messages, q.removed, kind, count, i))
    || (InLine(q, kind, count, i) && InLineBefore(q, kind, count, i) < Unpaid(q, kind, count))
  }

  /** The stages of a removal, one behind the other. */
  lemma RemoveStages(q: Queue, kind: Kind, count: nat, now: Timestamp) returns (r: Resolved, t: Resolved, left: nat)
    ensures RegistrationsPaid(q.messages, q.removed, kind, count, r)
    ensures |t.messages| == |q.messages|
    ensures forall i :: 0 <= i < |q.messages| ==> t.messages[i] == r.messages[i].(updatedAt := t.messages[i].updatedAt)
    ensures var paid := Paying(q.messages, q.removed, kind) + HeldCount(r.messages, q.promoted, kind);
      left == if paid < count then count - paid else 0
    ensures Remove(q, kind, count, now) ==
            q.(messages := MarkFirst(t.messages, kind, q.promoted, left, Cancelled, now), removed := r.ids)
  {
    hide ResolveRemoved, Touch, PromotedPositions, MarkFirst, HeldCount, Paying, Unused, Struck, Find, PaidFor;
    r := ResolveRemoved(q.messages, q.removed, kind, count, now);
    var ps := PromotedPositions(q.promoted, r.messages, kind, count - r.count);
    t := Touch(r.messages, q.promoted, ps, kind, now);
    left := if r.count + t.count < count then count - r.count - t.count else 0;
    ResolveRemovedIs(q.messages, q.removed, kind, count, now);
    PositionsAre(q.promoted, r.messages, kind, count - r.count);
    TouchedAll(r.messages, q.promoted, ps, kind, now);
    TouchSafe(r.messages, q.promoted, ps, kind, now);
  }

  lemma {:induction false} HoldsAlike(q: Queue, kind: Kind, count: nat, ms: seq<Message>, ids: seq<Id>)
    requires |ms| == |q.messages|
    requires forall i :: 0 <= i < |ms| ==>
               PaidFor(q.messages[i], ms[i], Struck(q.messages, q.removed, kind, count, i))
    ensures HeldCount(ms, ids, kind) == PromotionsHolding(q, ids, kind, count)
  {
    hide Struck;
    if ids != [] {
      HoldsAlike(q, kind, count, ms, ids[..|ids| - 1]);
      var id := ids[|ids| - 1];
      if Held(ms, id, kind) {
        var i :| 0 <= i < |ms| && ms[i].id == id && ms[i].kind == kind && ms[i].status == Pending;
        assert PaidFor(q.messages[i], ms[i], Struck(q.messages, q.removed, kind, count, i));
        assert Spared(q, kind, count, i);
      }
      if PromotionHolds(q, kind, count, id) {
        var i :| 0 <= i < |q.messages| && q.messages[i].id == id && q.messages[i].kind == kind
            && Spared(q, kind, count, i);
        assert PaidFor(q.messages[i], ms[i], Struck(q.messages, q.removed, kind, count, i));
      }
    }
  }

  lemma {:induction false} LinesAlike(q: Queue, kind: Kind, count: nat, ms: seq<Message>, i: nat)
    requires |ms| == |q.messages| && i <= |ms|
    requires forall k :: 0 <= k < |ms| ==>
               PaidFor(q.messages[k], ms[k], Struck(q.messages, q.removed, kind, count, k))
    ensures EligibleCount(ms[..i], kind, q.promoted) == InLineBefore(q, kind, count, i)
  {
    hide Struck;
    if i > 0 {
      LinesAlike(q, kind, count, ms, i - 1);
      EligibleMore(ms, kind, q.promoted, i - 1);
      assert PaidFor(q.messages[i - 1], ms[i - 1], Struck(q.messages, q.removed, kind, count, i - 1));
    } else {
      assert ms[..0] == [];
    }
  }

  lemma {:induction false} EligibleMore(ms: seq<Message>, kind: Kind, skip: seq<Id>, i: nat)
    requires i < |ms|
    ensures EligibleCount(ms[..i + 1], kind, skip) ==
            EligibleCount(ms[..i], kind, skip) + (if Eligible(ms[i], kind, skip) then 1 else 0)
    decreases i
  {
    hide Eligible;
    if i == 0 {
      assert ms[..1][1..] == [] && ms[..0] == [];
    } else {
      assert ms[..i + 1][1..] == ms[1..][..i] && ms[..i][1..] == ms[1..][..i - 1];
      EligibleMore(ms[1..], kind, skip, i - 1);
    }
  }

  /**
   For every state, with any registrations, and every message: a removal cancels the pending messages its
   newest registrations name, as far as they are needed; then promoted messages that are still pending
   pay and stay; only what is left is taken from the first pending messages of the kind in line that are
   not being promoted. Nothing else of any message changes but its time.
   */
  lemma RemoveIs(q: Queue, kind: Kind, count: nat, now: Timestamp)
    ensures var r := Remove(q, kind, count, now);
      && |r.messages| == |q.messages|
      && (forall i :: 0 <= i < |q.messages| ==>
            r.messages[i] == q.messages[i].(status :=
                                            if CancelledBy(q, kind, count, i) then Cancelled else q.messages[i].status,
                                            updatedAt := r.messages[i].updatedAt))
      && r == q.(messages := r.messages, removed := Unused(q.messages, q.removed, kind, count, |q.removed|))
  {
    hide Remove, MarkFirst, Struck, Unused, Paying, EligibleCount;
    var r, t, left := RemoveStages(q, kind, count, now);
    var after := Remove(q, kind, count, now);
    forall i | 0 <= i < |q.messages|
      ensures PaidFor(q.messages[i], t.messages[i], Struck(q.messages, q.removed, kind, count, i))
    {
      assert PaidFor(q.messages[i], r.messages[i], Struck(q.messages, q.removed, kind, count, i));
    }
    HoldsAlike(q, kind, count, r.messages, q.promoted);
    forall i | 0 <= i < |q.messages|
      ensures after.messages[i]
              == q.messages[i].(status := if CancelledBy(q, kind, count, i) then Cancelled else q.messages[i].status,
                                                  updatedAt := after.messages[i].updatedAt)
    {
      MarkFirstAt(t.messages, kind, q.promoted, left, Cancelled, now, i);
      LinesAlike(q, kind, count, t.messages, i);
      assert PaidFor(q.messages[i], t.messages[i], Struck(q.messages, q.removed, kind, count, i));
    }
  }

  /** A pending message that is being promoted, and not being cancelled, stays pending. */
  lemma PromotedStaysPending(q: Queue, kind: Kind, count: nat, now: Timestamp, i: nat)
    requires i < |q.messages| && q.messages[i].status == Pending
    requires q.messages[i].id in q.promoted && q.messages[i].id !in q.removed
    ensures |Remove(q, kind, count, now).messages| == |q.messages|
            && Remove(q, kind, count, now).messages[i].status == Pending
  {
    RemoveIs(q, kind, count, now);
    hide Remove, Find;
  }

  /** How many of the first n messages the fallback takes. */
  function TakenInLine(q: Queue, kind: Kind, count: nat, n: nat): nat
    requires n <= |q.messages|
  {
    if n == 0 then 0
    else
      TakenInLine(q, kind, count, n - 1)
      + (if InLine(q, kind, count, n - 1) && InLineBefore(q, kind, count, n - 1) < Unpaid(q, kind, count) then 1
         else 0)
  }

  /** The fallback takes exactly as many as are left to pay, or all in line when those are fewer. */
  lemma {:induction false} FallbackTakes(q: Queue, kind: Kind, count: nat, n: nat)
    requires n <= |q.messages|
    ensures TakenInLine(q, kind, count, n) == Min(Unpaid(q, kind, count), InLineBefore(q, kind, count, n))
  {
    hide InLine, Unpaid;
    if n > 0 {
      FallbackTakes(q, kind, count, n - 1);
    }
  }
}
