/**
 The queue protocol over whole runs: counts for every run, and a refinement, in which the mirror and
 the record agree with the real queues message by message, for exactly the runs whose accepted
 promotions land where the list shows the promoted message.
 */
module QueueRefinement {
  import opened Prelude
  import opened RuntimeQueue
  import opened QueueProtocol
  import opened QueueSafety
  import opened QueueInvariant
  import opened QueueSteps
  import opened QueueEvents
  import Strings

  // ---------------------------------------------------------------- runs

  /** The steps can be taken one after another from s, and no append drops a pending message. */
  ghost predicate Legal(s: System, steps: seq<Step>)
    decreases |steps|
  {
    steps != [] ==> Enabled(s, steps[0]) && Spares(s, steps[0]) && Legal(Next(s, steps[0]), steps[1..])
  }

  ghost function Execute(s: System, steps: seq<Step>): System
    requires Legal(s, steps)
    decreases |steps|
  {
    if steps == [] then s else Execute(Next(s, steps[0]), steps[1..])
  }

  lemma StartInv()
    ensures Inv(Start)
  {
    assert Sents([]) == [] && PendingOf([], Steer) == [] && PendingOf([], FollowUp) == [];
    assert Identified(Start);
    hide Identified, PendingOf;
    assert Counted(Start);
  }

  lemma {:induction false} RunKeeps(s: System, steps: seq<Step>)
    requires Inv(s) && Legal(s, steps)
    ensures Inv(Execute(s, steps))
    decreases |steps|
  {
    if steps != [] {
      StepKeeps(s, steps[0]);
      RunKeeps(Next(s, steps[0]), steps[1..]);
    }
  }

  /**
   In every run, promotions included, the mirror shows as many pending messages of each kind as that
   queue holds, plus the one still on its way in; as many user messages are recorded as the agent
   consumed; and follow-ups agree one by one and in order.
   */
  lemma CountsAgree(steps: seq<Step>)
    requires Legal(Start, steps)
    ensures var s := Execute(Start, steps);
            && (forall kind :: |PendingOf(s.mirror.messages, kind)| == |Lane(s, kind)| + |InFlight(s.call, kind)|)
            && PendingOf(s.mirror.messages, FollowUp) == Sents(s.followUp) + InFlight(s.call, FollowUp)
            && |s.recorded| == |s.delivered|
            && OnlyFollowUps(s.recorded) == OnlyFollowUps(s.delivered)
  {
    hide Legal, Execute, PendingOf, Identified, OnlyFollowUps, SteerKinds, Target;
    StartInv();
    RunKeeps(Start, steps);
    var s := Execute(Start, steps);
    forall kind ensures |PendingOf(s.mirror.messages, kind)| == |Lane(s, kind)| + |InFlight(s.call, kind)| {
      assert kind == Steer || kind == FollowUp;
    }
  }

  /** A cancel reaches its message exactly when one of the two real queues still holds it. */
  lemma CancelHitsIffQueued(s: System, stamp: Stamp)
    requires Inv(s) && s.call.Cancelling?
    ensures CancelInAgent(s, stamp).call.CancelHit?
       <==> exists kind, i :: 0 <= i < |Lane(s, kind)| && Lane(s, kind)[i].sent.id == s.call.id
  {
    var i, j := Locate(s.steer, s.call.handle), Locate(s.followUp, s.call.handle);
    assert i < |s.steer| ==> Lane(s, Steer)[i].sent.id == s.call.id;
    assert j < |s.followUp| ==> Lane(s, FollowUp)[j].sent.id == s.call.id;
  }

  /** The last region of a promotion changes no status: a message consumed meanwhile is not revived. */
  lemma PromotionRevivesNothing(s: System, now: Timestamp)
    requires s.call.PromoteRefused? || s.call.PromoteHit?
    ensures var s' := PromoteEnd(s, now);
            && |s'.mirror.messages| == |s.mirror.messages|
            && forall i :: 0 <= i < |s.mirror.messages| ==>
                 s'.mirror.messages[i].id == s.mirror.messages[i].id
                 && s'.mirror.messages[i].status == s.mirror.messages[i].status
  {
  }

  // ---------------------------------------------------------------- terminal statuses

  /** No message that had left Pending shows another status afterwards. */
  ghost predicate Settled(a: seq<Message>, b: seq<Message>) {
    forall i, j :: 0 <= i < |a| && 0 <= j < |b| && a[i].id == b[j].id && a[i].status != Pending ==>
        b[j].status == a[i].status
  }

  /** The eager mark at the end of a cancel is about to overwrite a status that is already final. */
  predicate OverwritesFinal(s: System, step: Step) {
    var ms := s.mirror.messages;
    step.FinishCancel? && s.call.CancelHit? &&
    var i := Find(ms, Query(s.call.id, ANY_KIND, false));
    i < |ms| && (ms[i].status == Consumed || ms[i].status == Cleared)
  }

  lemma EvolvesSettles(a: seq<Message>, b: seq<Message>, verdict: Status)
    requires Evolves(a, b, verdict) && DistinctIds(a)
    ensures Settled(a, b)
  {
    forall i, j | 0 <= i < |a| && 0 <= j < |b| && a[i].id == b[j].id && a[i].status != Pending
      ensures b[j].status == a[i].status
    {
      assert Keeps(a[j], b[j], verdict);
    }
  }

  lemma CallbackSettles(s: System, s1: System, event: QueueEvent, stamp: Stamp)
    requires Inv(s) && s1.mirror == s.mirror
    ensures Settled(s.mirror.messages, Callback(s1, event, stamp).mirror.messages)
  {
    NamesInside(s);
    CallbackEffect(s1, event, stamp);
    EvolvesSettles(s.mirror.messages, Callback(s1, event, stamp).mirror.messages, Verdict(event));
  }

  lemma SpliceSettles(ms: seq<Message>, i: nat, m: Message)
    requires DistinctIds(ms) && i < |ms| && m.id == ms[i].id
    ensures Settled(ms, ms[i := m]) <==> ms[i].status == Pending || m.status == ms[i].status
  {
    var b := ms[i := m];
    assert b[i].id == ms[i].id;
  }

  /** A step changes a final status if and only if it is the eager mark over a final status. */
  lemma FinalUnlessOverwritten(s: System, step: Step)
    requires Inv(s) && Enabled(s, step)
    ensures Settled(s.mirror.messages, Next(s, step).mirror.messages) <==> !OverwritesFinal(s, step)
  {
    hide Next, Settled, OverwritesFinal, Inv;
    match step {
      case StartEnqueue(_, _, _, _, _) => EnqueueSettles(s, step);
      case AgentEnqueue(_) => EnqueueSettles(s, step);
      case FinishEnqueue => EnqueueSettles(s, step);
      case StartCancel(_) => CancelSettles(s, step);
      case AgentCancel(_) => CancelSettles(s, step);
      case FinishCancel(_) => CancelSettles(s, step);
      case StartPromote(_) => PromoteSettles(s, step);
      case AgentPromote(_, _, _) => PromoteSettles(s, step);
      case FinishPromote(_) => PromoteSettles(s, step);
      case _ => LaneSettles(s, step);
    }
  }

  lemma SelfSettles(s: System)
    requires Inv(s)
    ensures Settled(s.mirror.messages, s.mirror.messages)
  {
    NamesInside(s);
    hide Inv;
  }

  lemma EnqueueSettles(s: System, step: Step)
    requires Inv(s) && Enabled(s, step) && (step.StartEnqueue? || step.AgentEnqueue? || step.FinishEnqueue?)
    ensures Settled(s.mirror.messages, Next(s, step).mirror.messages) && !OverwritesFinal(s, step)
  {
    hide Callback, Inv, PendingHandle, Append, Strings.Trim, Settled;
    var ms := s.mirror.messages;
    NamesInside(s);
    SelfSettles(s);
    match step {
      case StartEnqueue(kind, raw, metadata, id, now) =>
        assert id !in s.used;
        AppendSettles(s, kind, raw, metadata, id, now);
      case AgentEnqueue(stamp) =>
        var lane := Lane(s, s.call.kind) + [Entry(s.nextHandle, Sent(s.call.id, s.call.text))];
        CallbackSettles(s, WithLane(s, s.call.kind, lane).(nextHandle := s.nextHandle + 1,
                                                           call := Attaching(s.call.id, s.nextHandle)),
                        OnEnqueued(s.call.kind, 1, |lane|), stamp);
      case FinishEnqueue =>
        var i := Find(ms, Query(s.call.id, ANY_KIND, false));
        if i < |ms| {
          SpliceSettles(ms, i, ms[i].(handle := Some(s.call.handle)));
        }
    }
  }

  lemma CancelSettles(s: System, step: Step)
    requires Inv(s) && Enabled(s, step) && (step.StartCancel? || step.AgentCancel? || step.FinishCancel?)
    ensures Settled(s.mirror.messages, Next(s, step).mirror.messages) <==> !OverwritesFinal(s, step)
  {
    hide Callback, Inv, PendingHandle, Settled;
    var ms := s.mirror.messages;
    NamesInside(s);
    SelfSettles(s);
    match step {
      case StartCancel(id) =>
      case AgentCancel(stamp) =>
        var i, j := Locate(s.steer, s.call.handle), Locate(s.followUp, s.call.handle);
        if i < |s.steer| {
          CallbackSettles(s, s.(steer := Without(s.steer, i)), OnRemoved(Steer, 1, |s.steer| - 1), stamp);
        } else if j < |s.followUp| {
          CallbackSettles(s, s.(followUp := Without(s.followUp, j)), OnRemoved(FollowUp, 1, |s.followUp| - 1), stamp);
        }
      case FinishCancel(now) =>
        var i := Find(ms, Query(s.call.id, ANY_KIND, false));
        if s.call.CancelHit? && i < |ms| {
          SpliceSettles(ms, i, ms[i].(status := Cancelled, updatedAt := now));
        }
    }
  }

  lemma PromoteSettles(s: System, step: Step)
    requires Inv(s) && Enabled(s, step) && (step.StartPromote? || step.AgentPromote? || step.FinishPromote?)
    ensures Settled(s.mirror.messages, Next(s, step).mirror.messages) && !OverwritesFinal(s, step)
  {
    hide Callback, Inv, PendingHandle, Settled;
    var ms := s.mirror.messages;
    NamesInside(s);
    SelfSettles(s);
    match step {
      case StartPromote(id) =>
      case AgentPromote(accepted, at, stamp) =>
        var i := Locate(s.followUp, s.call.handle);
        if i < |s.followUp| && accepted {
          var entry := Entry(s.nextHandle, s.followUp[i].sent);
          CallbackSettles(s, s.(followUp := Without(s.followUp, i), steer := s.steer[..at] + [entry] + s.steer[at..],
                                nextHandle := s.nextHandle + 1, call := PromoteHit(s.call.id, s.nextHandle)),
                          OnTransferred(FollowUp, Steer, 1, |s.followUp| - 1, |s.steer| + 1), stamp);
        }
      case FinishPromote(now) =>
        var i := Find(ms, Query(s.call.id, ANY_KIND, true));
        if s.call.PromoteHit? && i < |ms| {
          SpliceSettles(ms, i, ms[i].(kind := Steer, handle := Some(s.call.handle), updatedAt := now));
        }
    }
  }

  lemma LaneSettles(s: System, step: Step)
    requires Inv(s) && Enabled(s, step) && (step.Clear? || step.ClearAll? || step.ClearRest? || step.Consume?)
    ensures Settled(s.mirror.messages, Next(s, step).mirror.messages) && !OverwritesFinal(s, step)
  {
    hide Callback, Inv, Settled;
    match step {
      case Clear(kind, stamp) =>
        CallbackSettles(s, WithLane(s, kind, []), OnCleared(kind, |Lane(s, kind)|), stamp);
      case ClearAll(stamp) =>
        CallbackSettles(s, WithLane(s, Steer, []), OnCleared(Steer, |s.steer|), stamp);
      case ClearRest(stamp) =>
        CallbackSettles(s, WithLane(s, FollowUp, []), OnCleared(FollowUp, |s.followUp|), stamp);
      case Consume(kind, count, stamp) =>
        var lane := Lane(s, kind);
        CallbackSettles(s, WithLane(s, kind, lane[count..]).(delivered :=
                                                             s.delivered + Deliveries(kind, Sents(lane[..count]))),
                        OnConsumed(kind, count, |lane| - count), stamp);
    }
  }

  lemma AppendSettles(s: System, kind: Kind, raw: string, metadata: Option<string>, id: Id, now: Timestamp)
    requires Inv(s) && id !in s.used
    ensures Settled(s.mirror.messages, EnqueueStart(s, kind, raw, metadata, id, now).mirror.messages)
  {
    hide Append, Strings.Trim, Counted, MessageNamed, CallNamed;
    var s' := EnqueueStart(s, kind, raw, metadata, id, now);
    var ms := s.mirror.messages;
    if s' != s {
      var m := NewMessage(id, kind, s'.call.text, metadata, now);
      AppendTail(s.mirror, m);
      TailSettles(ms, if |ms| < MAX_MESSAGES then 0 else 1, m);
    }
  }

  lemma AppendTail(q: Queue, m: Message)
    requires |q.messages| <= MAX_MESSAGES
    ensures Append(q, m).messages == q.messages[if |q.messages| < MAX_MESSAGES then 0 else 1..] + [m]
  {
  }

  lemma TailSettles(ms: seq<Message>, d: nat, m: Message)
    requires DistinctIds(ms) && d <= |ms|
    requires forall i :: 0 <= i < |ms| ==> ms[i].id != m.id
    ensures Settled(ms, ms[d..] + [m])
  {
    var ms' := ms[d..] + [m];
    forall i, j | 0 <= i < |ms| && 0 <= j < |ms'| && ms[i].id == ms'[j].id ensures ms'[j].status == ms[i].status {
      if j < |ms'| - 1 {
        assert ms'[j] == ms[j + d];
      }
    }
  }

  // ---------------------------------------------------------------- refinement, message by message

  ghost predicate Mirrors(s: System, kind: Kind) {
    PendingOf(s.mirror.messages, kind) == Sents(Lane(s, kind)) + InFlight(s.call, kind)
  }

  ghost predicate Exact(s: System) {
    var ms := s.mirror.messages;
    && Inv(s)
    && Mirrors(s, Steer)
    && s.recorded == s.delivered
    && (s.call.CancelHit? ==> forall i :: 0 <= i < |ms| && ms[i].id == s.call.id ==> ms[i].status == Cancelled)
  }

  /** A removal from a queue the mirror shows exactly cancels exactly the message that was removed. */
  lemma RemoveExact(s: System, kind: Kind, j: nat, stamp: Stamp)
    requires Exact(s) && s.call.Cancelling? && Mirrors(s, kind)
    requires j < |Lane(s, kind)| && Lane(s, kind)[j].handle == s.call.handle
    ensures var s' := RemoveFromLane(s, kind, j, stamp).(call := CancelHit(s.call.id));
            && Mirrors(s', Steer) && s'.recorded == s.recorded && s'.delivered == s.delivered
            && forall i :: 0 <= i < |s'.mirror.messages| && s'.mirror.messages[i].id == s.call.id ==>
               s'.mirror.messages[i].status == Cancelled
  {
    hide PendingOf, Inv, RemoveFromLane;
    var i := RemovedAt(s, kind, j, stamp);
    var ms := s.mirror.messages;
    var m := ms[i].(status := Cancelled, updatedAt := stamp.now);
    NamesInside(s);
    PendingWithout(ms, i, m, kind);
    SentsWithout(Lane(s, kind), j);
    if kind == FollowUp {
      PendingSame(ms, i, m, Steer);
    }
  }

  lemma RemovedAt(s: System, kind: Kind, j: nat, stamp: Stamp) returns (i: nat)
    requires Exact(s) && s.call.Cancelling? && Mirrors(s, kind)
    requires j < |Lane(s, kind)| && Lane(s, kind)[j].handle == s.call.handle
    ensures var s', ms := RemoveFromLane(s, kind, j, stamp), s.mirror.messages;
            && i < |ms| && ms[i].id == s.call.id && ms[i].kind == kind && ms[i].status == Pending
            && |PendingOf(ms[..i], kind)| == j
            && s'.mirror.messages == ms[i := ms[i].(status := Cancelled, updatedAt := stamp.now)]
            && Lane(s', kind) == Without(Lane(s, kind), j) && (kind == FollowUp ==> s'.steer == s.steer)
            && s'.recorded == s.recorded && s'.delivered == s.delivered
  {
    hide Remove, PendingOf, PendingHandle, Find;
    NamesInside(s);
    assert Lane(s, kind)[j].sent.id == s.call.id;
    hide Identified, Names, CallNamed;
    var ms := s.mirror.messages;
    CallbackEffect(WithLane(s, kind, Without(Lane(s, kind), j)), OnRemoved(kind, 1, |Lane(s, kind)| - 1), stamp);
    assert Sents(Lane(s, kind))[j] == Lane(s, kind)[j].sent;
    i := PendingIndex(ms, kind, j);
    RemovedMirror(s.mirror, i, stamp.now);
  }

  lemma TakeExact(s: System, s': System, kind: Kind, count: nat, status: Status, now: Timestamp)
    requires Mirrors(s, Steer) && count <= |Lane(s, kind)| && status != Pending
    requires s'.mirror.messages == MarkFirst(s.mirror.messages, kind, [], count, status, now)
    requires s'.steer == if kind == Steer then s.steer[count..] else s.steer
    requires s'.call == s.call
    ensures Mirrors(s', Steer)
  {
    hide MarkFirst, PendingOf;
    MarkFirstTakes(s.mirror.messages, kind, count, status, now);
    if kind == Steer {
      assert Sents(s.steer[count..]) == Sents(s.steer)[count..];
    }
  }

  lemma ClearExact(s: System, kind: Kind, stamp: Stamp)
    requires Exact(s)
    ensures var s' := ClearLane(s, kind, stamp);
            Mirrors(s', Steer) && s'.recorded == s.recorded && s'.delivered == s.delivered && s'.call == s.call
  {
    hide MarkFirst, PendingOf, Identified, Counted;
    var lane := Lane(s, kind);
    NamesInside(s);
    CallbackEffect(WithLane(s, kind, []), OnCleared(kind, |lane|), stamp);
    assert lane[|lane|..] == [];
    TakeExact(s, ClearLane(s, kind, stamp), kind, |lane|, Cleared, stamp.now);
  }

  lemma ConsumeExact(s: System, kind: Kind, count: nat, stamp: Stamp)
    requires Exact(s) && count <= |Lane(s, kind)|
    ensures var s' := ConsumeFromLane(s, kind, count, stamp);
            && Mirrors(s', Steer) && s'.recorded == s'.delivered && s'.call == s.call
            && (s.call.CancelHit? ==>
                  forall i :: 0 <= i < |s'.mirror.messages| && s'.mirror.messages[i].id == s.call.id ==>
                      s'.mirror.messages[i].status == Cancelled)
  {
    hide MarkFirst, MarkedBy, PendingOf, Identified;
    var s' := ConsumeFromLane(s, kind, count, stamp);
    var lane := Lane(s, kind);
    var s1 := WithLane(s, kind, lane[count..]).(delivered := s.delivered + Deliveries(kind, Sents(lane[..count])));
    NamesInside(s);
    CallbackEffect(s1, OnConsumed(kind, count, |lane| - count), stamp);
    TakeExact(s, s', kind, count, Consumed, stamp.now);
    MarkFirstTakes(s.mirror.messages, kind, count, Consumed, stamp.now);
    assert Mirrors(s, kind);
    assert Sents(lane[..count]) == Sents(lane)[..count];
    var ms, ms' := s.mirror.messages, s'.mirror.messages;
    forall i | 0 <= i < |ms'| && s.call.CancelHit? && ms'[i].id == s.call.id ensures ms'[i].status == Cancelled {
      assert Keeps(ms[i], ms'[i], Consumed);
    }
  }

  lemma EnqueueExact(s: System, step: Step)
    requires Exact(s) && Enabled(s, step) && Spares(s, step)
    requires step.StartEnqueue? || step.AgentEnqueue? || step.FinishEnqueue?
    ensures var s' := Next(s, step);
            Mirrors(s', Steer) && s'.recorded == s'.delivered
              && (s'.call.Idle? || s'.call.Enqueuing? || s'.call.Attaching?)
  {
    hide PendingOf, Inv, Exact, Mirrors, EnqueueStart, EnqueueInAgent, Spares, Find;
    match step {
      case StartEnqueue(kind, raw, metadata, id, now) => EnqueueStartExact(s, kind, raw, metadata, id, now);
      case AgentEnqueue(stamp) => EnqueueInAgentExact(s, stamp);
      case FinishEnqueue => AttachExact(s);
    }
  }

  lemma EnqueueStartExact(s: System, kind: Kind, raw: string, metadata: Option<string>, id: Id, now: Timestamp)
    requires Exact(s) && s.call.Idle? && Spares(s, StartEnqueue(kind, raw, metadata, id, now))
    ensures var s' := EnqueueStart(s, kind, raw, metadata, id, now);
            Mirrors(s', Steer) && s'.recorded == s'.delivered && (s'.call.Idle? || s'.call.Enqueuing?)
  {
    hide PendingOf, Identified, Strings.Trim, Append, SteerKinds, Target, Logs;
    NamesInside(s);
    var s' := EnqueueStart(s, kind, raw, metadata, id, now);
    if s' != s {
      var m := NewMessage(id, kind, s'.call.text, metadata, now);
      AppendKeepsPending(s.mirror, m);
      assert Own(m, Steer) == InFlight(s'.call, Steer);
    }
  }

  lemma EnqueueInAgentExact(s: System, stamp: Stamp)
    requires Exact(s) && s.call.Enqueuing?
    ensures var s' := EnqueueInAgent(s, stamp); Mirrors(s', Steer) && s'.recorded == s'.delivered && s'.call.Attaching?
  {
    hide PendingOf, Identified, SteerKinds, Target, Logs;
    NamesInside(s);
    var lane := Lane(s, s.call.kind) + [Entry(s.nextHandle, Sent(s.call.id, s.call.text))];
    var s1 := WithLane(s, s.call.kind, lane).(nextHandle := s.nextHandle + 1,
                                              call := Attaching(s.call.id, s.nextHandle));
    CallbackEffect(s1, OnEnqueued(s.call.kind, 1, |lane|), stamp);
    assert Sents(lane) == Sents(Lane(s, s.call.kind)) + [Sent(s.call.id, s.call.text)];
  }

  lemma AttachExact(s: System)
    requires Exact(s) && s.call.Attaching?
    ensures var s' := Next(s, FinishEnqueue); Mirrors(s', Steer) && s'.recorded == s'.delivered && s'.call.Idle?
  {
    hide PendingOf, Inv;
    var ms := s.mirror.messages;
    var i := Find(ms, Query(s.call.id, ANY_KIND, false));
    if i < |ms| {
      PendingSameBoth(ms, i, ms[i].(handle := Some(s.call.handle)));
    }
  }

  lemma CancelExact(s: System, step: Step)
    requires Exact(s) && Enabled(s, step)
    requires step.StartCancel? || step.AgentCancel? || step.FinishCancel?
    ensures var s' := Next(s, step);
            && Mirrors(s', Steer) && s'.recorded == s'.delivered
            && (s'.call.Idle? || s'.call.Cancelling? || s'.call.CancelMissed? || s'.call.CancelHit?)
            && (s'.call.CancelHit? ==>
                  forall i :: 0 <= i < |s'.mirror.messages| && s'.mirror.messages[i].id == s'.call.id ==>
                      s'.mirror.messages[i].status == Cancelled)
  {
    hide PendingOf, Identified;
    var ms := s.mirror.messages;
    match step {
      case StartCancel(id) =>
      case AgentCancel(stamp) =>
        hide Callback;
        var i, j := Locate(s.steer, s.call.handle), Locate(s.followUp, s.call.handle);
        if i < |s.steer| {
          RemoveExact(s, Steer, i, stamp);
        } else if j < |s.followUp| {
          assert Mirrors(s, FollowUp);
          RemoveExact(s, FollowUp, j, stamp);
        }
      case FinishCancel(now) =>
        var i := Find(ms, Query(s.call.id, ANY_KIND, false));
        if s.call.CancelHit? && i < |ms| {
          PendingSame(ms, i, ms[i].(status := Cancelled, updatedAt := now), Steer);
        }
    }
  }

  // ---------------------------------------------------------------- promotions

  /** How many pending steering messages stand before the message in the list. */
  function Ahead(s: System, id: Id): nat {
    |PendingOf(s.mirror.messages[..Find(s.mirror.messages, Query(id, ANY_KIND, false))], Steer)|
  }

  /** The step is an accepted promotion of a follow-up the agent still holds. */
  predicate Promotes(s: System, step: Step) {
    step.AgentPromote? && step.accepted && s.call.Promoting? && Locate(s.followUp, s.call.handle) < |s.followUp|
  }

  /** If the step is one, the agent puts the entry where the list shows the message. */
  predicate Lands(s: System, step: Step) {
    Promotes(s, step) ==> step.at == Ahead(s, s.call.id)
  }

  lemma InsertedAlikeIff(a: seq<Sent>, b: seq<Sent>, x: Sent, at: nat)
    requires at <= |a + b| && x !in a + b
    ensures (a + b)[..at] + [x] + (a + b)[at..] == a + [x] + b <==> at == |a|
  {
    var l, r := (a + b)[..at] + [x] + (a + b)[at..], a + [x] + b;
    assert l[at] == x;
    if at < |a| {
      assert r[at] == (a + b)[at];
    } else if at > |a| {
      assert r[at] == (a + b)[at - 1];
    }
  }

  /** The follow-up a running promotion is about, as the mirror shows it. */
  lemma PromotedInList(s: System) returns (i: nat)
    requires Inv(s) && s.call.Promoting? && Locate(s.followUp, s.call.handle) < |s.followUp|
    ensures var ms := s.mirror.messages;
      && i == Find(ms, Query(s.call.id, ANY_KIND, false)) < |ms|
      && ms[i].id == s.call.id && ms[i].kind == FollowUp && ms[i].status == Pending
    ensures SentOf(s.mirror.messages[i]) == s.followUp[Locate(s.followUp, s.call.handle)].sent
  {
    var ms, j := s.mirror.messages, Locate(s.followUp, s.call.handle);
    NamesInside(s);
    assert s.followUp[j].sent.id == s.call.id;
    assert Sents(s.followUp)[j] == s.followUp[j].sent;
    i := PendingIndex(ms, FollowUp, j);
    hide Find;
    FindUnique(ms, i, Query(s.call.id, ANY_KIND, false));
  }

  /** What an accepted promotion does to the mirror: the message itself changes kind, and no other. */
  lemma PromotedMirror(s: System, at: nat, stamp: Stamp) returns (i: nat)
    requires Inv(s) && s.call.Promoting? && at <= |s.steer| && Locate(s.followUp, s.call.handle) < |s.followUp|
    ensures var ms, s' := s.mirror.messages, PromoteInAgent(s, true, at, stamp);
      && i == Find(ms, Query(s.call.id, ANY_KIND, false)) < |ms|
      && ms[i].id == s.call.id && ms[i].kind == FollowUp && ms[i].status == Pending
      && s'.mirror.messages == ms[i := ms[i].(kind := Steer, updatedAt := stamp.now)]
      && s'.recorded == s.recorded && s'.delivered == s.delivered && s'.call.PromoteHit?
      && Sents(s'.steer) == Sents(s.steer)[..at] + [SentOf(ms[i])] + Sents(s.steer)[at..]
  {
    i := PromotedInList(s);
    var j := Locate(s.followUp, s.call.handle);
    var entry := Entry(s.nextHandle, s.followUp[j].sent);
    var s1 := s.(followUp := Without(s.followUp, j), steer := s.steer[..at] + [entry] + s.steer[at..],
                 nextHandle := s.nextHandle + 1, call := PromoteHit(s.call.id, s.nextHandle));
    NamesInside(s);
    hide Transfer, Find, PendingOf, Locate, Identified, CallNamed;
    CallbackEffect(s1, OnTransferred(FollowUp, Steer, 1, |s.followUp| - 1, |s.steer| + 1), stamp);
    TransferredMirror(s.mirror, i, stamp.now);
    assert Sents(s1.steer) == Sents(s.steer)[..at] + [entry.sent] + Sents(s.steer)[at..];
  }

  /** No steering entry is the promoted follow-up. */
  lemma PromotedNotSteering(s: System)
    requires Inv(s) && s.call.Promoting? && Locate(s.followUp, s.call.handle) < |s.followUp|
    ensures s.followUp[Locate(s.followUp, s.call.handle)].sent !in Sents(s.steer)
  {
    assert Apart(s.steer, s.followUp);
    hide Identified, Counted;
  }

  /**
   The exact condition: an accepted promotion keeps the agreement if and only if the agent puts the
   entry behind as many steering entries as there are pending steering messages before it in the list.
   */
  lemma PromotionMirrorsIff(s: System, at: nat, stamp: Stamp)
    requires Inv(s) && s.call.Promoting? && Mirrors(s, Steer) && at <= |s.steer|
            && Locate(s.followUp, s.call.handle) < |s.followUp|
    ensures Mirrors(PromoteInAgent(s, true, at, stamp), Steer) <==> at == Ahead(s, s.call.id)
  {
    hide Find, PendingOf, Inv, PromoteInAgent, Locate;
    var ms := s.mirror.messages;
    var i := PromotedMirror(s, at, stamp);
    var k := PromotedInList(s);
    PromotedNotSteering(s);
    PromotedList(ms, i, ms[i].(kind := Steer, updatedAt := stamp.now));
    InsertedAlikeIff(PendingOf(ms[..i], Steer), PendingOf(ms[i + 1..], Steer), SentOf(ms[i]), at);
  }

  lemma PromotedList(ms: seq<Message>, i: nat, m: Message)
    requires i < |ms| && ms[i].kind == FollowUp && m.kind == Steer && m.status == Pending && SentOf(m) == SentOf(ms[i])
    ensures PendingOf(ms, Steer) == PendingOf(ms[..i], Steer) + PendingOf(ms[i + 1..], Steer)
    ensures PendingOf(ms[i := m], Steer) == PendingOf(ms[..i], Steer) + [SentOf(ms[i])] + PendingOf(ms[i + 1..], Steer)
  {
    hide PendingOf;
    var a, b := PendingOf(ms[..i], Steer), PendingOf(ms[i + 1..], Steer);
    PendingSplice(ms, i, m, Steer);
    PendingSplice(ms, i, ms[i], Steer);
    assert ms[i := ms[i]] == ms && a + [] + b == a + b;
  }

  /** The pending messages of a kind are exactly the list's own. */
  lemma {:induction false} NonePendingIff(ms: seq<Message>, kind: Kind)
    ensures PendingOf(ms, kind) == [] <==> forall k :: 0 <= k < |ms| ==>
            !(ms[k].kind == kind && ms[k].status == Pending)
  {
    if ms != [] {
      NonePendingIff(ms[1..], kind);
      assert forall k :: 1 <= k < |ms| ==> ms[k] == ms[1..][k - 1];
    }
  }

  predicate NoSteeringBehind(ms: seq<Message>, i: nat) {
    forall k :: i < k < |ms| ==> !(ms[k].kind == Steer && ms[k].status == Pending)
  }

  /**
   For an agent that puts a promoted entry last: the agreement stays if and only if no pending steering message
   stands behind it in the list.
   */
  lemma LastPlaceMirrorsIff(s: System, stamp: Stamp)
    requires Inv(s) && s.call.Promoting? && Mirrors(s, Steer) && Locate(s.followUp, s.call.handle) < |s.followUp|
    ensures var ms := s.mirror.messages;
      var i := Find(ms, Query(s.call.id, ANY_KIND, false));
      Mirrors(PromoteInAgent(s, true, |s.steer|, stamp), Steer) <==> NoSteeringBehind(ms, i)
  {
    var ms := s.mirror.messages;
    var i := PromotedInList(s);
    PromotionMirrorsIff(s, |s.steer|, stamp);
    hide Find, PendingOf, Inv, PromoteInAgent, Locate, NoSteeringBehind;
    PromotedList(ms, i, ms[i].(kind := Steer));
    NoneBehindIff(ms, i);
    assert |PendingOf(ms[..i], Steer)| + |PendingOf(ms[i + 1..], Steer)| == |s.steer|;
  }

  lemma NoneBehindIff(ms: seq<Message>, i: nat)
    requires i < |ms|
    ensures PendingOf(ms[i + 1..], Steer) == [] <==> NoSteeringBehind(ms, i)
  {
    hide PendingOf;
    var behind := ms[i + 1..];
    NonePendingIff(behind, Steer);
    assert forall k :: i < k < |ms| ==> ms[k] == behind[k - i - 1];
    assert forall k :: 0 <= k < |behind| ==> behind[k] == ms[k + i + 1];
  }

  lemma PromoteExact(s: System, step: Step)
    requires Exact(s) && Enabled(s, step)
    requires step.StartPromote? || step.AgentPromote? || step.FinishPromote?
    ensures var s' := Next(s, step);
      && (Mirrors(s', Steer) <==> Lands(s, step)) && s'.recorded == s'.delivered && !s'.call.CancelHit?
  {
    hide PendingOf, Inv;
    match step {
      case StartPromote(id) =>
      case AgentPromote(accepted, at, stamp) =>
        if Promotes(s, step) {
          PromotionMirrorsIff(s, at, stamp);
          var i := PromotedMirror(s, at, stamp);
        }
        hide PromoteInAgent, Find;
      case FinishPromote(now) =>
        var ms := s.mirror.messages;
        var i := Find(ms, Query(s.call.id, ANY_KIND, true));
        if s.call.PromoteHit? && i < |ms| {
          FoundIsSteering(s, i);
          PendingSame(ms, i, ms[i].(kind := Steer, handle := Some(s.call.handle), updatedAt := now), Steer);
        }
    }
  }

  /** By the last region of a promotion its message is a steering message already. */
  lemma FoundIsSteering(s: System, i: nat)
    requires Inv(s) && s.call.PromoteHit? && i < |s.mirror.messages| && s.mirror.messages[i].id == s.call.id
    ensures s.mirror.messages[i].kind == Steer
  {
  }

  /** The exact condition, for every step: it keeps the exact agreement if and only if it lands. */
  lemma StepExactIff(s: System, step: Step)
    requires Exact(s) && Enabled(s, step) && Spares(s, step)
    ensures Exact(Next(s, step)) <==> Lands(s, step)
  {
    hide Inv, Mirrors, EnqueueStart, EnqueueInAgent, CancelStart, CancelInAgent, CancelEnd, ClearLane, ConsumeFromLane,
         PromoteStart, PromoteInAgent, PromoteEnd, Ahead;
    StepKeeps(s, step);
    match step {
      case StartEnqueue(_, _, _, _, _) => EnqueueExact(s, step);
      case AgentEnqueue(_) => EnqueueExact(s, step);
      case FinishEnqueue => EnqueueExact(s, step);
      case StartCancel(_) => CancelExact(s, step);
      case AgentCancel(_) => CancelExact(s, step);
      case FinishCancel(_) => CancelExact(s, step);
      case StartPromote(_) => PromoteExact(s, step);
      case AgentPromote(_, _, _) => PromoteExact(s, step);
      case FinishPromote(_) => PromoteExact(s, step);
      case Clear(kind, stamp) => ClearExact(s, kind, stamp);
      case ClearAll(stamp) => ClearExact(s, Steer, stamp); MirrorsOtherCall(ClearLane(s, Steer, stamp), ClearingRest);
      case ClearRest(stamp) => ClearExact(s, FollowUp, stamp); MirrorsOtherCall(ClearLane(s, FollowUp, stamp), Idle);
      case Consume(kind, count, stamp) => ConsumeExact(s, kind, count, stamp);
    }
  }

  lemma MirrorsOtherCall(s: System, call: Call)
    requires Mirrors(s, Steer) && !s.call.Enqueuing? && !call.Enqueuing?
    ensures Mirrors(s.(call := call), Steer)
  {
  }

  /** Every accepted promotion of the run lands. */
  ghost predicate AllLand(s: System, steps: seq<Step>)
    requires Legal(s, steps)
    decreases |steps|
  {
    steps != [] ==> Lands(s, steps[0]) && AllLand(Next(s, steps[0]), steps[1..])
  }

  /** The agreement holds before and after every step of the run. */
  ghost predicate ExactThroughout(s: System, steps: seq<Step>)
    requires Legal(s, steps)
    decreases |steps|
  {
    Exact(s) && (steps != [] ==> ExactThroughout(Next(s, steps[0]), steps[1..]))
  }

  /**
   The exact condition, for every run: the agreement holds throughout if and only if every accepted promotion
   lands.
   */
  lemma {:induction false} ExactThroughoutIff(s: System, steps: seq<Step>)
    requires Exact(s) && Legal(s, steps)
    ensures ExactThroughout(s, steps) <==> AllLand(s, steps)
    decreases |steps|
  {
    hide Exact, Lands, Next;
    if steps != [] {
      StepExactIff(s, steps[0]);
      if Lands(s, steps[0]) {
        ExactThroughoutIff(Next(s, steps[0]), steps[1..]);
      }
    }
  }

  lemma {:induction false} EndsExact(s: System, steps: seq<Step>)
    requires Legal(s, steps) && ExactThroughout(s, steps)
    ensures Exact(Execute(s, steps))
    decreases |steps|
  {
    hide Exact, Next;
    if steps != [] {
      EndsExact(Next(s, steps[0]), steps[1..]);
    }
  }

  lemma RunExact(steps: seq<Step>)
    requires Legal(Start, steps) && AllLand(Start, steps)
    ensures Exact(Execute(Start, steps))
  {
    hide Legal, AllLand, ExactThroughout, Execute;
    StartExact();
    ExactThroughoutIff(Start, steps);
    EndsExact(Start, steps);
  }

  lemma StartExact()
    ensures Exact(Start)
  {
    StartInv();
  }

  /** In particular, a run that promotes nothing. */
  lemma {:induction false} NoPromotionsLand(s: System, steps: seq<Step>)
    requires Legal(s, steps) && !s.call.Promoting? && forall i :: 0 <= i < |steps| ==> !steps[i].StartPromote?
    ensures AllLand(s, steps)
    decreases |steps|
  {
    hide Callback, PendingHandle;
    if steps != [] {
      assert !steps[0].StartPromote? && !Next(s, steps[0]).call.Promoting? by { NoneBegun(s, steps[0]); }
      hide Next, Ahead;
      NoPromotionsLand(Next(s, steps[0]), steps[1..]);
    }
  }

  lemma NoneBegun(s: System, step: Step)
    requires Enabled(s, step) && !s.call.Promoting? && !step.StartPromote?
    ensures !Next(s, step).call.Promoting?
  {
  }

  /**
   The refinement: after every run whose accepted promotions land, the pending messages of each kind,
   in list order, are that queue's contents followed by the message still on its way in, and the
   recorded user messages are exactly what the agent consumed, in order and once each.
   */
  lemma MirrorRefinesQueues(steps: seq<Step>)
    requires Legal(Start, steps) && AllLand(Start, steps)
    ensures var s := Execute(Start, steps);
            && (forall kind :: PendingOf(s.mirror.messages, kind) == Sents(Lane(s, kind)) + InFlight(s.call, kind))
            && s.recorded == s.delivered
  {
    hide Legal, AllLand, Execute, PendingOf, Identified;
    RunExact(steps);
    var s := Execute(Start, steps);
    forall kind ensures PendingOf(s.mirror.messages, kind) == Sents(Lane(s, kind)) + InFlight(s.call, kind) {
      assert kind == Steer || kind == FollowUp;
      assert Mirrors(s, Steer);
    }
  }

  /** After such a run no step changes a final status. */
  lemma FinalStaysFinal(steps: seq<Step>, step: Step)
    requires Legal(Start, steps) && AllLand(Start, steps)
    requires Enabled(Execute(Start, steps), step)
    ensures Settled(Execute(Start, steps).mirror.messages, Next(Execute(Start, steps), step).mirror.messages)
  {
    hide Next, Settled, Execute, Enabled, Inv, Mirrors, Legal, AllLand;
    RunExact(steps);
    FinalUnlessOverwritten(Execute(Start, steps), step);
  }

  // ---------------------------------------------------------------- what a call needs

  /**
   A cancel begins for a pending message with a handle, a promotion for such a message that is a follow-up;
   otherwise nothing happens.
   */
  lemma BegunIff(s: System, id: Id, i: nat)
    requires s.call.Idle? && First(s.mirror.messages, id, i)
    ensures var m, c, p := s.mirror.messages[i], CancelStart(s, id), PromoteStart(s, id);
      && (if m.status == Pending && m.handle.Some? then
            c == s.(mirror := s.mirror.(removed := s.mirror.removed + [id]), call := Cancelling(id, m.handle.value))
          else c == s)
      && (if m.status == Pending && m.kind == FollowUp && m.handle.Some? then
            p == s.(mirror := s.mirror.(promoted := s.mirror.promoted + [id]), call := Promoting(id, m.handle.value))
          else p == s)
  {
    CancelRefusedIff(s.mirror.messages, id, i);
    PromoteRefusedIff(s.mirror.messages, id, i);
    hide PendingHandle, First;
  }

  // ---------------------------------------------------------------- what a cancel sees

  lemma {:induction false} PendingHolds(ms: seq<Message>, i: nat)
    requires i < |ms| && ms[i].status == Pending
    ensures SentOf(ms[i]) in PendingOf(ms, ms[i].kind)
  {
    if i > 0 {
      PendingHolds(ms[1..], i - 1);
    }
  }

  predicate IsPending(m: Message, id: Id) {
    m.id == id && m.status == Pending
  }

  /** While the agreement holds, a cancel reaches its message exactly when the mirror still shows it pending. */
  lemma CancelHitsIffShownPending(s: System, stamp: Stamp)
    requires Exact(s) && s.call.Cancelling?
    ensures CancelInAgent(s, stamp).call.CancelHit?
       <==> exists i :: 0 <= i < |s.mirror.messages| && IsPending(s.mirror.messages[i], s.call.id)
  {
    hide CancelInAgent, PendingOf;
    var ms := s.mirror.messages;
    CancelHitsIffQueued(s, stamp);
    assert Mirrors(s, FollowUp) && Mirrors(s, Steer);
    hide Identified, Counted;
    if kind, k :| 0 <= k < |Lane(s, kind)| && Lane(s, kind)[k].sent.id == s.call.id {
      var i := QueuedIsPending(s, kind, k);
    }
    if i :| 0 <= i < |ms| && IsPending(ms[i], s.call.id) {
      var k := PendingIsQueued(s, i);
    }
  }

  lemma QueuedIsPending(s: System, kind: Kind, k: nat) returns (i: nat)
    requires Mirrors(s, FollowUp) && Mirrors(s, Steer) && !s.call.Enqueuing? && k < |Lane(s, kind)|
    ensures i < |s.mirror.messages| && s.mirror.messages[i].id == Lane(s, kind)[k].sent.id
            && s.mirror.messages[i].status == Pending
  {
    hide PendingOf;
    assert kind == Steer || kind == FollowUp;
    assert Sents(Lane(s, kind))[k] == Lane(s, kind)[k].sent;
    i := PendingIndex(s.mirror.messages, kind, k);
  }

  lemma PendingIsQueued(s: System, i: nat) returns (k: nat)
    requires Mirrors(s, FollowUp) && Mirrors(s, Steer) && !s.call.Enqueuing?
    requires i < |s.mirror.messages| && s.mirror.messages[i].status == Pending
    ensures var m := s.mirror.messages[i]; k < |Lane(s, m.kind)| && Lane(s, m.kind)[k].sent.id == m.id
  {
    var m := s.mirror.messages[i];
    PendingHolds(s.mirror.messages, i);
    hide PendingOf;
    assert m.kind == Steer || m.kind == FollowUp;
    var sents := Sents(Lane(s, m.kind));
    k :| 0 <= k < |sents| && sents[k] == SentOf(m);
  }
}
